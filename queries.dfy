/**
 * The filtering projections over the entry list: an order-keeping filter and
 * the selectors used by the per-class, per-teacher and per-day queries.
 */
module Queries {
  import opened Records

  /** The elements of `s` that satisfy `p`, in their order in `s`. */
  function Filter<T(!new)>(s: seq<T>, p: T -> bool): (r: seq<T>)
    ensures |r| <= |s|
  {
    if s == [] then [] else (if p(s[0]) then [s[0]] else []) + Filter(s[1..], p)
  }

  /**
   * Every element of the filter satisfies `p`, and every element of `s` that
   * satisfies `p` is kept, as often as it occurs in `s`.
   */
  lemma {:induction false} FilterMembers<T(!new)>(s: seq<T>, p: T -> bool)
    ensures forall x :: x in Filter(s, p) <==> x in s && p(x)
    ensures forall x :: multiset(Filter(s, p))[x] == if p(x) then multiset(s)[x] else 0
  {
    if s != [] {
      assert s == [s[0]] + s[1..];
      FilterMembers(s[1..], p);
    }
  }

  /** Filtering distributes over concatenation, so the filter keeps relative order. */
  lemma {:induction false} FilterConcat<T(!new)>(a: seq<T>, b: seq<T>, p: T -> bool)
    ensures Filter(a + b, p) == Filter(a, p) + Filter(b, p)
  {
    if a == [] {
      assert a + b == b;
    } else {
      var head := if p(a[0]) then [a[0]] else [];
      assert (a + b)[0] == a[0] && (a + b)[1..] == a[1..] + b;
      FilterConcat(a[1..], b, p);
      calc {
        Filter(a + b, p);
        head + Filter(a[1..] + b, p);
        head + (Filter(a[1..], p) + Filter(b, p));
        (head + Filter(a[1..], p)) + Filter(b, p);
      }
    }
  }

  function ClassIs(classId: string): Entry -> bool {
    (e: Entry) => e.classId == classId
  }

  function TeacherIs(teacherId: string): Entry -> bool {
    (e: Entry) => e.teacherId == teacherId
  }

  function DayIs(day: DayOfWeek): Entry -> bool {
    (e: Entry) => e.day == day
  }
}
