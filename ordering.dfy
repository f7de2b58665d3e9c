/**
 * The order the display methods put entries in: ascending by day ordinal,
 * then by period, keeping the original order among equal keys (a stable sort,
 * as the host language's list sort is).
 */
module Ordering {
  import opened Records
  import opened Queries

  /** The sort key (day ordinal, period) of `a` is at most that of `b`. */
  predicate KeyLe(a: Entry, b: Entry) {
    a.day.Ordinal() < b.day.Ordinal() ||
    (a.day.Ordinal() == b.day.Ordinal() && a.slot.period <= b.slot.period)
  }

  function SameKeyAs(k: Entry): Entry -> bool {
    (e: Entry) => SameSlot(e, k)
  }

  ghost predicate Ordered(s: seq<Entry>) {
    forall i, j :: 0 <= i < j < |s| ==> KeyLe(s[i], s[j])
  }

  /** Places `x` before the first element whose key is not below its own. */
  function Insert(x: Entry, s: seq<Entry>): (r: seq<Entry>)
    ensures |r| == |s| + 1
    ensures multiset(r) == multiset(s) + multiset{x}
  {
    if s == [] || KeyLe(x, s[0]) then [x] + s
    else
      assert s == [s[0]] + s[1..];
      [s[0]] + Insert(x, s[1..])
  }

  /** Inserting into an ordered list keeps it ordered. */
  lemma {:induction false} InsertOrdered(x: Entry, s: seq<Entry>)
    requires Ordered(s)
    ensures Ordered(Insert(x, s))
  {
    var r := Insert(x, s);
    if s == [] || KeyLe(x, s[0]) {
      forall i, j | 0 <= i < j < |r| ensures KeyLe(r[i], r[j]) {
        if i > 0 {
          assert r[i] == s[i - 1] && r[j] == s[j - 1];
        } else if j > 1 {
          assert r[j] == s[j - 1] && KeyLe(s[0], s[j - 1]);
        }
      }
    } else {
      var t := Insert(x, s[1..]);
      assert Ordered(s[1..]) by {
        forall i, j | 0 <= i < j < |s[1..]| ensures KeyLe(s[1..][i], s[1..][j]) {
          assert s[1..][i] == s[i + 1] && s[1..][j] == s[j + 1];
        }
      }
      InsertOrdered(x, s[1..]);
      assert r == [s[0]] + t;
      forall i, j | 0 <= i < j < |r| ensures KeyLe(r[i], r[j]) {
        if i > 0 {
          assert r[i] == t[i - 1] && r[j] == t[j - 1];
        } else {
          assert r[j] == t[j - 1];
          assert r[j] in multiset(t);
          assert r[j] == x || r[j] in multiset(s[1..]);
          if r[j] != x {
            var m :| 0 <= m < |s[1..]| && s[1..][m] == r[j];
            assert KeyLe(s[0], s[m + 1]);
          }
        }
      }
    }
  }

  /** The entries sorted by (day ordinal, period). */
  function SortByDayPeriod(s: seq<Entry>): (r: seq<Entry>)
    ensures Ordered(r)
    ensures multiset(r) == multiset(s)
  {
    if s == [] then []
    else
      assert s == [s[0]] + s[1..];
      var t := SortByDayPeriod(s[1..]);
      InsertOrdered(s[0], t);
      Insert(s[0], t)
  }

  lemma {:induction false} InsertStable(x: Entry, s: seq<Entry>, k: Entry)
    ensures Filter(Insert(x, s), SameKeyAs(k)) ==
      (if SameSlot(x, k) then [x] else []) + Filter(s, SameKeyAs(k))
  {
    var p := SameKeyAs(k);
    if s == [] || KeyLe(x, s[0]) {
      var r := [x] + s;
      assert r[0] == x && r[1..] == s;
    } else {
      var r := Insert(x, s);
      InsertStable(x, s[1..], k);
      assert r == [s[0]] + Insert(x, s[1..]);
      assert r[0] == s[0] && r[1..] == Insert(x, s[1..]);
      assert Filter(r, p) == (if p(s[0]) then [s[0]] else []) + Filter(Insert(x, s[1..]), p);
      assert Filter(s, p) == (if p(s[0]) then [s[0]] else []) + Filter(s[1..], p);
      assert SameSlot(x, k) ==> !SameSlot(s[0], k);
    }
  }

  /**
   * The sort is stable: the entries sharing any one key come out in the
   * order they went in.
   */
  lemma {:induction false} SortStable(s: seq<Entry>, k: Entry)
    ensures Filter(SortByDayPeriod(s), SameKeyAs(k)) == Filter(s, SameKeyAs(k))
  {
    if s != [] {
      SortStable(s[1..], k);
      InsertStable(s[0], SortByDayPeriod(s[1..]), k);
    }
  }
}
