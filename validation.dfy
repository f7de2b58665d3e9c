/**
 * The full-scan validator: every pair of entries i < j, in lexicographic
 * order, contributes a teacher error and then a class error when they share
 * day and period and, respectively, the teacher or the class.
 */
module Validation {
  import opened Records
  import opened Conflicts

  /** One validation message, naming the colliding id, the day and the period. */
  datatype ValidationError =
    | TeacherConflict(teacherId: string, day: DayOfWeek, period: int)
    | ClassConflict(classId: string, day: DayOfWeek, period: int)

  /** The messages for the pair (a, b), where `a` is the earlier entry. */
  function PairErrors(a: Entry, b: Entry): (r: seq<ValidationError>)
    ensures r == [] <==> !Clash(a, b)
    ensures |r| <= 2
  {
    if a.day == b.day && a.slot.period == b.slot.period then
      (if a.teacherId == b.teacherId then [TeacherConflict(a.teacherId, a.day, a.slot.period)] else []) +
      (if a.classId == b.classId then [ClassConflict(a.classId, a.day, a.slot.period)] else [])
    else []
  }

  /**
   * A pair yields a teacher message exactly when it shares day, period and
   * teacher, and a class message exactly when it shares day, period and class;
   * a pair sharing both yields the teacher message first.
   */
  lemma PairErrorsMembers(a: Entry, b: Entry)
    ensures forall t, d, p :: TeacherConflict(t, d, p) in PairErrors(a, b) <==>
      a.day == b.day == d && a.slot.period == b.slot.period == p && a.teacherId == b.teacherId == t
    ensures forall c, d, p :: ClassConflict(c, d, p) in PairErrors(a, b) <==>
      a.day == b.day == d && a.slot.period == b.slot.period == p && a.classId == b.classId == c
    ensures |PairErrors(a, b)| == 2 ==>
      PairErrors(a, b)[0].TeacherConflict? && PairErrors(a, b)[1].ClassConflict?
  {
  }

  /**
   * The messages that `pair` gives for the pairs (i, k) with i < k < j, in
   * order of k. The scan is stated for any per-pair message function, so that
   * its proofs do not depend on what `PairErrors` says about one pair.
   */
  function RowErrors<V>(s: seq<Entry>, pair: (Entry, Entry) -> seq<V>, i: nat, j: nat): seq<V>
    requires i < |s| && j <= |s|
    decreases j
  {
    if j <= i + 1 then [] else RowErrors(s, pair, i, j - 1) + pair(s[i], s[j - 1])
  }

  /** The messages of all pairs whose first index is below n, in lexicographic order. */
  function Rows<V>(s: seq<Entry>, pair: (Entry, Entry) -> seq<V>, n: nat): seq<V>
    requires n <= |s|
  {
    if n == 0 then [] else Rows(s, pair, n - 1) + RowErrors(s, pair, n - 1, |s|)
  }

  /** The validator's inner step: the pair (i, j) extends the messages so far. */
  lemma RowStep<V>(s: seq<Entry>, pair: (Entry, Entry) -> seq<V>, i: nat, j: nat, errors: seq<V>)
    requires i < j < |s|
    requires errors == Rows(s, pair, i) + RowErrors(s, pair, i, j)
    ensures errors + pair(s[i], s[j]) == Rows(s, pair, i) + RowErrors(s, pair, i, j + 1)
  {
    assert RowErrors(s, pair, i, j + 1) == RowErrors(s, pair, i, j) + pair(s[i], s[j]);
  }

  /** What `validate` returns for the entry list `s`. */
  function ValidationErrors(s: seq<Entry>): seq<ValidationError> {
    Rows(s, PairErrors, |s|)
  }

  /** The pair (i, k) of `s` produces the message `v`. */
  ghost predicate Reports<V>(s: seq<Entry>, pair: (Entry, Entry) -> seq<V>, i: int, k: int, v: V) {
    0 <= i < k < |s| && v in pair(s[i], s[k])
  }

  lemma {:induction false} RowErrorsMembers<V>(s: seq<Entry>, pair: (Entry, Entry) -> seq<V>, i: nat, j: nat, v: V)
    requires i < |s| && j <= |s|
    ensures v in RowErrors(s, pair, i, j) <==> exists k :: k < j && Reports(s, pair, i, k, v)
    decreases j
  {
    if j > i + 1 {
      var before, last := RowErrors(s, pair, i, j - 1), pair(s[i], s[j - 1]);
      assert RowErrors(s, pair, i, j) == before + last;
      RowErrorsMembers(s, pair, i, j - 1, v);
      if v in before + last {
        if v in last {
          assert Reports(s, pair, i, j - 1, v);
        } else {
          var k :| k < j - 1 && Reports(s, pair, i, k, v);
          assert k < j;
        }
      }
      if exists k :: k < j && Reports(s, pair, i, k, v) {
        var k :| k < j && Reports(s, pair, i, k, v);
        if k < j - 1 {
          assert v in before;
        } else {
          assert v in last;
        }
      }
    }
  }

  /** Some pair whose first index is i produces the message `v`. */
  ghost predicate RowReports<V>(s: seq<Entry>, pair: (Entry, Entry) -> seq<V>, i: int, v: V) {
    exists k :: Reports(s, pair, i, k, v)
  }

  lemma {:induction false} RowsMembers<V>(s: seq<Entry>, pair: (Entry, Entry) -> seq<V>, n: nat, v: V)
    requires n <= |s|
    ensures v in Rows(s, pair, n) <==> exists i :: i < n && RowReports(s, pair, i, v)
  {
    if n > 0 {
      var before, row := Rows(s, pair, n - 1), RowErrors(s, pair, n - 1, |s|);
      assert Rows(s, pair, n) == before + row;
      RowsMembers(s, pair, n - 1, v);
      RowErrorsMembers(s, pair, n - 1, |s|, v);
      if v in row {
        var k :| k < |s| && Reports(s, pair, n - 1, k, v);
        assert RowReports(s, pair, n - 1, v);
      }
      if v in before {
        var i :| i < n - 1 && RowReports(s, pair, i, v);
        assert i < n && RowReports(s, pair, i, v);
      }
      if exists i :: i < n && RowReports(s, pair, i, v) {
        var i :| i < n && RowReports(s, pair, i, v);
        if i < n - 1 {
          assert v in before;
        } else {
          var k :| Reports(s, pair, i, k, v);
          assert k < |s| && Reports(s, pair, n - 1, k, v);
          assert v in row;
        }
      }
    }
  }

  /**
   * A message is reported exactly when some pair of entries i < j produces
   * it: soundness and completeness of the validator's output.
   */
  lemma ValidationErrorsMembers(s: seq<Entry>, v: ValidationError)
    ensures v in ValidationErrors(s) <==> exists i, j :: Reports(s, PairErrors, i, j, v)
  {
    RowsMembers(s, PairErrors, |s|, v);
    if exists i, j :: Reports(s, PairErrors, i, j, v) {
      var i, j :| Reports(s, PairErrors, i, j, v);
      assert i < |s| && RowReports(s, PairErrors, i, v);
    }
  }

  /** `validate` returns the empty list exactly when no two entries clash. */
  lemma ValidationEmptyIffConflictFree(s: seq<Entry>)
    ensures ValidationErrors(s) == [] <==> ConflictFree(s)
  {
    if ValidationErrors(s) == [] {
      forall i, j | 0 <= i < j < |s| ensures !Clash(s[i], s[j]) {
        var e := PairErrors(s[i], s[j]);
        if e != [] {
          assert Reports(s, PairErrors, i, j, e[0]);
          ValidationErrorsMembers(s, e[0]);
        }
      }
    } else {
      var v := ValidationErrors(s)[0];
      ValidationErrorsMembers(s, v);
    }
  }

  /** A timetable built only through adds and removals validates clean. */
  lemma ReplayValidates(ops: seq<Op>)
    ensures ValidationErrors(Replay(ops)) == []
  {
    ReplayConflictFree(ops);
    ValidationEmptyIffConflictFree(Replay(ops));
  }
}
