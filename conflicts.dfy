/**
 * The conflict rule and the entry store's two mutations, as functions on the
 * list of entries: admitting an entry through the conflict gate, and removing
 * the first entry booked for a class on a day and period.
 */
module Conflicts {
  import opened Records

  /**
   * Two entries clash when they fall on the same day and period and share
   * the teacher or the class. Room, subject and slot times play no part.
   */
  predicate Clash(a: Entry, b: Entry) {
    SameSlot(a, b) && (a.teacherId == b.teacherId || a.classId == b.classId)
  }

  /** The rule `has_conflict` decides: some stored entry clashes with the candidate. */
  ghost predicate ConflictsWith(s: seq<Entry>, e: Entry) {
    exists i :: 0 <= i < |s| && Clash(s[i], e)
  }

  /** No two entries of the list, at different positions, clash. */
  ghost predicate ConflictFree(s: seq<Entry>) {
    forall i, j :: 0 <= i < j < |s| ==> !Clash(s[i], s[j])
  }

  /** The entry list after `add_entry(e)`: unchanged on a conflict, else `e` appended. */
  ghost function Admit(s: seq<Entry>, e: Entry): seq<Entry> {
    if ConflictsWith(s, e) then s else s + [e]
  }

  /** Appending keeps a list conflict-free exactly when the new entry passes the gate. */
  lemma AppendConflictFree(s: seq<Entry>, e: Entry)
    ensures ConflictFree(s + [e]) <==> ConflictFree(s) && !ConflictsWith(s, e)
  {
    var t := s + [e];
    if ConflictFree(t) {
      forall i, j | 0 <= i < j < |s| ensures !Clash(s[i], s[j]) {
        assert t[i] == s[i] && t[j] == s[j];
      }
      forall i | 0 <= i < |s| ensures !Clash(s[i], e) {
        assert t[i] == s[i] && t[|s|] == e;
      }
    }
    if ConflictFree(s) && !ConflictsWith(s, e) {
      forall i, j | 0 <= i < j < |t| ensures !Clash(t[i], t[j]) {
        if j < |s| {
          assert t[i] == s[i] && t[j] == s[j];
        } else {
          assert t[i] == s[i] && t[j] == e;
        }
      }
    }
  }

  /** `add_entry` keeps a conflict-free list conflict-free. */
  lemma AdmitKeepsConflictFree(s: seq<Entry>, e: Entry)
    ensures ConflictFree(s) ==> ConflictFree(Admit(s, e))
  {
    AppendConflictFree(s, e);
  }

  /** The entry `remove_entry(day, period, classId)` looks for. */
  predicate Matches(e: Entry, day: DayOfWeek, period: int, classId: string) {
    e.day == day && e.slot.period == period && e.classId == classId
  }

  /** The index of the first entry that matches, if any. */
  function FirstMatch(s: seq<Entry>, day: DayOfWeek, period: int, classId: string): (r: Option<nat>)
    ensures r.Some? ==> r.value < |s| && Matches(s[r.value], day, period, classId)
    ensures r.Some? ==> forall k :: 0 <= k < r.value ==> !Matches(s[k], day, period, classId)
    ensures r.None? ==> forall k :: 0 <= k < |s| ==> !Matches(s[k], day, period, classId)
  {
    if s == [] then None
    else if Matches(s[0], day, period, classId) then Some(0)
    else match FirstMatch(s[1..], day, period, classId)
      case None => None
      case Some(k) => Some(k + 1)
  }

  /** The list without position `i`; the other entries keep their order. */
  function RemoveAt(s: seq<Entry>, i: nat): (r: seq<Entry>)
    requires i < |s|
    ensures |r| == |s| - 1
    ensures forall k :: 0 <= k < i ==> r[k] == s[k]
    ensures forall k :: i <= k < |r| ==> r[k] == s[k + 1]
    ensures multiset(r) + multiset{s[i]} == multiset(s)
  {
    assert s == s[..i] + [s[i]] + s[i + 1..];
    s[..i] + s[i + 1..]
  }

  /** The entry list after `remove_entry(day, period, classId)`. */
  function Removed(s: seq<Entry>, day: DayOfWeek, period: int, classId: string): seq<Entry> {
    match FirstMatch(s, day, period, classId)
    case None => s
    case Some(i) => RemoveAt(s, i)
  }

  /** Dropping any one entry from a conflict-free list leaves it conflict-free. */
  lemma RemoveAtKeepsConflictFree(s: seq<Entry>, i: nat)
    requires i < |s|
    ensures ConflictFree(s) ==> ConflictFree(RemoveAt(s, i))
  {
    var r := RemoveAt(s, i);
    if ConflictFree(s) {
      forall a, b | 0 <= a < b < |r| ensures !Clash(r[a], r[b]) {
        var a' := if a < i then a else a + 1;
        var b' := if b < i then b else b + 1;
        assert r[a] == s[a'] && r[b] == s[b'] && a' < b';
      }
    }
  }

  /** `remove_entry` keeps a conflict-free list conflict-free. */
  lemma RemovedKeepsConflictFree(s: seq<Entry>, day: DayOfWeek, period: int, classId: string)
    ensures ConflictFree(s) ==> ConflictFree(Removed(s, day, period, classId))
  {
    match FirstMatch(s, day, period, classId)
    case None =>
    case Some(i) => RemoveAtKeepsConflictFree(s, i);
  }

  /**
   * In a conflict-free list, once an entry is removed, an entry with its day,
   * period, teacher and class passes the gate again.
   */
  lemma ReAddAfterRemoveAt(s: seq<Entry>, i: nat, e: Entry)
    requires ConflictFree(s) && i < |s|
    requires e.day == s[i].day && e.slot.period == s[i].slot.period
    requires e.teacherId == s[i].teacherId && e.classId == s[i].classId
    ensures !ConflictsWith(RemoveAt(s, i), e)
  {
    var r := RemoveAt(s, i);
    forall k | 0 <= k < |r| ensures !Clash(r[k], e) {
      if k < i {
        assert r[k] == s[k] && !Clash(s[k], s[i]);
      } else {
        assert r[k] == s[k + 1] && !Clash(s[i], s[k + 1]);
      }
    }
  }

  /**
   * `remove_entry` followed by re-adding the removed entry succeeds, and the
   * entry lands at the end of the list.
   */
  lemma RemoveThenReAdd(s: seq<Entry>, day: DayOfWeek, period: int, classId: string, i: nat)
    requires ConflictFree(s)
    requires FirstMatch(s, day, period, classId) == Some(i)
    ensures i < |s| && !ConflictsWith(Removed(s, day, period, classId), s[i])
    ensures Admit(Removed(s, day, period, classId), s[i]) == Removed(s, day, period, classId) + [s[i]]
  {
    ReAddAfterRemoveAt(s, i, s[i]);
  }

  /** A call that changes the entry list. */
  datatype Op = Add(entry: Entry) | Remove(day: DayOfWeek, period: int, classId: string)

  ghost function Step(s: seq<Entry>, op: Op): seq<Entry> {
    match op
    case Add(e) => Admit(s, e)
    case Remove(d, p, c) => Removed(s, d, p, c)
  }

  /** The entry list of a fresh timetable after the calls `ops`, in order. */
  ghost function Replay(ops: seq<Op>): seq<Entry>
    decreases |ops|
  {
    if ops == [] then [] else Step(Replay(ops[..|ops| - 1]), ops[|ops| - 1])
  }

  /** Whatever the adds and removals, a list built only through them is conflict-free. */
  lemma {:induction false} ReplayConflictFree(ops: seq<Op>)
    ensures ConflictFree(Replay(ops))
  {
    if ops != [] {
      var s := Replay(ops[..|ops| - 1]);
      ReplayConflictFree(ops[..|ops| - 1]);
      match ops[|ops| - 1]
      case Add(e) => AdmitKeepsConflictFree(s, e);
      case Remove(d, p, c) => RemovedKeepsConflictFree(s, d, p, c);
    }
  }
}
