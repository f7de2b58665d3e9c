/**
 * What the two timetable displays show, apart from the text layout: the
 * not-found and no-entries answers, and otherwise a title and rows, with a
 * day heading wherever the day changes from the previous entry's. Names come
 * from a snapshot of the registries, with "Unknown" for a missing key.
 */
module Rendering {
  import opened Records
  import opened Queries
  import opened Ordering

  /** Whose timetable is displayed: a class's (teachers shown) or a teacher's (classes shown). */
  datatype View = ClassView | TeacherView

  /** The three registries the displays look names up in. */
  datatype Directory = Directory(
    subjects: map<string, Subject>,
    teachers: map<string, Teacher>,
    classes: map<string, SchoolClass>)

  /** One rendered row: a day heading, or an entry with the names resolved for it. */
  datatype Line =
    | DayHeading(day: DayOfWeek)
    | SlotLine(entry: Entry, subjectName: string, counterpartName: string, room: string)

  /** What a display method returns. */
  datatype Display =
    | NotFound(id: string)
    | NoEntries(id: string)
    | Listing(title: string, lines: seq<Line>)

  /** A missing room, and an empty one, both show as "TBA". */
  function RoomLabel(room: Option<string>): (r: string)
    ensures room.Some? && room.value != "" ==> r == room.value
    ensures room.None? || room == Some("") ==> r == "TBA"
  {
    match room
    case None => "TBA"
    case Some(name) => if name == "" then "TBA" else name
  }

  /** The row for one entry: subject, then the teacher (class view) or the class (teacher view). */
  function LineFor(dir: Directory, e: Entry, view: View): (line: Line)
    ensures line.SlotLine? && line.entry == e && line.room == RoomLabel(e.room)
    ensures line.subjectName ==
      (if e.subjectCode in dir.subjects then dir.subjects[e.subjectCode].name else "Unknown")
    ensures view == ClassView ==>
      line.counterpartName == (if e.teacherId in dir.teachers then dir.teachers[e.teacherId].name else "Unknown")
    ensures view == TeacherView ==>
      line.counterpartName == (if e.classId in dir.classes then dir.classes[e.classId].name else "Unknown")
  {
    var subject := if e.subjectCode in dir.subjects then dir.subjects[e.subjectCode].name else "Unknown";
    var other := match view
      case ClassView => if e.teacherId in dir.teachers then dir.teachers[e.teacherId].name else "Unknown"
      case TeacherView => if e.classId in dir.classes then dir.classes[e.classId].name else "Unknown";
    SlotLine(e, subject, other, RoomLabel(e.room))
  }

  /**
   * The rows for the entries, in their order; `prev` is the day of the entry
   * shown before them, if any. A heading precedes an entry whose day differs.
   */
  function Render(dir: Directory, s: seq<Entry>, view: View, prev: Option<DayOfWeek>): seq<Line>
  {
    if s == [] then []
    else FirstRows(dir, s, view, prev) + Render(dir, s[1..], view, Some(s[0].day))
  }

  /** The rows of the first entry: its heading, if its day is new, then its slot row. */
  function FirstRows(dir: Directory, s: seq<Entry>, view: View, prev: Option<DayOfWeek>): seq<Line>
    requires s != []
  {
    (if prev != Some(s[0].day) then [DayHeading(s[0].day)] else []) + [LineFor(dir, s[0], view)]
  }

  /** The display loop, tracking the day of the previous entry. */
  method RenderLines(dir: Directory, sorted: seq<Entry>, view: View) returns (lines: seq<Line>)
    ensures lines == Render(dir, sorted, view, None)
  {
    lines := [];
    var currentDay: Option<DayOfWeek> := None;
    var i := 0;
    while i < |sorted|
      invariant 0 <= i <= |sorted|
      invariant lines + Render(dir, sorted[i..], view, currentDay) == Render(dir, sorted, view, None)
    {
      var e := sorted[i];
      assert sorted[i..][0] == e && sorted[i..][1..] == sorted[i + 1..];
      RenderStep(dir, sorted[i..], view, currentDay, lines);
      if currentDay != Some(e.day) {
        currentDay := Some(e.day);
        lines := lines + [DayHeading(e.day)];
      }
      lines := lines + [LineFor(dir, e, view)];
      i := i + 1;
    }
    assert sorted[i..] == [];
  }

  /** The loop's step: the rows of the next entry follow the rows already produced. */
  lemma RenderStep(dir: Directory, s: seq<Entry>, view: View, prev: Option<DayOfWeek>, lines: seq<Line>)
    requires s != []
    ensures prev != Some(s[0].day) ==>
      lines + Render(dir, s, view, prev) ==
      ((lines + [DayHeading(s[0].day)]) + [LineFor(dir, s[0], view)]) + Render(dir, s[1..], view, Some(s[0].day))
    ensures prev == Some(s[0].day) ==>
      lines + Render(dir, s, view, prev) ==
      (lines + [LineFor(dir, s[0], view)]) + Render(dir, s[1..], view, prev)
  {
    var tail := Render(dir, s[1..], view, Some(s[0].day));
    if prev != Some(s[0].day) {
      Regroup(lines, [DayHeading(s[0].day)], [LineFor(dir, s[0], view)], tail);
    } else {
      Regroup(lines, [], [LineFor(dir, s[0], view)], tail);
    }
  }

  /** Concatenation regrouped to the order in which the loop appends. */
  lemma Regroup<T>(a: seq<T>, b: seq<T>, c: seq<T>, d: seq<T>)
    ensures a + ((b + c) + d) == ((a + b) + c) + d
  {
  }

  /** The entries shown by the lines, in display order. */
  function SlotEntries(lines: seq<Line>): seq<Entry>
  {
    if lines == [] then []
    else (if lines[0].SlotLine? then [lines[0].entry] else []) + SlotEntries(lines[1..])
  }

  /** The days of the headings, in display order. */
  function Headings(lines: seq<Line>): seq<DayOfWeek>
  {
    if lines == [] then []
    else (if lines[0].DayHeading? then [lines[0].day] else []) + Headings(lines[1..])
  }

  ghost predicate StrictlyIncreasing(days: seq<DayOfWeek>) {
    forall i, j :: 0 <= i < j < |days| ==> days[i].Ordinal() < days[j].Ordinal()
  }

  lemma {:induction false} SlotEntriesConcat(a: seq<Line>, b: seq<Line>)
    ensures SlotEntries(a + b) == SlotEntries(a) + SlotEntries(b)
  {
    if a == [] {
      assert a + b == b;
    } else {
      assert (a + b)[0] == a[0] && (a + b)[1..] == a[1..] + b;
      SlotEntriesConcat(a[1..], b);
    }
  }

  lemma {:induction false} HeadingsConcat(a: seq<Line>, b: seq<Line>)
    ensures Headings(a + b) == Headings(a) + Headings(b)
  {
    if a == [] {
      assert a + b == b;
    } else {
      assert (a + b)[0] == a[0] && (a + b)[1..] == a[1..] + b;
      HeadingsConcat(a[1..], b);
    }
  }

  /** The first entry is shown first, then the rest. */
  lemma EntriesFirst(dir: Directory, s: seq<Entry>, view: View, prev: Option<DayOfWeek>)
    requires s != []
    ensures SlotEntries(Render(dir, s, view, prev)) == [s[0]] + SlotEntries(Render(dir, s[1..], view, Some(s[0].day)))
  {
    var first := FirstRows(dir, s, view, prev);
    var rest := Render(dir, s[1..], view, Some(s[0].day));
    assert Render(dir, s, view, prev) == first + rest;
    SlotEntriesConcat(first, rest);
    var line := LineFor(dir, s[0], view);
    assert SlotEntries([line]) == [s[0]] by {
      assert [line][1..] == [];
    }
    if prev != Some(s[0].day) {
      assert first == [DayHeading(s[0].day), line];
      assert first[1..] == [line];
    } else {
      assert first == [line];
    }
  }

  /** A heading for the first entry's day comes first when that day is new, then the rest's headings. */
  lemma HeadingsFirst(dir: Directory, s: seq<Entry>, view: View, prev: Option<DayOfWeek>)
    requires s != []
    ensures Headings(Render(dir, s, view, prev)) ==
      (if prev != Some(s[0].day) then [s[0].day] else []) + Headings(Render(dir, s[1..], view, Some(s[0].day)))
  {
    var first := FirstRows(dir, s, view, prev);
    var rest := Render(dir, s[1..], view, Some(s[0].day));
    assert Render(dir, s, view, prev) == first + rest;
    HeadingsConcat(first, rest);
    var line := LineFor(dir, s[0], view);
    assert Headings([line]) == [] by {
      assert [line][1..] == [];
    }
    if prev != Some(s[0].day) {
      assert first == [DayHeading(s[0].day), line];
      assert first[1..] == [line];
      assert Headings(first) == [s[0].day];
    } else {
      assert first == [line];
    }
  }

  /** The rows show each entry exactly once, in the given order. */
  lemma {:induction false} RenderEntries(dir: Directory, s: seq<Entry>, view: View, prev: Option<DayOfWeek>)
    ensures SlotEntries(Render(dir, s, view, prev)) == s
  {
    if s != [] {
      EntriesFirst(dir, s, view, prev);
      RenderEntries(dir, s[1..], view, Some(s[0].day));
      assert [s[0]] + s[1..] == s;
    }
  }

  /** The days that get a heading: each entry's day when it differs from the previous entry's. */
  function HeadingDays(s: seq<Entry>, prev: Option<DayOfWeek>): seq<DayOfWeek> {
    if s == [] then []
    else (if prev != Some(s[0].day) then [s[0].day] else []) + HeadingDays(s[1..], Some(s[0].day))
  }

  /** The headings of the rows are the heading days of the entries. */
  lemma {:induction false} RenderHeadings(dir: Directory, s: seq<Entry>, view: View, prev: Option<DayOfWeek>)
    ensures Headings(Render(dir, s, view, prev)) == HeadingDays(s, prev)
  {
    if s != [] {
      HeadingsFirst(dir, s, view, prev);
      RenderHeadings(dir, s[1..], view, Some(s[0].day));
    }
  }

  /**
   * A day has a heading, or is the day shown just before, exactly when some
   * entry falls on it or it is that previous day. From a fresh start
   * (`prev` = None): a day has a heading exactly when some entry falls on it.
   */
  lemma {:induction false} HeadingDaysCover(s: seq<Entry>, prev: Option<DayOfWeek>)
    ensures forall d :: d in HeadingDays(s, prev) || prev == Some(d) <==>
      (exists i :: 0 <= i < |s| && s[i].day == d) || prev == Some(d)
  {
    if s != [] {
      var x := s[0];
      HeadingDaysCover(s[1..], Some(x.day));
      var hr := HeadingDays(s, prev);
      var ht := HeadingDays(s[1..], Some(x.day));
      assert hr == (if prev != Some(x.day) then [x.day] else []) + ht;
      forall d ensures d in hr || prev == Some(d) <==> (exists i :: 0 <= i < |s| && s[i].day == d) || prev == Some(d) {
        if d in ht || x.day == d {
          if d == x.day {
            assert s[0].day == d;
          } else {
            var i :| 0 <= i < |s[1..]| && s[1..][i].day == d;
            assert s[i + 1].day == d;
          }
        }
        if exists i :: 0 <= i < |s| && s[i].day == d {
          var i :| 0 <= i < |s| && s[i].day == d;
          if i > 0 {
            assert s[1..][i - 1].day == d;
          }
        }
      }
    }
  }

  /** The headings' days all come after `d`. */
  ghost predicate AllAfter(d: DayOfWeek, days: seq<DayOfWeek>) {
    forall k :: 0 <= k < |days| ==> d.Ordinal() < days[k].Ordinal()
  }

  /** The tail of a sorted list is sorted, and its first day is no earlier than the head's. */
  lemma OrderedTail(s: seq<Entry>)
    requires Ordered(s) && s != []
    ensures Ordered(s[1..])
    ensures |s| > 1 ==> s[0].day.Ordinal() <= s[1..][0].day.Ordinal()
  {
    var t := s[1..];
    forall i, j | 0 <= i < j < |t| ensures KeyLe(t[i], t[j]) {
      assert t[i] == s[i + 1] && t[j] == s[j + 1];
    }
    if |s| > 1 {
      assert KeyLe(s[0], s[1]);
    }
  }

  /**
   * Over sorted entries that do not start before the previous day `d`,
   * every heading is for a day after `d`.
   */
  lemma {:induction false} HeadingDaysAfter(s: seq<Entry>, d: DayOfWeek)
    requires Ordered(s)
    requires s != [] ==> d.Ordinal() <= s[0].day.Ordinal()
    ensures AllAfter(d, HeadingDays(s, Some(d)))
  {
    if s != [] {
      var x := s[0];
      OrderedTail(s);
      HeadingDaysAfter(s[1..], x.day);
      var ht := HeadingDays(s[1..], Some(x.day));
      var hr := HeadingDays(s, Some(d));
      if d != x.day {
        OrdinalInjective(d, x.day);
        assert hr == [x.day] + ht;
        forall k | 0 <= k < |hr| ensures d.Ordinal() < hr[k].Ordinal() {
          if k > 0 {
            assert hr[k] == ht[k - 1];
          }
        }
      } else {
        assert hr == ht;
      }
    }
  }

  /**
   * Over sorted entries, the heading days strictly increase: with
   * HeadingDaysCover, there is one heading per distinct day.
   */
  lemma {:induction false} HeadingDaysIncrease(s: seq<Entry>, prev: Option<DayOfWeek>)
    requires Ordered(s)
    ensures StrictlyIncreasing(HeadingDays(s, prev))
  {
    if s != [] {
      var x := s[0];
      OrderedTail(s);
      HeadingDaysIncrease(s[1..], Some(x.day));
      var ht := HeadingDays(s[1..], Some(x.day));
      var hr := HeadingDays(s, prev);
      if prev != Some(x.day) {
        HeadingDaysAfter(s[1..], x.day);
        assert hr == [x.day] + ht;
        forall i, j | 0 <= i < j < |hr| ensures hr[i].Ordinal() < hr[j].Ordinal() {
          assert hr[j] == ht[j - 1];
          if i > 0 {
            assert hr[i] == ht[i - 1];
          }
        }
      } else {
        assert hr == ht;
      }
    }
  }

  /** A permutation falls on exactly the days the original falls on. */
  lemma PermutationDays(s: seq<Entry>, r: seq<Entry>, d: DayOfWeek)
    requires multiset(r) == multiset(s)
    ensures (exists i :: 0 <= i < |r| && r[i].day == d) <==> exists e :: e in s && e.day == d
  {
    if exists e :: e in s && e.day == d {
      var e :| e in s && e.day == d;
      assert e in multiset(r);
      var i :| 0 <= i < |r| && r[i] == e;
      assert r[i].day == d;
    }
    if exists i :: 0 <= i < |r| && r[i].day == d {
      var i :| 0 <= i < |r| && r[i].day == d;
      var e := r[i];
      assert e in multiset(r);
      assert e in s && e.day == d;
    }
  }

  /** Rendering the sorted entries shows a stable sort of them by (day, period). */
  lemma ShownSorted(dir: Directory, s: seq<Entry>, view: View)
    ensures Ordered(SlotEntries(Render(dir, SortByDayPeriod(s), view, None)))
    ensures multiset(SlotEntries(Render(dir, SortByDayPeriod(s), view, None))) == multiset(s)
    ensures forall k ::
      Filter(SlotEntries(Render(dir, SortByDayPeriod(s), view, None)), SameKeyAs(k)) == Filter(s, SameKeyAs(k))
  {
    RenderEntries(dir, SortByDayPeriod(s), view, None);
    forall k {
      SortStable(s, k);
    }
  }

  /**
   * Rendering the sorted entries gives one heading per day that has an
   * entry, in increasing day order.
   */
  lemma ShownHeadings(dir: Directory, s: seq<Entry>, view: View)
    ensures StrictlyIncreasing(Headings(Render(dir, SortByDayPeriod(s), view, None)))
    ensures forall d :: d in Headings(Render(dir, SortByDayPeriod(s), view, None)) <==>
      exists e :: e in s && e.day == d
  {
    var sorted := SortByDayPeriod(s);
    RenderHeadings(dir, sorted, view, None);
    HeadingDaysIncrease(sorted, None);
    HeadingDaysCover(sorted, None);
    forall d ensures d in Headings(Render(dir, sorted, view, None)) <==> exists e :: e in s && e.day == d {
      PermutationDays(s, sorted, d);
    }
  }
}
