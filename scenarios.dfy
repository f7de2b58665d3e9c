/**
 * The timetable's unit scenarios, as client methods, plus validator and
 * display cases of our own: each builds the standard fixture (two subjects,
 * two teachers, two classes, two periods), drives the engine and states the
 * outcome in its postcondition.
 */
module Scenarios {
  import opened Records
  import opened Conflicts
  import opened Queries
  import opened Validation
  import opened Ordering
  import opened Rendering
  import opened Timetables

  const Period1 := TimeSlot(1, "08:00", "08:50")
  const Period2 := TimeSlot(2, "09:00", "09:50")

  /** The fixture: MATH and ENG, T001 and T002, classes C1 and C2, periods 1 and 2. */
  method Fixture() returns (t: Timetable)
    ensures fresh(t)
    ensures t.entries == [] && t.timeSlots == [Period1, Period2]
    ensures t.subjects == map["MATH" := Subject("MATH", "Mathematics"), "ENG" := Subject("ENG", "English")]
    ensures t.teachers == map["T001" := Teacher("T001", "Mr. Smith", ["MATH"]), "T002" := Teacher("T002", "Ms. Johnson", ["ENG"])]
    ensures t.classes == map["C1" := SchoolClass("C1", "Grade 9A", 25), "C2" := SchoolClass("C2", "Grade 9B", 28)]
  {
    t := new Timetable();
    t.AddSubject(Subject("MATH", "Mathematics"));
    t.AddSubject(Subject("ENG", "English"));
    t.AddTeacher(Teacher("T001", "Mr. Smith", ["MATH"]));
    t.AddTeacher(Teacher("T002", "Ms. Johnson", ["ENG"]));
    t.AddClass(SchoolClass("C1", "Grade 9A", 25));
    t.AddClass(SchoolClass("C2", "Grade 9B", 28));
    t.AddTimeSlot(Period1);
    t.AddTimeSlot(Period2);
  }

  /** A registered subject can be looked up by its code. */
  method RegisterSubject() returns (name: string)
    ensures name == "Science"
  {
    var t := Fixture();
    t.AddSubject(Subject("SCI", "Science"));
    name := t.subjects["SCI"].name;
  }

  /** A registered teacher can be looked up by id. */
  method RegisterTeacher() returns (name: string)
    ensures name == "Dr. Brown"
  {
    var t := Fixture();
    t.AddTeacher(Teacher("T003", "Dr. Brown", ["SCI"]));
    name := t.teachers["T003"].name;
  }

  /** A registered class can be looked up by id. */
  method RegisterClass() returns (name: string)
    ensures name == "Grade 10A"
  {
    var t := Fixture();
    t.AddClass(SchoolClass("C3", "Grade 10A", 24));
    name := t.classes["C3"].name;
  }

  /** The first entry of an empty timetable is accepted. */
  method AddFirstEntry() returns (added: bool, count: nat)
    ensures added && count == 1
  {
    var t := Fixture();
    added := t.AddEntry(Entry(Monday, Period1, "C1", "MATH", "T001", Some("R101")));
    count := |t.entries|;
  }

  /** The same teacher cannot take two classes in one period. */
  method TeacherClashRejected() returns (first: bool, second: bool, count: nat)
    ensures first && !second && count == 1
  {
    var t := Fixture();
    var e1 := Entry(Monday, Period1, "C1", "MATH", "T001", Some("R101"));
    var e2 := Entry(Monday, Period1, "C2", "MATH", "T001", Some("R102"));
    first := t.AddEntry(e1);
    assert Clash(t.entries[0], e2);
    second := t.AddEntry(e2);
    count := |t.entries|;
  }

  /** The same class cannot have two lessons in one period. */
  method ClassClashRejected() returns (first: bool, second: bool, count: nat)
    ensures first && !second && count == 1
  {
    var t := Fixture();
    var e1 := Entry(Monday, Period1, "C1", "MATH", "T001", Some("R101"));
    var e2 := Entry(Monday, Period1, "C1", "ENG", "T002", Some("R101"));
    first := t.AddEntry(e1);
    assert Clash(t.entries[0], e2);
    second := t.AddEntry(e2);
    count := |t.entries|;
  }

  /** Different periods do not conflict, even for the same class and room. */
  method NoConflict() returns (first: bool, second: bool, count: nat)
    ensures first && second && count == 2
  {
    var t := Fixture();
    first := t.AddEntry(Entry(Monday, Period1, "C1", "MATH", "T001", Some("R101")));
    second := t.AddEntry(Entry(Monday, Period2, "C1", "ENG", "T002", Some("R101")));
    count := |t.entries|;
  }

  /** Removing the only entry by day, period and class empties the timetable. */
  method RemoveOnly() returns (removed: bool, count: nat)
    ensures removed && count == 0
  {
    var t := Fixture();
    var added := t.AddEntry(Entry(Monday, Period1, "C1", "MATH", "T001", Some("R101")));
    removed := t.RemoveEntry(Monday, 1, "C1");
    count := |t.entries|;
  }

  /** Removing from an empty timetable finds nothing. */
  method RemoveMissing() returns (removed: bool)
    ensures !removed
  {
    var t := Fixture();
    removed := t.RemoveEntry(Monday, 1, "C1");
  }

  /** The class query keeps the class's two entries, in the order they were added. */
  method ClassQuery() returns (r: seq<Entry>)
    ensures r == [Entry(Monday, Period1, "C1", "MATH", "T001", None), Entry(Monday, Period2, "C1", "ENG", "T002", None)]
  {
    var t := Fixture();
    var e1 := Entry(Monday, Period1, "C1", "MATH", "T001", None);
    var e2 := Entry(Monday, Period2, "C1", "ENG", "T002", None);
    var e3 := Entry(Monday, Period1, "C2", "ENG", "T002", None);
    var a1 := t.AddEntry(e1);
    var a2 := t.AddEntry(e2);
    assert !Clash(t.entries[0], e3) && !Clash(t.entries[1], e3);
    var a3 := t.AddEntry(e3);
    assert t.entries == [e1, e2, e3];
    var p := ClassIs("C1");
    assert [e1, e2, e3][1..] == [e2, e3] && [e2, e3][1..] == [e3] && [e3][1..] == [];
    assert Filter([e3], p) == [];
    assert Filter([e2, e3], p) == [e2];
    assert Filter([e1, e2, e3], p) == [e1, e2];
    r := t.EntriesForClass("C1");
  }

  /** The teacher query keeps the teacher's two entries, in the order they were added. */
  method TeacherQuery() returns (r: seq<Entry>)
    ensures r == [Entry(Monday, Period1, "C1", "MATH", "T001", None), Entry(Monday, Period2, "C2", "MATH", "T001", None)]
  {
    var t := Fixture();
    var e1 := Entry(Monday, Period1, "C1", "MATH", "T001", None);
    var e2 := Entry(Monday, Period2, "C2", "MATH", "T001", None);
    var e3 := Entry(Monday, Period1, "C2", "ENG", "T002", None);
    var a1 := t.AddEntry(e1);
    var a2 := t.AddEntry(e2);
    assert !Clash(t.entries[0], e3) && !Clash(t.entries[1], e3);
    var a3 := t.AddEntry(e3);
    assert t.entries == [e1, e2, e3];
    var p := TeacherIs("T001");
    assert [e1, e2, e3][1..] == [e2, e3] && [e2, e3][1..] == [e3] && [e3][1..] == [];
    assert Filter([e3], p) == [];
    assert Filter([e2, e3], p) == [e2];
    assert Filter([e1, e2, e3], p) == [e1, e2];
    r := t.EntriesForTeacher("T001");
  }

  /** The day query keeps only Monday's entry. */
  method DayQuery() returns (r: seq<Entry>)
    ensures r == [Entry(Monday, Period1, "C1", "MATH", "T001", None)]
  {
    var t := Fixture();
    var e1 := Entry(Monday, Period1, "C1", "MATH", "T001", None);
    var e2 := Entry(Tuesday, Period1, "C1", "ENG", "T002", None);
    var a1 := t.AddEntry(e1);
    var a2 := t.AddEntry(e2);
    assert t.entries == [e1, e2];
    var p := DayIs(Monday);
    assert [e1, e2][1..] == [e2] && [e2][1..] == [];
    assert Filter([e2], p) == [];
    assert Filter([e1, e2], p) == [e1];
    r := t.EntriesForDay(Monday);
  }

  /** A timetable built through the conflict gate validates clean. */
  method ValidTimetable() returns (errors: seq<ValidationError>)
    ensures errors == []
  {
    var t := Fixture();
    var a1 := t.AddEntry(Entry(Monday, Period1, "C1", "MATH", "T001", None));
    var a2 := t.AddEntry(Entry(Monday, Period2, "C1", "ENG", "T002", None));
    errors := t.Validate();
  }

  /**
   * Entries placed in the list directly, past the gate, are reported: one
   * teacher message for a shared teacher, then a class message as well when
   * the class is shared too.
   */
  method ForcedConflicts() returns (teacherOnly: seq<ValidationError>, both: seq<ValidationError>)
    ensures teacherOnly == [TeacherConflict("T001", Monday, 1)]
    ensures both == [TeacherConflict("T001", Monday, 1), ClassConflict("C1", Monday, 1)]
  {
    var t := Fixture();
    var e1 := Entry(Monday, Period1, "C1", "MATH", "T001", None);
    var e2 := Entry(Monday, Period1, "C2", "MATH", "T001", None);
    var e3 := Entry(Monday, Period1, "C1", "ENG", "T001", Some("R2"));
    TwoEntryErrors(e1, e2);
    TwoEntryErrors(e1, e3);
    t.entries := [e1, e2];
    teacherOnly := t.Validate();
    t.entries := [e1, e3];
    both := t.Validate();
  }

  /** For two entries, validation reports exactly the messages of their one pair. */
  lemma TwoEntryErrors(a: Entry, b: Entry)
    ensures ValidationErrors([a, b]) == PairErrors(a, b)
  {
    var s := [a, b];
    assert RowErrors(s, PairErrors, 1, 2) == [];
    assert RowErrors(s, PairErrors, 0, 1) == [];
    assert RowErrors(s, PairErrors, 0, 2) == PairErrors(a, b);
    assert Rows(s, PairErrors, 1) == RowErrors(s, PairErrors, 0, 2);
  }

  /** The class display shows the class name, the day heading and the resolved names. */
  method ShowClass() returns (d: Display)
    ensures d == Listing("Grade 9A", [DayHeading(Monday), SlotLine(Entry(Monday, Period1, "C1", "MATH", "T001", Some("R101")), "Mathematics", "Mr. Smith", "R101")])
  {
    var t := Fixture();
    var e := Entry(Monday, Period1, "C1", "MATH", "T001", Some("R101"));
    var added := t.AddEntry(e);
    assert t.EntriesForClass("C1") == [e] by {
      assert [e][1..] == [];
    }
    OneEntryShown(t.Names(), e, ClassView);
    assert LineFor(t.Names(), e, ClassView) == SlotLine(e, "Mathematics", "Mr. Smith", "R101");
    d := t.DisplayClassTimetable("C1");
  }

  /** A single entry is shown under its day's heading. */
  lemma OneEntryShown(dir: Directory, e: Entry, view: View)
    ensures Render(dir, SortByDayPeriod([e]), view, None) == [DayHeading(e.day), LineFor(dir, e, view)]
  {
    assert [e][1..] == [];
    assert SortByDayPeriod([e]) == [e];
    assert Render(dir, [e], view, None) == [DayHeading(e.day)] + [LineFor(dir, e, view)] + Render(dir, [], view, Some(e.day));
  }

  /** The teacher display shows the teacher's name, the day heading and the class name. */
  method ShowTeacher() returns (d: Display)
    ensures d == Listing("Mr. Smith", [DayHeading(Monday), SlotLine(Entry(Monday, Period1, "C1", "MATH", "T001", Some("R101")), "Mathematics", "Grade 9A", "R101")])
  {
    var t := Fixture();
    var e := Entry(Monday, Period1, "C1", "MATH", "T001", Some("R101"));
    var added := t.AddEntry(e);
    assert t.EntriesForTeacher("T001") == [e] by {
      assert [e][1..] == [];
    }
    OneEntryShown(t.Names(), e, TeacherView);
    assert LineFor(t.Names(), e, TeacherView) == SlotLine(e, "Mathematics", "Grade 9A", "R101");
    d := t.DisplayTeacherTimetable("T001");
  }

  /** An unregistered class is not found; a registered one without entries has none. */
  method ShowMissing() returns (unknown: Display, empty: Display)
    ensures unknown == NotFound("C9") && empty == NoEntries("C2")
  {
    var t := Fixture();
    var added := t.AddEntry(Entry(Monday, Period1, "C1", "MATH", "T001", None));
    unknown := t.DisplayClassTimetable("C9");
    assert t.EntriesForClass("C2") == [];
    empty := t.DisplayClassTimetable("C2");
  }
}
