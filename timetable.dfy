/**
 * The schedule engine: the registries, the entry list, the conflict gate,
 * removal, the queries, the validator and the two timetable displays.
 */
module Timetables {
  import opened Records
  import opened Conflicts
  import opened Queries
  import opened Validation
  import opened Ordering
  import opened Rendering

  class Timetable {
    var entries: seq<Entry>
    var subjects: map<string, Subject>
    var teachers: map<string, Teacher>
    var classes: map<string, SchoolClass>
    var timeSlots: seq<TimeSlot>

    constructor ()
      ensures entries == [] && timeSlots == []
      ensures subjects == map[] && teachers == map[] && classes == map[]
      ensures ConflictFree(entries)
    {
      entries := [];
      subjects := map[];
      teachers := map[];
      classes := map[];
      timeSlots := [];
    }

    /** Registers the subject under its code, replacing any subject with that code. */
    method AddSubject(subject: Subject)
      modifies this`subjects
      ensures subjects == old(subjects)[subject.code := subject]
    {
      subjects := subjects[subject.code := subject];
    }

    /** Registers the teacher under its id, replacing any teacher with that id. */
    method AddTeacher(teacher: Teacher)
      modifies this`teachers
      ensures teachers == old(teachers)[teacher.id := teacher]
    {
      teachers := teachers[teacher.id := teacher];
    }

    /** Registers the class under its id, replacing any class with that id. */
    method AddClass(schoolClass: SchoolClass)
      modifies this`classes
      ensures classes == old(classes)[schoolClass.id := schoolClass]
    {
      classes := classes[schoolClass.id := schoolClass];
    }

    /** Appends the slot; slots are kept in the order they were added. */
    method AddTimeSlot(slot: TimeSlot)
      modifies this`timeSlots
      ensures timeSlots == old(timeSlots) + [slot]
    {
      timeSlots := timeSlots + [slot];
    }

    /** Whether some stored entry clashes with the candidate; stops at the first one. */
    method HasConflict(candidate: Entry) returns (conflict: bool)
      ensures conflict <==> ConflictsWith(entries, candidate)
    {
      var i := 0;
      while i < |entries|
        invariant 0 <= i <= |entries|
        invariant forall k :: 0 <= k < i ==> !Clash(entries[k], candidate)
      {
        var e := entries[i];
        if e.day == candidate.day && e.slot.period == candidate.slot.period {
          if e.teacherId == candidate.teacherId {
            return true;
          }
          if e.classId == candidate.classId {
            return true;
          }
        }
        i := i + 1;
      }
      return false;
    }

    /** Appends the entry unless it conflicts; reports whether it was added. */
    method AddEntry(entry: Entry) returns (added: bool)
      modifies this`entries
      ensures added <==> !ConflictsWith(old(entries), entry)
      ensures entries == if added then old(entries) + [entry] else old(entries)
      ensures entries == Admit(old(entries), entry)
      ensures ConflictFree(old(entries)) ==> ConflictFree(entries)
    {
      var conflict := HasConflict(entry);
      if conflict {
        return false;
      }
      AdmitKeepsConflictFree(entries, entry);
      entries := entries + [entry];
      return true;
    }

    /** Removes the first entry of the class on that day and period, if there is one. */
    method RemoveEntry(day: DayOfWeek, period: int, classId: string) returns (removed: bool)
      modifies this`entries
      ensures removed <==> FirstMatch(old(entries), day, period, classId).Some?
      ensures entries == Removed(old(entries), day, period, classId)
      ensures ConflictFree(old(entries)) ==> ConflictFree(entries)
    {
      RemovedKeepsConflictFree(entries, day, period, classId);
      var i := 0;
      while i < |entries|
        invariant 0 <= i <= |entries| && entries == old(entries)
        invariant forall k :: 0 <= k < i ==> !Matches(entries[k], day, period, classId)
      {
        var e := entries[i];
        if e.day == day && e.slot.period == period && e.classId == classId {
          assert FirstMatch(entries, day, period, classId) == Some(i);
          entries := RemoveAt(entries, i);
          return true;
        }
        i := i + 1;
      }
      return false;
    }

    /** The entries of the class, in stored order. */
    function EntriesForClass(classId: string): (r: seq<Entry>)
      reads this
      ensures forall e :: e in r <==> e in entries && e.classId == classId
      ensures forall e :: multiset(r)[e] == if e.classId == classId then multiset(entries)[e] else 0
    {
      FilterMembers(entries, ClassIs(classId));
      Filter(entries, ClassIs(classId))
    }

    /** The entries of the teacher, in stored order. */
    function EntriesForTeacher(teacherId: string): (r: seq<Entry>)
      reads this
      ensures forall e :: e in r <==> e in entries && e.teacherId == teacherId
      ensures forall e :: multiset(r)[e] == if e.teacherId == teacherId then multiset(entries)[e] else 0
    {
      FilterMembers(entries, TeacherIs(teacherId));
      Filter(entries, TeacherIs(teacherId))
    }

    /** The entries on the day, in stored order. */
    function EntriesForDay(day: DayOfWeek): (r: seq<Entry>)
      reads this
      ensures forall e :: e in r <==> e in entries && e.day == day
      ensures forall e :: multiset(r)[e] == if e.day == day then multiset(entries)[e] else 0
    {
      FilterMembers(entries, DayIs(day));
      Filter(entries, DayIs(day))
    }

    /** Every pair i < j, in lexicographic order: a teacher message, then a class message. */
    method Validate() returns (errors: seq<ValidationError>)
      ensures errors == ValidationErrors(entries)
      ensures errors == [] <==> ConflictFree(entries)
    {
      var s := entries;
      errors := [];
      var i := 0;
      while i < |s|
        invariant 0 <= i <= |s|
        invariant errors == Rows(s, PairErrors, i)
      {
        var e1 := s[i];
        var j := i + 1;
        while j < |s|
          invariant i + 1 <= j <= |s|
          invariant errors == Rows(s, PairErrors, i) + RowErrors(s, PairErrors, i, j)
        {
          var pair := CheckPair(e1, s[j]);
          RowStep(s, PairErrors, i, j, errors);
          errors := errors + pair;
          j := j + 1;
        }
        i := i + 1;
      }
      ValidationEmptyIffConflictFree(s);
    }

    /** The body of the validator's inner loop: the messages for the pair (e1, e2). */
    static method CheckPair(e1: Entry, e2: Entry) returns (pair: seq<ValidationError>)
      ensures pair == PairErrors(e1, e2)
    {
      pair := [];
      if e1.day == e2.day && e1.slot.period == e2.slot.period {
        if e1.teacherId == e2.teacherId {
          pair := pair + [TeacherConflict(e1.teacherId, e1.day, e1.slot.period)];
        }
        if e1.classId == e2.classId {
          pair := pair + [ClassConflict(e1.classId, e1.day, e1.slot.period)];
        }
      }
    }

    /** A snapshot of the registries the displays look names up in. */
    function Names(): Directory
      reads this
    {
      Directory(subjects, teachers, classes)
    }

    /** Shows the class's entries sorted by day and period, or why there are none to show. */
    method DisplayClassTimetable(classId: string) returns (d: Display)
      ensures d.NotFound? <==> classId !in classes
      ensures d.NotFound? ==> d.id == classId
      ensures d.NoEntries? <==> classId in classes && EntriesForClass(classId) == []
      ensures d.NoEntries? ==> d.id == classId
      ensures d.Listing? ==> classId in classes && d.title == classes[classId].name
      ensures d.Listing? ==> d.lines == Render(Names(), SortByDayPeriod(EntriesForClass(classId)), ClassView, None)
      ensures d.Listing? ==> Ordered(SlotEntries(d.lines))
      ensures d.Listing? ==> multiset(SlotEntries(d.lines)) == multiset(EntriesForClass(classId))
      ensures d.Listing? ==> forall k ::
        Filter(SlotEntries(d.lines), SameKeyAs(k)) == Filter(EntriesForClass(classId), SameKeyAs(k))
      ensures d.Listing? ==> StrictlyIncreasing(Headings(d.lines))
      ensures d.Listing? ==> forall day ::
        day in Headings(d.lines) <==> exists e :: e in EntriesForClass(classId) && e.day == day
    {
      if classId !in classes {
        return NotFound(classId);
      }
      var selected := EntriesForClass(classId);
      if selected == [] {
        return NoEntries(classId);
      }
      var sorted := SortByDayPeriod(selected);
      var lines := RenderLines(Names(), sorted, ClassView);
      ShownSorted(Names(), selected, ClassView);
      ShownHeadings(Names(), selected, ClassView);
      d := Listing(classes[classId].name, lines);
    }

    /** Shows the teacher's entries sorted by day and period, or why there are none to show. */
    method DisplayTeacherTimetable(teacherId: string) returns (d: Display)
      ensures d.NotFound? <==> teacherId !in teachers
      ensures d.NotFound? ==> d.id == teacherId
      ensures d.NoEntries? <==> teacherId in teachers && EntriesForTeacher(teacherId) == []
      ensures d.NoEntries? ==> d.id == teacherId
      ensures d.Listing? ==> teacherId in teachers && d.title == teachers[teacherId].name
      ensures d.Listing? ==> d.lines == Render(Names(), SortByDayPeriod(EntriesForTeacher(teacherId)), TeacherView, None)
      ensures d.Listing? ==> Ordered(SlotEntries(d.lines))
      ensures d.Listing? ==> multiset(SlotEntries(d.lines)) == multiset(EntriesForTeacher(teacherId))
      ensures d.Listing? ==> forall k ::
        Filter(SlotEntries(d.lines), SameKeyAs(k)) == Filter(EntriesForTeacher(teacherId), SameKeyAs(k))
      ensures d.Listing? ==> StrictlyIncreasing(Headings(d.lines))
      ensures d.Listing? ==> forall day ::
        day in Headings(d.lines) <==> exists e :: e in EntriesForTeacher(teacherId) && e.day == day
    {
      if teacherId !in teachers {
        return NotFound(teacherId);
      }
      var selected := EntriesForTeacher(teacherId);
      if selected == [] {
        return NoEntries(teacherId);
      }
      var sorted := SortByDayPeriod(selected);
      var lines := RenderLines(Names(), sorted, TeacherView);
      ShownSorted(Names(), selected, TeacherView);
      ShownHeadings(Names(), selected, TeacherView);
      d := Listing(teachers[teacherId].name, lines);
    }
  }
}
