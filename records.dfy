/**
 * The value records of the timetable: days, time slots, the reference data
 * kept in the registries, and the schedule entries themselves.
 */
module Records {

  datatype Option<T> = None | Some(value: T)

  /** The five school days. The ordinal is the enum value, used as the primary sort key. */
  datatype DayOfWeek = Monday | Tuesday | Wednesday | Thursday | Friday {

    function Ordinal(): (n: nat)
      ensures n < 5
    {
      match this
      case Monday => 0
      case Tuesday => 1
      case Wednesday => 2
      case Thursday => 3
      case Friday => 4
    }
  }

  /** Two days with the same ordinal are the same day, so ordering by ordinal is ordering by day. */
  lemma OrdinalInjective(a: DayOfWeek, b: DayOfWeek)
    ensures a.Ordinal() == b.Ordinal() <==> a == b
  {
  }

  /** A period of the school day; the times are opaque labels. */
  datatype TimeSlot = TimeSlot(period: int, startTime: string, endTime: string)

  datatype Subject = Subject(code: string, name: string)

  datatype Teacher = Teacher(id: string, name: string, subjects: seq<string>)

  datatype SchoolClass = SchoolClass(id: string, name: string, studentsCount: int)

  /** One booking: the class meets the subject with the teacher on the day, in the slot. */
  datatype Entry = Entry(
    day: DayOfWeek,
    slot: TimeSlot,
    classId: string,
    subjectCode: string,
    teacherId: string,
    room: Option<string>)

  /** The two entries fall on the same day and period. */
  predicate SameSlot(a: Entry, b: Entry) {
    a.day == b.day && a.slot.period == b.slot.period
  }
}
