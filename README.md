# School timetable engine

This project models the `Timetable` class of a small school-timetable
application (`timetable.py`) and the records it stores. The records are days,
time slots, subjects, teachers, classes and timetable entries. The model
covers these operations:

- the registries of subjects, teachers, classes and time slots;
- the conflict gate, which rejects an entry whose teacher or class is already
  booked on that day and period;
- removal of the first matching entry;
- the per-class, per-teacher and per-day queries;
- the full-scan validator;
- the control flow and ordering of the class and teacher timetable displays.

Modules:

- `Records`: the value records, as datatypes.
- `Conflicts`: the clash rule. The entry list after an add (`Admit`) and after
  a removal (`Removed`), as functions. A replay of any sequence of adds and
  removals.
- `Queries`: an order-keeping `Filter` and the selectors the queries use.
- `Validation`: the validator's output as a function of the entry list.
- `Ordering`: the display order, a stable sort by (day ordinal, period).
- `Rendering`: what a display returns, without its text layout. The result is
  `NotFound`, `NoEntries`, or a title and rows. The rows are day headings and
  slot lines with the names resolved. The display loop itself is the method
  `RenderLines`.
- `Timetables`: the `Timetable` class. Its fields are the entry list (a
  `seq`), the three registries (`map`s keyed by code or id) and the slot list.
  The methods update these fields in place. Each method is proved against the
  functions above.
- `Scenarios`: the `TestTimetable` scenarios as client methods, plus validator
  and display cases of our own (`TwoEntryErrors`, `ForcedConflicts`,
  `OneEntryShown`, `ShowMissing`). Each outcome is stated in the method's
  postcondition.

The entry list is a public attribute in the original, so callers can change it
directly. Conflict-freedom is therefore not a class invariant here. Instead,
every mutating method preserves it (`ConflictFree(old(entries)) ==>
ConflictFree(entries)`). `Conflicts.ReplayConflictFree` proves that any list
built only through `add_entry` and `remove_entry` is conflict-free, and
`Validation.ReplayValidates` proves that `validate` then returns `[]`.

## Model

| member | source | states |
|---|---|---|
| Records.DayOfWeek.Ordinal | timetable.py:11-17 | the enum value of a day, 0 for Monday up to 4 for Friday |
| Records.SameSlot | timetable.py:122 | definition: the two entries fall on the same day and period (shared by the clash rule and the sort key) |
| Records.OrdinalInjective | timetable.py:11-17 | two days have the same enum value exactly when they are the same day |
| Conflicts.Clash | timetable.py:122-128 | definition of the conflict test: same day and period, and the same teacher or the same class |
| Conflicts.ConflictsWith | timetable.py:121-129 | definition of what `has_conflict` decides: some stored entry clashes with the candidate |
| Conflicts.ConflictFree | timetable.py:218-233 | definition of the property `validate` checks: no two entries at positions i < j clash |
| Conflicts.Admit | timetable.py:104-112 | definition of the entry list after `add_entry`: unchanged on a conflict, otherwise the entry appended |
| Conflicts.AppendConflictFree | timetable.py:104-129 | appending keeps a list conflict-free exactly when the list was conflict-free and no stored entry clashes with the new one |
| Conflicts.AdmitKeepsConflictFree | timetable.py:104-112 | the list after `add_entry` is conflict-free whenever the list before was |
| Conflicts.Matches | timetable.py:134-136 | definition of the entry `remove_entry` looks for: the given day, period and class |
| Conflicts.FirstMatch | timetable.py:133-136 | returns an index whose entry matches the day, period and class and before which no entry matches; returns none only when no entry matches |
| Conflicts.RemoveAt | timetable.py:137 | the list is one shorter, the entries before the index are unchanged, those after it move up by one, and the multiset loses exactly the popped entry |
| Conflicts.Removed | timetable.py:131-139 | definition of the entry list after `remove_entry`: the first match popped, or the list unchanged |
| Conflicts.RemoveAtKeepsConflictFree | timetable.py:137 | dropping one entry from a conflict-free list keeps it conflict-free |
| Conflicts.RemovedKeepsConflictFree | timetable.py:131-139 | `remove_entry` keeps a conflict-free list conflict-free |
| Conflicts.ReAddAfterRemoveAt | timetable.py:114-139 | once an entry is removed from a conflict-free list, an entry with its day, period, teacher and class no longer conflicts |
| Conflicts.RemoveThenReAdd | timetable.py:104-139 | in a conflict-free list, removing the first matching entry and adding it back succeeds, and the entry goes to the end of the list (without conflict-freedom the re-add can clash with another entry) |
| Conflicts.Step | timetable.py:104-139 | definition of one call that changes the entry list: `add_entry` or `remove_entry` |
| Conflicts.Replay | timetable.py:81-139 | definition of the entry list of a new timetable after a sequence of adds and removals |
| Conflicts.ReplayConflictFree | timetable.py:104-139 | every list reached from the empty one by any sequence of adds and removals is conflict-free |
| Queries.Filter | timetable.py:143 | the filter is no longer than its input |
| Queries.FilterMembers | timetable.py:141-151 | an element is kept exactly when it occurs in the input and satisfies the predicate, and it is kept as often as it occurs |
| Queries.FilterConcat | timetable.py:141-151 | filtering distributes over concatenation, so the filter keeps the input's order |
| Validation.PairErrors | timetable.py:221-233 | a pair yields no message exactly when the entries do not clash, and at most two messages |
| Validation.PairErrorsMembers | timetable.py:221-233 | a pair yields a teacher message exactly when it shares day, period and teacher, and a class message exactly when it shares day, period and class; with both, the teacher message comes first; the id, day and period are those of the pair |
| Validation.RowErrors | timetable.py:220-233 | definition of the inner loop's output for entry i: the messages of the pairs (i, k) for k after i, in order of k |
| Validation.Rows | timetable.py:219-233 | definition of the outer loop's output after n rows, in lexicographic order of the pairs |
| Validation.ValidationErrors | timetable.py:213-236 | definition of what `validate` returns: the rows for every entry, with `PairErrors` as the per-pair messages |
| Validation.RowStep | timetable.py:219-233 | the inner loop's step: the messages of pair (i, j) follow those of the pairs before it, for any per-pair message function |
| Validation.RowErrorsMembers | timetable.py:220-233 | a row's messages are exactly those of the pairs (i, k) with k after i |
| Validation.RowsMembers | timetable.py:219-233 | the first n rows' messages are exactly those of the pairs whose first index is below n |
| Validation.ValidationErrorsMembers | timetable.py:213-236 | a message is reported exactly when some pair i < j of entries produces it |
| Validation.ValidationEmptyIffConflictFree | timetable.py:213-236 | `validate` returns the empty list exactly when no two entries clash |
| Validation.ReplayValidates | timetable.py:104-236 | a timetable built only through `add_entry` and `remove_entry` validates clean |
| Ordering.KeyLe | timetable.py:163 | definition of the sort key order: (day value, period), lexicographically |
| Ordering.Ordered | timetable.py:163 | definition of a list sorted by that key |
| Ordering.Insert | timetable.py:163 | insertion adds exactly one copy of the element |
| Ordering.InsertOrdered | timetable.py:163 | inserting into a list ordered by (day, period) keeps it ordered |
| Ordering.SortByDayPeriod | timetable.py:163 | the result is ordered by (day ordinal, period) and is a permutation of the input |
| Ordering.InsertStable | timetable.py:163 | among entries with one key, insertion places the new entry before all of them |
| Ordering.SortStable | timetable.py:162-163 | the sort is stable: the entries sharing any one key come out in their input order |
| Rendering.RoomLabel | timetable.py:177 | a missing or empty room shows as "TBA", any other room as itself |
| Rendering.LineFor | timetable.py:174-179 | the row shows the entry, its subject's name, the teacher's name (class view) or the class's name (teacher view), with "Unknown" for an unregistered key |
| Rendering.Render | timetable.py:167-179 | definition of the display's rows: a heading whenever an entry's day differs from the previous entry's, then the entry's slot line |
| Rendering.RenderLines | timetable.py:167-179 | the display loop produces exactly the rows `Render` describes: a heading whenever the day differs from the previous entry's, then the slot line |
| Rendering.RenderStep | timetable.py:168-179 | one loop step: when the next entry's day differs from the current day, its heading is appended and then its slot line; otherwise only its slot line; the current day becomes its day |
| Rendering.SlotEntriesConcat | timetable.py:167-179 | the entries shown by concatenated rows are the concatenation of those shown by each part |
| Rendering.HeadingsConcat | timetable.py:167-179 | the headings of concatenated rows are the concatenation of each part's |
| Rendering.EntriesFirst | timetable.py:168-179 | the first entry's slot line comes before those of the rest |
| Rendering.HeadingsFirst | timetable.py:169-172 | a heading for the first entry comes first exactly when its day differs from the previous one |
| Rendering.RenderEntries | timetable.py:168-179 | the rows show every entry exactly once, in the given order |
| Rendering.HeadingDays | timetable.py:168-172 | definition of the days that get a heading: each entry's day when it differs from the previous entry's |
| Rendering.RenderHeadings | timetable.py:168-172 | the headings of the rows are exactly the heading days: each entry's day when it differs from the previous entry's |
| Rendering.HeadingDaysCover | timetable.py:168-172 | a day gets a heading, or is the previous day, exactly when some entry falls on it or it is the previous day |
| Rendering.OrderedTail | timetable.py:163 | the tail of a sorted list is sorted, and its first day is no earlier than the head's |
| Rendering.HeadingDaysAfter | timetable.py:168-172 | over entries in day order starting no earlier than the previous day, every heading is for a later day |
| Rendering.HeadingDaysIncrease | timetable.py:163-172 | over entries in day order, the heading days strictly increase, so no day is headed twice |
| Rendering.PermutationDays | timetable.py:163 | a permutation of the entries falls on exactly the same days |
| Rendering.ShownSorted | timetable.py:158-179 | the displayed entries are ordered by (day, period), are a permutation of the selected entries, and keep the selected order within each key |
| Rendering.ShownHeadings | timetable.py:163-172 | the display has one heading per day that has an entry, in increasing day order |
| Timetables.Timetable.constructor | timetable.py:81-86 | a new timetable has empty registries, no slots and no entries |
| Timetables.Timetable.AddSubject | timetable.py:88-90 | the subject is stored under its code, replacing any earlier one |
| Timetables.Timetable.AddTeacher | timetable.py:92-94 | the teacher is stored under its id, replacing any earlier one |
| Timetables.Timetable.AddClass | timetable.py:96-98 | the class is stored under its id, replacing any earlier one |
| Timetables.Timetable.AddTimeSlot | timetable.py:100-102 | the slot is appended to the slot list |
| Timetables.Timetable.HasConflict | timetable.py:114-129 | true exactly when some stored entry has the same day and period and the same teacher or class |
| Timetables.Timetable.AddEntry | timetable.py:104-112 | returns false and leaves the entries unchanged on a conflict; otherwise returns true and appends the entry; conflict-freedom is preserved |
| Timetables.Timetable.RemoveEntry | timetable.py:131-139 | returns true exactly when some entry matches the day, period and class; removes the first match only, keeping the others in order; conflict-freedom is preserved |
| Timetables.Timetable.EntriesForClass | timetable.py:141-143 | the class's entries, with exactly the multiplicities they have in the entry list |
| Timetables.Timetable.EntriesForTeacher | timetable.py:145-147 | the teacher's entries, with exactly the multiplicities they have in the entry list |
| Timetables.Timetable.EntriesForDay | timetable.py:149-151 | the day's entries, with exactly the multiplicities they have in the entry list |
| Timetables.Timetable.Validate | timetable.py:213-236 | returns the messages of every clashing pair i < j in lexicographic order, teacher before class; empty exactly when no two entries clash |
| Timetables.Timetable.CheckPair | timetable.py:221-233 | the inner loop's body yields exactly the messages `PairErrors` gives for the pair |
| Timetables.Timetable.DisplayClassTimetable | timetable.py:153-181 | not found exactly when the class is unregistered; no entries exactly when it is registered but has none; otherwise its name as the title and its entries sorted stably by (day, period), with one heading per day that has an entry, in increasing order |
| Timetables.Timetable.DisplayTeacherTimetable | timetable.py:183-211 | the same for a teacher: not found, no entries, or its name and its entries in (day, period) order with one heading per day |
| Scenarios.Fixture | test_timetable.py:73-91 | the fixture holds two subjects, two teachers, two classes, two periods and no entries |
| Scenarios.RegisterSubject | test_timetable.py:93-98 | a subject added later is found under its code |
| Scenarios.RegisterTeacher | test_timetable.py:100-105 | a teacher added later is found under its id with the name "Dr. Brown" |
| Scenarios.RegisterClass | test_timetable.py:107-112 | a class added later is found under its id with the name "Grade 10A" |
| Scenarios.AddFirstEntry | test_timetable.py:114-126 | the first entry is accepted and the list holds one entry |
| Scenarios.TeacherClashRejected | test_timetable.py:128-152 | a second booking of the teacher in the same period is refused and the list keeps one entry |
| Scenarios.ClassClashRejected | test_timetable.py:154-178 | a second lesson for the class in the same period is refused and the list keeps one entry |
| Scenarios.NoConflict | test_timetable.py:180-204 | bookings in different periods are both accepted |
| Scenarios.RemoveOnly | test_timetable.py:206-220 | removing the only entry succeeds and empties the list |
| Scenarios.RemoveMissing | test_timetable.py:222-225 | removing from an empty list reports false |
| Scenarios.ClassQuery | test_timetable.py:227-256 | the class query returns the class's two entries in insertion order |
| Scenarios.TeacherQuery | test_timetable.py:258-287 | the teacher query returns the teacher's two entries in insertion order |
| Scenarios.DayQuery | test_timetable.py:289-311 | the day query returns only Monday's entry |
| Scenarios.ValidTimetable | test_timetable.py:313-334 | a timetable built through the gate validates to no messages |
| Scenarios.TwoEntryErrors | timetable.py:218-233 | for two entries, validation reports exactly the messages of their one pair |
| Scenarios.ForcedConflicts | timetable.py:216-233 | entries placed in the list directly are reported: one teacher message, or a teacher and then a class message |
| Scenarios.OneEntryShown | timetable.py:163-179 | a single entry is shown under a heading for its day |
| Scenarios.ShowClass | test_timetable.py:336-351 | the class display has the class name, the Monday heading, and the row with the subject and teacher names |
| Scenarios.ShowTeacher | test_timetable.py:353-368 | the teacher display has the teacher's name, the Monday heading, and the row with the subject and class names |
| Scenarios.ShowMissing | timetable.py:155-160 | an unregistered class is not found; a registered class without entries has none |

## Left out

- The exact text of the displays is not modelled: the separators, padding,
  `TimeSlot.__str__` and the joined string. A display returns a `Display`
  value with the title and the rows.
- The validator's message strings are `ValidationError` values. Each carries
  its kind, the id, the day and the period, taken from the earlier entry of
  the pair.
- `Ordering.SortByDayPeriod`: the host language's built-in list sort is
  modelled as a pure stable insertion sort. Only its result is specified:
  ordered, a permutation, and stable. The original has no loop of its own
  here.
- The `__str__` methods of the records are left out, since they are only
  presentation.
- The dataclass defaults are not modelled: `Teacher.subjects = []`,
  `SchoolClass.students_count = 0` and `TimetableEntry.room = None`. Every
  record is built with all its fields, and the core never relies on a default.
- The record tests of `test_timetable.py` (`TestTimeSlot`, `TestSubject`,
  `TestTeacher`, `TestSchoolClass`) have no scenario here. They check that a
  constructor stores its arguments, which a datatype constructor does by
  definition, or they test `__str__` and the defaults, both left out above.
- Start and end times are opaque strings. They are never parsed or compared.
- Registry integrity is not modelled because the original does not check it.
  An entry may name an unregistered subject, teacher or class. The displays
  then show "Unknown".
- Python object identity is not modelled. Entries are values, and `pop(i)`
  removes by position, which the model follows.
- The command-line front end `main.py` is not part of this model.
