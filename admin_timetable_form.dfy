/** The add/edit form of a timetable entry: its reset/prefill effect and submit. */
module AdminTimetableForm {
  import opened Wrappers
  import opened Types
  import opened Timetable

  /**
   * The four inputs. `courseId` is `None` for the empty selection `''`;
   * picking the placeholder option again stores `Number('')`, which is 0.
   */
  datatype Fields = Fields(courseId: Option<int>, dayOfWeek: string, startTime: string, endTime: string)

  /** The fields after the effect on `entry` has run. */
  function Prefilled(entry: Option<TimetableEntry>): (f: Fields)
    ensures entry.None? ==> f == Fields(None, "Monday", "09:00", "10:00")
    ensures entry.Some? ==>
      f.courseId == Some(entry.value.courseId) && f.dayOfWeek == entry.value.dayOfWeek &&
      f.startTime == entry.value.startTime && f.endTime == entry.value.endTime
  {
    match entry
    case None => Fields(None, DaysOfWeek[0], "09:00", "10:00")
    case Some(e) => Fields(Some(e.courseId), e.dayOfWeek, e.startTime, e.endTime)
  }

  /** What `handleSubmit` hands to `onSubmit`, or `None` when it alerts instead. */
  function Submission(f: Fields): (payload: Option<TimetableDraft>)
    ensures payload.None? <==> !CourseSelected(f.courseId)
    ensures payload.Some? ==>
      payload.value.courseId == f.courseId.value && payload.value.dayOfWeek == f.dayOfWeek &&
      payload.value.startTime == f.startTime && payload.value.endTime == f.endTime
  {
    if !CourseSelected(f.courseId) then None
    else Some(TimetableDraft(f.courseId.value, f.dayOfWeek, f.startTime, f.endTime))
  }

  /** Editing an entry and submitting unchanged sends that entry's data back. */
  lemma PrefillThenSubmit(entry: TimetableEntry)
    ensures entry.courseId != 0 ==>
      Submission(Prefilled(Some(entry))) ==
        Some(TimetableDraft(entry.courseId, entry.dayOfWeek, entry.startTime, entry.endTime))
    ensures entry.courseId == 0 ==> Submission(Prefilled(Some(entry))) == None
  {
  }

  /** A fresh form cannot be submitted until a course is picked; its day is a listed one. */
  lemma ResetBlocksSubmit()
    ensures Submission(Prefilled(None)) == None
    ensures Prefilled(None).dayOfWeek in DaysOfWeek
    ensures DayIndex(Prefilled(None).dayOfWeek) == 0
  {
  }

  /** The day select offers exactly the weekdays the timetable ranks. */
  function DayChoices(): (days: seq<string>)
    ensures |days| == 7
    ensures forall k :: 0 <= k < 7 ==> DayIndex(days[k]) == k
  {
    DaysDistinct();
    DaysOfWeek
  }

  class TimetableForm {
    var courseId: Option<int>
    var dayOfWeek: string
    var startTime: string
    var endTime: string

    function Current(): Fields
      reads this
    {
      Fields(courseId, dayOfWeek, startTime, endTime)
    }

    constructor ()
      ensures Current() == Prefilled(None)
    {
      courseId := None;
      dayOfWeek := DaysOfWeek[0];
      startTime := "09:00";
      endTime := "10:00";
    }

    /** The `useEffect` on `entry`: four assignments, from the entry or the defaults. */
    method Prefill(entry: Option<TimetableEntry>)
      modifies this
      ensures Current() == Prefilled(entry)
    {
      if entry.Some? {
        courseId := Some(entry.value.courseId);
        dayOfWeek := entry.value.dayOfWeek;
        startTime := entry.value.startTime;
        endTime := entry.value.endTime;
      } else {
        courseId := None;
        dayOfWeek := DaysOfWeek[0];
        startTime := "09:00";
        endTime := "10:00";
      }
    }

    /** `handleSubmit`: the payload passed to `onSubmit`, if any. */
    method HandleSubmit() returns (payload: Option<TimetableDraft>)
      ensures payload == Submission(Current())
      ensures payload.None? <==> !CourseSelected(courseId)
    {
      if courseId.None? || courseId.value == 0 {
        return None;
      }
      payload := Some(TimetableDraft(courseId.value, dayOfWeek, startTime, endTime));
    }
  }
}
