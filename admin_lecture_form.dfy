/** The add/edit form of a lecture: its reset/prefill effect and submit. */
module AdminLectureForm {
  import opened Wrappers
  import opened Types

  /** The six inputs; `courseId` is `None` for the empty selection `''`. */
  datatype Fields = Fields(
    courseId: Option<int>,
    title: string,
    description: string,
    videoUrl: string,
    duration: string,
    isPreview: bool)

  /** The data of a lecture without its id, as the form submits it. */
  datatype LectureDraft = LectureDraft(
    courseId: int,
    title: string,
    description: Option<string>,
    videoUrl: string,
    duration: Option<string>,
    isPreview: bool)

  /** `text || undefined`: the empty string is not sent. */
  function Optional(text: string): (o: Option<string>)
    ensures o.None? <==> text == ""
    ensures o.Some? ==> o.value == text
  {
    if text == "" then None else Some(text)
  }

  /** The fields after the effect on `lecture` has run. */
  function Prefilled(lecture: Option<Lecture>): (f: Fields)
    ensures lecture.None? ==> f == Fields(None, "", "", "", "", false)
    ensures lecture.Some? ==>
      f.courseId == Some(lecture.value.courseId) && f.title == lecture.value.title &&
      f.videoUrl == lecture.value.videoUrl && f.isPreview == lecture.value.isPreview
    ensures lecture.Some? ==>
      (f.description == "" <==> !Truthy(lecture.value.description)) &&
      (Truthy(lecture.value.description) ==> f.description == lecture.value.description.value)
    ensures lecture.Some? ==>
      (f.duration == "" <==> !Truthy(lecture.value.duration)) &&
      (Truthy(lecture.value.duration) ==> f.duration == lecture.value.duration.value)
  {
    match lecture
    case None => Fields(None, "", "", "", "", false)
    case Some(l) =>
      Fields(Some(l.courseId), l.title, OrDefault(l.description, ""), l.videoUrl,
             OrDefault(l.duration, ""), l.isPreview)
  }

  /** What `handleSubmit` hands to `onSubmit`, or `None` when it alerts instead. */
  function Submission(f: Fields): (payload: Option<LectureDraft>)
    ensures payload.None? <==> !CourseSelected(f.courseId)
    ensures payload.Some? ==>
      payload.value.courseId == f.courseId.value && payload.value.title == f.title &&
      payload.value.videoUrl == f.videoUrl && payload.value.isPreview == f.isPreview
    ensures payload.Some? ==>
      (payload.value.description.None? <==> f.description == "") &&
      (payload.value.duration.None? <==> f.duration == "")
    ensures payload.Some? && f.description != "" ==> payload.value.description == Some(f.description)
    ensures payload.Some? && f.duration != "" ==> payload.value.duration == Some(f.duration)
  {
    if !CourseSelected(f.courseId) then None
    else Some(LectureDraft(f.courseId.value, f.title, Optional(f.description), f.videoUrl,
                           Optional(f.duration), f.isPreview))
  }

  /** A truthy optional text is kept, anything else becomes undefined. */
  function Normalised(o: Option<string>): (n: Option<string>)
    ensures Truthy(o) ==> n == o
    ensures !Truthy(o) ==> n == None
  {
    if Truthy(o) then o else None
  }

  /**
   * Editing a lecture and submitting unchanged sends that lecture's data
   * back, with a missing or empty description or duration left undefined.
   */
  lemma PrefillThenSubmit(l: Lecture)
    ensures l.courseId != 0 ==>
      Submission(Prefilled(Some(l))) ==
        Some(LectureDraft(l.courseId, l.title, Normalised(l.description), l.videoUrl,
                          Normalised(l.duration), l.isPreview))
    ensures l.courseId == 0 ==> Submission(Prefilled(Some(l))) == None
  {
  }

  lemma ResetBlocksSubmit()
    ensures Submission(Prefilled(None)) == None
  {
  }

  class LectureForm {
    var courseId: Option<int>
    var title: string
    var description: string
    var videoUrl: string
    var duration: string
    var isPreview: bool

    function Current(): Fields
      reads this
    {
      Fields(courseId, title, description, videoUrl, duration, isPreview)
    }

    constructor ()
      ensures Current() == Prefilled(None)
    {
      courseId := None;
      title := "";
      description := "";
      videoUrl := "";
      duration := "";
      isPreview := false;
    }

    /** The `useEffect` on `lecture`: six assignments, from the lecture or the defaults. */
    method Prefill(lecture: Option<Lecture>)
      modifies this
      ensures Current() == Prefilled(lecture)
    {
      if lecture.Some? {
        var l := lecture.value;
        courseId := Some(l.courseId);
        title := l.title;
        description := OrDefault(l.description, "");
        videoUrl := l.videoUrl;
        duration := OrDefault(l.duration, "");
        isPreview := l.isPreview;
      } else {
        courseId := None;
        title := "";
        description := "";
        videoUrl := "";
        duration := "";
        isPreview := false;
      }
    }

    /** `handleSubmit`: the payload passed to `onSubmit`, if any. */
    method HandleSubmit() returns (payload: Option<LectureDraft>)
      ensures payload == Submission(Current())
      ensures payload.None? <==> !CourseSelected(courseId)
    {
      if courseId.None? || courseId.value == 0 {
        return None;
      }
      payload := Some(LectureDraft(courseId.value, title, Optional(description), videoUrl,
                                   Optional(duration), isPreview));
    }
  }
}
