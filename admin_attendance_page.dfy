/** The admin attendance page: student list, the mark-attendance sheet and its submit. */
module AdminAttendancePage {
  import opened Wrappers
  import opened Types

  /** One line of the sheet: a student and the status chosen for them. */
  datatype Row = Row(userId: int, status: AttendanceStatus)

  /**
   * `attendanceFormData`. `courseId` is `None` for `''` and for a `NaN`
   * from `parseInt`; both are falsy, as is 0.
   */
  datatype Sheet = Sheet(courseId: Option<int>, date: string, rows: seq<Row>)

  /** The argument of one `markAttendance` call. */
  datatype MarkRequest = MarkRequest(courseId: int, date: string, userId: int, status: AttendanceStatus)

  /** `users.filter(u => u.role === UserRole.STUDENT)`. */
  function StudentsOnly(users: seq<User>): (students: seq<User>)
    ensures |students| <= |users|
    ensures forall u :: u in students <==> u in users && HasRole(u, Student)
  {
    if users == [] then []
    else
      assert users == [users[0]] + users[1..];
      (if HasRole(users[0], Student) then [users[0]] else []) + StudentsOnly(users[1..])
  }

  /** The filter keeps every student as often as it occurs, and nobody else. */
  lemma {:induction false} StudentsOnlyCount(users: seq<User>, u: User)
    ensures multiset(StudentsOnly(users))[u] == if HasRole(u, Student) then multiset(users)[u] else 0
  {
    if users != [] {
      assert users == [users[0]] + users[1..];
      StudentsOnlyCount(users[1..], u);
    }
  }

  /** `students.map(...)`: one PRESENT row per student, in student order. */
  function InitialRows(students: seq<User>): (rows: seq<Row>)
    ensures |rows| == |students|
    ensures forall i :: 0 <= i < |rows| ==> rows[i] == Row(students[i].id, Present)
  {
    seq(|students|, i requires 0 <= i < |students| => Row(students[i].id, Present))
  }

  /** The row update of `handleAttendanceFormChange`. */
  function WithStatus(rows: seq<Row>, userId: int, status: AttendanceStatus): (updated: seq<Row>)
    ensures |updated| == |rows|
    ensures forall i :: 0 <= i < |rows| && rows[i].userId == userId ==> updated[i] == Row(userId, status)
    ensures forall i :: 0 <= i < |rows| && rows[i].userId != userId ==> updated[i] == rows[i]
  {
    seq(|rows|, i requires 0 <= i < |rows| =>
      if rows[i].userId == userId then rows[i].(status := status) else rows[i])
  }

  /** An id that is on no row changes nothing. */
  lemma UnknownStudentUnchanged(rows: seq<Row>, userId: int, status: AttendanceStatus)
    requires forall i :: 0 <= i < |rows| ==> rows[i].userId != userId
    ensures WithStatus(rows, userId, status) == rows
  {
  }

  /** The last status chosen for a student is the one that stays. */
  lemma LastChoiceWins(rows: seq<Row>, userId: int, first: AttendanceStatus, second: AttendanceStatus)
    ensures WithStatus(WithStatus(rows, userId, first), userId, second) == WithStatus(rows, userId, second)
  {
  }

  /** Choices for two different students do not interfere. */
  lemma ChoicesCommute(rows: seq<Row>, a: int, sa: AttendanceStatus, b: int, sb: AttendanceStatus)
    requires a != b
    ensures WithStatus(WithStatus(rows, a, sa), b, sb) == WithStatus(WithStatus(rows, b, sb), a, sa)
  {
  }

  /** The batch: one request per row, with the sheet's course and date. */
  function MarkRequests(courseId: int, date: string, rows: seq<Row>): (requests: seq<MarkRequest>)
    ensures |requests| == |rows|
    ensures forall i :: 0 <= i < |rows| ==>
      requests[i] == MarkRequest(courseId, date, rows[i].userId, rows[i].status)
  {
    seq(|rows|, i requires 0 <= i < |rows| => MarkRequest(courseId, date, rows[i].userId, rows[i].status))
  }

  /**
   * A sheet opened for `students` and submitted after marking `userId` with
   * `status` asks for that status for that student and PRESENT for the rest.
   */
  lemma MarkedSheetRequests(students: seq<User>, courseId: int, date: string, userId: int, status: AttendanceStatus)
    ensures var requests := MarkRequests(courseId, date, WithStatus(InitialRows(students), userId, status));
      |requests| == |students| &&
      forall i :: 0 <= i < |students| ==>
        requests[i].userId == students[i].id && requests[i].courseId == courseId && requests[i].date == date &&
        requests[i].status == (if students[i].id == userId then status else Present)
  {
  }

  /** `results.some(res => !res.success)`. */
  predicate AnyFailed(results: seq<ApiResponse<Attendance>>): (b: bool)
    ensures b ==> |results| > 0
    ensures !b <==> forall i :: 0 <= i < |results| ==> results[i].success
  {
    exists i :: 0 <= i < |results| && !results[i].success
  }

  class AttendancePage {
    var students: seq<User>
    var courses: seq<Course>
    var loading: bool
    var error: Option<string>
    var message: Option<string>
    var filterCourseId: string
    var filterDate: string
    var isModalOpen: bool
    var sheet: Sheet

    /** The initial state; `today` stands for the date the clock gives. */
    constructor (today: string)
      ensures students == [] && courses == [] && loading && error == None && message == None
      ensures filterCourseId == "" && filterDate == today && !isModalOpen
      ensures sheet == Sheet(None, today, [])
    {
      students := [];
      courses := [];
      loading := true;
      error := None;
      message := None;
      filterCourseId := "";
      filterDate := today;
      isModalOpen := false;
      sheet := Sheet(None, today, []);
    }

    /** `fetchInitialData`: keeps only the students; the course failure is written last. */
    method FetchInitialData(studentsRes: ApiResponse<seq<User>>, coursesRes: ApiResponse<seq<Course>>)
      modifies this
      ensures students == if HasData(studentsRes) then StudentsOnly(studentsRes.data.value) else old(students)
      ensures courses == if HasData(coursesRes) then coursesRes.data.value else old(courses)
      ensures error ==
        if !HasData(coursesRes) then Some(OrDefault(coursesRes.message, "Failed to fetch courses."))
        else if !HasData(studentsRes) then Some(OrDefault(studentsRes.message, "Failed to fetch students."))
        else None
      ensures !loading
      ensures message == old(message) && isModalOpen == old(isModalOpen) && sheet == old(sheet)
      ensures filterCourseId == old(filterCourseId) && filterDate == old(filterDate)
    {
      loading := true;
      error := None;
      if HasData(studentsRes) {
        students := StudentsOnly(studentsRes.data.value);
      } else {
        error := Some(OrDefault(studentsRes.message, "Failed to fetch students."));
      }
      if HasData(coursesRes) {
        courses := coursesRes.data.value;
      } else {
        error := Some(OrDefault(coursesRes.message, "Failed to fetch courses."));
      }
      loading := false;
    }

    /**
     * `openMarkAttendanceModal`: without both filters only an error is set;
     * otherwise a fresh sheet for the filtered course and date is opened.
     */
    method OpenMarkAttendanceModal(parseInt: string -> Option<int>)
      modifies this
      ensures filterCourseId == "" || filterDate == "" ==>
        error == Some("Please select a course and date to mark attendance.") &&
        sheet == old(sheet) && isModalOpen == old(isModalOpen)
      ensures filterCourseId != "" && filterDate != "" ==>
        sheet == Sheet(parseInt(filterCourseId), filterDate, InitialRows(students)) &&
        isModalOpen && error == old(error)
      ensures students == old(students) && courses == old(courses) && loading == old(loading)
      ensures message == old(message)
      ensures filterCourseId == old(filterCourseId) && filterDate == old(filterDate)
    {
      if filterCourseId == "" || filterDate == "" {
        error := Some("Please select a course and date to mark attendance.");
        return;
      }
      sheet := Sheet(parseInt(filterCourseId), filterDate, InitialRows(students));
      isModalOpen := true;
    }

    /** `handleAttendanceFormChange`: only the rows of `userId` change. */
    method HandleAttendanceFormChange(userId: int, status: AttendanceStatus)
      modifies this
      ensures sheet == old(sheet).(rows := WithStatus(old(sheet).rows, userId, status))
      ensures students == old(students) && courses == old(courses) && loading == old(loading)
      ensures error == old(error) && message == old(message) && isModalOpen == old(isModalOpen)
      ensures filterCourseId == old(filterCourseId) && filterDate == old(filterDate)
    {
      sheet := sheet.(rows := WithStatus(sheet.rows, userId, status));
    }

    /**
     * `handleMarkAttendanceSubmit`: without course or date, an error and no
     * calls; otherwise one `markAttendance` per row, then all-or-nothing:
     * any failure leaves the modal open with an error, full success closes
     * it, sets the message and asks for the records to be refetched.
     */
    method HandleMarkAttendanceSubmit(markAttendance: MarkRequest -> ApiResponse<Attendance>)
      returns (requests: seq<MarkRequest>, refetch: bool)
      modifies this
      ensures !CourseSelected(old(sheet).courseId) || old(sheet).date == "" ==>
        requests == [] && !refetch && error == Some("Course and date are required.") &&
        message == None && isModalOpen == old(isModalOpen)
      ensures CourseSelected(old(sheet).courseId) && old(sheet).date != "" ==>
        requests == MarkRequests(old(sheet).courseId.value, old(sheet).date, old(sheet).rows)
      ensures CourseSelected(old(sheet).courseId) && old(sheet).date != "" ==>
        (refetch <==> forall i :: 0 <= i < |requests| ==> markAttendance(requests[i]).success)
      ensures CourseSelected(old(sheet).courseId) && old(sheet).date != "" && !refetch ==>
        error == Some("Some attendance records failed to update.") && message == None &&
        isModalOpen == old(isModalOpen)
      ensures refetch ==>
        message == Some("Attendance marked successfully!") && error == None && !isModalOpen
      ensures !loading
      ensures sheet == old(sheet) && students == old(students) && courses == old(courses)
      ensures filterCourseId == old(filterCourseId) && filterDate == old(filterDate)
    {
      loading := true;
      message := None;
      error := None;
      if !CourseSelected(sheet.courseId) || sheet.date == "" {
        error := Some("Course and date are required.");
        loading := false;
        return [], false;
      }
      requests := MarkRequests(sheet.courseId.value, sheet.date, sheet.rows);
      var results := seq(|requests|, i requires 0 <= i < |requests| => markAttendance(requests[i]));
      assert forall i :: 0 <= i < |results| ==> results[i] == markAttendance(requests[i]);
      if AnyFailed(results) {
        error := Some("Some attendance records failed to update.");
        refetch := false;
      } else {
        message := Some("Attendance marked successfully!");
        isModalOpen := false;
        refetch := true;
      }
      loading := false;
    }
  }
}
