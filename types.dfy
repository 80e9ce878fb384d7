/** The records and enums of types.ts that the model uses. */
module Types {
  import opened Wrappers

  /** UserRole; `Tag` is the string value each enum member stands for. */
  datatype UserRole = SuperAdmin | Staff | Student {

    function Tag(): string {
      match this
      case SuperAdmin => "super_admin"
      case Staff => "staff"
      case Student => "student"
    }
  }

  /** The tags of a role list, as `allowedRoles.includes` compares them. */
  function Tags(roles: seq<UserRole>): (tags: seq<string>)
    ensures |tags| == |roles|
    ensures forall i :: 0 <= i < |roles| ==> tags[i] == roles[i].Tag()
  {
    seq(|roles|, i requires 0 <= i < |roles| => roles[i].Tag())
  }

  /** The role tags are pairwise distinct. */
  lemma TagsDistinct(a: UserRole, b: UserRole)
    ensures a.Tag() == b.Tag() <==> a == b
  {
  }

  /**
   * A user record. `role` holds the raw string: a record read back from
   * storage is never validated, so it may carry a role outside the enum.
   */
  datatype User = User(
    id: int,
    name: string,
    email: string,
    phone: Option<string>,
    role: string,
    status: string,
    createdAt: string,
    updatedAt: string)

  /** `user.role === r` for an enum member `r`. */
  predicate HasRole(u: User, r: UserRole) {
    u.role == r.Tag()
  }

  /** The uniform result of every call to the remote API. */
  datatype ApiResponse<T> = ApiResponse(
    success: bool,
    message: Option<string>,
    data: Option<T>,
    errors: Option<map<string, seq<string>>>)

  /** `response.success && response.data`: a success that carries a payload. */
  predicate HasData<T>(response: ApiResponse<T>) {
    response.success && response.data.Some?
  }

  datatype AuthResponse = AuthResponse(user: User, token: string, message: Option<string>)

  datatype Course = Course(
    id: int,
    title: string,
    description: string,
    fee: int,
    duration: string,
    image: Option<string>)

  datatype Lecture = Lecture(
    id: int,
    courseId: int,
    title: string,
    description: Option<string>,
    videoUrl: string,
    duration: Option<string>,
    isPreview: bool)

  datatype TimetableEntry = TimetableEntry(
    id: int,
    courseId: int,
    dayOfWeek: string,
    startTime: string,
    endTime: string)

  datatype AttendanceStatus = Present | Absent | Leave

  datatype Attendance = Attendance(
    id: int,
    userId: int,
    courseId: int,
    date: string,
    status: AttendanceStatus)

  /** JavaScript truthiness of an optional string: present and non-empty. */
  predicate Truthy(s: Option<string>) {
    s.Some? && s.value != ""
  }

  /**
   * A course select's value passes `!courseId`: it is neither the empty
   * selection `''` (None here) nor 0.
   */
  predicate CourseSelected(courseId: Option<int>) {
    courseId.Some? && courseId.value != 0
  }

  /** `message || fallback`, the way every handler picks the text it shows. */
  function OrDefault(message: Option<string>, fallback: string): (text: string)
    ensures Truthy(message) ==> text == message.value
    ensures !Truthy(message) ==> text == fallback
  {
    if Truthy(message) then message.value else fallback
  }
}
