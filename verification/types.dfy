/** The entities of the university records front-end, the display record the
    enrollment list endpoint returns, and the request bodies the store sends. */
module Types {
  import opened Wrappers

  /** The five enrollment statuses. */
  datatype EnrollmentStatus = ACTIVE | COMPLETED | DROPPED | FAILED | WITHDRAWN
  {
    /** The enum member's string value, as it travels in JSON. */
    function Name(): string
    {
      match this
      case ACTIVE => "ACTIVE"
      case COMPLETED => "COMPLETED"
      case DROPPED => "DROPPED"
      case FAILED => "FAILED"
      case WITHDRAWN => "WITHDRAWN"
    }
  }

  /** The enum member whose string value is `s`, if there is one. */
  function StatusOf(s: string): (r: Option<EnrollmentStatus>)
    ensures r.Some? ==> r.value.Name() == s
    ensures r.None? ==> forall st: EnrollmentStatus :: st.Name() != s
  {
    if s == "ACTIVE" then Some(ACTIVE)
    else if s == "COMPLETED" then Some(COMPLETED)
    else if s == "DROPPED" then Some(DROPPED)
    else if s == "FAILED" then Some(FAILED)
    else if s == "WITHDRAWN" then Some(WITHDRAWN)
    else None
  }

  /** No two statuses share a string value. */
  lemma StatusNameInjective(a: EnrollmentStatus, b: EnrollmentStatus)
    ensures a.Name() == b.Name() ==> a == b
  {
  }

  /** Distinct statuses have distinct string values, so reading a status back
      from its string is exact. */
  lemma StatusNameRoundTrip(st: EnrollmentStatus)
    ensures StatusOf(st.Name()) == Some(st)
  {
  }

  /** JavaScript truthiness of a nullable numeric id: present and non-zero. */
  predicate Truthy(id: Option<int>)
  {
    id.Some? && id.value != 0
  }

  /** `id || null`: a falsy id (absent or zero) becomes absent. */
  function TruthyOrNone(id: Option<int>): (r: Option<int>)
    ensures r.Some? <==> Truthy(id)
    ensures r.Some? ==> r == id
  {
    if Truthy(id) then id else None
  }

  /** `s || ''` for an optional string. */
  function OrEmpty(s: Option<string>): string
  {
    if s.Some? then s.value else ""
  }

  datatype Department = Department(
    idDepartment: int,
    name: string,
    location: Option<string>,
    phone: Option<string>,
    head: Option<string>)

  /** A department without its server-assigned identifier. */
  datatype DepartmentDraft = DepartmentDraft(
    name: string,
    location: Option<string>,
    phone: Option<string>,
    head: Option<string>)

  /** A student record. The optional embedded enrollment list is display-only
      and not modelled. */
  datatype Student = Student(
    idStudent: int,
    firstName: string,
    lastName: string,
    email: string,
    phone: Option<string>,
    dateOfBirth: Option<string>,
    address: Option<string>,
    department: Option<Department>)

  /** The argument of the store's addStudent / updateStudent: a partial student
      plus a bare department identifier. */
  datatype StudentInput = StudentInput(
    idStudent: Option<int>,
    firstName: string,
    lastName: string,
    email: string,
    phone: string,
    dateOfBirth: string,
    departmentId: Option<int>)

  /** The body actually sent for a student: the input spread, plus a
      `department: {idDepartment}` reference when one was attached. */
  datatype StudentPayload = StudentPayload(data: StudentInput, department: Option<int>)

  datatype Course = Course(
    idCourse: int,
    name: string,
    code: Option<string>,
    credit: Option<int>,
    description: Option<string>)

  /** A partial course, as addCourse / updateCourse take it. */
  datatype CourseDraft = CourseDraft(
    idCourse: Option<int>,
    name: Option<string>,
    code: Option<string>,
    credit: Option<int>,
    description: Option<string>)

  datatype StudentSummary = StudentSummary(idStudent: int, firstName: string, lastName: string)
  datatype CourseSummary = CourseSummary(idCourse: int, name: string)

  /** The display record of the enrollment list. Its status is a plain string,
      and nothing checks the parsed JSON, so the summaries may be missing. */
  datatype EnrollmentDTO = EnrollmentDTO(
    idEnrollment: int,
    enrollmentDate: string,
    grade: Option<real>,
    status: string,
    student: Option<StudentSummary>,
    course: Option<CourseSummary>)

  /** The full enrollment record returned by the single-enrollment endpoint. */
  datatype Enrollment = Enrollment(
    idEnrollment: int,
    enrollmentDate: string,
    grade: Option<real>,
    status: EnrollmentStatus,
    student: Option<Student>,
    course: Option<Course>,
    courseId: Option<int>,
    studentName: Option<string>,
    courseTitle: Option<string>)

  /** The argument of the store's addEnrollment. */
  datatype EnrollmentInput = EnrollmentInput(studentId: int, courseId: int, status: EnrollmentStatus)

  /** The body sent to create an enrollment: the student and course by
      reference, the status and a client-side timestamp. */
  datatype NewEnrollment = NewEnrollment(
    studentId: int,
    courseId: int,
    status: EnrollmentStatus,
    enrollmentDate: string)

  /** The body sent to update an enrollment: either a whole record, or the
      minimal object with only identifiers and the status. */
  datatype EnrollmentUpdate =
    | FullRecord(record: Enrollment)
    | IdsOnly(idEnrollment: int, status: EnrollmentStatus, studentId: int, courseId: int)
}
