/** The client-side entity store: four containers mirroring the backend's
    students, enrollments, departments and courses, the counts derived from
    them, and the fetch/add/update/delete operations that change a container
    only once the awaited backend call has succeeded. */
module Store {
  import opened Wrappers
  import opened Seqs
  import opened Types

  /** One call to the backend, with the body it carries. */
  datatype Request =
    | StudentsList | StudentGet(id: int) | StudentCreate(student: StudentPayload)
    | StudentUpdate(student: StudentPayload) | StudentDelete(id: int)
    | EnrollmentsList | EnrollmentGet(id: int) | EnrollmentCreate(enrollment: NewEnrollment)
    | EnrollmentPut(update: EnrollmentUpdate) | EnrollmentDelete(id: int)
    | DepartmentsList | DepartmentGet(id: int) | DepartmentCreate(draft: DepartmentDraft)
    | DepartmentUpdate(dept: Department) | DepartmentDelete(id: int)
    | CoursesList | CourseGet(id: int) | CourseCreate(course: CourseDraft)
    | CourseUpdate(id: int, course: CourseDraft) | CourseDelete(id: int)

  /** A store mutation a view issues, with its arguments. */
  datatype Command =
    | AddStudentCmd(student: StudentInput)
    | UpdateStudentCmd(student: StudentInput)
    | AddEnrollmentCmd(enrollment: EnrollmentInput)
    | UpdateEnrollmentCmd(update: EnrollmentUpdate)
    | AddDepartmentCmd(draft: DepartmentDraft)
    | UpdateDepartmentCmd(dept: Department)

  function StudentKey(s: Student): int { s.idStudent }
  function EnrollmentKey(e: EnrollmentDTO): int { e.idEnrollment }
  function DepartmentKey(d: Department): int { d.idDepartment }
  function CourseKey(c: Course): int { c.idCourse }

  /** An enrollment counts as active when its status string is ACTIVE's. */
  predicate IsActive(e: EnrollmentDTO) { e.status == ACTIVE.Name() }

  /** `xs.filter(x => key(x) !== id)`: the container after deleting `id`. */
  function RemoveId<T(==)>(xs: seq<T>, key: T -> int, id: int): (r: seq<T>)
    ensures forall i :: 0 <= i < |r| ==> key(r[i]) != id
    ensures forall i :: 0 <= i < |xs| && key(xs[i]) != id ==> xs[i] in r
    ensures forall i :: 0 <= i < |r| ==> r[i] in xs
  {
    Filter(xs, x => key(x) != id)
  }

  /** Deleting keeps the survivors in their relative order: removal from a
      concatenation is the concatenation of the removals. */
  lemma RemoveIdKeepsOrder<T>(a: seq<T>, b: seq<T>, key: T -> int, id: int)
    ensures RemoveId(a + b, key, id) == RemoveId(a, key, id) + RemoveId(b, key, id)
  {
    FilterAppend(a, b, x => key(x) != id);
  }

  /** Deleting removes every copy of each record with that id and no copy of
      any other record. */
  lemma RemoveIdMultiplicity<T>(xs: seq<T>, key: T -> int, id: int, x: T)
    ensures multiset(RemoveId(xs, key, id))[x] == if key(x) != id then multiset(xs)[x] else 0
  {
    FilterMultiplicity(xs, x => key(x) != id, x);
  }

  /** A delete shrinks its container by exactly the number of records that
      carry the id, so the matching total drops by that much. */
  lemma RemoveIdLength<T>(xs: seq<T>, key: T -> int, id: int)
    ensures |RemoveId(xs, key, id)| == |xs| - |IndicesWhere(xs, x => key(x) == id)|
  {
    var keep := (x: T) => key(x) != id;
    var drop := (x: T) => key(x) == id;
    FilterSplitsLength(xs, keep, drop);
    FilterCountsIndices(xs, drop);
  }

  /** Deleting an id no record has changes nothing. */
  lemma RemoveAbsentId<T>(xs: seq<T>, key: T -> int, id: int)
    requires forall i :: 0 <= i < |xs| ==> key(xs[i]) != id
    ensures RemoveId(xs, key, id) == xs
  {
    FilterKeepsAll(xs, x => key(x) != id);
  }

  /** `d.map(x => x.idDepartment === dept.idDepartment ? dept : x)`. */
  function ReplaceDepartment(xs: seq<Department>, dept: Department): (r: seq<Department>)
    ensures |r| == |xs|
    ensures forall i :: 0 <= i < |xs| ==>
      r[i] == (if xs[i].idDepartment == dept.idDepartment then dept else xs[i])
    ensures MapSeq(r, DepartmentKey) == MapSeq(xs, DepartmentKey)
  {
    MapSeq(xs, (x: Department) => if x.idDepartment == dept.idDepartment then dept else x)
  }

  /** Applying the same department update twice is applying it once. */
  lemma ReplaceDepartmentIdempotent(xs: seq<Department>, dept: Department)
    ensures ReplaceDepartment(ReplaceDepartment(xs, dept), dept) == ReplaceDepartment(xs, dept)
  {
  }

  /** The body addStudent / updateStudent send: the input as given, plus a
      department reference exactly when the department id is truthy (present
      and non-zero). */
  function StudentPayloadOf(data: StudentInput): (p: StudentPayload)
    ensures p.data == data
    ensures p.department.Some? <==> data.departmentId.Some? && data.departmentId.value != 0
    ensures p.department.Some? ==> p.department.value == data.departmentId.value
  {
    if Truthy(data.departmentId) then StudentPayload(data, data.departmentId) else StudentPayload(data, None)
  }

  /** The store. `requests` records the backend calls issued so far, oldest
      first; it stands for the network traffic, which is otherwise left out. */
  class DataService {
    var students: seq<Student>
    var enrollments: seq<EnrollmentDTO>
    var departments: seq<Department>
    var courses: seq<Course>
    ghost var requests: seq<Request>

    /** The containers start empty and construction starts the boot load,
        whose four fetch outcomes are the parameters. */
    constructor (
      deptResponse: Outcome<seq<Department>>,
      courseResponse: Outcome<seq<Course>>,
      studentResponse: Outcome<seq<Student>>,
      enrollmentResponse: Outcome<string>,
      decode: string -> Option<seq<EnrollmentDTO>>)
      ensures requests == [DepartmentsList, CoursesList, StudentsList, EnrollmentsList]
      ensures departments == (if deptResponse.Success? then deptResponse.value else [])
      ensures courses == (if courseResponse.Success? then courseResponse.value else [])
      ensures students == (if studentResponse.Success? then studentResponse.value else [])
      ensures enrollments ==
        (if enrollmentResponse.Success? && decode(enrollmentResponse.value).Some?
         then decode(enrollmentResponse.value).value else [])
    {
      students, enrollments, departments, courses := [], [], [], [];
      requests := [];
      new;
      LoadInitialData(deptResponse, courseResponse, studentResponse, enrollmentResponse, decode);
    }

    // ---------------- derived counts ----------------

    function TotalStudents(): nat reads this { |students| }
    function TotalDepartments(): nat reads this { |departments| }
    function TotalCourses(): nat reads this { |courses| }

    /** Every enrollment is counted once, either as active or as not active. */
    function TotalEnrollments(): (n: nat)
      reads this
      ensures n == |IndicesWhere(enrollments, IsActive)| + |IndicesWhere(enrollments, (e: EnrollmentDTO) => !IsActive(e))|
    {
      var inactive := (e: EnrollmentDTO) => !IsActive(e);
      FilterSplitsLength(enrollments, IsActive, inactive);
      FilterCountsIndices(enrollments, IsActive);
      FilterCountsIndices(enrollments, inactive);
      |enrollments|
    }

    /** The number of enrollments whose status is ACTIVE. */
    function ActiveEnrollments(): (n: nat)
      reads this
      ensures n == |IndicesWhere(enrollments, IsActive)|
      ensures n <= TotalEnrollments()
    {
      FilterCountsIndices(enrollments, IsActive);
      |Filter(enrollments, IsActive)|
    }

    // ---------------- initial load ----------------

    /** Fetches departments, courses, students and enrollments, each after
        the previous one has settled. */
    method LoadInitialData(
      deptResponse: Outcome<seq<Department>>,
      courseResponse: Outcome<seq<Course>>,
      studentResponse: Outcome<seq<Student>>,
      enrollmentResponse: Outcome<string>,
      decode: string -> Option<seq<EnrollmentDTO>>)
      modifies this
      ensures requests == old(requests) + [DepartmentsList, CoursesList, StudentsList, EnrollmentsList]
      ensures departments == (if deptResponse.Success? then deptResponse.value else old(departments))
      ensures courses == (if courseResponse.Success? then courseResponse.value else old(courses))
      ensures students == (if studentResponse.Success? then studentResponse.value else old(students))
      ensures enrollments ==
        (if enrollmentResponse.Success? && decode(enrollmentResponse.value).Some?
         then decode(enrollmentResponse.value).value else old(enrollments))
    {
      FetchDepartments(deptResponse);
      FetchCourses(courseResponse);
      FetchStudents(studentResponse);
      FetchEnrollments(enrollmentResponse, decode);
    }

    // ---------------- students ----------------

    /** Replaces the container with the fetched list; a failure is swallowed. */
    method FetchStudents(response: Outcome<seq<Student>>)
      modifies this`students, this`requests
      ensures requests == old(requests) + [StudentsList]
      ensures students == (if response.Success? then response.value else old(students))
    {
      requests := requests + [StudentsList];
      if response.Success? {
        students := response.value;
      }
    }

    method GetStudent(id: int, response: Outcome<Option<Student>>) returns (r: Outcome<Option<Student>>)
      modifies this`requests
      ensures requests == old(requests) + [StudentGet(id)]
      ensures r == response
    {
      requests := requests + [StudentGet(id)];
      r := response;
    }

    /** Creates a student, then re-fetches the container. A failed create
        rejects before the re-fetch. */
    method AddStudent(data: StudentInput, post: Outcome<()>, refetch: Outcome<seq<Student>>)
      returns (rejected: bool)
      modifies this`students, this`requests
      ensures rejected <==> post.Failure?
      ensures requests == old(requests) + [StudentCreate(StudentPayloadOf(data))]
                          + (if post.Success? then [StudentsList] else [])
      ensures students == (if post.Success? && refetch.Success? then refetch.value else old(students))
    {
      requests := requests + [StudentCreate(StudentPayloadOf(data))];
      rejected := post.Failure?;
      if !rejected {
        FetchStudents(refetch);
      }
    }

    method UpdateStudent(data: StudentInput, put: Outcome<()>, refetch: Outcome<seq<Student>>)
      returns (rejected: bool)
      modifies this`students, this`requests
      ensures rejected <==> put.Failure?
      ensures requests == old(requests) + [StudentUpdate(StudentPayloadOf(data))]
                          + (if put.Success? then [StudentsList] else [])
      ensures students == (if put.Success? && refetch.Success? then refetch.value else old(students))
    {
      requests := requests + [StudentUpdate(StudentPayloadOf(data))];
      rejected := put.Failure?;
      if !rejected {
        FetchStudents(refetch);
      }
    }

    /** Deletes on the server; only after success removes the student locally. */
    method DeleteStudent(id: int, response: Outcome<()>) returns (rejected: bool)
      modifies this`students, this`requests
      ensures rejected <==> response.Failure?
      ensures requests == old(requests) + [StudentDelete(id)]
      ensures students == (if response.Success? then RemoveId(old(students), StudentKey, id) else old(students))
    {
      requests := requests + [StudentDelete(id)];
      rejected := response.Failure?;
      if !rejected {
        students := RemoveId(students, StudentKey, id);
      }
    }

    // ---------------- enrollments ----------------

    /** Fetches the list as text and decodes it; a transport or decode failure
        is swallowed and leaves the container as it was. */
    method FetchEnrollments(response: Outcome<string>, decode: string -> Option<seq<EnrollmentDTO>>)
      modifies this`enrollments, this`requests
      ensures requests == old(requests) + [EnrollmentsList]
      ensures enrollments ==
        (if response.Success? && decode(response.value).Some?
         then decode(response.value).value else old(enrollments))
    {
      requests := requests + [EnrollmentsList];
      if response.Success? {
        var parsed := decode(response.value);
        if parsed.Some? {
          enrollments := parsed.value;
        }
      }
    }

    method GetEnrollment(id: int, response: Outcome<Option<Enrollment>>) returns (r: Outcome<Option<Enrollment>>)
      modifies this`requests
      ensures requests == old(requests) + [EnrollmentGet(id)]
      ensures r == response
    {
      requests := requests + [EnrollmentGet(id)];
      r := response;
    }

    /** Creates an enrollment stamped with the current time `now`, then
        re-fetches the list. */
    method AddEnrollment(
      data: EnrollmentInput, now: string, post: Outcome<()>,
      refetch: Outcome<string>, decode: string -> Option<seq<EnrollmentDTO>>)
      returns (rejected: bool)
      modifies this`enrollments, this`requests
      ensures rejected <==> post.Failure?
      ensures requests == old(requests) + [EnrollmentCreate(NewEnrollment(data.studentId, data.courseId, data.status, now))]
                          + (if post.Success? then [EnrollmentsList] else [])
      ensures enrollments ==
        (if post.Success? && refetch.Success? && decode(refetch.value).Some?
         then decode(refetch.value).value else old(enrollments))
    {
      requests := requests + [EnrollmentCreate(NewEnrollment(data.studentId, data.courseId, data.status, now))];
      rejected := post.Failure?;
      if !rejected {
        FetchEnrollments(refetch, decode);
      }
    }

    method UpdateEnrollment(
      update: EnrollmentUpdate, put: Outcome<()>,
      refetch: Outcome<string>, decode: string -> Option<seq<EnrollmentDTO>>)
      returns (rejected: bool)
      modifies this`enrollments, this`requests
      ensures rejected <==> put.Failure?
      ensures requests == old(requests) + [EnrollmentPut(update)] + (if put.Success? then [EnrollmentsList] else [])
      ensures enrollments ==
        (if put.Success? && refetch.Success? && decode(refetch.value).Some?
         then decode(refetch.value).value else old(enrollments))
    {
      requests := requests + [EnrollmentPut(update)];
      rejected := put.Failure?;
      if !rejected {
        FetchEnrollments(refetch, decode);
      }
    }

    /** Fetches the enrollment, changes its status and resubmits the whole
        record. A missing record does nothing; a failed fetch rejects. */
    method UpdateEnrollmentStatus(
      id: int, status: EnrollmentStatus, fetched: Outcome<Option<Enrollment>>, put: Outcome<()>,
      refetch: Outcome<string>, decode: string -> Option<seq<EnrollmentDTO>>)
      returns (rejected: bool)
      modifies this`enrollments, this`requests
      ensures rejected <==> fetched.Failure? || (fetched.value.Some? && put.Failure?)
      ensures fetched.Success? && fetched.value.Some? ==>
        requests == old(requests) + [EnrollmentGet(id), EnrollmentPut(FullRecord(fetched.value.value.(status := status)))]
                    + (if put.Success? then [EnrollmentsList] else [])
      ensures !(fetched.Success? && fetched.value.Some?) ==> requests == old(requests) + [EnrollmentGet(id)]
      ensures enrollments ==
        (if fetched.Success? && fetched.value.Some? && put.Success? && refetch.Success? && decode(refetch.value).Some?
         then decode(refetch.value).value else old(enrollments))
    {
      var found := GetEnrollment(id, fetched);
      if found.Failure? {
        rejected := true;
        return;
      }
      rejected := false;
      match found.value {
        case None =>
        case Some(enrollment) =>
          rejected := UpdateEnrollment(FullRecord(enrollment.(status := status)), put, refetch, decode);
      }
    }

    method DeleteEnrollment(id: int, response: Outcome<()>) returns (rejected: bool)
      modifies this`enrollments, this`requests
      ensures rejected <==> response.Failure?
      ensures requests == old(requests) + [EnrollmentDelete(id)]
      ensures enrollments == (if response.Success? then RemoveId(old(enrollments), EnrollmentKey, id) else old(enrollments))
    {
      requests := requests + [EnrollmentDelete(id)];
      rejected := response.Failure?;
      if !rejected {
        enrollments := RemoveId(enrollments, EnrollmentKey, id);
      }
    }

    // ---------------- departments ----------------

    method FetchDepartments(response: Outcome<seq<Department>>)
      modifies this`departments, this`requests
      ensures requests == old(requests) + [DepartmentsList]
      ensures departments == (if response.Success? then response.value else old(departments))
    {
      requests := requests + [DepartmentsList];
      if response.Success? {
        departments := response.value;
      }
    }

    method GetDepartment(id: int, response: Outcome<Option<Department>>) returns (r: Outcome<Option<Department>>)
      modifies this`requests
      ensures requests == old(requests) + [DepartmentGet(id)]
      ensures r == response
    {
      requests := requests + [DepartmentGet(id)];
      r := response;
    }

    /** Creates a department and appends the server's copy; no re-fetch. */
    method AddDepartment(draft: DepartmentDraft, post: Outcome<Department>) returns (rejected: bool)
      modifies this`departments, this`requests
      ensures rejected <==> post.Failure?
      ensures requests == old(requests) + [DepartmentCreate(draft)]
      ensures departments == (if post.Success? then old(departments) + [post.value] else old(departments))
    {
      requests := requests + [DepartmentCreate(draft)];
      rejected := post.Failure?;
      if !rejected {
        departments := departments + [post.value];
      }
    }

    /** Updates a department and replaces the local copies with that id; no re-fetch. */
    method UpdateDepartment(dept: Department, put: Outcome<()>) returns (rejected: bool)
      modifies this`departments, this`requests
      ensures rejected <==> put.Failure?
      ensures requests == old(requests) + [DepartmentUpdate(dept)]
      ensures departments == (if put.Success? then ReplaceDepartment(old(departments), dept) else old(departments))
    {
      requests := requests + [DepartmentUpdate(dept)];
      rejected := put.Failure?;
      if !rejected {
        departments := ReplaceDepartment(departments, dept);
      }
    }

    method DeleteDepartment(id: int, response: Outcome<()>) returns (rejected: bool)
      modifies this`departments, this`requests
      ensures rejected <==> response.Failure?
      ensures requests == old(requests) + [DepartmentDelete(id)]
      ensures departments == (if response.Success? then RemoveId(old(departments), DepartmentKey, id) else old(departments))
    {
      requests := requests + [DepartmentDelete(id)];
      rejected := response.Failure?;
      if !rejected {
        departments := RemoveId(departments, DepartmentKey, id);
      }
    }

    // ---------------- courses ----------------

    method FetchCourses(response: Outcome<seq<Course>>)
      modifies this`courses, this`requests
      ensures requests == old(requests) + [CoursesList]
      ensures courses == (if response.Success? then response.value else old(courses))
    {
      requests := requests + [CoursesList];
      if response.Success? {
        courses := response.value;
      }
    }

    method GetCourse(id: int, response: Outcome<Option<Course>>) returns (r: Outcome<Option<Course>>)
      modifies this`requests
      ensures requests == old(requests) + [CourseGet(id)]
      ensures r == response
    {
      requests := requests + [CourseGet(id)];
      r := response;
    }

    method AddCourse(course: CourseDraft, post: Outcome<()>, refetch: Outcome<seq<Course>>)
      returns (rejected: bool)
      modifies this`courses, this`requests
      ensures rejected <==> post.Failure?
      ensures requests == old(requests) + [CourseCreate(course)] + (if post.Success? then [CoursesList] else [])
      ensures courses == (if post.Success? && refetch.Success? then refetch.value else old(courses))
    {
      requests := requests + [CourseCreate(course)];
      rejected := post.Failure?;
      if !rejected {
        FetchCourses(refetch);
      }
    }

    /** Forces the course's id to the path id before sending it; `course'` is
        the caller's object after that assignment. */
    method UpdateCourse(id: int, course: CourseDraft, put: Outcome<()>, refetch: Outcome<seq<Course>>)
      returns (course': CourseDraft, rejected: bool)
      modifies this`courses, this`requests
      ensures course' == course.(idCourse := Some(id))
      ensures rejected <==> put.Failure?
      ensures requests == old(requests) + [CourseUpdate(id, course')] + (if put.Success? then [CoursesList] else [])
      ensures courses == (if put.Success? && refetch.Success? then refetch.value else old(courses))
    {
      course' := course.(idCourse := Some(id));
      requests := requests + [CourseUpdate(id, course')];
      rejected := put.Failure?;
      if !rejected {
        FetchCourses(refetch);
      }
    }

    method DeleteCourse(id: int, response: Outcome<()>) returns (rejected: bool)
      modifies this`courses, this`requests
      ensures rejected <==> response.Failure?
      ensures requests == old(requests) + [CourseDelete(id)]
      ensures courses == (if response.Success? then RemoveId(old(courses), CourseKey, id) else old(courses))
    {
      requests := requests + [CourseDelete(id)];
      rejected := response.Failure?;
      if !rejected {
        courses := RemoveId(courses, CourseKey, id);
      }
    }
  }
}
