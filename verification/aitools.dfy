/** The AI advisor view: the free-text question box and the study-plan
    generator. The AI service's replies and the JSON decoder are inputs. */
module AiTools {
  import opened Wrappers
  import opened Seqs
  import opened Types
  import opened Store

  /** A character `String.prototype.trim` strips: an ECMAScript WhiteSpace
      (tab, vertical tab, form feed, space, no-break space, byte-order mark
      and the other space separators) or LineTerminator code point. */
  predicate IsJsWhitespace(c: char)
  {
    c == '\t' || c == '\n' || c == '\U{B}' || c == '\U{C}' || c == '\r' || c == ' '
    || c == '\U{A0}' || c == '\U{1680}' || ('\U{2000}' <= c <= '\U{200A}')
    || c == '\U{2028}' || c == '\U{2029}' || c == '\U{202F}' || c == '\U{205F}'
    || c == '\U{3000}' || c == '\U{FEFF}'
  }

  /** Every character of `s` is whitespace (vacuously so for ''); see
      BlankMeansAllWhitespace. */
  predicate IsBlank(s: string)
  {
    s == "" || (IsJsWhitespace(s[0]) && IsBlank(s[1..]))
  }

  /** Blank means that every character is whitespace. */
  lemma {:induction false} BlankMeansAllWhitespace(s: string)
    ensures IsBlank(s) <==> forall i :: 0 <= i < |s| ==> IsJsWhitespace(s[i])
  {
    if s != "" {
      BlankMeansAllWhitespace(s[1..]);
      assert forall i :: 1 <= i < |s| ==> s[i] == s[1..][i - 1];
    }
  }

  /** A string with a blank prefix and a blank suffix is blank, and both
      parts of a blank string are blank. */
  lemma {:induction false} BlankAppend(a: string, b: string)
    ensures IsBlank(a + b) <==> IsBlank(a) && IsBlank(b)
  {
    if a != "" {
      assert (a + b)[1..] == a[1..] + b;
      BlankAppend(a[1..], b);
    } else {
      assert a + b == b;
    }
  }

  /** The number of whitespace characters `s` starts with. */
  function LeadingBlanks(s: string): (n: nat)
    ensures n <= |s| && IsBlank(s[..n])
    ensures n < |s| ==> !IsJsWhitespace(s[n])
  {
    if s != "" && IsJsWhitespace(s[0]) then
      var m := LeadingBlanks(s[1..]);
      assert s[..m + 1][1..] == s[1..][..m];
      m + 1
    else 0
  }

  /** The length of `s` without its trailing whitespace. */
  function ContentEnd(s: string): (n: nat)
    ensures n <= |s| && IsBlank(s[n..])
    ensures n > 0 ==> !IsJsWhitespace(s[n - 1])
  {
    if s != "" && IsJsWhitespace(s[|s| - 1]) then
      var t := s[..|s| - 1];
      var m := ContentEnd(t);
      assert s[m..] == t[m..] + [s[|s| - 1]];
      BlankAppend(t[m..], [s[|s| - 1]]);
      m
    else |s|
  }

  /** `s` with its leading whitespace removed. */
  function TrimStart(s: string): (r: string)
    ensures |r| <= |s| && r == s[|s| - |r|..]
    ensures IsBlank(s[..|s| - |r|])
    ensures r == "" <==> IsBlank(s)
    ensures r != "" ==> !IsJsWhitespace(r[0])
  {
    var n := LeadingBlanks(s);
    BlankMeansAllWhitespace(s);
    assert s[..|s|] == s;
    s[n..]
  }

  /** `s` with its trailing whitespace removed. */
  function TrimEnd(s: string): (r: string)
    ensures |r| <= |s| && r == s[..|r|]
    ensures IsBlank(s[|r|..])
    ensures r == "" <==> IsBlank(s)
    ensures r != "" ==> !IsJsWhitespace(r[|r| - 1])
  {
    var n := ContentEnd(s);
    BlankMeansAllWhitespace(s);
    assert s[0..] == s;
    s[..n]
  }

  /** Cutting a blank prefix off `s`, leaving `t`, and then a blank suffix
      off `t`, leaving `r`, splits `s` into a blank prefix, `r`, and a blank
      suffix. */
  lemma TrimSplits(s: string, t: string, r: string)
    requires |t| <= |s| && t == s[|s| - |t|..] && IsBlank(s[..|s| - |t|])
    requires t != "" ==> !IsJsWhitespace(t[0])
    requires |r| <= |t| && r == t[..|r|] && IsBlank(t[|r|..])
    requires r != "" ==> !IsJsWhitespace(r[|r| - 1])
    ensures var k := |s| - |t|;
      k + |r| <= |s| && r == s[k..k + |r|] && IsBlank(s[..k]) && IsBlank(s[k + |r|..])
    ensures r != "" ==> !IsJsWhitespace(r[0]) && !IsJsWhitespace(r[|r| - 1])
  {
    var k := |s| - |t|;
    assert s[k + |r|..] == t[|r|..];
  }

  /** `s.trim()`: `s` is blank, then `r`, then blank again, and `r` neither
      starts nor ends with whitespace. */
  function Trim(s: string): (r: string)
    ensures var k := |s| - |TrimStart(s)|;
      k + |r| <= |s| && r == s[k..k + |r|] && IsBlank(s[..k]) && IsBlank(s[k + |r|..])
    ensures r != "" ==> !IsJsWhitespace(r[0]) && !IsJsWhitespace(r[|r| - 1])
  {
    var t := TrimStart(s);
    var r := TrimEnd(t);
    TrimSplits(s, t, r);
    r
  }

  /** `!s.trim()` holds exactly for blank strings. */
  lemma TrimEmptyIffBlank(s: string)
    ensures Trim(s) == "" <==> IsBlank(s)
  {
  }

  /** A recommendation of the generated plan. */
  datatype PlanItem = PlanItem(title: string, reason: string)

  /** The arguments of the study-plan call to the AI service. */
  datatype PlanRequest = PlanRequest(studentName: string, completedCourses: seq<string>)

  /** `e.course?.name || 'Unknown Course'`. */
  function CourseLabel(e: EnrollmentDTO): (name: string)
    ensures name != ""
    ensures name == "Unknown Course" || (e.course.Some? && name == e.course.value.name)
    ensures e.course.Some? && e.course.value.name != "" ==> name == e.course.value.name
  {
    if e.course.Some? && e.course.value.name != "" then e.course.value.name else "Unknown Course"
  }

  /** The enrollment belongs to the student and is COMPLETED. */
  predicate CompletedBy(e: EnrollmentDTO, studentId: int)
  {
    e.student.Some? && e.student.value.idStudent == studentId && e.status == COMPLETED.Name()
  }

  /** The course labels of the student's completed enrollments, in container order. */
  function CompletedCourses(es: seq<EnrollmentDTO>, studentId: int): (r: seq<string>)
    ensures |r| == |IndicesWhere(es, (e: EnrollmentDTO) => CompletedBy(e, studentId))|
  {
    var done := Filter(es, (e: EnrollmentDTO) => CompletedBy(e, studentId));
    FilterCountsIndices(es, (e: EnrollmentDTO) => CompletedBy(e, studentId));
    MapSeq(done, CourseLabel)
  }

  /** The list is built enrollment by enrollment: one label for a completed
      enrollment of the student, none for any other ... */
  lemma CompletedCoursesOne(e: EnrollmentDTO, studentId: int)
    ensures CompletedCourses([e], studentId) == if CompletedBy(e, studentId) then [CourseLabel(e)] else []
  {
    assert [e][1..] == [];
  }

  /** ... and the labels of a concatenation are the concatenated labels, so
      container order is kept. */
  lemma CompletedCoursesAppend(a: seq<EnrollmentDTO>, b: seq<EnrollmentDTO>, studentId: int)
    ensures CompletedCourses(a + b, studentId) == CompletedCourses(a, studentId) + CompletedCourses(b, studentId)
  {
    var p := (e: EnrollmentDTO) => CompletedBy(e, studentId);
    FilterAppend(a, b, p);
    MapAppend(Filter(a, p), Filter(b, p), CourseLabel);
  }

  class AiToolsComponent {
    const dataService: DataService
    var prompt: string
    var chatResponse: string
    var isLoading: bool
    var selectedStudentId: Option<int>
    var isGenerating: bool
    var generatedPlan: seq<PlanItem>

    constructor (ds: DataService)
      ensures dataService == ds
      ensures prompt == "" && chatResponse == "" && !isLoading
      ensures selectedStudentId == None && !isGenerating && generatedPlan == []
    {
      dataService := ds;
      prompt, chatResponse, isLoading := "", "", false;
      selectedStudentId, isGenerating, generatedPlan := None, false, [];
    }

    /** Sends a non-blank prompt to the advisor and shows `reply`, the
        service's answer; `asked` is the prompt sent, if any. */
    method AskAi(reply: string) returns (asked: Option<string>)
      modifies this`prompt, this`chatResponse, this`isLoading
      ensures IsBlank(old(prompt)) ==>
        asked == None && prompt == old(prompt) && chatResponse == old(chatResponse) && isLoading == old(isLoading)
      ensures !IsBlank(old(prompt)) ==>
        asked == Some(old(prompt)) && chatResponse == reply && !isLoading && prompt == ""
    {
      TrimEmptyIffBlank(prompt);
      if Trim(prompt) == "" {
        return None;
      }
      isLoading := true;
      asked := Some(prompt);
      chatResponse := reply;
      isLoading := false;
      prompt := "";
    }

    /** Asks the AI service for a plan for the selected student, given
        `reply`, the service's answer, and `decode`, the JSON decoder; an
        answer that does not decode yields the empty plan. `asked` is the
        request sent, if any. */
    method GeneratePlan(reply: string, decode: string -> Option<seq<PlanItem>>) returns (asked: Option<PlanRequest>)
      modifies this`isGenerating, this`generatedPlan
      ensures (!Truthy(selectedStudentId)
               || forall i :: 0 <= i < |dataService.students| ==> dataService.students[i].idStudent != selectedStudentId.value)
              ==> asked == None && isGenerating == old(isGenerating) && generatedPlan == old(generatedPlan)
      ensures asked.Some? ==>
        && !isGenerating
        && generatedPlan == (if decode(reply).Some? then decode(reply).value else [])
        && asked.value.completedCourses == CompletedCourses(dataService.enrollments, selectedStudentId.value)
        && exists i :: 0 <= i < |dataService.students|
             && dataService.students[i].idStudent == selectedStudentId.value
             && dataService.students[i].firstName == asked.value.studentName
             && forall j :: 0 <= j < i ==> dataService.students[j].idStudent != selectedStudentId.value
      ensures Truthy(selectedStudentId)
              && (exists i :: 0 <= i < |dataService.students| && dataService.students[i].idStudent == selectedStudentId.value)
              ==> asked.Some?
    {
      if !(selectedStudentId.Some? && selectedStudentId.value != 0) {
        return None;
      }
      var id := selectedStudentId.value;
      var student := Find(dataService.students, (s: Student) => s.idStudent == id);
      if student.None? {
        return None;
      }
      var completed := CompletedCourses(dataService.enrollments, id);
      isGenerating := true;
      asked := Some(PlanRequest(student.value.firstName, completed));
      var parsed := decode(reply);
      if parsed.Some? {
        generatedPlan := parsed.value;
      } else {
        generatedPlan := [];
      }
      isGenerating := false;
    }
  }
}
