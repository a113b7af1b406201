/** The enrollment board: five status columns over the store's enrollment
    list, the create/edit modal with its form buffer, and the status-move
    buttons on each card. */
module Kanban {
  import opened Wrappers
  import opened Seqs
  import opened Types
  import opened Store

  /** The cards of the column for status `st`: the enrollments whose status
      string is that status's, in container order. */
  function Column(es: seq<EnrollmentDTO>, st: EnrollmentStatus): (r: seq<EnrollmentDTO>)
    ensures forall i :: 0 <= i < |r| ==> r[i] in es && r[i].status == st.Name()
    ensures forall i :: 0 <= i < |es| && es[i].status == st.Name() ==> es[i] in r
  {
    Filter(es, (e: EnrollmentDTO) => e.status == st.Name())
  }

  /** A column lists its cards in container order. */
  lemma ColumnKeepsOrder(a: seq<EnrollmentDTO>, b: seq<EnrollmentDTO>, st: EnrollmentStatus)
    ensures Column(a + b, st) == Column(a, st) + Column(b, st)
  {
    FilterAppend(a, b, (e: EnrollmentDTO) => e.status == st.Name());
  }

  /** The status string names none of the five statuses. */
  predicate HasUnknownStatus(e: EnrollmentDTO)
  {
    StatusOf(e.status).None?
  }

  /** An enrollment whose status string is outside the enum is on no column. */
  lemma UnknownStatusOnNoColumn(es: seq<EnrollmentDTO>, e: EnrollmentDTO, st: EnrollmentStatus)
    requires HasUnknownStatus(e)
    ensures e !in Column(es, st)
  {
  }

  /** The five columns split the container: every enrollment with a known
      status is counted on exactly one column and the rest on none. */
  lemma {:induction false} ColumnsPartition(es: seq<EnrollmentDTO>)
    ensures |Column(es, ACTIVE)| + |Column(es, COMPLETED)| + |Column(es, FAILED)|
            + |Column(es, DROPPED)| + |Column(es, WITHDRAWN)|
            + |Filter(es, HasUnknownStatus)| == |es|
  {
    if es != [] {
      var e, rest := es[0], es[1..];
      ColumnsPartition(rest);
      ColumnStep(es, ACTIVE);
      ColumnStep(es, COMPLETED);
      ColumnStep(es, FAILED);
      ColumnStep(es, DROPPED);
      ColumnStep(es, WITHDRAWN);
      FilterStep(es, HasUnknownStatus);
      match StatusOf(e.status)
      case None =>
      case Some(st) =>
        forall other: EnrollmentStatus ensures (e.status == other.Name()) == (other == st) {
          StatusNameInjective(other, st);
        }
    }
  }

  /** Unfolds one step of a column. */
  lemma ColumnStep(es: seq<EnrollmentDTO>, st: EnrollmentStatus)
    requires es != []
    ensures Column(es, st) == (if es[0].status == st.Name() then [es[0]] else []) + Column(es[1..], st)
    ensures |Column(es, st)| == (if es[0].status == st.Name() then 1 else 0) + |Column(es[1..], st)|
  {
  }

  /** The dashboard's active-enrollment count is the length of the Active column. */
  lemma ActiveCountIsActiveColumn(ds: DataService)
    ensures ds.ActiveEnrollments() == |Column(ds.enrollments, ACTIVE)|
  {
    FilterCongruent(ds.enrollments, IsActive, (e: EnrollmentDTO) => e.status == ACTIVE.Name());
  }

  /** The status-move buttons a card shows in the column of status `column`:
      "Mark Complete" unless the column is COMPLETED, then "Mark Failed"
      unless the column is FAILED or COMPLETED. */
  function VisibleMoves(column: EnrollmentStatus): (r: seq<EnrollmentStatus>)
    ensures COMPLETED in r <==> column != COMPLETED
    ensures FAILED in r <==> column != FAILED && column != COMPLETED
    ensures forall i :: 0 <= i < |r| ==> r[i] != column && (r[i] == COMPLETED || r[i] == FAILED)
    ensures r == [] <==> column == COMPLETED
  {
    (if column != COMPLETED then [COMPLETED] else [])
    + (if column != FAILED && column != COMPLETED then [FAILED] else [])
  }

  /** The modal's form buffer. */
  datatype EnrollmentForm = EnrollmentForm(studentId: int, courseId: int, status: EnrollmentStatus)

  const BlankForm := EnrollmentForm(0, 0, ACTIVE)

  /** The form filled from a fetched enrollment; a missing student or course
      id becomes 0. */
  function EditForm(e: Enrollment): (f: EnrollmentForm)
    ensures f.status == e.status
    ensures FormComplete(f) <==>
      e.student.Some? && e.student.value.idStudent != 0 && e.course.Some? && e.course.value.idCourse != 0
  {
    EnrollmentForm(
      if e.student.Some? then e.student.value.idStudent else 0,
      if e.course.Some? then e.course.value.idCourse else 0,
      e.status)
  }

  /** Both selects hold a truthy (non-zero) id. */
  predicate FormComplete(f: EnrollmentForm)
  {
    f.studentId != 0 && f.courseId != 0
  }

  /** The store call saveEnrollment issues, if any. */
  function SaveCall(form: EnrollmentForm, editingId: Option<int>, es: seq<EnrollmentDTO>): (c: Option<Command>)
    ensures !FormComplete(form) ==> c == None
    ensures FormComplete(form) && !Truthy(editingId) ==>
      c == Some(AddEnrollmentCmd(EnrollmentInput(form.studentId, form.courseId, form.status)))
    ensures FormComplete(form) && Truthy(editingId) ==>
      (c.Some? <==> exists i :: 0 <= i < |es| && es[i].idEnrollment == editingId.value)
    ensures FormComplete(form) && Truthy(editingId) && c.Some? ==>
      c.value == UpdateEnrollmentCmd(IdsOnly(editingId.value, form.status, form.studentId, form.courseId))
  {
    if !FormComplete(form) then None
    else if Truthy(editingId) then
      match Find(es, (e: EnrollmentDTO) => e.idEnrollment == editingId.value)
      case Some(current) =>
        Some(UpdateEnrollmentCmd(IdsOnly(current.idEnrollment, form.status, form.studentId, form.courseId)))
      case None => None
    else Some(AddEnrollmentCmd(EnrollmentInput(form.studentId, form.courseId, form.status)))
  }

  /** Opening the edit modal on an enrollment and saving the untouched form
      resubmits its student, course and status by id. */
  lemma EditThenSave(e: Enrollment, id: int, es: seq<EnrollmentDTO>, k: nat)
    requires e.student.Some? && e.student.value.idStudent != 0
    requires e.course.Some? && e.course.value.idCourse != 0
    requires id != 0 && k < |es| && es[k].idEnrollment == id
    ensures SaveCall(EditForm(e), Some(id), es)
         == Some(UpdateEnrollmentCmd(IdsOnly(id, e.status, e.student.value.idStudent, e.course.value.idCourse)))
  {
  }

  class KanbanComponent {
    const dataService: DataService
    var isModalOpen: bool
    var editingId: Option<int>
    var formData: EnrollmentForm

    constructor (ds: DataService)
      ensures dataService == ds
      ensures !isModalOpen && editingId == None && formData == BlankForm
    {
      dataService := ds;
      isModalOpen := false;
      editingId := None;
      formData := BlankForm;
    }

    method OpenCreateModal()
      modifies this
      ensures editingId == None && formData == BlankForm && isModalOpen
    {
      editingId := None;
      formData := BlankForm;
      isModalOpen := true;
    }

    /** `fetched` is what getEnrollment produced; None stands for a null body
        or a rejected fetch, neither of which touches the modal. */
    method OpenEditModal(id: int, fetched: Option<Enrollment>)
      modifies this
      ensures fetched.None? ==>
        isModalOpen == old(isModalOpen) && editingId == old(editingId) && formData == old(formData)
      ensures fetched.Some? ==>
        formData == EditForm(fetched.value) && editingId == Some(id) && isModalOpen
    {
      if fetched.Some? {
        formData := EditForm(fetched.value);
        editingId := Some(id);
        isModalOpen := true;
      }
    }

    /** Validates the form, issues the create or update call, and closes the
        modal; an incomplete form returns at once with the modal open. */
    method SaveEnrollment() returns (call: Option<Command>)
      modifies this`isModalOpen
      ensures call == SaveCall(formData, editingId, dataService.enrollments)
      ensures isModalOpen == (if FormComplete(formData) then false else old(isModalOpen))
    {
      call := SaveCall(formData, editingId, dataService.enrollments);
      if FormComplete(formData) {
        isModalOpen := false;
      }
    }

    /** A move button asks the store to change the card's status: the store
        fetches the enrollment (`fetched`), resubmits it with the new status
        (`put`) and re-reads the board (`refetch`). The view does not await
        the call, so a rejection is not observed here. */
    method MoveStatus(
      id: int, status: EnrollmentStatus, fetched: Outcome<Option<Enrollment>>, put: Outcome<()>,
      refetch: Outcome<string>, decode: string -> Option<seq<EnrollmentDTO>>)
      modifies dataService`enrollments, dataService`requests
      ensures fetched.Success? && fetched.value.Some? ==>
        dataService.requests == old(dataService.requests)
          + [EnrollmentGet(id), EnrollmentPut(FullRecord(fetched.value.value.(status := status)))]
          + (if put.Success? then [EnrollmentsList] else [])
      ensures !(fetched.Success? && fetched.value.Some?) ==>
        dataService.requests == old(dataService.requests) + [EnrollmentGet(id)]
      ensures dataService.enrollments ==
        (if fetched.Success? && fetched.value.Some? && put.Success? && refetch.Success? && decode(refetch.value).Some?
         then decode(refetch.value).value else old(dataService.enrollments))
    {
      var _ := dataService.UpdateEnrollmentStatus(id, status, fetched, put, refetch, decode);
    }
  }
}
