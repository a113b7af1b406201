/** The students directory view (ProjectsComponent): the register/edit modal
    with its form buffer and the save that validates and issues the store call. */
module Students {
  import opened Wrappers
  import opened Types
  import opened Store

  /** The modal's form buffer. */
  datatype StudentForm = StudentForm(
    firstName: string,
    lastName: string,
    email: string,
    phone: string,
    dateOfBirth: string,
    departmentId: Option<int>)

  const BlankStudentForm := StudentForm("", "", "", "", "", None)

  /** The form filled from a fetched student: missing phone and date of birth
      become '', a missing (or zero) department id becomes null. */
  function EditForm(s: Student): (f: StudentForm)
    ensures HasRequiredFields(f) <==> s.firstName != "" && s.lastName != "" && s.email != ""
    ensures f.departmentId.Some? <==> s.department.Some? && s.department.value.idDepartment != 0
    ensures f.departmentId.Some? ==> f.departmentId.value == s.department.value.idDepartment
  {
    StudentForm(s.firstName, s.lastName, s.email, OrEmpty(s.phone), OrEmpty(s.dateOfBirth),
      TruthyOrNone(if s.department.Some? then Some(s.department.value.idDepartment) else None))
  }

  /** First name, last name and email are all non-empty. */
  predicate HasRequiredFields(f: StudentForm)
  {
    f.firstName != "" && f.lastName != "" && f.email != ""
  }

  /** The store call saveStudent issues, if any. */
  function SaveCall(form: StudentForm, editingId: Option<int>): (c: Option<Command>)
    ensures c.Some? <==> HasRequiredFields(form)
    ensures c.Some? && Truthy(editingId) ==> c.value.UpdateStudentCmd? && c.value.student.idStudent == editingId
    ensures c.Some? && !Truthy(editingId) ==> c.value.AddStudentCmd? && c.value.student.idStudent.None?
    ensures c.Some? ==>
      && c.value.student.firstName == form.firstName
      && c.value.student.lastName == form.lastName
      && c.value.student.email == form.email
      && c.value.student.phone == form.phone
      && c.value.student.dateOfBirth == form.dateOfBirth
      && c.value.student.departmentId == TruthyOrNone(form.departmentId)
  {
    if !HasRequiredFields(form) then None
    else
      var departmentId := TruthyOrNone(form.departmentId);
      if Truthy(editingId) then
        Some(UpdateStudentCmd(StudentInput(editingId, form.firstName, form.lastName, form.email,
                                           form.phone, form.dateOfBirth, departmentId)))
      else
        Some(AddStudentCmd(StudentInput(None, form.firstName, form.lastName, form.email,
                                        form.phone, form.dateOfBirth, departmentId)))
  }

  /** Opening the edit modal on a student and saving the untouched form sends
      an update carrying the same names and email, the phone and date of birth
      (or ''), and a department reference exactly when the student has a
      department with a non-zero id. */
  lemma EditThenSave(s: Student, id: int)
    requires s.firstName != "" && s.lastName != "" && s.email != ""
    requires id != 0
    ensures var c := SaveCall(EditForm(s), Some(id));
      && c.Some? && c.value.UpdateStudentCmd?
      && c.value.student == StudentInput(Some(id), s.firstName, s.lastName, s.email,
                                         OrEmpty(s.phone), OrEmpty(s.dateOfBirth), c.value.student.departmentId)
      && (StudentPayloadOf(c.value.student).department.Some?
          <==> s.department.Some? && s.department.value.idDepartment != 0)
      && (StudentPayloadOf(c.value.student).department.Some? ==>
          StudentPayloadOf(c.value.student).department.value == s.department.value.idDepartment)
  {
  }

  class ProjectsComponent {
    var isModalOpen: bool
    var editingId: Option<int>
    var formData: StudentForm

    constructor ()
      ensures !isModalOpen && editingId == None && formData == BlankStudentForm
    {
      isModalOpen := false;
      editingId := None;
      formData := BlankStudentForm;
    }

    method OpenCreateModal()
      modifies this
      ensures editingId == None && formData == BlankStudentForm && isModalOpen
    {
      editingId := None;
      formData := BlankStudentForm;
      isModalOpen := true;
    }

    /** `fetched` is what getStudent produced; None stands for a null body or
        a rejected fetch, neither of which touches the modal. */
    method OpenEditModal(id: int, fetched: Option<Student>)
      modifies this
      ensures fetched.None? ==>
        isModalOpen == old(isModalOpen) && editingId == old(editingId) && formData == old(formData)
      ensures fetched.Some? ==> formData == EditForm(fetched.value) && editingId == Some(id) && isModalOpen
    {
      if fetched.Some? {
        formData := EditForm(fetched.value);
        editingId := Some(id);
        isModalOpen := true;
      }
    }

    /** Validates the required fields, issues the create or update call, and
        closes the modal; a missing field returns at once with the modal open. */
    method SaveStudent() returns (call: Option<Command>)
      modifies this`isModalOpen
      ensures call == SaveCall(formData, editingId)
      ensures isModalOpen == (if HasRequiredFields(formData) then false else old(isModalOpen))
    {
      call := SaveCall(formData, editingId);
      if HasRequiredFields(formData) {
        isModalOpen := false;
      }
    }
  }
}
