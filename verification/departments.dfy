/** The departments view: the create/edit modal with its form buffer and the
    save that validates and issues the store call. */
module Departments {
  import opened Wrappers
  import opened Types
  import opened Store

  /** The modal's form buffer. */
  datatype DepartmentForm = DepartmentForm(name: string, location: string, head: string)

  const BlankDepartmentForm := DepartmentForm("", "", "")

  /** The form filled from a fetched department: missing location and head become ''. */
  function EditForm(d: Department): (f: DepartmentForm)
    ensures f.name == d.name
    ensures SaveCall(f, Some(d.idDepartment)).Some? <==> d.name != ""
  {
    DepartmentForm(d.name, OrEmpty(d.location), OrEmpty(d.head))
  }

  /** The store call saveDept issues, if any. */
  function SaveCall(form: DepartmentForm, editingDeptId: Option<int>): (c: Option<Command>)
    ensures c.Some? <==> form.name != ""
    ensures c.Some? && Truthy(editingDeptId) ==>
      c.value == UpdateDepartmentCmd(Department(editingDeptId.value, form.name, Some(form.location), None, Some(form.head)))
    ensures c.Some? && !Truthy(editingDeptId) ==>
      c.value == AddDepartmentCmd(DepartmentDraft(form.name, Some(form.location), None, Some(form.head)))
  {
    if form.name == "" then None
    else if Truthy(editingDeptId) then
      Some(UpdateDepartmentCmd(Department(editingDeptId.value, form.name, Some(form.location), None, Some(form.head))))
    else
      Some(AddDepartmentCmd(DepartmentDraft(form.name, Some(form.location), None, Some(form.head))))
  }

  /** Opening the edit modal on a named department and saving the untouched
      form sends it back with the same id and name, location and head
      defaulted to '' and no phone. */
  lemma EditThenSave(d: Department, id: int)
    requires d.name != "" && id != 0
    ensures SaveCall(EditForm(d), Some(id))
         == Some(UpdateDepartmentCmd(Department(id, d.name, Some(OrEmpty(d.location)), None, Some(OrEmpty(d.head)))))
  {
  }

  class DepartmentsComponent {
    var isModalOpen: bool
    var editingDeptId: Option<int>
    var formData: DepartmentForm

    constructor ()
      ensures !isModalOpen && editingDeptId == None && formData == BlankDepartmentForm
    {
      isModalOpen := false;
      editingDeptId := None;
      formData := BlankDepartmentForm;
    }

    method OpenCreateModal()
      modifies this
      ensures editingDeptId == None && formData == BlankDepartmentForm && isModalOpen
    {
      editingDeptId := None;
      formData := BlankDepartmentForm;
      isModalOpen := true;
    }

    /** `fetched` is what getDepartment produced; None stands for a null body
        or a rejected fetch, neither of which opens the modal. */
    method OpenEditModal(id: int, fetched: Option<Department>)
      modifies this
      ensures fetched.None? ==>
        isModalOpen == old(isModalOpen) && editingDeptId == old(editingDeptId) && formData == old(formData)
      ensures fetched.Some? ==> formData == EditForm(fetched.value) && editingDeptId == Some(id) && isModalOpen
    {
      if fetched.Some? {
        formData := EditForm(fetched.value);
        editingDeptId := Some(id);
        isModalOpen := true;
      }
    }

    /** Validates the name, issues the create or update call, and closes the
        modal; an empty name returns at once with the modal open. */
    method SaveDept() returns (call: Option<Command>)
      modifies this`isModalOpen
      ensures call == SaveCall(formData, editingDeptId)
      ensures isModalOpen == (if formData.name != "" then false else old(isModalOpen))
    {
      call := SaveCall(formData, editingDeptId);
      if formData.name != "" {
        isModalOpen := false;
      }
    }
  }
}
