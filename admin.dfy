/**
 * The administrators page (src/Pages/Admin.jsx): an inline form that
 * creates or updates an administrator, and the list's edit and delete
 * buttons.
 */
module Admin {
  import opened Wrappers
  import opened Js

  /** An administrator as the backend lists it. */
  datatype AdminUser = AdminUser(adminID: int, name: string, email: string, role: string)

  /** The inline form. */
  datatype AdminForm = AdminForm(name: string, email: string, role: string)

  const EmptyForm := AdminForm("", "", "")

  /** The form filled from an administrator's name, email and role. */
  function FormOf(a: AdminUser): AdminForm {
    AdminForm(a.name, a.email, a.role)
  }

  /** A call into the administrator service. */
  datatype AdminCall = CreateAdmin(data: AdminForm) | UpdateAdmin(id: int, data: AdminForm) | DeleteAdmin(id: int)

  /** `if (editingId)`: null and the number 0 are both falsy. */
  predicate IsEditing(editingId: Option<int>) {
    editingId.Some? && editingId.value != 0
  }

  /** The call `handleSubmit` makes: update when `editingId` is truthy, else create. */
  function SubmitCall(editingId: Option<int>, form: AdminForm): (r: AdminCall)
    ensures r.UpdateAdmin? <==> editingId.Some? && editingId.value != 0
    ensures !r.DeleteAdmin? && r.data == form
    ensures r.UpdateAdmin? ==> r.id == editingId.value
  {
    if IsEditing(editingId) then UpdateAdmin(editingId.value, form) else CreateAdmin(form)
  }

  /**
   * Editing an administrator then submitting updates that administrator,
   * except one whose `adminID` is 0, which is created anew.
   */
  lemma EditThenSubmit(a: AdminUser, form: AdminForm)
    ensures a.adminID != 0 ==> SubmitCall(Some(a.adminID), form) == UpdateAdmin(a.adminID, form)
    ensures a.adminID == 0 ==> SubmitCall(Some(a.adminID), form) == CreateAdmin(form)
  {
  }

  const LoadFailedAlert := "Failed to load admins"
  const SaveFailedAlert := "Failed to save admin"
  const DeleteFailedAlert := "Delete failed"

  /** The page state; `alerts` records the `alert` dialogs raised, oldest first. */
  class AdminPage {
    var admins: seq<AdminUser>
    var form: AdminForm
    var editingId: Option<int>
    var loading: bool
    var alerts: seq<string>

    constructor ()
      ensures admins == [] && form == EmptyForm && editingId == None && loading && alerts == []
    {
      admins := [];
      form := EmptyForm;
      editingId := None;
      loading := true;
      alerts := [];
    }

    /**
     * `fetchAdmins`: the list is replaced only when the request resolves; a
     * failure raises an alert; `loading` is false afterwards either way.
     */
    method FetchAdmins(outcome: Outcome<seq<AdminUser>>)
      modifies this`admins, this`loading, this`alerts
      ensures !loading
      ensures admins == (if outcome.Resolved? then outcome.value else old(admins))
      ensures alerts == old(alerts) + (if outcome.Resolved? then [] else [LoadFailedAlert])
    {
      loading := true;
      if outcome.Resolved? {
        admins := outcome.value;
      } else {
        alerts := alerts + [LoadFailedAlert];
      }
      loading := false;
    }

    method SetName(text: string)
      modifies this`form
      ensures form == old(form).(name := text)
    {
      form := form.(name := text);
    }

    method SetEmail(text: string)
      modifies this`form
      ensures form == old(form).(email := text)
    {
      form := form.(email := text);
    }

    method SetRole(text: string)
      modifies this`form
      ensures form == old(form).(role := text)
    {
      form := form.(role := text);
    }

    /** `handleEdit`: the form takes the administrator's fields and `editingId` its id. */
    method HandleEdit(a: AdminUser)
      modifies this`form, this`editingId
      ensures form == FormOf(a) && editingId == Some(a.adminID)
    {
      form := FormOf(a);
      editingId := Some(a.adminID);
    }

    /**
     * `handleSubmit`: on success the form empties, `editingId` clears and
     * the list refetches; on failure only an alert is raised.
     */
    method HandleSubmit(outcome: Outcome<()>, refetch: Outcome<seq<AdminUser>>) returns (call: AdminCall)
      modifies this
      ensures call == SubmitCall(old(editingId), old(form))
      ensures outcome.Resolved? ==>
        && form == EmptyForm && editingId == None && !loading
        && admins == (if refetch.Resolved? then refetch.value else old(admins))
        && alerts == old(alerts) + (if refetch.Resolved? then [] else [LoadFailedAlert])
      ensures outcome.Rejected? ==>
        && form == old(form) && editingId == old(editingId)
        && admins == old(admins) && loading == old(loading)
        && alerts == old(alerts) + [SaveFailedAlert]
    {
      call := SubmitCall(editingId, form);
      if outcome.Resolved? {
        form := EmptyForm;
        editingId := None;
        FetchAdmins(refetch);
      } else {
        alerts := alerts + [SaveFailedAlert];
      }
    }

    /** `handleDelete`: nothing at all happens unless confirmed. */
    method HandleDelete(id: int, confirmed: bool, outcome: Outcome<()>, refetch: Outcome<seq<AdminUser>>)
      returns (call: Option<AdminCall>)
      modifies this`admins, this`loading, this`alerts
      ensures call == (if confirmed then Some(DeleteAdmin(id)) else None)
      ensures !confirmed ==> unchanged(this)
      ensures confirmed && outcome.Rejected? ==>
        admins == old(admins) && loading == old(loading) && alerts == old(alerts) + [DeleteFailedAlert]
      ensures confirmed && outcome.Resolved? ==>
        && !loading
        && admins == (if refetch.Resolved? then refetch.value else old(admins))
        && alerts == old(alerts) + (if refetch.Resolved? then [] else [LoadFailedAlert])
    {
      if !confirmed {
        return None;
      }
      call := Some(DeleteAdmin(id));
      if outcome.Resolved? {
        FetchAdmins(refetch);
      } else {
        alerts := alerts + [DeleteFailedAlert];
      }
    }
  }
}
