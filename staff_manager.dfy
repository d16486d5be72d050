/**
 * The staff page of static/js/staff-manager.js: the local staff list, the
 * ids of the entry being edited or deleted, the save validation and the
 * local list updates after the API answers. Replies are parameters.
 *
 * A staff entry is looked up by its own `id`, while the table's buttons pass
 * the nested user's id; the two keys are kept apart.
 */
module StaffManager {
  import opened Wrappers
  import opened Strings

  /** The nested `user` record the table renders; a field that is absent or empty is "". */
  datatype User = User(id: string, firstName: string, lastName: string, email: string, phone: string)

  /**
   * A staff entry: its own id, the nested user, the top-level fields the edit
   * form reads and a save writes ("" when absent), the role, the `status`
   * the table shows, and the `is_active` key a save adds.
   */
  datatype Staff = Staff(id: string, user: User, firstName: string, lastName: string, email: string,
                         phone: string, role: string, status: bool, isActive: Option<bool>)

  /** The edit form's values. */
  datatype StaffForm = StaffForm(firstName: string, lastName: string, email: string, phone: string,
                                 role: string, isActive: bool)

  /** `capitalizeRole`: the first character upper-cased, the rest lower-cased. */
  function CapitalizeRole(role: string): (r: string)
    ensures |r| == |role|
    ensures |role| > 0 ==> r[0] == UpperChar(role[0]) && r[1..] == ToLower(role[1..])
  {
    if role == "" then "" else [UpperChar(role[0])] + ToLower(role[1..])
  }

  /** Capitalising twice changes nothing more. */
  lemma CapitalizeRoleIdempotent(role: string)
    ensures CapitalizeRole(CapitalizeRole(role)) == CapitalizeRole(role)
  {
    if role != "" {
      var r := CapitalizeRole(role);
      assert ToLower(r[1..]) == r[1..];
    }
  }

  /** The role column: the capitalised role, "Staff" when there is none. */
  function RoleText(role: string): (r: string)
    ensures role == "" ==> r == "Staff"
    ensures role != "" ==> |r| == |role| && r[0] == UpperChar(role[0]) && r[1..] == ToLower(role[1..])
  {
    CapitalizeRole(if role == "" then "staff" else role)
  }

  /** A row of `renderStaffTable`: the button key, the name, email, phone, role and status texts. */
  datatype StaffRow = StaffRow(key: string, name: string, email: string, phone: string, role: string, status: string)

  function RowOf(s: Staff): (r: StaffRow)
    ensures r.key == s.user.id && r.name == s.user.firstName + " " + s.user.lastName
    ensures r.email == (if s.user.email != "" then s.user.email else "-")
    ensures r.phone == (if s.user.phone != "" then s.user.phone else "-")
    ensures r.role == RoleText(s.role) && (r.status == "Active" <==> s.status)
  {
    StaffRow(s.user.id, s.user.firstName + " " + s.user.lastName, if s.user.email != "" then s.user.email else "-",
             if s.user.phone != "" then s.user.phone else "-", RoleText(s.role), if s.status then "Active" else "Inactive")
  }

  /** The values `openEditModal` puts in the form. */
  function Prefill(s: Staff): (r: StaffForm)
    ensures r.firstName == s.firstName && r.lastName == s.lastName && r.email == s.email && r.phone == s.phone
    ensures r.role == (if s.role == "" then "staff" else s.role) && r.isActive == s.status
  {
    StaffForm(s.firstName, s.lastName, s.email, s.phone, if s.role == "" then "staff" else s.role, s.status)
  }

  /** The form with its text fields trimmed, as `saveStaff` reads it. */
  function Trimmed(f: StaffForm): (r: StaffForm)
    ensures r.role == f.role && r.isActive == f.isActive
    ensures r.firstName == Trim(f.firstName) && r.lastName == Trim(f.lastName) && r.email == Trim(f.email) && r.phone == Trim(f.phone)
  {
    f.(firstName := Trim(f.firstName), lastName := Trim(f.lastName), email := Trim(f.email), phone := Trim(f.phone))
  }

  /** The required fields are all present after trimming. */
  predicate Complete(f: StaffForm)
  {
    Trim(f.firstName) != "" && Trim(f.lastName) != "" && Trim(f.email) != ""
  }

  /** `{...staff, ...formData}`: the form's fields replace the entry's; `status` is untouched. */
  function Merged(s: Staff, f: StaffForm): (r: Staff)
    ensures r.id == s.id && r.user == s.user && r.status == s.status
    ensures r.firstName == f.firstName && r.lastName == f.lastName && r.email == f.email && r.phone == f.phone
    ensures r.role == f.role && r.isActive == Some(f.isActive)
  {
    s.(firstName := f.firstName, lastName := f.lastName, email := f.email, phone := f.phone,
       role := f.role, isActive := Some(f.isActive))
  }

  /** The first index holding an entry with this id. */
  function IndexOf(staff: seq<Staff>, id: string): (r: Option<nat>)
    ensures r.Some? ==> r.value < |staff| && staff[r.value].id == id && forall j :: 0 <= j < r.value ==> staff[j].id != id
    ensures r.None? ==> forall j :: 0 <= j < |staff| ==> staff[j].id != id
  {
    if staff == [] then None
    else if staff[0].id == id then Some(0)
    else match IndexOf(staff[1..], id)
      case None => None
      case Some(k) => Some(k + 1)
  }

  /** The list after a successful update: the form merged into the first entry with the id. */
  function Updated(staff: seq<Staff>, id: string, f: StaffForm): (r: seq<Staff>)
    ensures |r| == |staff|
    ensures forall j :: 0 <= j < |staff| && Some(j) != IndexOf(staff, id) ==> r[j] == staff[j]
    ensures IndexOf(staff, id).Some? ==> r[IndexOf(staff, id).value] == Merged(staff[IndexOf(staff, id).value], f)
  {
    match IndexOf(staff, id)
    case None => staff
    case Some(i) => staff[i := Merged(staff[i], f)]
  }

  /** The list after a successful delete. */
  function Removed(staff: seq<Staff>, id: string): (r: seq<Staff>)
    ensures |r| <= |staff|
    ensures forall s :: s in r <==> s in staff && s.id != id
  {
    if staff == [] then []
    else (if staff[0].id != id then [staff[0]] else []) + Removed(staff[1..], id)
  }

  /** Deleting from a concatenation deletes from each part: the members that stay keep their order. */
  lemma {:induction false} RemovedAppend(a: seq<Staff>, b: seq<Staff>, id: string)
    ensures Removed(a + b, id) == Removed(a, id) + Removed(b, id)
  {
    if a == [] {
      assert a + b == b;
    } else {
      assert (a + b)[1..] == a[1..] + b;
      RemovedAppend(a[1..], b, id);
    }
  }

  /** Deleting an id that no entry has leaves the list as it was. */
  lemma {:induction false} RemovedAbsent(staff: seq<Staff>, id: string)
    requires forall j :: 0 <= j < |staff| ==> staff[j].id != id
    ensures Removed(staff, id) == staff
  {
    if staff != [] {
      RemovedAbsent(staff[1..], id);
      assert [staff[0]] + staff[1..] == staff;
    }
  }

  /**
   * The edit and delete buttons pass an entry's user id; the lookup finds an
   * entry only when some entry's own id equals it.
   */
  lemma RowButtonLookup(staff: seq<Staff>, k: nat)
    requires k < |staff|
    ensures IndexOf(staff, staff[k].user.id).Some? <==> exists j :: 0 <= j < |staff| && staff[j].id == staff[k].user.id
  {
  }

  /**
   * An update merges the form into the top-level fields, so the row keeps
   * showing the nested user's name, email and phone and the old status; only
   * the role column follows the form.
   */
  lemma UpdatedRow(staff: seq<Staff>, id: string, f: StaffForm, k: nat)
    requires k < |staff|
    ensures var r := RowOf(Updated(staff, id, f)[k]);
      r.key == RowOf(staff[k]).key && r.name == RowOf(staff[k]).name && r.email == RowOf(staff[k]).email &&
      r.phone == RowOf(staff[k]).phone && r.status == RowOf(staff[k]).status &&
      (Some(k) == IndexOf(staff, id) ==> r.role == RoleText(f.role))
  {
  }

  /** What `api.getStaff`, `createStaff`, `updateStaff` and `deleteStaff` give. */
  datatype Reply<T> = NoResponse | Thrown(message: string) | Replied(successFalse: bool, data: Option<T>, message: string)

  /** A reply the update and delete branches accept: a response whose `success` is not `false`. */
  predicate Accepted<T>(r: Reply<T>)
  {
    r.Replied? && !r.successFalse
  }

  /** The message of the error that ends a failed save or delete. */
  function FailureMessage<T>(r: Reply<T>, fallback: string, outer: string): string
  {
    match r
    case Thrown(m) => if m != "" then m else outer
    case Replied(_, _, m) => if m != "" then m else fallback
    case NoResponse => fallback
  }

  /** A truthy id: set and non-empty. */
  predicate Truthy(id: Option<string>)
  {
    id.Some? && id.value != ""
  }

  /** How a save ends. */
  datatype SaveOutcome = Invalid | Saved(reload: bool) | Failed(message: string)

  /** The `StaffManager` object. */
  class Manager {
    var staff: seq<Staff>
    var currentEditingId: Option<string>
    var currentDeletingId: Option<string>

    constructor ()
      ensures staff == [] && currentEditingId.None? && currentDeletingId.None?
    {
      staff := [];
      currentEditingId := None;
      currentDeletingId := None;
    }

    /** `loadStaff`: the reply's list, [] without one; a thrown error keeps the list. */
    method LoadStaff(reply: Reply<seq<Staff>>)
      modifies this
      ensures reply.Thrown? ==> staff == old(staff)
      ensures reply.NoResponse? ==> staff == []
      ensures reply.Replied? ==> staff == (if reply.data.Some? then reply.data.value else [])
      ensures currentEditingId == old(currentEditingId) && currentDeletingId == old(currentDeletingId)
    {
      if reply.Thrown? {
        return;
      }
      staff := if reply.Replied? && reply.data.Some? then reply.data.value else [];
    }

    /** `openAddModal`: the next save creates. */
    method OpenAddModal()
      modifies this
      ensures currentEditingId.None? && staff == old(staff) && currentDeletingId == old(currentDeletingId)
    {
      currentEditingId := None;
    }

    /** `openEditModal`: with an entry of that id the next save updates it; else "not found" and nothing changes. */
    method OpenEditModal(key: string) returns (found: bool)
      modifies this
      ensures found <==> IndexOf(staff, key).Some?
      ensures found ==> currentEditingId == Some(key)
      ensures !found ==> currentEditingId == old(currentEditingId)
      ensures staff == old(staff) && currentDeletingId == old(currentDeletingId)
    {
      found := IndexOf(staff, key).Some?;
      if found {
        currentEditingId := Some(key);
      }
    }

    /** `closeModal`: the edit is abandoned. */
    method CloseModal()
      modifies this
      ensures currentEditingId.None? && staff == old(staff) && currentDeletingId == old(currentDeletingId)
    {
      currentEditingId := None;
    }

    /** `closeDeleteModal`: the deletion is abandoned. */
    method CloseDeleteModal()
      modifies this
      ensures currentDeletingId.None? && staff == old(staff) && currentEditingId == old(currentEditingId)
    {
      currentDeletingId := None;
    }

    /** `openDeleteModal`. */
    method OpenDeleteModal(key: string) returns (found: bool)
      modifies this
      ensures found <==> IndexOf(staff, key).Some?
      ensures found ==> currentDeletingId == Some(key)
      ensures !found ==> currentDeletingId == old(currentDeletingId)
      ensures staff == old(staff) && currentEditingId == old(currentEditingId)
    {
      found := IndexOf(staff, key).Some?;
      if found {
        currentDeletingId := Some(key);
      }
    }

    /**
     * `saveStaff`: an incomplete form is refused before any call; an update
     * merges the trimmed form into the entry being edited, a create appends
     * the returned entry or asks for a reload; a success closes the modal.
     */
    method SaveStaff(form: StaffForm, reply: Reply<Staff>) returns (called: bool, outcome: SaveOutcome)
      modifies this
      ensures !Complete(form) ==> !called && outcome == Invalid && staff == old(staff) && currentEditingId == old(currentEditingId)
      ensures Complete(form) ==> called
      ensures Complete(form) && Truthy(old(currentEditingId)) && Accepted(reply) ==> (
        outcome == Saved(false) && currentEditingId.None? &&
        staff == Updated(old(staff), old(currentEditingId).value, Trimmed(form)))
      ensures Complete(form) && Truthy(old(currentEditingId)) && !Accepted(reply) ==> (
        outcome == Failed(FailureMessage(reply, "Failed to update staff member", "Failed to save staff member")) &&
        staff == old(staff) && currentEditingId == old(currentEditingId))
      ensures Complete(form) && !Truthy(old(currentEditingId)) && reply.Replied? && reply.data.Some? ==> (
        outcome == Saved(false) && currentEditingId.None? && staff == old(staff) + [reply.data.value])
      ensures Complete(form) && !Truthy(old(currentEditingId)) && Accepted(reply) && reply.data.None? ==> (
        outcome == Saved(true) && currentEditingId.None? && staff == old(staff))
      ensures Complete(form) && !Truthy(old(currentEditingId)) && !Accepted(reply) && !(reply.Replied? && reply.data.Some?) ==> (
        outcome == Failed(FailureMessage(reply, "Failed to create staff member", "Failed to save staff member")) &&
        staff == old(staff) && currentEditingId == old(currentEditingId))
      ensures currentDeletingId == old(currentDeletingId)
    {
      if !Complete(form) {
        return false, Invalid;
      }
      called := true;
      var data := Trimmed(form);
      if Truthy(currentEditingId) {
        if !Accepted(reply) {
          return true, Failed(FailureMessage(reply, "Failed to update staff member", "Failed to save staff member"));
        }
        staff := Updated(staff, currentEditingId.value, data);
        outcome := Saved(false);
      } else if reply.Replied? && reply.data.Some? {
        staff := staff + [reply.data.value];
        outcome := Saved(false);
      } else if Accepted(reply) {
        outcome := Saved(true);
      } else {
        return true, Failed(FailureMessage(reply, "Failed to create staff member", "Failed to save staff member"));
      }
      currentEditingId := None;
    }

    /** `confirmDelete`: nothing without an entry chosen; on success every entry with that id goes. */
    method ConfirmDelete(reply: Reply<()>) returns (called: bool, failure: Option<string>)
      modifies this
      ensures called <==> Truthy(old(currentDeletingId))
      ensures !called ==> failure.None? && staff == old(staff) && currentDeletingId == old(currentDeletingId)
      ensures called && Accepted(reply) ==> (failure.None? && currentDeletingId.None? &&
        staff == Removed(old(staff), old(currentDeletingId).value))
      ensures called && !Accepted(reply) ==> (staff == old(staff) && currentDeletingId == old(currentDeletingId) &&
        failure == Some(FailureMessage(reply, "Failed to delete staff member", "Failed to delete staff member")))
      ensures currentEditingId == old(currentEditingId)
    {
      if !Truthy(currentDeletingId) {
        return false, None;
      }
      called := true;
      if !Accepted(reply) {
        return true, Some(FailureMessage(reply, "Failed to delete staff member", "Failed to delete staff member"));
      }
      staff := Removed(staff, currentDeletingId.value);
      currentDeletingId := None;
      failure := None;
    }
  }
}
