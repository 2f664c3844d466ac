/** The administrator's user table: the role filter, the full-name column, and
    the create/edit dialog with the form it is opened on.  Rows are the
    accounts the listing returns; the server's answers are parameters. */
module UsersManagement {
  import opened Common
  import Users

  // ---- The table --------------------------------------------------------------

  /** `users.filter(user => user.role === role)`. */
  function WithRole(users: seq<Users.PublicUser>, role: string): (r: seq<Users.PublicUser>)
    ensures |r| <= |users|
    ensures forall i :: 0 <= i < |r| ==> r[i].role == role
    ensures forall u :: u in r <==> u in users && u.role == role
  {
    if users == [] then []
    else (if users[0].role == role then [users[0]] else []) + WithRole(users[1..], role)
  }

  /** The filter keeps order: filtering a concatenation concatenates the
      filtered parts. */
  lemma {:induction false} WithRoleOfConcat(a: seq<Users.PublicUser>, b: seq<Users.PublicUser>, role: string)
    ensures WithRole(a + b, role) == WithRole(a, role) + WithRole(b, role)
  {
    if a == [] {
      assert a + b == b;
    } else {
      assert (a + b)[1..] == a[1..] + b;
      WithRoleOfConcat(a[1..], b, role);
    }
  }

  /** The full-name column: first and last name joined by a space, a missing part
      shown as empty. */
  function FullName(u: Users.PublicUser): (name: string)
    ensures |name| == |OrString(u.firstName, "")| + 1 + |OrString(u.lastName, "")|
    ensures name[..|OrString(u.firstName, "")|] == OrString(u.firstName, "")
    ensures name[|OrString(u.firstName, "")| + 1..] == OrString(u.lastName, "")
  {
    JoinWithSpace(OrString(u.firstName, ""), OrString(u.lastName, ""))
  }

  // ---- The dialog -------------------------------------------------------------

  datatype UserForm = UserForm(
    firstName: string, lastName: string, email: string, phoneNumber: string,
    password: string, role: string)

  const EMPTY_FORM: UserForm := UserForm("", "", "", "", "", "client")

  /** The form an edit dialog opens on: the user's fields, a missing name or
      phone number as empty, and an empty password. */
  function EditForm(u: Users.PublicUser): (f: UserForm)
    ensures f.email == u.email && f.role == u.role && f.password == ""
    ensures f.firstName == OrString(u.firstName, "") && f.lastName == OrString(u.lastName, "")
    ensures f.phoneNumber == OrString(u.phoneNumber, "")
  {
    UserForm(OrString(u.firstName, ""), OrString(u.lastName, ""), u.email,
             OrString(u.phoneNumber, ""), "", u.role)
  }

  datatype Request =
    | CreateUser(form: UserForm)
    | UpdateUser(id: int, form: UserForm)

  class Page {
    var users: seq<Users.PublicUser>
    var roleFilter: string
    var openDialog: bool
    var currentUser: Option<Users.PublicUser>
    var formData: UserForm

    constructor ()
      ensures users == [] && roleFilter == "all" && !openDialog && currentUser == None
      ensures formData == EMPTY_FORM
    {
      users := [];
      roleFilter := "all";
      openDialog := false;
      currentUser := None;
      formData := EMPTY_FORM;
    }

    /** `handleOpenDialog(user)`: with a user, edit that user on a copy of its
        fields; without one, create on an empty form whose role is client.  The
        dialog opens either way. */
    method HandleOpenDialog(user: Option<Users.PublicUser>)
      modifies this`currentUser, this`formData, this`openDialog
      ensures openDialog && currentUser == user
      ensures user.Some? ==> formData == EditForm(user.value)
      ensures user.None? ==> formData == EMPTY_FORM
    {
      if user.Some? {
        currentUser := user;
        formData := EditForm(user.value);
      } else {
        currentUser := None;
        formData := EMPTY_FORM;
      }
      openDialog := true;
    }

    /** `handleCloseDialog`: the dialog closes and forgets its user; the form
        keeps its values. */
    method HandleCloseDialog()
      modifies this`openDialog, this`currentUser
      ensures !openDialog && currentUser == None
    {
      openDialog := false;
      currentUser := None;
    }

    /** `handleSubmit`: update the dialog's user, or create one when there is
        none.  On success the list is reloaded and the dialog closed; on failure
        the server's message (or a default) is shown and nothing changes. */
    method HandleSubmit(serverOk: bool, serverMessage: Option<string>, fetched: seq<Users.PublicUser>)
      returns (request: Request, alert: Option<string>)
      modifies this`users, this`openDialog, this`currentUser
      ensures old(currentUser).Some? ==> request == UpdateUser(old(currentUser).value.id, formData)
      ensures old(currentUser).None? ==> request == CreateUser(formData)
      ensures serverOk ==> users == fetched && !openDialog && currentUser == None && alert == None
      ensures !serverOk ==>
                && unchanged(this) && alert == Some(OrString(serverMessage, "Échec de l'opération"))
    {
      if currentUser.Some? {
        request := UpdateUser(currentUser.value.id, formData);
      } else {
        request := CreateUser(formData);
      }
      if serverOk {
        users := fetched;
        HandleCloseDialog();
        alert := None;
      } else {
        alert := Some(OrString(serverMessage, "Échec de l'opération"));
      }
    }

    /** The rows the table shows for the current filter: every user under
        'all', and otherwise the users with that role, in their listed order. */
    function Shown(): (shown: seq<Users.PublicUser>)
      reads this
      ensures roleFilter == "all" ==> shown == users
      ensures roleFilter != "all" ==> shown == WithRole(users, roleFilter)
      ensures forall u :: u in shown <==> u in users && (roleFilter == "all" || u.role == roleFilter)
    {
      if roleFilter == "all" then users else WithRole(users, roleFilter)
    }
  }
}
