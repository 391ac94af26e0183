/** The users page of src/app/users/page.tsx: the admin gate, the form rules of
    `userSchema`, the pure list updates behind the handlers, and the handlers
    themselves over the page's state cells. Each service call's outcome is a
    parameter; each async handler is one atomic step. */
module UsersPage {
  import opened Wrappers
  import opened Types
  import opened Gateway
  import Admin = ProtectedAdminLayout

  const UpdatedMessage: string := "Usuário atualizado com sucesso!"
  const CreatedMessage: string := "Usuário criado com sucesso!"
  const SaveErrorMessage: string := "Erro ao salvar usuário. Tente novamente."
  const DeletedMessage: string := "Usuário excluído com sucesso!"
  const DeleteErrorMessage: string := "Erro ao excluir usuário. Tente novamente."
  const RoleErrorMessage: string := "Erro ao alterar papel do usuário. Tente novamente."

  /** The values of the user form: `password` is `None` when the field is
      not sent at all. */
  datatype UserForm = UserForm(username: string, password: Option<string>, role: string)

  /** `userSchema`: a username of at least 3 characters, a password (when
      present) of at least 6, and a role in {USER, ADMIN}. */
  predicate UserSchemaAccepts(form: UserForm)
    ensures UserSchemaAccepts(form) ==> form.role == UserRole || form.role == AdminRole
    ensures form.password == Some("") ==> !UserSchemaAccepts(form)
  {
    && |form.username| >= 3
    && (form.password.None? || |form.password.value| >= 6)
    && (form.role == UserRole || form.role == AdminRole)
  }

  /** `role || 'USER'`: a missing or empty role reads as "USER". */
  function RoleOrUser(role: Option<string>): (r: string)
    ensures r != ""
    ensures role.Some? && role.value != "" ==> r == role.value
    ensures role.None? || role.value == "" ==> r == UserRole
  {
    if role.Some? && role.value != "" then role.value else UserRole
  }

  /** The form `handleCreateUser` resets to. */
  function CreatePrefill(): (f: UserForm)
    ensures f.username == "" && f.password == Some("") && f.role == UserRole
    ensures !UserSchemaAccepts(f)
  {
    UserForm("", Some(""), UserRole)
  }

  /** The form `handleEditUser` resets to: the user's name and role, and an
      empty password. */
  function EditPrefill(u: User): (f: UserForm)
    ensures f.username == u.username && f.password == Some("")
    ensures f.role == RoleOrUser(u.role)
  {
    UserForm(u.username, Some(""), RoleOrUser(u.role))
  }

  /** Neither pre-filled form passes the schema as it stands: the empty
      password is present and shorter than 6, so an edit must type a new
      password before it can be saved. */
  lemma PrefilledFormsRejected(u: User)
    ensures !UserSchemaAccepts(CreatePrefill())
    ensures !UserSchemaAccepts(EditPrefill(u))
  {
  }

  /** The form is accepted exactly when its parts are; an absent password
      never blocks it. */
  lemma SchemaByParts(form: UserForm)
    ensures UserSchemaAccepts(form) ==> |form.username| >= 3 && (form.role == "USER" || form.role == "ADMIN")
    ensures form.password.Some? && |form.password.value| < 6 ==> !UserSchemaAccepts(form)
    ensures UserSchemaAccepts(form) ==> UserSchemaAccepts(form.(password := None))
  {
  }

  /** The new role of the toggle: "ADMIN" becomes "USER", anything else
      becomes "ADMIN". */
  function ToggledRole(currentRole: string): (r: string)
    ensures r == UserRole || r == AdminRole
    ensures r == UserRole <==> currentRole == AdminRole
  {
    if currentRole == AdminRole then UserRole else AdminRole
  }

  /** Toggling twice gives back either of the two roles. */
  lemma ToggleInvolutive(role: string)
    requires role == UserRole || role == AdminRole
    ensures ToggledRole(ToggledRole(role)) == role
  {
  }

  /** `users.map(u => u.id === id ? updated : u)` */
  function ReplaceById(users: seq<User>, id: Option<int>, updated: User): (r: seq<User>)
    ensures |r| == |users|
    ensures forall k :: 0 <= k < |r| ==> r[k] == if users[k].id == id then updated else users[k]
  {
    seq(|users|, k requires 0 <= k < |users| => if users[k].id == id then updated else users[k])
  }

  /** Replacing by an id no user has changes nothing, and replacing twice with
      the same user is replacing once. */
  lemma ReplaceByIdProperties(users: seq<User>, id: Option<int>, updated: User)
    ensures (forall k :: 0 <= k < |users| ==> users[k].id != id) ==> ReplaceById(users, id, updated) == users
    ensures updated.id == id ==> ReplaceById(ReplaceById(users, id, updated), id, updated) == ReplaceById(users, id, updated)
  {
  }

  /** `users.filter(u => u.id !== id)` */
  function RemoveById(users: seq<User>, id: Option<int>): (r: seq<User>)
    ensures |r| <= |users|
    ensures forall k :: 0 <= k < |r| ==> r[k].id != id && r[k] in users
    ensures forall u :: u in users && u.id != id ==> u in r
  {
    if users == [] then []
    else if users[0].id != id then [users[0]] + RemoveById(users[1..], id)
    else RemoveById(users[1..], id)
  }

  /** The users kept by a delete stay in their original order. */
  lemma {:induction false} RemoveByIdConcat(a: seq<User>, b: seq<User>, id: Option<int>)
    ensures RemoveById(a + b, id) == RemoveById(a, id) + RemoveById(b, id)
  {
    if a == [] {
      assert a + b == b;
    } else {
      assert (a + b)[1..] == a[1..] + b;
      RemoveByIdConcat(a[1..], b, id);
    }
  }

  /** What the page shows for the signed-in user: it renders only for an
      administrator, and sends any other signed-in user to the dashboard. */
  datatype Gate = Gate(renders: bool, redirect: Option<string>)

  function PageGate(currentUser: Option<User>): (g: Gate)
    ensures g.renders <==> Admin.RoleOf(currentUser) == Some(AdminRole)
    ensures g.redirect.Some? <==> currentUser.Some? && currentUser.value.role != Some(AdminRole)
    ensures g.redirect.Some? ==> g.redirect == Some(DashboardPath) && !g.renders
  {
    var redirect := if currentUser.Some? && currentUser.value.role != Some(AdminRole) then Some(DashboardPath) else None;
    Gate(Admin.RoleOf(currentUser) == Some(AdminRole), redirect)
  }

  /** When the page renders, the admin guard wrapped around it lets the same
      signed-in user through once loading is over. */
  lemma PageRendersOnlyInsideAdminGuard(currentUser: Option<User>)
    ensures PageGate(currentUser).renders ==> Admin.Decide(false, currentUser.Some?, currentUser).view == Admin.PL.Shell
  {
  }

  /** The state cells of `UsersPage` that the handlers change. */
  class UsersPageState {
    var users: seq<User>
    var error: Option<string>
    var success: Option<string>
    var editingUser: Option<User>
    var showModal: bool
    var deleteUserId: Option<int>
    var showDeleteModal: bool

    constructor (users: seq<User>)
      ensures this.users == users
      ensures error == None && success == None && editingUser == None && !showModal
      ensures deleteUserId == None && !showDeleteModal
    {
      this.users := users;
      error, success, editingUser, showModal := None, None, None, false;
      deleteUserId, showDeleteModal := None, false;
    }

    /** `handleCreateUser`: opens the form empty, for a new user. */
    method HandleCreateUser() returns (form: UserForm)
      modifies this`editingUser, this`showModal
      ensures editingUser == None && showModal && form == CreatePrefill()
    {
      editingUser := None;
      form := CreatePrefill();
      showModal := true;
    }

    /** `handleEditUser(user)`: opens the form for that user. */
    method HandleEditUser(u: User) returns (form: UserForm)
      modifies this`editingUser, this`showModal
      ensures editingUser == Some(u) && showModal && form == EditPrefill(u)
    {
      editingUser := Some(u);
      form := EditPrefill(u);
      showModal := true;
    }

    /** `handleDeleteClick(userId)`: asks for confirmation of a delete. */
    method HandleDeleteClick(userId: Option<int>)
      modifies this`deleteUserId, this`showDeleteModal
      ensures deleteUserId == userId && showDeleteModal
    {
      deleteUserId := userId;
      showDeleteModal := true;
    }

    /** `handleSubmit(onSubmit)`: a form the schema rejects changes nothing;
        otherwise the save call is made (`reply`). A successful edit replaces
        by the edited user's id, a successful create appends; a failed save
        leaves the list and the form open and sets the error message. */
    method Submit(form: UserForm, reply: Reply<User>) returns (called: bool)
      modifies this`users, this`success, this`error, this`showModal
      ensures called <==> UserSchemaAccepts(form)
      ensures !called || reply.Err? ==> users == old(users) && success == old(success) && showModal == old(showModal)
      ensures !called ==> error == old(error)
      ensures called && reply.Err? ==> error == Some(SaveErrorMessage)
      ensures called && reply.Ok? && editingUser.Some? ==>
        users == ReplaceById(old(users), editingUser.value.id, reply.value) && success == Some(UpdatedMessage)
      ensures called && reply.Ok? && editingUser.None? ==>
        users == old(users) + [reply.value] && success == Some(CreatedMessage)
      ensures called && reply.Ok? ==> !showModal && error == old(error)
    {
      called := UserSchemaAccepts(form);
      if !called {
        return;
      }
      match reply {
        case Ok(saved) =>
          if editingUser.Some? {
            users := ReplaceById(users, editingUser.value.id, saved);
            success := Some(UpdatedMessage);
          } else {
            users := users + [saved];
            success := Some(CreatedMessage);
          }
          showModal := false;
        case Err(_) =>
          error := Some(SaveErrorMessage);
      }
    }

    /** `confirmDelete`: no call and no change when no id (or id 0) is
        pending; otherwise a successful delete removes every user with that id
        and closes the dialog, and a failed one only sets the error message. */
    method ConfirmDelete(reply: Reply<()>) returns (called: bool)
      modifies this`users, this`success, this`error, this`showDeleteModal
      ensures called <==> deleteUserId.Some? && deleteUserId.value != 0
      ensures !called || reply.Err? ==> users == old(users) && success == old(success) && showDeleteModal == old(showDeleteModal)
      ensures !called ==> error == old(error)
      ensures called && reply.Err? ==> error == Some(DeleteErrorMessage)
      ensures called && reply.Ok? ==>
        users == RemoveById(old(users), deleteUserId) && success == Some(DeletedMessage) && !showDeleteModal && error == old(error)
    {
      called := deleteUserId.Some? && deleteUserId.value != 0;
      if !called {
        return;
      }
      match reply {
        case Ok(_) =>
          users := RemoveById(users, deleteUserId);
          success := Some(DeletedMessage);
          showDeleteModal := false;
        case Err(_) =>
          error := Some(DeleteErrorMessage);
      }
    }

    /** `handleToggleRole(user.id, user.role || 'USER')`: asks the server for
        the toggled role; on success the returned user replaces by id, on
        failure only the error message is set. */
    method HandleToggleRole(userId: Option<int>, role: Option<string>, reply: Reply<User>) returns (newRole: string)
      modifies this`users, this`success, this`error
      ensures newRole == ToggledRole(RoleOrUser(role))
      ensures newRole == UserRole <==> role == Some(AdminRole)
      ensures reply.Err? ==> users == old(users) && success == old(success) && error == Some(RoleErrorMessage)
      ensures reply.Ok? ==>
        users == ReplaceById(old(users), userId, reply.value) && success == Some("Papel do usuário alterado para " + newRole + "!") && error == old(error)
    {
      newRole := ToggledRole(RoleOrUser(role));
      match reply {
        case Ok(updated) =>
          users := ReplaceById(users, userId, updated);
          success := Some("Papel do usuário alterado para " + newRole + "!");
        case Err(_) =>
          error := Some(RoleErrorMessage);
      }
    }
  }
}
