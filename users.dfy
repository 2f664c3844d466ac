/** Account handlers: listings without the password column, creation with the
    duplicate-email check, the administrator's edits, deletion, and the caller's
    own profile update with its current-password gate.  Hashing and password
    checking are the parameters `hash` and `matches` (plain text, stored hash). */
module Users {
  import opened Common
  import opened Models
  import opened Store

  // ---- Lookup by e-mail -------------------------------------------------------

  /** The lowest key below `n` whose user has e-mail `email`, if any. */
  function FirstWithEmail(users: map<int, User>, email: string, n: int): (r: Option<int>)
    ensures r.Some? ==> r.value in users && users[r.value].email == email && 0 <= r.value < n
    ensures r.Some? ==> forall k :: 0 <= k < r.value && k in users ==> users[k].email != email
    ensures r.None? ==> forall k :: 0 <= k < n && k in users ==> users[k].email != email
    decreases n
  {
    if n <= 0 then None
    else match FirstWithEmail(users, email, n - 1)
      case Some(k) => Some(k)
      case None => if n - 1 in users && users[n - 1].email == email then Some(n - 1) else None
  }

  /** `User.findOne({ where: { email } })`, taken to answer the oldest match. */
  function FindByEmail(db: Db, email: string): (r: Option<int>)
    reads db
    requires db.Valid()
    ensures r.Some? ==> r.value in db.users && db.users[r.value].email == email
    ensures r.None? <==> forall k :: k in db.users ==> db.users[k].email != email
  {
    FirstWithEmail(db.users, email, db.nextUserId)
  }

  /** No two accounts share an e-mail address. */
  predicate EmailsUnique(users: map<int, User>)
  {
    forall j, k :: j in users && k in users && users[j].email == users[k].email ==> j == k
  }

  // ---- Listings ---------------------------------------------------------------

  /** A user as the listings return it: every column except the password. */
  datatype PublicUser = PublicUser(
    id: int, name: Option<string>, firstName: Option<string>, lastName: Option<string>,
    email: string, role: string, phoneNumber: Option<string>, birthDate: Option<int>)

  function Public(u: User): (p: PublicUser)
    ensures p.id == u.id && p.email == u.email && p.role == u.role && p.name == u.name
    ensures p.firstName == u.firstName && p.lastName == u.lastName
    ensures p.phoneNumber == u.phoneNumber && p.birthDate == u.birthDate
  {
    PublicUser(u.id, u.name, u.firstName, u.lastName, u.email, u.role, u.phoneNumber, u.birthDate)
  }

  /** Two users differing only in their password are listed identically. */
  lemma PublicHidesPassword(u: User, password: string)
    ensures Public(u.(password := password)) == Public(u)
  {
  }

  /** GET /users: every account, password excluded. */
  function GetAllUsers(db: Db): (r: map<int, PublicUser>)
    reads db
    ensures r.Keys == db.users.Keys
    ensures forall k :: k in r ==> r[k] == Public(db.users[k])
  {
    map k | k in db.users :: Public(db.users[k])
  }

  /** GET /users/:id, password excluded. */
  function GetUserById(db: Db, id: int): (r: Outcome<PublicUser>)
    reads db
    ensures id !in db.users <==> r == NotFound("User not found")
    ensures id in db.users ==> r == Ok(Public(db.users[id]))
  {
    if id in db.users then Ok(Public(db.users[id])) else NotFound("User not found")
  }

  // ---- Administrator's edits --------------------------------------------------

  /** The fields createUser and updateUser answer with. */
  datatype UserSummary = UserSummary(id: int, name: Option<string>, email: string, role: string)

  function Summary(u: User): UserSummary
  {
    UserSummary(u.id, u.name, u.email, u.role)
  }

  /** Create-user handler.  An e-mail already on an account answers 400 and adds
      nothing; otherwise an account is added with the hashed password and the
      role `role || 'client'`. */
  method CreateUser(db: Db, name: Option<string>, email: string, password: string,
                    role: Option<string>, hash: string -> string)
    returns (r: Outcome<UserSummary>)
    requires db.Valid()
    modifies db`users, db`nextUserId
    ensures db.Valid()
    ensures (exists k :: k in old(db.users) && old(db.users)[k].email == email) ==>
              r == BadRequest("User already exists") && unchanged(db)
    ensures (forall k :: k in old(db.users) ==> old(db.users)[k].email != email) ==>
              var id := old(db.nextUserId);
              var u := User(id, name, None, None, email, hash(password),
                            if Truthy(role) then role.value else "client", None, None);
              && r == Ok(Summary(u))
              && db.users == old(db.users)[id := u]
              && db.nextUserId == id + 1
    ensures EmailsUnique(old(db.users)) ==> EmailsUnique(db.users)
  {
    if FindByEmail(db, email).Some? {
      return BadRequest("User already exists");
    }
    var user := User(db.nextUserId, name, None, None, email, hash(password),
                     OrString(role, "client"), None, None);
    db.users := db.users[user.id := user];
    db.nextUserId := db.nextUserId + 1;
    r := Ok(Summary(user));
  }

  /** `name = name || name`, `email = email || email`, `role = role || role`. */
  function ApplyUserUpdate(u: User, name: Option<string>, email: Option<string>, role: Option<string>): (v: User)
    ensures v.id == u.id && v.password == u.password
    ensures v.firstName == u.firstName && v.lastName == u.lastName
    ensures v.phoneNumber == u.phoneNumber && v.birthDate == u.birthDate
    ensures Truthy(name) ==> v.name == name
    ensures !Truthy(name) ==> v.name == u.name
    ensures Truthy(email) ==> v.email == email.value
    ensures !Truthy(email) ==> v.email == u.email
    ensures Truthy(role) ==> v.role == role.value
    ensures !Truthy(role) ==> v.role == u.role
  {
    u.(name := if Truthy(name) then name else u.name,
       email := OrString(email, u.email),
       role := OrString(role, u.role))
  }

  /** Update-user handler: only name, e-mail and role can change, each only to a
      non-empty value.  The new e-mail is not checked against other accounts. */
  method UpdateUser(db: Db, id: int, name: Option<string>, email: Option<string>, role: Option<string>)
    returns (r: Outcome<UserSummary>)
    requires db.Valid()
    modifies db`users
    ensures db.Valid()
    ensures id !in old(db.users) ==> r == NotFound("User not found") && unchanged(db)
    ensures id in old(db.users) ==>
              var u := ApplyUserUpdate(old(db.users)[id], name, email, role);
              r == Ok(Summary(u)) && db.users == old(db.users)[id := u]
  {
    if id !in db.users {
      return NotFound("User not found");
    }
    var user := db.users[id];
    user := user.(name := if Truthy(name) then name else user.name);
    user := user.(email := OrString(email, user.email));
    user := user.(role := OrString(role, user.role));
    db.users := db.users[id := user];
    r := Ok(Summary(user));
  }

  /** The body PUT /users/:id/role answers with: a confirmation and the
      account's id, name and new role, nothing else of it. */
  datatype RoleUpdate = RoleUpdate(message: string, id: int, name: Option<string>, role: string)

  /** PUT /users/:id/role: the role is written as given and nothing else changes. */
  method UpdateUserRole(db: Db, id: int, role: string) returns (r: Outcome<RoleUpdate>)
    requires db.Valid()
    modifies db`users
    ensures db.Valid()
    ensures id !in old(db.users) ==> r == NotFound("User not found") && unchanged(db)
    ensures id in old(db.users) ==>
              && r == Ok(RoleUpdate("User role updated", id, old(db.users)[id].name, role))
              && db.users == old(db.users)[id := old(db.users)[id].(role := role)]
  {
    if id !in db.users {
      return NotFound("User not found");
    }
    var user := db.users[id];
    user := user.(role := role);
    db.users := db.users[id := user];
    r := Ok(RoleUpdate("User role updated", user.id, user.name, user.role));
  }

  /** DELETE /users/:id: removes exactly that account. */
  method DeleteUser(db: Db, id: int) returns (r: Outcome<string>)
    requires db.Valid()
    modifies db`users
    ensures db.Valid()
    ensures id !in old(db.users) ==> r == NotFound("User not found") && unchanged(db)
    ensures id in old(db.users) ==>
              && r == Ok("User deleted successfully")
              && db.users == old(db.users) - {id}
              && db.users.Keys == old(db.users).Keys - {id}
  {
    if id !in db.users {
      return NotFound("User not found");
    }
    db.users := db.users - {id};
    r := Ok("User deleted successfully");
  }

  // ---- The caller's own profile -----------------------------------------------

  datatype ProfilePatch = ProfilePatch(
    firstName: Option<string>, lastName: Option<string>, phoneNumber: Option<string>,
    birthDate: Option<int>, password: Option<string>, newPassword: Option<string>)

  /** The profile update on one account: a truthy `newPassword` demands a truthy
      current password that `matches` the stored hash, and then stores the new
      hash; the four profile fields fall back to their old values when falsy.
      E-mail, role, name and id never change. */
  function ApplyProfile(u: User, p: ProfilePatch, matches: (string, string) -> bool,
                        hash: string -> string): (r: Outcome<User>)
    ensures Truthy(p.newPassword) && !Truthy(p.password) ==>
              r == BadRequest("Current password is required to set a new password")
    ensures Truthy(p.newPassword) && Truthy(p.password) && !matches(p.password.value, u.password) ==>
              r == BadRequest("Invalid current password")
    ensures r.Ok? || r.BadRequest?
    ensures !(Truthy(p.newPassword) && (!Truthy(p.password) || !matches(p.password.value, u.password))) ==>
              r.Ok?
    ensures r.Ok? ==>
              && r.value.id == u.id && r.value.email == u.email && r.value.role == u.role
              && r.value.name == u.name
              && (Truthy(p.newPassword) ==> r.value.password == hash(p.newPassword.value)
                                            && matches(p.password.value, u.password))
              && (!Truthy(p.newPassword) ==> r.value.password == u.password)
              && r.value.firstName == (if Truthy(p.firstName) then p.firstName else u.firstName)
              && r.value.lastName == (if Truthy(p.lastName) then p.lastName else u.lastName)
              && r.value.phoneNumber == (if Truthy(p.phoneNumber) then p.phoneNumber else u.phoneNumber)
              && r.value.birthDate == OrOption(p.birthDate, u.birthDate)
  {
    if Truthy(p.newPassword) && !Truthy(p.password) then
      BadRequest("Current password is required to set a new password")
    else if Truthy(p.newPassword) && !matches(p.password.value, u.password) then
      BadRequest("Invalid current password")
    else
      var u := if Truthy(p.newPassword) then u.(password := hash(p.newPassword.value)) else u;
      Ok(u.(firstName := if Truthy(p.firstName) then p.firstName else u.firstName,
            lastName := if Truthy(p.lastName) then p.lastName else u.lastName,
            phoneNumber := if Truthy(p.phoneNumber) then p.phoneNumber else u.phoneNumber,
            birthDate := OrOption(p.birthDate, u.birthDate)))
  }

  /** The password changes only through the gate: whenever the stored hash ends
      up different, a current password matching the old hash was supplied. */
  lemma PasswordChangeNeedsCurrentPassword(u: User, p: ProfilePatch, matches: (string, string) -> bool,
                                           hash: string -> string)
    requires ApplyProfile(u, p, matches, hash).Ok?
    requires ApplyProfile(u, p, matches, hash).value.password != u.password
    ensures Truthy(p.password) && matches(p.password.value, u.password)
    ensures Truthy(p.newPassword) && ApplyProfile(u, p, matches, hash).value.password == hash(p.newPassword.value)
  {
  }

  /** What the profile update answers. */
  datatype ProfileView = ProfileView(
    id: int, name: string, firstName: Option<string>, lastName: Option<string>, email: string,
    phoneNumber: Option<string>, birthDate: Option<int>, role: string)

  function View(u: User): ProfileView
  {
    ProfileView(u.id, JoinWithSpace(TemplateText(u.firstName), TemplateText(u.lastName)),
                u.firstName, u.lastName, u.email, u.phoneNumber, u.birthDate, u.role)
  }

  /** Profile update of the caller's own account.  A missing account answers 404;
      a rejected password change answers 400 and saves nothing. */
  method UpdateProfile(db: Db, caller: Principal, p: ProfilePatch,
                       matches: (string, string) -> bool, hash: string -> string)
    returns (r: Outcome<ProfileView>)
    requires db.Valid()
    modifies db`users
    ensures db.Valid()
    ensures caller.userId !in old(db.users) ==> r == NotFound("User not found") && unchanged(db)
    ensures caller.userId in old(db.users) && ApplyProfile(old(db.users)[caller.userId], p, matches, hash).Ok? ==>
              var u := ApplyProfile(old(db.users)[caller.userId], p, matches, hash).value;
              r == Ok(View(u)) && db.users == old(db.users)[caller.userId := u]
    ensures caller.userId in old(db.users) && ApplyProfile(old(db.users)[caller.userId], p, matches, hash).BadRequest? ==>
              r == BadRequest(ApplyProfile(old(db.users)[caller.userId], p, matches, hash).message) && unchanged(db)
    ensures EmailsUnique(old(db.users)) ==> EmailsUnique(db.users)
  {
    if caller.userId !in db.users {
      return NotFound("User not found");
    }
    var user := db.users[caller.userId];
    if Truthy(p.newPassword) {
      if !Truthy(p.password) {
        return BadRequest("Current password is required to set a new password");
      }
      if !matches(p.password.value, user.password) {
        return BadRequest("Invalid current password");
      }
      user := user.(password := hash(p.newPassword.value));
    }
    user := user.(firstName := if Truthy(p.firstName) then p.firstName else user.firstName);
    user := user.(lastName := if Truthy(p.lastName) then p.lastName else user.lastName);
    user := user.(phoneNumber := if Truthy(p.phoneNumber) then p.phoneNumber else user.phoneNumber);
    user := user.(birthDate := OrOption(p.birthDate, user.birthDate));
    assert ApplyProfile(db.users[caller.userId], p, matches, hash) == Ok(user);
    SameEmailKeepsUnique(db.users, caller.userId, user);
    ReplacingUserKeepsKeyed(db.users, db.nextUserId, caller.userId, user);
    db.users := db.users[caller.userId := user];
    r := Ok(View(user));
  }

  /** Replacing an account by one with the same e-mail keeps e-mails unique. */
  lemma SameEmailKeepsUnique(users: map<int, User>, k: int, u: User)
    requires k in users && u.email == users[k].email
    ensures EmailsUnique(users) ==> EmailsUnique(users[k := u])
  {
  }
}
