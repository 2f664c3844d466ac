/** Registration and login.  Token signing is not modelled: a successful answer
    carries the account's id, display name, e-mail and role. */
module Auth {
  import opened Common
  import opened Models
  import opened Store
  import Users

  /** `role === 'admin' ? 'admin' : 'client'`. */
  function NormaliseRole(role: Option<string>): (r: string)
    ensures r == "admin" <==> role == Some("admin")
    ensures r == "client" <==> role != Some("admin")
  {
    if role == Some("admin") then "admin" else "client"
  }

  /** The fields register and login answer with (the token aside). */
  datatype Session = Session(id: int, name: string, email: string, role: string)

  /** The display name `${firstName} ${lastName}`. */
  function DisplayName(u: User): (name: string)
    ensures |name| == |TemplateText(u.firstName)| + 1 + |TemplateText(u.lastName)|
    ensures name[..|TemplateText(u.firstName)|] == TemplateText(u.firstName)
    ensures name[|TemplateText(u.firstName)| + 1..] == TemplateText(u.lastName)
  {
    JoinWithSpace(TemplateText(u.firstName), TemplateText(u.lastName))
  }

  function SessionOf(u: User): Session
  {
    Session(u.id, DisplayName(u), u.email, u.role)
  }

  datatype RegisterRequest = RegisterRequest(
    firstName: Option<string>, lastName: Option<string>, email: string, password: string,
    birthDate: Option<int>, phoneNumber: Option<string>, role: Option<string>)

  /** POST /auth/register.  An e-mail already on an account answers 400 and creates
      nothing.  Otherwise the account is stored with the hashed password and a
      role of admin exactly when `admin` was asked for, client in every other case. */
  method Register(db: Db, req: RegisterRequest, hash: string -> string) returns (r: Outcome<Session>)
    requires db.Valid()
    modifies db`users, db`nextUserId
    ensures db.Valid()
    ensures (exists k :: k in old(db.users) && old(db.users)[k].email == req.email) ==>
              r == BadRequest("User already exists") && unchanged(db)
    ensures (forall k :: k in old(db.users) ==> old(db.users)[k].email != req.email) ==>
              var id := old(db.nextUserId);
              var u := User(id, None, req.firstName, req.lastName, req.email, hash(req.password),
                            NormaliseRole(req.role), req.phoneNumber, req.birthDate);
              && r == Ok(SessionOf(u))
              && (r.value.role == "admin" <==> req.role == Some("admin"))
              && db.users == old(db.users)[id := u]
              && db.nextUserId == id + 1
    ensures Users.EmailsUnique(old(db.users)) ==> Users.EmailsUnique(db.users)
  {
    if Users.FindByEmail(db, req.email).Some? {
      return BadRequest("User already exists");
    }
    var userRole := NormaliseRole(req.role);
    var user := User(db.nextUserId, None, req.firstName, req.lastName, req.email,
                     hash(req.password), userRole, req.phoneNumber, req.birthDate);
    db.users := db.users[user.id := user];
    db.nextUserId := db.nextUserId + 1;
    r := Ok(SessionOf(user));
  }

  const LOGIN_FAILED: string := "Invalid email or password"

  /** POST /auth/login: the account found for the e-mail, when the password
      matches its stored hash; one and the same 401 answer otherwise. */
  function Login(db: Db, email: string, password: string, matches: (string, string) -> bool)
    : (r: Outcome<Session>)
    reads db
    requires db.Valid()
    ensures r.Ok? || r == Unauthorized(LOGIN_FAILED)
    ensures r.Ok? ==>
              && r.value.id in db.users
              && db.users[r.value.id].email == email && r.value.email == email
              && matches(password, db.users[r.value.id].password)
              && r.value == SessionOf(db.users[r.value.id])
    ensures (forall k :: k in db.users ==> db.users[k].email != email) ==> r == Unauthorized(LOGIN_FAILED)
    ensures Users.EmailsUnique(db.users) ==>
              forall k :: k in db.users && db.users[k].email == email ==>
                (r.Ok? <==> matches(password, db.users[k].password))
  {
    match Users.FindByEmail(db, email)
    case None => Unauthorized(LOGIN_FAILED)
    case Some(k) =>
      if matches(password, db.users[k].password) then Ok(SessionOf(db.users[k]))
      else Unauthorized(LOGIN_FAILED)
  }

  /** An unknown e-mail and a wrong password are answered alike, so a failed login
      does not reveal whether the address has an account. */
  lemma LoginFailuresIndistinguishable(db: Db, unknown: string, known: string, password: string,
                                       matches: (string, string) -> bool)
    requires db.Valid() && Users.EmailsUnique(db.users)
    requires forall k :: k in db.users ==> db.users[k].email != unknown
    requires exists k :: k in db.users && db.users[k].email == known && !matches(password, db.users[k].password)
    ensures Login(db, unknown, password, matches) == Login(db, known, password, matches)
  {
    var k :| k in db.users && db.users[k].email == known && !matches(password, db.users[k].password);
    assert !Login(db, known, password, matches).Ok?;
  }

  /** With unique e-mail addresses, an account logs in with any password its
      stored hash accepts. */
  lemma MatchingPasswordLogsIn(db: Db, u: User, password: string, matches: (string, string) -> bool)
    requires db.Valid() && Users.EmailsUnique(db.users)
    requires u.id in db.users && db.users[u.id] == u
    requires matches(password, u.password)
    ensures Login(db, u.email, password, matches) == Ok(SessionOf(u))
  {
    var r := Users.FindByEmail(db, u.email);
    assert r.Some?;
  }
}
