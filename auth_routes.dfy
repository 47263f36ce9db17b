/** The routes under /api/auth: registering and logging in. A token is the
    signed payload `{ id, role }`; its signature and expiry are not modelled. */
module AuthRoutes {
  import opened Wrappers
  import opened Models
  import opened Store

  const INVALID_CREDENTIALS: string := "Invalid credentials"

  /** `User.findOne({ where: { email } })`: the key of the row with that email. */
  ghost function FindByEmail(users: map<int, User>, email: string): (r: Option<int>)
    ensures r.Some? <==> EmailTaken(users, email)
    ensures r.Some? ==> r.value in users && users[r.value].email == email
  {
    if EmailTaken(users, email) then
      var k :| k in users && users[k].email == email; Some(k)
    else None
  }

  /** With unique emails the row found is the only one with that email. */
  lemma FindByEmailUnique(users: map<int, User>, email: string, k: int)
    requires UniqueEmails(users) && k in users && users[k].email == email
    ensures FindByEmail(users, email) == Some(k)
  {
  }

  /** What `Object.getPrototypeOf(null)` throws; the catch sends it as `error`. */
  const NULL_PROTOTYPE: string := "Cannot convert undefined or null to object"

  /** POST /login as written: the debug log of the found row's prototype runs
      before the `if (!user)` test, so an unknown email throws there and the
      catch answers 500. A known email then meets the banned check and the
      password check. Nothing is written, so the result is a function of the
      users table. */
  ghost function Login(users: map<int, User>, email: string, password: string): (r: Response)
    ensures !EmailTaken(users, email) ==> r == Response(SERVER_ERROR, ServerFailure("Server error", NULL_PROTOTYPE))
    ensures EmailTaken(users, email) ==> var k := FindByEmail(users, email).value;
      && (users[k].isBanned ==> r == Response(FORBIDDEN, Note("Access denied: You are banned")))
      && (!users[k].isBanned && !ComparePassword(password, users[k].password) ==>
            r == Response(BAD_REQUEST, Note(INVALID_CREDENTIALS)))
      && (!users[k].isBanned && ComparePassword(password, users[k].password) ==>
            r == Response(OK, Session(Principal(k, users[k].role), Account(k, users[k].name, email, users[k].role))))
  {
    match FindByEmail(users, email)
    case None => Response(SERVER_ERROR, ServerFailure("Server error", NULL_PROTOTYPE))
    case Some(k) =>
      var user := users[k];
      if user.isBanned then Response(FORBIDDEN, Note("Access denied: You are banned"))
      else if !ComparePassword(password, user.password) then Response(BAD_REQUEST, Note(INVALID_CREDENTIALS))
      else Response(OK, Session(Principal(k, user.role), Account(k, user.name, email, user.role)))
  }

  /** A banned user is refused with 403 whatever password is sent. */
  lemma BannedLoginIgnoresPassword(users: map<int, User>, email: string, p1: string, p2: string)
    requires EmailTaken(users, email) && users[FindByEmail(users, email).value].isBanned
    ensures Login(users, email, p1) == Login(users, email, p2)
    ensures Login(users, email, p1).status == FORBIDDEN
  {
  }

  /** As written, the status tells a caller whether an email is registered:
      a wrong password gets 400, an unknown email 500. */
  lemma LoginRevealsRegisteredEmail(users: map<int, User>, email: string, password: string, other: string)
    requires EmailTaken(users, email)
    requires var u := users[FindByEmail(users, email).value]; !u.isBanned && !ComparePassword(password, u.password)
    requires !EmailTaken(users, other)
    ensures Login(users, email, password).status == BAD_REQUEST
    ensures Login(users, other, password).status == SERVER_ERROR
    ensures Login(users, email, password) != Login(users, other, password)
  {
  }

  /** POST /login as its `if (!user)` branch intends it: an unknown email gets
      400 "Invalid credentials"; a known one is handled as written. */
  ghost function LoginIntended(users: map<int, User>, email: string, password: string): (r: Response)
    ensures !EmailTaken(users, email) ==> r == Response(BAD_REQUEST, Note(INVALID_CREDENTIALS))
    ensures EmailTaken(users, email) ==> r == Login(users, email, password)
  {
    if EmailTaken(users, email) then Login(users, email, password)
    else Response(BAD_REQUEST, Note(INVALID_CREDENTIALS))
  }

  /** Under the intended reading a wrong password is indistinguishable from an
      unknown email. */
  lemma WrongPasswordLooksLikeUnknownEmail(users: map<int, User>, email: string, password: string, other: string)
    requires EmailTaken(users, email)
    requires var u := users[FindByEmail(users, email).value]; !u.isBanned && !ComparePassword(password, u.password)
    requires !EmailTaken(users, other)
    ensures LoginIntended(users, email, password) == LoginIntended(users, other, password)
    ensures LoginIntended(users, other, password) == Response(BAD_REQUEST, Note(INVALID_CREDENTIALS))
  {
  }

  /** A row whose password was stored without hashing is never let in: every
      login to it is refused, whatever password is sent. */
  lemma UnhashedPasswordNeverLogsIn(users: map<int, User>, email: string, password: string)
    requires EmailTaken(users, email) && users[FindByEmail(users, email).value].password.Plain?
    ensures Login(users, email, password).status != OK
  {
  }

  /** POST /register: refuses a taken email, otherwise creates the user with its
      password as the hook stores it and answers with a token for it. `salt` is genSalt's draw. */
  method Register(db: Database, name: string, email: string, password: string, role: Role, salt: nat)
    returns (resp: Response)
    requires db.Valid()
    modifies db
    ensures db.Valid()
    ensures EmailTaken(old(db.users), email) ==> resp == Response(BAD_REQUEST, Note("User already exists")) && unchanged(db)
    ensures !EmailTaken(old(db.users), email) ==>
      && var id := old(db.nextUserId);
      && id !in old(db.users)
      && db.users == old(db.users)[id := NewUser(name, email, HashPassword(password, salt), role)]
      && |db.users| == |old(db.users)| + 1
      && resp == Response(OK, Session(Principal(id, role), Account(id, name, email, role)))
      && (password != "" ==> Login(db.users, email, password) == resp)
      && (password == "" ==> Login(db.users, email, password) == Response(BAD_REQUEST, Note(INVALID_CREDENTIALS)))
      && db.nextUserId == id + 1
      && db.jobs == old(db.jobs) && db.applications == old(db.applications)
      && db.nextJobId == old(db.nextJobId) && db.nextApplicationId == old(db.nextApplicationId)
  {
    var taken := exists k | k in db.users :: db.users[k].email == email;
    if taken {
      return Response(BAD_REQUEST, Note("User already exists"));
    }
    var id := db.nextUserId;
    var users := db.users;
    db.users := users[id := NewUser(name, email, HashPassword(password, salt), role)];
    db.nextUserId := id + 1;
    FindByEmailUnique(db.users, email, id);
    resp := Response(OK, Session(Principal(id, role), Account(id, name, email, role)));
  }
}
