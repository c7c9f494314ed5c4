/** controllers/userController.js: registration under a unique e-mail, and
    login by e-mail and password. Hashing, comparing and signing belong to
    bcrypt and jsonwebtoken: a hash is a parameter, the comparison a function
    parameter, and a token is the payload it carries. */
module UserController {
  import opened Common
  import opened Domain
  import opened Store

  /** The answer of a successful login: the token and `user.userType || 'patient'`. */
  datatype Session = Session(token: Claims, userType: UserType)

  /** The document `new User({ email, password, name })` saves: a patient
      (the schema default) with the default danger levels. */
  function NewPatient(id: Id, email: string, passwordHash: string, name: string): (u: User)
    ensures u.id == id && u.email == email && u.name == name && u.password == passwordHash
    ensures u.userType == Some(Patient) && u.monitoringFor == [] && u.emergencyContactId.None?
    ensures u.dangerousLevels == DefaultThresholds
  {
    User(id, email, passwordHash, name, Some(Patient), None, [], DefaultThresholds)
  }

  /** The users collection and the generator after a registration, and the answer. */
  datatype Registration = Registration(users: map<Id, User>, nextId: Id, response: Response<Claims>)

  /** Reference definition of `register`: 400 for a taken e-mail, 500 when
      Mongoose's `required` rejects an empty e-mail or name, else 201 with a
      token that names the user but not its role. */
  ghost function RegisterSpec(users: map<Id, User>, nextId: Id, email: string, name: string, passwordHash: string): (g: Registration)
    ensures g.response.Ok? <==> UserWithEmail(users, email).None? && email != "" && name != ""
    ensures g.response.Fail? ==> g.users == users && g.nextId == nextId
  {
    if UserWithEmail(users, email).Some? then
      Registration(users, nextId, Fail(400, "User already exists"))
    else if email == "" || name == "" then
      Registration(users, nextId, Fail(500, "Server error"))
    else
      Registration(users[nextId := NewPatient(nextId, email, passwordHash, name)], nextId + 1, Ok(201, Claims(nextId, None)))
  }

  /** `register`. `passwordHash` stands for `bcrypt.hash(password, salt)`. */
  method Register(db: Store, email: string, name: string, passwordHash: string) returns (r: Response<Claims>)
    requires db.Valid()
    modifies db
    ensures db.Valid()
    ensures db.readings == old(db.readings) && db.medications == old(db.medications)
    ensures db.alertSettings == old(db.alertSettings)
    ensures var g := RegisterSpec(old(db.users), old(db.nextId), email, name, passwordHash);
      r == g.response && db.users == g.users && db.nextId == g.nextId
  {
    var found := db.FindUserByEmail(email);
    if found.Some? {
      return Fail(400, "User already exists");
    }
    if email == "" || name == "" {
      return Fail(500, "Server error");
    }
    ghost var before := db.users;
    var id := db.nextId;
    db.users := db.users[id := NewPatient(id, email, passwordHash, name)];
    db.nextId := db.nextId + 1;
    r := Ok(201, Claims(id, None));
    assert forall x :: x in before ==> before[x].email != email;
  }

  /** `user.userType` of a document `User.findOne` has loaded: Mongoose fills
      in the schema default `'patient'` (models/User.js:17-21) when the stored
      document lacks the field, so a loaded user always has a role. */
  function LoadedRole(u: User): (t: UserType)
    ensures u.userType.Some? ==> t == u.userType.value
    ensures u.userType.None? ==> t == Patient
  {
    u.userType.GetOr(Patient)
  }

  /** Reference definition of `login`. `matches(password, hash)` stands for
      `bcrypt.compare`. */
  ghost function LoginSpec(users: map<Id, User>, email: string, password: string, matches: (string, string) -> bool): (r: Response<Session>)
    ensures r.Fail? <==>
      || UserWithEmail(users, email).None?
      || !matches(password, users[UserWithEmail(users, email).value].password)
    ensures r.Fail? ==> r == Fail(400, "Invalid credentials")
    ensures r.Ok? ==>
      var id := UserWithEmail(users, email).value;
      && r.status == 200
      && users[id].email == email
      && r.body.token == Claims(id, Some(LoadedRole(users[id])))
      && r.body.userType == LoadedRole(users[id])
  {
    match UserWithEmail(users, email)
    case None => Fail(400, "Invalid credentials")
    case Some(id) =>
      var user := users[id];
      if !matches(password, user.password) then Fail(400, "Invalid credentials")
      else Ok(200, Session(Claims(id, Some(LoadedRole(user))), LoadedRole(user)))
  }

  /** `login`: an unknown e-mail and a wrong password give the same answer. */
  method Login(db: Store, email: string, password: string, matches: (string, string) -> bool) returns (r: Response<Session>)
    requires db.Valid()
    ensures r == LoginSpec(db.users, email, password, matches)
  {
    var found := db.FindUserByEmail(email);
    if found.None? {
      return Fail(400, "Invalid credentials");
    }
    var user := db.users[found.value];
    if !matches(password, user.password) {
      return Fail(400, "Invalid credentials");
    }
    r := Ok(200, Session(Claims(found.value, Some(LoadedRole(user))), LoadedRole(user)));
  }

  /** A stored user without a role logs in as a patient: the token carries
      the role the loaded document has, never a missing one, so the patient
      handlers accept it. */
  lemma LoginWithoutStoredRole(users: map<Id, User>, email: string, password: string, matches: (string, string) -> bool, id: Id)
    requires EmailsUnique(users)
    requires id in users && users[id].email == email && users[id].userType.None?
    requires matches(password, users[id].password)
    ensures LoginSpec(users, email, password, matches) == Ok(200, Session(Claims(id, Some(Patient)), Patient))
  {
    UserWithEmailUnique(users, email, id);
  }

  /** A taken e-mail is refused and no user is added. */
  lemma RegisterDuplicate(users: map<Id, User>, nextId: Id, email: string, name: string, passwordHash: string, id: Id)
    requires id in users && users[id].email == email
    ensures RegisterSpec(users, nextId, email, name, passwordHash) == Registration(users, nextId, Fail(400, "User already exists"))
  {
  }

  /** A fresh e-mail adds exactly one user, a patient with that e-mail, name
      and hash, and keeps the collection well formed. */
  lemma RegisterAddsOne(users: map<Id, User>, nextId: Id, email: string, name: string, passwordHash: string)
    requires UsersValid(users, nextId)
    requires email != "" && name != ""
    requires forall id :: id in users ==> users[id].email != email
    ensures var g := RegisterSpec(users, nextId, email, name, passwordHash);
      && g.response == Ok(201, Claims(nextId, None))
      && nextId !in users
      && g.users.Keys == users.Keys + {nextId}
      && (forall id :: id in users ==> g.users[id] == users[id])
      && g.users[nextId].email == email && g.users[nextId].name == name
      && g.users[nextId].password == passwordHash
      && g.users[nextId].userType == Some(Patient)
      && UsersValid(g.users, g.nextId)
  {
  }

  /** Logging in right after registering, with a password the hash accepts,
      gives a token for the new user that now carries the patient role. */
  lemma RegisterThenLogin(
    users: map<Id, User>, nextId: Id, email: string, name: string, password: string,
    passwordHash: string, matches: (string, string) -> bool)
    requires UsersValid(users, nextId)
    requires email != "" && name != ""
    requires forall id :: id in users ==> users[id].email != email
    requires matches(password, passwordHash)
    ensures var g := RegisterSpec(users, nextId, email, name, passwordHash);
      LoginSpec(g.users, email, password, matches) == Ok(200, Session(Claims(nextId, Some(Patient)), Patient))
  {
    RegisterAddsOne(users, nextId, email, name, passwordHash);
    var g := RegisterSpec(users, nextId, email, name, passwordHash);
    UserWithEmailUnique(g.users, email, nextId);
  }
}
