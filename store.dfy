/** The server's document store: the four Mongo collections the controllers
    use, held by one object that the handlers update in place. */
module Store {
  import opened Common
  import opened Domain
  import opened Tables

  predicate NoDuplicates<T(==)>(s: seq<T>) {
    forall i, j :: 0 <= i < j < |s| ==> s[i] != s[j]
  }

  /** The unique index on `email` (models/User.js:4-8). */
  ghost predicate EmailsUnique(users: map<Id, User>) {
    forall a, b :: a in users && b in users && users[a].email == users[b].email ==> a == b
  }

  /** What holds of the users collection between requests: every document is
      stored under its own id, ids come from the generator, the required
      `email` and `name` are non-empty (models/User.js:4-16), e-mails are
      unique and no monitoring list repeats a patient. */
  ghost predicate UsersValid(users: map<Id, User>, nextId: Id) {
    && (forall id :: id in users ==> users[id].id == id && id < nextId)
    && (forall id :: id in users ==> users[id].email != "" && users[id].name != "")
    && EmailsUnique(users)
    && (forall id :: id in users ==> NoDuplicates(users[id].monitoringFor))
  }

  /** `User.findOne({ email })`. */
  ghost function UserWithEmail(users: map<Id, User>, email: string): (r: Option<Id>)
    ensures r.Some? ==> r.value in users && users[r.value].email == email
    ensures r.None? <==> forall id :: id in users ==> users[id].email != email
  {
    if exists id :: id in users && users[id].email == email then
      var id :| id in users && users[id].email == email; Some(id)
    else None
  }

  /** Under the unique index there is only one user to find. */
  lemma UserWithEmailUnique(users: map<Id, User>, email: string, id: Id)
    requires EmailsUnique(users)
    requires id in users && users[id].email == email
    ensures UserWithEmail(users, email) == Some(id)
  {
  }

  function ReadingId(r: Reading): Id { r.id }

  function MedicationId(m: Medication): Id { m.id }

  /** `AlertSettings.findOne({ userId })`: the upsert keys settings on the
      patient, so there is at most one. */
  function SettingsOf(settings: map<Id, AlertSettings>, userId: Id): (r: Option<AlertSettings>)
    ensures r.Some? <==> userId in settings
    ensures r.Some? ==> r.value == settings[userId]
  {
    if userId in settings then Some(settings[userId]) else None
  }

  class Store {
    var users: map<Id, User>
    var readings: seq<Reading>
    var medications: seq<Medication>
    /** AlertSettings documents, at most one per patient (the upsert keys on userId). */
    var alertSettings: map<Id, AlertSettings>
    /** Source of fresh ObjectIds. */
    var nextId: Id

    ghost predicate Valid()
      reads this
    {
      && UsersValid(users, nextId)
      && (forall i :: 0 <= i < |readings| ==> readings[i].id < nextId)
      && KeysDistinct(readings, ReadingId)
      && (forall i :: 0 <= i < |medications| ==> medications[i].id < nextId)
      && KeysDistinct(medications, MedicationId)
      && (forall u :: u in alertSettings ==> alertSettings[u].userId == u)
    }

    constructor ()
      ensures Valid()
      ensures users == map[] && readings == [] && medications == [] && alertSettings == map[]
    {
      users, readings, medications, alertSettings, nextId := map[], [], [], map[], 0;
    }

    /** `User.findOne({ email })` as the server runs it. */
    method FindUserByEmail(email: string) returns (r: Option<Id>)
      requires Valid()
      ensures r == UserWithEmail(users, email)
    {
      if exists id | id in users.Keys :: users[id].email == email {
        var id :| id in users.Keys && users[id].email == email;
        UserWithEmailUnique(users, email, id);
        r := Some(id);
      } else {
        r := None;
      }
    }
  }
}
