/** controllers/alertController.js: a patient names an emergency contact and
    alert thresholds. The contact's account is found by e-mail or created, the
    patient joins its monitoring list, the patient points back at it, and the
    patient's AlertSettings document is upserted. The patient's own
    `dangerousLevels` are never touched. */
module AlertController {
  import opened Common
  import opened Domain
  import opened Store

  /** What `req.body` carries; either part may be missing. */
  datatype SettingsBody = SettingsBody(emergencyContact: Option<ContactInfo>, thresholds: Option<Thresholds>)

  /** The two collections `saveSettings` writes, and the id generator. */
  datatype Collections = Collections(users: map<Id, User>, settings: map<Id, AlertSettings>, nextId: Id)

  /** `monitoringFor.includes(id)` guarding `push(id)`: the list used as a set. */
  function AddOnce(s: seq<Id>, x: Id): (r: seq<Id>)
    ensures x in r
    ensures forall y :: y in r <==> y in s || y == x
    ensures |s| <= |r| && r[..|s|] == s
    ensures NoDuplicates(s) ==> NoDuplicates(r)
  {
    if x in s then s else s + [x]
  }

  /** The account `new User({...})` builds for a contact without one
      (lines 51-57); the other fields take their schema defaults. */
  function NewContact(id: Id, contact: ContactInfo, passwordHash: string, patient: Id): (u: User)
    ensures u.id == id && u.email == contact.email && u.name == contact.name
    ensures u.userType == Some(EmergencyContact) && u.monitoringFor == [patient]
    ensures u.emergencyContactId.None? && u.dangerousLevels == DefaultThresholds
  {
    User(id, contact.email, passwordHash, contact.name, Some(EmergencyContact), None, [patient], DefaultThresholds)
  }

  /** The users collection after the find-or-create step, with the contact's id. */
  datatype Provisioned = Provisioned(users: map<Id, User>, contactId: Id, created: bool)

  /** Lines 38-90. An existing account gains the patient once; otherwise a
      new account is saved, which Mongoose's `required` rejects for an empty
      name or e-mail. */
  ghost function Provision(users: map<Id, User>, nextId: Id, contact: ContactInfo, patient: Id, passwordHash: string): (p: Option<Provisioned>)
    ensures p.None? <==>
      UserWithEmail(users, contact.email).None? && (contact.email == "" || contact.name == "")
    ensures p.Some? ==> p.value.contactId in p.value.users && p.value.users[p.value.contactId].email == contact.email
    ensures p.Some? ==> (p.value.created <==> UserWithEmail(users, contact.email).None?)
  {
    match UserWithEmail(users, contact.email)
    case Some(id) =>
      var u := users[id];
      Some(Provisioned(users[id := u.(monitoringFor := AddOnce(u.monitoringFor, patient))], id, false))
    case None =>
      if contact.email == "" || contact.name == "" then None
      else Some(Provisioned(users[nextId := NewContact(nextId, contact, passwordHash, patient)], nextId, true))
  }

  /** `User.findByIdAndUpdate(userId, { emergencyContactId })` (lines 93-95):
      only that field of the patient changes; a missing patient is no error. */
  function LinkPatient(users: map<Id, User>, patient: Id, contactId: Id): (r: map<Id, User>)
    ensures r.Keys == users.Keys
    ensures forall id :: id in users && id != patient ==> r[id] == users[id]
    ensures patient in users ==> r[patient] == users[patient].(emergencyContactId := Some(contactId))
  {
    if patient in users then users[patient := users[patient].(emergencyContactId := Some(contactId))] else users
  }

  /** The document the upsert of lines 98-109 leaves for the patient: the
      submitted contact with its account id, and the submitted thresholds. An
      update without thresholds keeps the stored ones, an insert without them
      takes the schema defaults. */
  function SettingsRecord(settings: map<Id, AlertSettings>, patient: Id, contact: ContactInfo, contactId: Id, thresholds: Option<Thresholds>): (a: AlertSettings)
    ensures a.userId == patient
    ensures a.emergencyContact == Some(ContactDescriptor(contact.name, contact.email, contact.phone, Some(contactId)))
    ensures thresholds.Some? ==> a.thresholds == thresholds.value
    ensures thresholds.None? && patient in settings ==> a.thresholds == settings[patient].thresholds
    ensures thresholds.None? && patient !in settings ==> a.thresholds == DefaultThresholds
  {
    var t :=
      if thresholds.Some? then thresholds.value
      else if patient in settings then settings[patient].thresholds
      else DefaultThresholds;
    AlertSettings(patient, Some(ContactDescriptor(contact.name, contact.email, contact.phone, Some(contactId))), t)
  }

  /** The outcome of one save: the collections afterwards, the settings
      document sent back, the contact's account and whether it was created. */
  datatype Saved = Saved(after: Collections, record: AlertSettings, contactId: Id, created: bool)

  /** Reference definition of `saveSettings` for patient `patient`. None is
      the 500 answer: no contact in the body (reading `.email` of undefined
      throws) or a new account that fails validation; nothing is written then. */
  ghost function SaveSettingsSpec(c: Collections, patient: Id, body: SettingsBody, passwordHash: string): (r: Option<Saved>)
    ensures r.None? <==>
      || body.emergencyContact.None?
      || (&& UserWithEmail(c.users, body.emergencyContact.value.email).None?
          && (body.emergencyContact.value.email == "" || body.emergencyContact.value.name == ""))
    ensures r.Some? ==> patient in r.value.after.settings && r.value.after.settings[patient] == r.value.record
    ensures r.Some? ==> r.value.record.userId == patient
  {
    if body.emergencyContact.None? then None
    else
      var contact := body.emergencyContact.value;
      match Provision(c.users, c.nextId, contact, patient, passwordHash)
      case None => None
      case Some(p) =>
        var record := SettingsRecord(c.settings, patient, contact, p.contactId, body.thresholds);
        var after := Collections(
          LinkPatient(p.users, patient, p.contactId),
          c.settings[patient := record],
          if p.created then c.nextId + 1 else c.nextId);
        Some(Saved(after, record, p.contactId, p.created))
  }

  const CredentialsMiddle := "</p><p>Temporary Password: "
  const CredentialsTail := "</p><p>Please log in at <a href=\"http://localhost:5173/login\">http://localhost:5173/login</a>"
      + " and change your password.</p><p>You will receive alerts when glucose levels require attention.</p>"
  function CredentialsHead(name: string): string {
    "<h2>Emergency Contact Access Created</h2><p>Hello " + name + ",</p>"
      + "<p>You have been designated as an emergency contact for glucose monitoring.</p>"
      + "<p>An account has been created for you with the following credentials:</p>"
      + "<p>Email: "
  }

  /** The credentials mail of lines 62-79, to the new contact's address. */
  function CredentialsMail(from: string, contact: ContactInfo, temporaryPassword: string): (m: Mail)
    ensures m.to == contact.email && m.from == from
    ensures m.subject == "Emergency Contact Account Created"
    ensures Contains(m.html, temporaryPassword)
    ensures Contains(m.html, contact.email)
  {
    var head := CredentialsHead(contact.name);
    var middle := CredentialsMiddle;
    var tail := CredentialsTail;
    var html := head + contact.email + middle + temporaryPassword + tail;
    ContainsMiddle(head, contact.email, middle + temporaryPassword + tail);
    assert html == head + contact.email + (middle + temporaryPassword + tail);
    ContainsMiddle(head + contact.email + middle, temporaryPassword, tail);
    Mail(from, contact.email, "Emergency Contact Account Created", html)
  }

  /** A mail handed to the relay and whether the relay accepted it. */
  datatype Delivery = Delivery(mail: Mail, delivered: bool)

  ghost predicate CollectionsValid(c: Collections) {
    && UsersValid(c.users, c.nextId)
    && (forall u :: u in c.settings ==> c.settings[u].userId == u)
  }

  /** The find-or-create step of lines 38-90 on the store. `ok` is false
      when the new account fails validation; nothing is written then. */
  method ProvisionContact(db: Store, contact: ContactInfo, patient: Id, passwordHash: string)
    returns (ok: bool, contactId: Id, created: bool)
    requires db.Valid()
    modifies db
    ensures db.readings == old(db.readings) && db.medications == old(db.medications)
    ensures db.alertSettings == old(db.alertSettings)
    ensures var p := Provision(old(db.users), old(db.nextId), contact, patient, passwordHash);
      && (ok <==> p.Some?)
      && (!ok ==> db.users == old(db.users) && db.nextId == old(db.nextId))
      && (ok ==> p.value == Provisioned(db.users, contactId, created))
      && db.nextId == (if ok && created then old(db.nextId) + 1 else old(db.nextId))
  {
    var found := db.FindUserByEmail(contact.email);
    if found.None? {
      if contact.email == "" || contact.name == "" {
        return false, 0, false;
      }
      ok, contactId, created := true, db.nextId, true;
      db.users := db.users[contactId := NewContact(contactId, contact, passwordHash, patient)];
      db.nextId := db.nextId + 1;
    } else {
      ok, contactId, created := true, found.value, false;
      var account := db.users[contactId];
      if patient !in account.monitoringFor {
        db.users := db.users[contactId := account.(monitoringFor := account.monitoringFor + [patient])];
      } else {
        assert db.users[contactId := account.(monitoringFor := AddOnce(account.monitoringFor, patient))] == db.users;
      }
    }
  }

  /** The writes of `saveSettings` in their order: find or create the
      contact (lines 38-90), point the patient at it (lines 93-95), upsert the
      settings (lines 98-109). None when the request fails before any write. */
  method Persist(db: Store, patient: Id, body: SettingsBody, passwordHash: string) returns (saved: Option<Saved>)
    requires db.Valid()
    modifies db
    ensures db.Valid()
    ensures db.readings == old(db.readings) && db.medications == old(db.medications)
    ensures saved == SaveSettingsSpec(Collections(old(db.users), old(db.alertSettings), old(db.nextId)), patient, body, passwordHash)
    ensures saved.None? ==>
      db.users == old(db.users) && db.alertSettings == old(db.alertSettings) && db.nextId == old(db.nextId)
    ensures saved.Some? ==> Collections(db.users, db.alertSettings, db.nextId) == saved.value.after
  {
    ghost var before := Collections(db.users, db.alertSettings, db.nextId);
    if body.emergencyContact.None? {
      return None;
    }
    var contact := body.emergencyContact.value;
    var ok, contactId, created := ProvisionContact(db, contact, patient, passwordHash);
    if !ok {
      return None;
    }
    if patient in db.users {
      db.users := db.users[patient := db.users[patient].(emergencyContactId := Some(contactId))];
    }
    var record := SettingsRecord(db.alertSettings, patient, contact, contactId, body.thresholds);
    db.alertSettings := db.alertSettings[patient := record];
    saved := Some(Saved(Collections(db.users, db.alertSettings, db.nextId), record, contactId, created));
    SaveKeepsValid(before, patient, body, passwordHash);
  }

  /** `saveSettings`. `temporaryPassword` stands for `generateRandomPassword()`,
      `passwordHash` for its bcrypt hash and `delivered` for the relay's
      verdict: only a new account is mailed, and a refused mail is logged and
      changes neither the answer nor the stored documents. */
  method SaveSettings(
    db: Store, caller: Claims, body: SettingsBody,
    temporaryPassword: string, passwordHash: string, from: string, delivered: bool)
    returns (r: Response<AlertSettings>, credentials: Option<Delivery>)
    requires db.Valid()
    modifies db
    ensures db.Valid()
    ensures db.readings == old(db.readings) && db.medications == old(db.medications)
    ensures var s := SaveSettingsSpec(
        Collections(old(db.users), old(db.alertSettings), old(db.nextId)), caller.userId, body, passwordHash);
      && (s.None? ==>
        && r == Fail(500, "Error saving alert settings") && credentials.None?
        && db.users == old(db.users) && db.alertSettings == old(db.alertSettings) && db.nextId == old(db.nextId))
      && (s.Some? ==>
        && r == Ok(200, s.value.record)
        && Collections(db.users, db.alertSettings, db.nextId) == s.value.after
        && credentials == (if s.value.created
             then Some(Delivery(CredentialsMail(from, body.emergencyContact.value, temporaryPassword), delivered))
             else None))
  {
    var saved := Persist(db, caller.userId, body, passwordHash);
    if saved.None? {
      return Fail(500, "Error saving alert settings"), None;
    }
    credentials := None;
    if saved.value.created {
      credentials := Some(Delivery(CredentialsMail(from, body.emergencyContact.value, temporaryPassword), delivered));
    }
    r := Ok(200, saved.value.record);
  }

  /** `getSettings`: the caller's document, or `{}` (None) when there is none. */
  method GetSettings(db: Store, caller: Claims) returns (r: Response<Option<AlertSettings>>)
    requires db.Valid()
    ensures r.Ok? && r.status == 200
    ensures r.body.Some? <==> caller.userId in db.alertSettings
    ensures r.body.Some? ==> r.body.value.userId == caller.userId && r.body.value == db.alertSettings[caller.userId]
  {
    r := Ok(200, SettingsOf(db.alertSettings, caller.userId));
  }

  // ---------------------------------------------------------------------
  // Properties of a save

  /** A save keeps the users collection well formed: the new account has a
      fresh id and an unused e-mail, and no monitoring list gains a repeat. */
  lemma SaveKeepsValid(c: Collections, patient: Id, body: SettingsBody, passwordHash: string)
    requires CollectionsValid(c)
    ensures var s := SaveSettingsSpec(c, patient, body, passwordHash);
      s.Some? ==> CollectionsValid(s.value.after)
  {
    var s := SaveSettingsSpec(c, patient, body, passwordHash);
    if s.Some? {
      var contact := body.emergencyContact.value;
      ProvisionKeepsValid(c.users, c.nextId, contact, patient, passwordHash);
      var p := Provision(c.users, c.nextId, contact, patient, passwordHash).value;
      LinkKeepsValid(p.users, s.value.after.nextId, patient, p.contactId);
    }
  }

  lemma ProvisionKeepsValid(users: map<Id, User>, nextId: Id, contact: ContactInfo, patient: Id, passwordHash: string)
    requires UsersValid(users, nextId)
    ensures var p := Provision(users, nextId, contact, patient, passwordHash);
      p.Some? ==> UsersValid(p.value.users, if p.value.created then nextId + 1 else nextId)
  {
    var p := Provision(users, nextId, contact, patient, passwordHash);
    if p.Some? {
      var r := p.value.users;
      var id := p.value.contactId;
      assert forall x :: x in r && x != id ==> x in users && r[x] == users[x];
      assert r[id].email == contact.email;
      if p.value.created {
        assert forall x :: x in users ==> users[x].email != contact.email;
      } else {
        assert id in users && users[id].email == contact.email;
        assert r[id] == users[id].(monitoringFor := AddOnce(users[id].monitoringFor, patient));
      }
    }
  }

  lemma LinkKeepsValid(users: map<Id, User>, nextId: Id, patient: Id, contactId: Id)
    requires UsersValid(users, nextId)
    ensures UsersValid(LinkPatient(users, patient, contactId), nextId)
  {
  }

  /** With no account for the e-mail, exactly one user is created: the
      contact, with the submitted name and e-mail, the emergency-contact role
      and this patient as its only monitored patient. */
  lemma SaveCreatesOneContact(c: Collections, patient: Id, body: SettingsBody, passwordHash: string)
    requires CollectionsValid(c)
    requires body.emergencyContact.Some?
    requires body.emergencyContact.value.email != "" && body.emergencyContact.value.name != ""
    requires forall id :: id in c.users ==> c.users[id].email != body.emergencyContact.value.email
    ensures var s := SaveSettingsSpec(c, patient, body, passwordHash);
      && s.Some? && s.value.created
      && s.value.contactId == c.nextId && c.nextId !in c.users
      && s.value.after.users.Keys == c.users.Keys + {c.nextId}
      && s.value.after.nextId == c.nextId + 1
      && var u := s.value.after.users[c.nextId];
      && u.email == body.emergencyContact.value.email
      && u.name == body.emergencyContact.value.name
      && u.userType == Some(EmergencyContact)
      && u.monitoringFor == [patient]
  {
  }

  /** With an account for the e-mail, no user is created; the patient is
      appended to its monitoring list only if absent, the earlier entries keep
      their order, nothing repeats and its role stays as it was. */
  lemma SaveReusesContact(c: Collections, patient: Id, body: SettingsBody, passwordHash: string, id: Id)
    requires CollectionsValid(c)
    requires body.emergencyContact.Some?
    requires id in c.users && c.users[id].email == body.emergencyContact.value.email
    ensures var s := SaveSettingsSpec(c, patient, body, passwordHash);
      && s.Some? && !s.value.created && s.value.contactId == id
      && s.value.after.users.Keys == c.users.Keys
      && s.value.after.nextId == c.nextId
      && var before := c.users[id].monitoringFor;
      && var m := s.value.after.users[id].monitoringFor;
      && (patient in before ==> m == before)
      && (patient !in before ==> m == before + [patient])
      && NoDuplicates(m)
      && s.value.after.users[id].userType == c.users[id].userType
  {
    UserWithEmailUnique(c.users, body.emergencyContact.value.email, id);
  }

  /** The patient points at the contact's account, and the save changes
      neither the patient's `dangerousLevels` nor anything of a user other
      than the patient and the contact. */
  lemma SaveLinksPatient(c: Collections, patient: Id, body: SettingsBody, passwordHash: string)
    requires CollectionsValid(c)
    ensures var s := SaveSettingsSpec(c, patient, body, passwordHash);
      s.Some? ==>
        && s.value.contactId in s.value.after.users
        && s.value.after.users[s.value.contactId].email == body.emergencyContact.value.email
        && (patient in c.users ==>
              && s.value.after.users[patient].emergencyContactId == Some(s.value.contactId)
              && s.value.after.users[patient].dangerousLevels == c.users[patient].dangerousLevels)
        && (forall id :: id in c.users && id != patient && id != s.value.contactId ==>
              s.value.after.users[id] == c.users[id])
  {
  }

  /** Afterwards the patient has exactly one settings document, holding the
      submitted thresholds and the contact's account id; other patients'
      documents are untouched. */
  lemma SaveUpsertsSettings(c: Collections, patient: Id, body: SettingsBody, passwordHash: string)
    requires CollectionsValid(c)
    ensures var s := SaveSettingsSpec(c, patient, body, passwordHash);
      s.Some? ==>
        && s.value.after.settings.Keys == c.settings.Keys + {patient}
        && SettingsOf(s.value.after.settings, patient) == Some(s.value.record)
        && (body.thresholds.Some? ==> s.value.record.thresholds == body.thresholds.value)
        && s.value.record.emergencyContact.value.accountId == Some(s.value.contactId)
        && (forall u :: u in c.settings && u != patient ==> s.value.after.settings[u] == c.settings[u])
  {
  }

  /** Saving the same body twice leaves users and settings as one save does. */
  lemma SaveIdempotent(c: Collections, patient: Id, body: SettingsBody, passwordHash: string)
    requires CollectionsValid(c)
    ensures var s := SaveSettingsSpec(c, patient, body, passwordHash);
      s.Some? ==>
        var t := SaveSettingsSpec(s.value.after, patient, body, passwordHash);
        t.Some? && t.value.after == s.value.after && t.value.record == s.value.record && !t.value.created
  {
    var s := SaveSettingsSpec(c, patient, body, passwordHash);
    if s.Some? {
      var a := s.value.after;
      var contact := body.emergencyContact.value;
      var id := s.value.contactId;
      SaveKeepsValid(c, patient, body, passwordHash);
      SaveLinksPatient(c, patient, body, passwordHash);
      ProvisionMonitors(c.users, c.nextId, contact, patient, passwordHash);
      ProvisionAgain(a.users, a.nextId, contact, patient, passwordHash, id);
      LinkAgain(a.users, patient, id);
      var record := SettingsRecord(a.settings, patient, contact, id, body.thresholds);
      assert record == s.value.record;
      assert a.settings[patient := record] == a.settings;
    }
  }

  /** After provisioning, the contact's account monitors the patient. */
  lemma ProvisionMonitors(users: map<Id, User>, nextId: Id, contact: ContactInfo, patient: Id, passwordHash: string)
    requires UsersValid(users, nextId)
    ensures var p := Provision(users, nextId, contact, patient, passwordHash);
      p.Some? ==> patient in p.value.users[p.value.contactId].monitoringFor
  {
  }

  /** Finding an account that already monitors the patient writes nothing. */
  lemma ProvisionAgain(users: map<Id, User>, nextId: Id, contact: ContactInfo, patient: Id, passwordHash: string, id: Id)
    requires UsersValid(users, nextId)
    requires id in users && users[id].email == contact.email && patient in users[id].monitoringFor
    ensures Provision(users, nextId, contact, patient, passwordHash) == Some(Provisioned(users, id, false))
  {
    UserWithEmailUnique(users, contact.email, id);
    var u := users[id];
    assert u.(monitoringFor := AddOnce(u.monitoringFor, patient)) == u;
    assert users[id := u] == users;
  }

  /** Pointing the patient at the account it already points at writes nothing. */
  lemma LinkAgain(users: map<Id, User>, patient: Id, id: Id)
    requires patient in users ==> users[patient].emergencyContactId == Some(id)
    ensures LinkPatient(users, patient, id) == users
  {
    if patient in users {
      assert users[patient].(emergencyContactId := Some(id)) == users[patient];
      assert users[patient := users[patient]] == users;
    }
  }

  /** Two patients naming the same new address share one account, which
      monitors both in the order they saved. */
  lemma SharedContact(c: Collections, p1: Id, p2: Id, body1: SettingsBody, body2: SettingsBody, passwordHash: string)
    requires CollectionsValid(c) && p1 != p2
    requires body1.emergencyContact.Some? && body2.emergencyContact.Some?
    requires body1.emergencyContact.value.email == body2.emergencyContact.value.email
    requires body1.emergencyContact.value.email != "" && body1.emergencyContact.value.name != ""
    requires forall id :: id in c.users ==> c.users[id].email != body1.emergencyContact.value.email
    ensures var s1 := SaveSettingsSpec(c, p1, body1, passwordHash);
      && s1.Some?
      && var s2 := SaveSettingsSpec(s1.value.after, p2, body2, passwordHash);
      && s2.Some?
      && s2.value.contactId == s1.value.contactId == c.nextId
      && s2.value.after.users.Keys == c.users.Keys + {c.nextId}
      && s2.value.after.users[c.nextId].monitoringFor == [p1, p2]
  {
    SaveCreatesOneContact(c, p1, body1, passwordHash);
    var s1 := SaveSettingsSpec(c, p1, body1, passwordHash).value;
    SaveKeepsValid(c, p1, body1, passwordHash);
    SaveReusesContact(s1.after, p2, body2, passwordHash, c.nextId);
  }

  /** `getSettings` after a save answers the document just saved, with the
      submitted thresholds. */
  lemma SaveThenGet(c: Collections, patient: Id, body: SettingsBody, passwordHash: string)
    requires CollectionsValid(c) && body.thresholds.Some?
    ensures var s := SaveSettingsSpec(c, patient, body, passwordHash);
      s.Some? ==>
        && SettingsOf(s.value.after.settings, patient).Some?
        && SettingsOf(s.value.after.settings, patient).value.thresholds == body.thresholds.value
  {
  }
}
