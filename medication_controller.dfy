/** controllers/medicationController.js: the patient's medications table,
    listed by name and changed only by its owner. */
module MedicationController {
  import opened Common
  import opened Domain
  import opened Tables
  import opened Ordering
  import opened Store

  function MedicationOwner(m: Medication): Id { m.userId }

  predicate MedicationOwnedBy(m: Medication, owner: Id) { m.userId == owner }

  /** `getMedications`: the caller's medications, `sort({ name: 1 })`. */
  method GetMedications(db: Store, caller: Claims) returns (r: seq<Medication>)
    ensures multiset(r) == multiset(Filter(db.medications, (m: Medication) => MedicationOwnedBy(m, caller.userId)))
    ensures SortedBy(r, ByName())
    ensures forall m :: m in r <==> m in db.medications && m.userId == caller.userId
  {
    var own := Filter(db.medications, (m: Medication) => MedicationOwnedBy(m, caller.userId));
    r := SortBy(own, ByName());
    ByNameIsPreorder();
    SortBySorted(own, ByName());
    forall m ensures m in r <==> m in db.medications && m.userId == caller.userId {
      assert m in r <==> m in multiset(own);
      FilterMember(db.medications, (m: Medication) => MedicationOwnedBy(m, caller.userId), m);
    }
  }

  /** What `req.body` carries into `addMedication`. A missing string is the
      empty string (Mongoose's `required` rejects both); `schedules` is None
      when it is not an array, so that `schedules.map` throws. */
  datatype MedicationBody = MedicationBody(
    name: string, kind: string, schedules: Option<seq<Schedule>>, notes: Option<string>)

  /** The schema's `required` fields: name, type, and every schedule's time
      and dosage (models/Medication.js:3-33). */
  predicate Validates(name: string, kind: string, schedules: seq<Schedule>) {
    && name != "" && kind != ""
    && forall i :: 0 <= i < |schedules| ==> schedules[i].time != "" && schedules[i].dosage != ""
  }

  /** `schedules.map(s => ({ time, dosage, daysOfWeek }))` (lines 24-28). */
  function ProjectSchedules(schedules: seq<Schedule>): (r: seq<Schedule>)
    ensures |r| == |schedules|
    ensures forall i :: 0 <= i < |r| ==>
      && r[i].time == schedules[i].time
      && r[i].dosage == schedules[i].dosage
      && r[i].daysOfWeek == schedules[i].daysOfWeek
  {
    seq(|schedules|, i requires 0 <= i < |schedules| =>
      Schedule(schedules[i].time, schedules[i].dosage, schedules[i].daysOfWeek))
  }

  /** `addMedication`: the stored document is owned by the caller, keeps the
      schedules in order and is active (the schema default). A body without a
      schedules array, or one that fails validation, answers 500 and stores
      nothing. */
  method AddMedication(db: Store, caller: Claims, body: MedicationBody) returns (r: Response<Medication>)
    requires db.Valid()
    modifies db
    ensures db.Valid()
    ensures db.users == old(db.users) && db.readings == old(db.readings)
    ensures db.alertSettings == old(db.alertSettings)
    ensures body.schedules.None? || !Validates(body.name, body.kind, body.schedules.value) ==>
      && r == Fail(500, "Server error")
      && db.medications == old(db.medications) && db.nextId == old(db.nextId)
    ensures body.schedules.Some? && Validates(body.name, body.kind, body.schedules.value) ==>
      var m := Medication(old(db.nextId), caller.userId, body.name, body.kind,
                          ProjectSchedules(body.schedules.value), body.notes, true);
      && r == Ok(201, m)
      && db.medications == old(db.medications) + [m]
  {
    if body.schedules.None? {
      return Fail(500, "Server error");
    }
    var schedules := ProjectSchedules(body.schedules.value);
    if !Validates(body.name, body.kind, schedules) {
      return Fail(500, "Server error");
    }
    var m := Medication(db.nextId, caller.userId, body.name, body.kind, schedules, body.notes, true);
    AppendFreshKeepsDistinct(db.medications, m, MedicationId, db.nextId);
    db.medications := db.medications + [m];
    db.nextId := db.nextId + 1;
    r := Ok(201, m);
  }

  /** The fields `req.body` may carry into `findOneAndUpdate`; no validators run. */
  datatype MedicationPatch = MedicationPatch(
    name: Option<string>, kind: Option<string>, schedules: Option<seq<Schedule>>,
    notes: Option<string>, active: Option<bool>)

  function PatchedMedication(m: Medication, p: MedicationPatch): (u: Medication)
    ensures u.id == m.id && u.userId == m.userId
    ensures u.name == (if p.name.Some? then p.name.value else m.name)
    ensures u.kind == (if p.kind.Some? then p.kind.value else m.kind)
    ensures u.schedules == (if p.schedules.Some? then p.schedules.value else m.schedules)
    ensures u.notes == (if p.notes.Some? then p.notes else m.notes)
    ensures u.active == (if p.active.Some? then p.active.value else m.active)
  {
    Medication(
      m.id, m.userId,
      p.name.GetOr(m.name),
      p.kind.GetOr(m.kind),
      p.schedules.GetOr(m.schedules),
      if p.notes.Some? then p.notes else m.notes,
      p.active.GetOr(m.active))
  }

  /** The query `{ _id: id, userId: caller }` of update and delete. */
  function MedicationMatches(id: Id, owner: Id): Medication -> bool {
    Matching(MedicationId, MedicationOwner, id, owner)
  }

  /** `updateMedication`: only the medication with that id AND owned by the
      caller changes; otherwise 404 and nothing changes. */
  method UpdateMedication(db: Store, caller: Claims, id: Id, patch: MedicationPatch) returns (r: Response<Medication>)
    requires db.Valid()
    modifies db
    ensures db.Valid()
    ensures db.users == old(db.users) && db.readings == old(db.readings)
    ensures db.alertSettings == old(db.alertSettings) && db.nextId == old(db.nextId)
    ensures |db.medications| == |old(db.medications)|
    ensures (forall m :: m in old(db.medications) ==> !MedicationMatches(id, caller.userId)(m)) ==>
      r == Fail(404, "Medication not found") && db.medications == old(db.medications)
    ensures forall k :: 0 <= k < |old(db.medications)| ==>
      if MedicationMatches(id, caller.userId)(old(db.medications)[k])
      then r == Ok(200, db.medications[k]) && db.medications[k] == PatchedMedication(old(db.medications)[k], patch)
      else db.medications[k] == old(db.medications)[k]
  {
    var found := FindFirst(db.medications, MedicationMatches(id, caller.userId));
    if found.None? {
      return Fail(404, "Medication not found");
    }
    var k := found.value;
    var updated := PatchedMedication(db.medications[k], patch);
    db.medications := db.medications[k := updated];
    r := Ok(200, updated);
  }

  /** `deleteMedication`: removes only the medication with that id owned by
      the caller; otherwise 404 and nothing changes. */
  method DeleteMedication(db: Store, caller: Claims, id: Id) returns (r: Response<string>)
    requires db.Valid()
    modifies db
    ensures db.Valid()
    ensures db.users == old(db.users) && db.readings == old(db.readings)
    ensures db.alertSettings == old(db.alertSettings) && db.nextId == old(db.nextId)
    ensures (forall m :: m in old(db.medications) ==> !MedicationMatches(id, caller.userId)(m)) <==> r.Fail?
    ensures r.Fail? ==> r == Fail(404, "Medication not found") && db.medications == old(db.medications)
    ensures r.Ok? ==>
      && r == Ok(200, "Medication deleted")
      && db.medications == Filter(old(db.medications), NotMatching(MedicationId, MedicationOwner, id, caller.userId))
      && |db.medications| == |old(db.medications)| - 1
  {
    var found := FindFirst(db.medications, MedicationMatches(id, caller.userId));
    if found.None? {
      return Fail(404, "Medication not found");
    }
    var k := found.value;
    ghost var before := db.medications;
    RemoveMatch(before, k, MedicationId, MedicationOwner, id, caller.userId);
    db.medications := RemoveAt(db.medications, k);
    r := Ok(200, "Medication deleted");
  }
}
