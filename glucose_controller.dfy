/** controllers/glucoseController.js: the patient's readings table and the
    e-mail alert a new reading may trigger. The alert compares against the
    thresholds of the patient's AlertSettings document, with no warning band;
    the contact's overview uses the user's `dangerousLevels` instead, and
    nothing keeps the two in step. */
module GlucoseController {
  import opened Common
  import opened Domain
  import opened Tables
  import opened Ordering
  import opened Store

  datatype Condition = Low | High

  function ConditionName(c: Condition): string {
    match c
    case Low => "LOW"
    case High => "HIGH"
  }

  /** The firing rule of lines 37-41: both bounds inclusive, LOW when both hold. */
  function FiringCondition(level: int, t: Thresholds): (c: Option<Condition>)
    ensures c.Some? <==> level <= t.lowThreshold || level >= t.highThreshold
    ensures c == Some(Low) <==> level <= t.lowThreshold
    ensures c == Some(High) <==> t.lowThreshold < level && level >= t.highThreshold
  {
    var isLow := level <= t.lowThreshold;
    var isHigh := level >= t.highThreshold;
    if isLow || isHigh then Some(if isLow then Low else High) else None
  }

  /** The worked cases for the default thresholds 70/180. */
  lemma DefaultFiringExamples()
    ensures FiringCondition(70, DefaultThresholds) == Some(Low)
    ensures FiringCondition(65, DefaultThresholds) == Some(Low)
    ensures FiringCondition(75, DefaultThresholds) == None
    ensures FiringCondition(180, DefaultThresholds) == Some(High)
    ensures FiringCondition(185, DefaultThresholds) == Some(High)
  {
  }

  /** The fixed parts of the alert mail's body (lines 47-58). */
  function AlertIntro(): string {
    "<h2>Glucose Level Alert</h2>"
      + "<p>This is an automated alert regarding your contact's glucose levels.</p>"
      + "<p><strong>Current Reading:</strong> "
  }

  function AlertStatus(c: Condition): string {
    " mg/dL</p><p><strong>Status:</strong> " + ConditionName(c) + " (Outside normal range of "
  }

  function AlertContact(contact: ContactDescriptor): string {
    " mg/dL)</p><p><strong>Contact Information:</strong></p><ul>"
      + "<li>Name: " + contact.name + "</li><li>Phone: " + contact.phone + "</li></ul>"
      + "<p>Please check on them as soon as possible.</p>"
  }

  /** The alert mail of lines 43-59, addressed to the contact of the settings.
      The template's line breaks and indentation are not reproduced. */
  function AlertMail(from: string, level: int, t: Thresholds, contact: ContactDescriptor, c: Condition): (m: Mail)
    ensures m.to == contact.email
    ensures Contains(m.subject, ConditionName(c))
    ensures Contains(m.html, IntToString(level))
    ensures Contains(m.html, IntToString(t.lowThreshold) + "-" + IntToString(t.highThreshold))
  {
    var subject := "URGENT: " + ConditionName(c) + " Glucose Level Alert";
    var window := IntToString(t.lowThreshold) + "-" + IntToString(t.highThreshold);
    var intro, middle, tail := AlertIntro(), AlertStatus(c), AlertContact(contact);
    var html := intro + IntToString(level) + middle + window + tail;
    ContainsMiddle("URGENT: ", ConditionName(c), " Glucose Level Alert");
    ContainsMiddle(intro, IntToString(level), middle + window + tail);
    assert html == intro + IntToString(level) + (middle + window + tail);
    ContainsMiddle(intro + IntToString(level) + middle, window, tail);
    Mail(from, contact.email, subject, html)
  }

  /** What one call of `checkAndSendAlert` ends in: no usable settings
      (returns undefined), in range (returns null), a mail handed to the relay,
      or a mail the relay refused (the function throws). */
  datatype AlertOutcome = NoContact | InRange | Sent(mail: Mail) | SendFailed(mail: Mail)

  /** A contact with a non-empty e-mail, as line 31 demands. */
  predicate HasContactEmail(settings: Option<AlertSettings>) {
    && settings.Some?
    && settings.value.emergencyContact.Some?
    && settings.value.emergencyContact.value.email != ""
  }

  /** `checkAndSendAlert(userId, level)` given the result of
      `AlertSettings.findOne({ userId })`; `delivered` is the relay's verdict. */
  function CheckAndSendAlert(settings: Option<AlertSettings>, level: int, from: string, delivered: bool): (o: AlertOutcome)
    ensures o == NoContact <==> !HasContactEmail(settings)
    ensures o == InRange <==>
      HasContactEmail(settings) && FiringCondition(level, settings.value.thresholds).None?
    ensures (o.Sent? || o.SendFailed?) ==>
      && HasContactEmail(settings)
      && o.mail.to == settings.value.emergencyContact.value.email
      && Contains(o.mail.subject, ConditionName(FiringCondition(level, settings.value.thresholds).value))
      && Contains(o.mail.html, IntToString(level))
    ensures o.Sent? ==> delivered
    ensures o.SendFailed? ==> !delivered
    ensures (o.Sent? || o.SendFailed?) ==>
      o.mail == AlertMail(from, level, settings.value.thresholds, settings.value.emergencyContact.value,
                          FiringCondition(level, settings.value.thresholds).value)
  {
    if !HasContactEmail(settings) then NoContact
    else
      var s := settings.value;
      match FiringCondition(level, s.thresholds)
      case None => InRange
      case Some(c) =>
        var mail := AlertMail(from, level, s.thresholds, s.emergencyContact.value, c);
        if delivered then Sent(mail) else SendFailed(mail)
  }

  predicate OwnedBy(r: Reading, owner: Id) { r.userId == owner }

  /** `getReadings`: the caller's readings, newest first. */
  method GetReadings(db: Store, caller: Claims) returns (r: seq<Reading>)
    ensures multiset(r) == multiset(Filter(db.readings, (x: Reading) => OwnedBy(x, caller.userId)))
    ensures SortedBy(r, ByTimestampDesc())
    ensures forall x :: x in r <==> x in db.readings && x.userId == caller.userId
  {
    var own := Filter(db.readings, (x: Reading) => OwnedBy(x, caller.userId));
    r := SortBy(own, ByTimestampDesc());
    ReadingOrdersArePreorders();
    SortBySorted(own, ByTimestampDesc());
    forall x ensures x in r <==> x in db.readings && x.userId == caller.userId {
      assert x in r <==> x in multiset(own);
      FilterMember(db.readings, (x: Reading) => OwnedBy(x, caller.userId), x);
    }
  }

  /** `addReading`. Only a caller whose token says patient may add; the
      reading is stored first, and whatever the alert check ends in, the
      answer is 201 with the stored reading. `level` or `mealStatus` missing
      (or outside the enum) fails Mongoose validation. `now` is `new Date()`. */
  method AddReading(
    db: Store, caller: Claims, level: Option<int>, mealStatus: Option<MealStatus>,
    notes: Option<string>, now: int, from: string, delivered: bool)
    returns (r: Response<Reading>, alert: Option<AlertOutcome>)
    requires db.Valid()
    modifies db
    ensures db.Valid()
    ensures db.users == old(db.users) && db.medications == old(db.medications)
    ensures db.alertSettings == old(db.alertSettings)
    ensures caller.userType != Some(Patient) ==>
      r == Fail(403, "Only patients can add readings") && alert.None?
      && db.readings == old(db.readings) && db.nextId == old(db.nextId)
    ensures caller.userType == Some(Patient) && (level.None? || mealStatus.None?) ==>
      r == Fail(500, "Failed to save glucose reading") && alert.None?
      && db.readings == old(db.readings) && db.nextId == old(db.nextId)
    ensures caller.userType == Some(Patient) && level.Some? && mealStatus.Some? ==>
      var reading := Reading(old(db.nextId), caller.userId, level.value, now, mealStatus.value, notes);
      && r == Ok(201, reading)
      && db.readings == old(db.readings) + [reading]
      && alert == Some(CheckAndSendAlert(SettingsOf(db.alertSettings, caller.userId), level.value, from, delivered))
  {
    alert := None;
    if caller.userType != Some(Patient) {
      return Fail(403, "Only patients can add readings"), None;
    }
    if level.None? || mealStatus.None? {
      return Fail(500, "Failed to save glucose reading"), None;
    }
    var reading := Reading(db.nextId, caller.userId, level.value, now, mealStatus.value, notes);
    AppendFreshKeepsDistinct(db.readings, reading, ReadingId, db.nextId);
    db.readings := db.readings + [reading];
    db.nextId := db.nextId + 1;
    // A failing alert is caught and logged: it does not change the answer.
    var outcome := CheckAndSendAlert(SettingsOf(db.alertSettings, caller.userId), level.value, from, delivered);
    alert := Some(outcome);
    r := Ok(201, reading);
  }

  /** The fields `req.body` may carry into `findOneAndUpdate`; no validators run. */
  datatype ReadingPatch = ReadingPatch(
    level: Option<int>, timestamp: Option<int>, mealStatus: Option<MealStatus>, notes: Option<string>)

  function Patched(r: Reading, p: ReadingPatch): (u: Reading)
    ensures u.id == r.id && u.userId == r.userId
    ensures u.level == (if p.level.Some? then p.level.value else r.level)
    ensures u.timestamp == (if p.timestamp.Some? then p.timestamp.value else r.timestamp)
    ensures u.mealStatus == (if p.mealStatus.Some? then p.mealStatus.value else r.mealStatus)
    ensures u.notes == (if p.notes.Some? then p.notes else r.notes)
  {
    Reading(
      r.id, r.userId,
      p.level.GetOr(r.level),
      p.timestamp.GetOr(r.timestamp),
      p.mealStatus.GetOr(r.mealStatus),
      if p.notes.Some? then p.notes else r.notes)
  }

  function ReadingOwner(r: Reading): Id { r.userId }

  /** The query `{ _id: id, userId: caller }` of update and delete. */
  function Matches(id: Id, owner: Id): Reading -> bool {
    Matching(ReadingId, ReadingOwner, id, owner)
  }

  /** `updateReading`: only the reading with that id AND owned by the caller
      changes; otherwise 404 and nothing changes. */
  method UpdateReading(db: Store, caller: Claims, id: Id, patch: ReadingPatch) returns (r: Response<Reading>)
    requires db.Valid()
    modifies db
    ensures db.Valid()
    ensures db.users == old(db.users) && db.medications == old(db.medications)
    ensures db.alertSettings == old(db.alertSettings) && db.nextId == old(db.nextId)
    ensures |db.readings| == |old(db.readings)|
    ensures (forall x :: x in old(db.readings) ==> !Matches(id, caller.userId)(x)) ==>
      r == Fail(404, "Reading not found") && db.readings == old(db.readings)
    ensures forall k :: 0 <= k < |old(db.readings)| ==>
      if Matches(id, caller.userId)(old(db.readings)[k])
      then r == Ok(200, db.readings[k]) && db.readings[k] == Patched(old(db.readings)[k], patch)
      else db.readings[k] == old(db.readings)[k]
  {
    var found := FindFirst(db.readings, Matches(id, caller.userId));
    if found.None? {
      return Fail(404, "Reading not found");
    }
    var k := found.value;
    var updated := Patched(db.readings[k], patch);
    db.readings := db.readings[k := updated];
    r := Ok(200, updated);
  }

  /** `deleteReading`: removes only the reading with that id owned by the
      caller; otherwise 404 and nothing changes. */
  method DeleteReading(db: Store, caller: Claims, id: Id) returns (r: Response<string>)
    requires db.Valid()
    modifies db
    ensures db.Valid()
    ensures db.users == old(db.users) && db.medications == old(db.medications)
    ensures db.alertSettings == old(db.alertSettings) && db.nextId == old(db.nextId)
    ensures (forall x :: x in old(db.readings) ==> !Matches(id, caller.userId)(x)) <==> r.Fail?
    ensures r.Fail? ==> r == Fail(404, "Reading not found") && db.readings == old(db.readings)
    ensures r.Ok? ==>
      && r == Ok(200, "Reading deleted")
      && db.readings == Filter(old(db.readings), NotMatching(ReadingId, ReadingOwner, id, caller.userId))
      && |db.readings| == |old(db.readings)| - 1
  {
    var found := FindFirst(db.readings, Matches(id, caller.userId));
    if found.None? {
      return Fail(404, "Reading not found");
    }
    var k := found.value;
    ghost var before := db.readings;
    RemoveMatch(before, k, ReadingId, ReadingOwner, id, caller.userId);
    db.readings := RemoveAt(db.readings, k);
    r := Ok(200, "Reading deleted");
  }
}
