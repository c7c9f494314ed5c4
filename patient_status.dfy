/** The emergency contact's overview (controllers/emergencyContactController.js):
    every monitored patient with a three-tier status computed from the latest
    reading against the patient's own `dangerousLevels`, and one alert per
    patient in danger. */
module PatientStatus {
  import opened Common
  import opened Domain
  import opened Tables
  import opened Ordering
  import opened Store

  datatype Status = Normal | Warning | Danger

  /** The strings the handler puts in `status`. */
  function StatusName(s: Status): string {
    match s
    case Normal => "normal"
    case Warning => "warning"
    case Danger => "danger"
  }

  /** Width of the warning band inside each bound, in mg/dL. */
  const WarningBand := 10

  /** The status assigned step by step at lines 19-28: no reading is normal; a
      level on or beyond a bound is danger; a level within ten of a bound is
      warning. */
  function Classify(latest: Option<Reading>, levels: Thresholds): (s: Status)
    ensures latest.None? ==> s == Normal
    ensures latest.Some? ==>
      (s == Danger <==>
        latest.value.level <= levels.lowThreshold || latest.value.level >= levels.highThreshold)
    ensures latest.Some? ==>
      (s == Warning <==>
        && levels.lowThreshold < latest.value.level < levels.highThreshold
        && (latest.value.level <= levels.lowThreshold + WarningBand
            || latest.value.level >= levels.highThreshold - WarningBand))
  {
    if latest.None? then Normal
    else
      var level := latest.value.level;
      if level <= levels.lowThreshold then Danger
      else if level >= levels.highThreshold then Danger
      else if level <= levels.lowThreshold + WarningBand || level >= levels.highThreshold - WarningBand then Warning
      else Normal
  }

  /** With the default levels 70/180: normal is exactly 81..169. */
  lemma {:induction false} DefaultNormalRange(r: Reading)
    ensures Classify(Some(r), DefaultThresholds) == Normal <==> 81 <= r.level <= 169
  {
    var s := Classify(Some(r), DefaultThresholds);
    if 81 <= r.level <= 169 {
      assert s != Danger && s != Warning;
    }
  }

  /** `GlucoseReading.findOne({ userId }).sort({ timestamp: -1 })`: a reading of
      that patient with the largest timestamp; ties go to the earliest stored. */
  function LatestReadingOf(readings: seq<Reading>, patient: Id): (r: Option<Reading>)
    ensures r.None? <==> forall x :: x in readings ==> x.userId != patient
    ensures r.Some? ==> r.value in readings && r.value.userId == patient
    ensures r.Some? ==>
      forall x :: x in readings && x.userId == patient ==> x.timestamp <= r.value.timestamp
  {
    var own := Filter(readings, (x: Reading) => x.userId == patient);
    forall x ensures x in own <==> x in readings && x.userId == patient {
      FilterMember(readings, (x: Reading) => x.userId == patient, x);
    }
    if own == [] then None else Some(own[LatestIndex(own)])
  }

  /** `{ level, timestamp }` of the latest reading. */
  datatype LastReading = LastReading(level: int, timestamp: int)

  /** One entry of `patients` in the response. */
  datatype PatientSummary = PatientSummary(
    id: Id,
    name: string,
    status: Status,
    lastReading: Option<LastReading>,
    dangerousLevels: Thresholds)

  function Summarize(patient: User, readings: seq<Reading>): PatientSummary {
    var latest := LatestReadingOf(readings, patient.id);
    PatientSummary(
      patient.id,
      patient.name,
      Classify(latest, patient.dangerousLevels),
      if latest.Some? then Some(LastReading(latest.value.level, latest.value.timestamp)) else None,
      patient.dangerousLevels)
  }

  /** `populate('monitoringFor')` followed by the `map` of lines 15-41.
      Populating an array drops the ids that no user document has. */
  function Summaries(ids: seq<Id>, users: map<Id, User>, readings: seq<Reading>): seq<PatientSummary> {
    if ids == [] then []
    else
      (if ids[0] in users then [Summarize(users[ids[0]], readings)] else [])
      + Summaries(ids[1..], users, readings)
  }

  /** When every monitored id names a user, there is exactly one entry per id,
      in the same order, carrying that patient's own levels and the status of
      that patient's latest reading. */
  lemma {:induction false} SummariesOnePerId(ids: seq<Id>, users: map<Id, User>, readings: seq<Reading>)
    requires forall i :: 0 <= i < |ids| ==> ids[i] in users && users[ids[i]].id == ids[i]
    ensures |Summaries(ids, users, readings)| == |ids|
    ensures forall k :: 0 <= k < |ids| ==>
      var p := Summaries(ids, users, readings)[k];
      && p.id == ids[k]
      && p.dangerousLevels == users[ids[k]].dangerousLevels
      && p.status == Classify(LatestReadingOf(readings, ids[k]), users[ids[k]].dangerousLevels)
  {
    if ids != [] {
      SummariesOnePerId(ids[1..], users, readings);
      var rest := Summaries(ids[1..], users, readings);
      assert Summaries(ids, users, readings) == [Summarize(users[ids[0]], readings)] + rest;
      forall k | 1 <= k < |ids| ensures Summaries(ids, users, readings)[k] == rest[k - 1] {
      }
    }
  }

  /** A patient without readings is listed as normal with no last reading. */
  lemma NoReadingsIsNormal(patient: User, readings: seq<Reading>)
    requires forall x :: x in readings ==> x.userId != patient.id
    ensures Summarize(patient, readings).status == Normal
    ensures Summarize(patient, readings).lastReading.None?
  {
  }

  datatype AlertType = LowGlucose | HighGlucose

  function AlertTypeName(t: AlertType): string {
    match t
    case LowGlucose => "LOW_GLUCOSE"
    case HighGlucose => "HIGH_GLUCOSE"
  }

  /** A derived, unstored alert; `id` is `${patient._id}-${Date.now()}`. */
  datatype Alert = Alert(id: string, patientName: string, kind: AlertType, message: string, timestamp: int)

  predicate Alerting(p: PatientSummary) {
    p.status == Danger && p.lastReading.Some?
  }

  /** The alert pushed for one patient in danger (lines 47-54). */
  function AlertFor(p: PatientSummary, now: int): Alert
    requires p.lastReading.Some?
  {
    var level := p.lastReading.value.level;
    Alert(
      IntToString(p.id) + "-" + IntToString(now),
      p.name,
      if level <= p.dangerousLevels.lowThreshold then LowGlucose else HighGlucose,
      "Glucose level (" + IntToString(level) + " mg/dL) is outside target range",
      p.lastReading.value.timestamp)
  }

  /** Reference definition of `alerts`: the alerting patients, in patient
      order, each turned into its alert. */
  function ExpectedAlerts(patients: seq<PatientSummary>, now: int): (r: seq<Alert>)
    ensures |r| == |Filter(patients, Alerting)|
  {
    var alerting := Filter(patients, Alerting);
    forall k | 0 <= k < |alerting| ensures Alerting(alerting[k]) {
      FilterMember(patients, Alerting, alerting[k]);
    }
    seq(|alerting|, k requires 0 <= k < |alerting| => AlertFor(alerting[k], now))
  }

  lemma ExpectedAlertsSnoc(patients: seq<PatientSummary>, p: PatientSummary, now: int)
    ensures ExpectedAlerts(patients + [p], now)
      == ExpectedAlerts(patients, now) + (if Alerting(p) then [AlertFor(p, now)] else [])
  {
    FilterConcat(patients, [p], Alerting);
    assert Filter([p], Alerting) == (if Alerting(p) then [p] else []) + Filter([], Alerting);
  }

  /** The `for ... of` loop of lines 44-56. */
  method DeriveAlerts(patients: seq<PatientSummary>, now: int) returns (alerts: seq<Alert>)
    ensures alerts == ExpectedAlerts(patients, now)
  {
    alerts := [];
    var i := 0;
    while i < |patients|
      invariant 0 <= i <= |patients|
      invariant alerts == ExpectedAlerts(patients[..i], now)
    {
      var p := patients[i];
      assert patients[..i + 1] == patients[..i] + [p];
      ExpectedAlertsSnoc(patients[..i], p, now);
      if p.status == Danger && p.lastReading.Some? {
        alerts := alerts + [AlertFor(p, now)];
      }
      i := i + 1;
    }
    assert patients[..i] == patients;
  }

  /** Each alert names the bound that was crossed and carries the reading's
      own timestamp: LOW_GLUCOSE exactly when the level is at or below the low
      threshold, and HIGH_GLUCOSE only for a level at or above the high one. */
  lemma AlertTypeMatchesBound(patient: User, readings: seq<Reading>, now: int)
    requires Alerting(Summarize(patient, readings))
    ensures var p := Summarize(patient, readings);
      var latest := LatestReadingOf(readings, patient.id).value;
      var a := AlertFor(p, now);
      && (a.kind == LowGlucose <==> latest.level <= patient.dangerousLevels.lowThreshold)
      && (a.kind == HighGlucose ==> latest.level >= patient.dangerousLevels.highThreshold)
      && a.timestamp == latest.timestamp
  {
  }

  /** Exactly the alerting patients give an alert, and alerts appear in
      patient order: alert k comes from the k-th alerting patient. */
  lemma {:induction false} AlertsFollowPatients(patients: seq<PatientSummary>, now: int, p: PatientSummary)
    ensures p in patients && Alerting(p) ==> AlertFor(p, now) in ExpectedAlerts(patients, now)
    ensures forall a :: a in ExpectedAlerts(patients, now) ==>
      exists q :: q in patients && Alerting(q) && a == AlertFor(q, now)
  {
    var alerting := Filter(patients, Alerting);
    var r := ExpectedAlerts(patients, now);
    if p in patients && Alerting(p) {
      FilterMember(patients, Alerting, p);
      var k :| 0 <= k < |alerting| && alerting[k] == p;
      assert r[k] == AlertFor(p, now);
      assert r[k] in r;
    }
    forall a | a in r ensures exists q :: q in patients && Alerting(q) && a == AlertFor(q, now) {
      var k :| 0 <= k < |r| && r[k] == a;
      FilterMember(patients, Alerting, alerting[k]);
      assert alerting[k] in patients;
    }
  }

  datatype PatientsView = PatientsView(patients: seq<PatientSummary>, alerts: seq<Alert>)

  /** The caller may see patient data only if it is a stored user whose role
      is emergency contact (line 10). */
  predicate MayMonitor(users: map<Id, User>, caller: Claims) {
    caller.userId in users && users[caller.userId].userType == Some(EmergencyContact)
  }

  /** `getPatients`. `now` stands for `Date.now()`. */
  method GetPatients(db: Store, caller: Claims, now: int) returns (r: Response<PatientsView>)
    requires db.Valid()
    ensures !MayMonitor(db.users, caller) ==> r == Fail(403, "Not authorized as emergency contact")
    ensures MayMonitor(db.users, caller) ==>
      var patients := Summaries(db.users[caller.userId].monitoringFor, db.users, db.readings);
      r == Ok(200, PatientsView(patients, ExpectedAlerts(patients, now)))
  {
    if caller.userId !in db.users || db.users[caller.userId].userType != Some(EmergencyContact) {
      return Fail(403, "Not authorized as emergency contact");
    }
    var contact := db.users[caller.userId];
    var patients := Summaries(contact.monitoringFor, db.users, db.readings);
    var alerts := DeriveAlerts(patients, now);
    r := Ok(200, PatientsView(patients, alerts));
  }
}
