/** components/EmergencyContactDashboard.jsx: the contact's page shows the
    overview the server derives, colours each status and each alert, and
    reacts to a failed fetch. */
module EmergencyDashboard {
  import opened Common
  import opened PatientStatus

  /** `getStatusColor`, over the status string the server sent. */
  function StatusColor(status: string): (c: string)
    ensures status == "normal" ==> c == "success"
    ensures status == "warning" ==> c == "warning"
    ensures status == "danger" ==> c == "error"
    ensures status != "normal" && status != "warning" && status != "danger" ==> c == "default"
  {
    if status == "normal" then "success"
    else if status == "warning" then "warning"
    else if status == "danger" then "error"
    else "default"
  }

  /** Every status the server produces gets its own colour, never the default. */
  lemma StatusColorsDistinct(s: Status, t: Status)
    ensures StatusColor(StatusName(s)) != "default"
    ensures s != t ==> StatusColor(StatusName(s)) != StatusColor(StatusName(t))
  {
  }

  /** `alert.type === 'HIGH_GLUCOSE' ? 'error' : 'warning'`. */
  function AlertSeverity(kind: string): (severity: string)
    ensures severity == "error" <==> kind == "HIGH_GLUCOSE"
    ensures severity != "error" ==> severity == "warning"
  {
    if kind == "HIGH_GLUCOSE" then "error" else "warning"
  }

  /** A high alert shows as an error, a low one as a warning. */
  lemma SeverityOfAlertTypes()
    ensures AlertSeverity(AlertTypeName(HighGlucose)) == "error"
    ensures AlertSeverity(AlertTypeName(LowGlucose)) == "warning"
  {
  }

  /** The alerts panel: the all-clear message, or one entry per alert. */
  datatype AlertsPanel = AllClear | AlertList(entries: seq<Alert>)

  function AlertsPanelOf(alerts: seq<Alert>): (p: AlertsPanel)
    ensures p == AllClear <==> |alerts| == 0
    ensures p.AlertList? ==> p.entries == alerts
  {
    if |alerts| == 0 then AllClear else AlertList(alerts)
  }

  /** The all-clear shows exactly when no monitored patient is alerting. */
  lemma AllClearIffNoneAlerting(patients: seq<PatientSummary>, now: int)
    ensures AlertsPanelOf(ExpectedAlerts(patients, now)) == AllClear <==>
      forall p :: p in patients ==> !Alerting(p)
  {
    var r := ExpectedAlerts(patients, now);
    forall p | p in patients ensures Alerting(p) ==> |r| > 0 {
      AlertsFollowPatients(patients, now, p);
    }
    if |r| > 0 {
      AlertsFollowPatients(patients, now, patients[0]);
      assert r[0] in r;
    }
  }

  class ContactPage {
    var patients: seq<PatientSummary>
    var alerts: seq<Alert>
    var loading: bool
    /** The last `navigate(...)` target, if any. */
    var navigatedTo: Option<string>

    constructor ()
      ensures patients == [] && alerts == [] && loading && navigatedTo.None?
    {
      patients, alerts, loading, navigatedTo := [], [], true, None;
    }

    /** `fetchPatientsData` given the server's answer; None is a request
        that got no answer at all. A 401 sends the contact to /login; any
        outcome ends the loading state. */
    method FetchPatientsData(answer: Option<Response<PatientsView>>)
      modifies this
      ensures !loading
      ensures answer.Some? && answer.value.Ok? ==>
        patients == answer.value.body.patients && alerts == answer.value.body.alerts
        && navigatedTo == old(navigatedTo)
      ensures !(answer.Some? && answer.value.Ok?) ==>
        patients == old(patients) && alerts == old(alerts)
        && navigatedTo == (if answer.Some? && answer.value.status == 401 then Some("/login") else old(navigatedTo))
    {
      if answer.Some? && answer.value.Ok? {
        patients := answer.value.body.patients;
        alerts := answer.value.body.alerts;
        loading := false;
      } else {
        if answer.Some? && answer.value.status == 401 {
          navigatedTo := Some("/login");
        }
        loading := false;
      }
    }
  }
}
