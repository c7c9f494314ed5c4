/** The medication form shared by components/AddMedication.jsx and
    components/EditMedication.jsx: name, type, notes and an editable list of
    schedules. The schedules are objects, because the edit form takes over
    the schedule objects of the medication the dashboard displays. */
module MedicationForm {
  import opened Common
  import opened Domain
  import opened Tables

  /** `d => d !== day`. */
  function NotDay(day: Day): Day -> bool {
    (d: Day) => d != day
  }

  /** The day list after one click on `day` (handleDayChange): a present day
      leaves, every occurrence of it, and the other days keep their order; an
      absent one is appended at the end. */
  function ToggleDay(days: seq<Day>, day: Day): (r: seq<Day>)
    ensures day in r <==> day !in days
    ensures day !in days ==> r == days + [day]
    ensures day in days ==> r == Filter(days, NotDay(day))
  {
    FilterMember(days, NotDay(day), day);
    if day in days then Filter(days, NotDay(day)) else days + [day]
  }

  /** Toggling changes only `day`'s membership, and removal drops every
      occurrence of it while keeping every other day as often as before. */
  lemma ToggleDayOthers(days: seq<Day>, day: Day, d: Day)
    ensures d != day ==> (d in ToggleDay(days, day) <==> d in days)
    ensures day in days ==> multiset(ToggleDay(days, day))[day] == 0
    ensures day in days && d != day ==> multiset(ToggleDay(days, day))[d] == multiset(days)[d]
  {
    FilterMember(days, NotDay(day), d);
    FilterCount(days, NotDay(day), d);
    FilterCount(days, NotDay(day), day);
  }

  /** A click always changes the list. */
  lemma ToggleDayChanges(days: seq<Day>, day: Day)
    ensures ToggleDay(days, day) != days
  {
    assert day in ToggleDay(days, day) <==> day !in days;
  }

  /** Two clicks on an absent day give back the original list. */
  lemma {:induction false} ToggleTwiceRestores(days: seq<Day>, day: Day)
    requires day !in days
    ensures ToggleDay(ToggleDay(days, day), day) == days
  {
    var once := days + [day];
    assert ToggleDay(days, day) == once;
    FilterConcat(days, [day], NotDay(day));
    assert Filter([day], NotDay(day)) == [];
    FilterAll(days, NotDay(day));
  }

  datatype ScheduleField = Time | Dosage

  /** `{ ...schedule, [field]: value }` for the two text fields. */
  function SetField(s: Schedule, field: ScheduleField, value: string): (r: Schedule)
    ensures r.daysOfWeek == s.daysOfWeek
    ensures field == Time ==> r.time == value && r.dosage == s.dosage
    ensures field == Dosage ==> r.dosage == value && r.time == s.time
  {
    match field
    case Time => s.(time := value)
    case Dosage => s.(dosage := value)
  }

  /** One schedule object of the form. */
  class ScheduleEntry {
    var time: string
    var dosage: string
    var daysOfWeek: seq<Day>

    function Value(): Schedule
      reads this
    {
      Schedule(time, dosage, daysOfWeek)
    }

    constructor (s: Schedule)
      ensures Value() == s
    {
      time, dosage, daysOfWeek := s.time, s.dosage, s.daysOfWeek;
    }
  }

  /** The values the schedule objects hold, in order. */
  function ValuesOf(entries: seq<ScheduleEntry>): (r: seq<Schedule>)
    reads entries
    ensures |r| == |entries|
    ensures forall i :: 0 <= i < |r| ==> r[i] == entries[i].Value()
  {
    if entries == [] then [] else [entries[0].Value()] + ValuesOf(entries[1..])
  }

  /** A medication as the dashboard holds it after parsing the server's
      answer: its schedules are objects. */
  class ClientMedication {
    var name: string
    var kind: string
    var notes: Option<string>
    var schedules: seq<ScheduleEntry>

    constructor (m: Medication)
      ensures name == m.name && kind == m.kind && notes == m.notes
      ensures ValuesOf(schedules) == m.schedules
      ensures forall i :: 0 <= i < |schedules| ==> fresh(schedules[i])
    {
      name, kind, notes := m.name, m.kind, m.notes;
      var entries: seq<ScheduleEntry> := [];
      var i := 0;
      while i < |m.schedules|
        invariant 0 <= i <= |m.schedules|
        invariant |entries| == i
        invariant forall k :: 0 <= k < i ==> fresh(entries[k]) && entries[k].Value() == m.schedules[k]
      {
        var e := new ScheduleEntry(m.schedules[i]);
        entries := entries + [e];
        i := i + 1;
      }
      schedules := entries;
    }
  }

  /** Whether the form offers removal of the schedule at `index` (only the
      second and later ones have the button). */
  predicate CanRemove(index: nat) {
    index > 0
  }

  /** Removal as the form offers it never drops the first schedule. */
  lemma RemovalKeepsFirst<T>(s: seq<T>, index: nat)
    requires |s| > 0 && CanRemove(index)
    ensures |RemoveAt(s, index)| > 0 && RemoveAt(s, index)[0] == s[0]
  {
  }

  class MedicationForm {
    var name: string
    var kind: string
    var notes: string
    var schedules: seq<ScheduleEntry>
    var error: string

    /** Name, type and notes empty, one blank schedule. */
    predicate IsBlank()
      reads this, schedules
    {
      name == "" && kind == "" && notes == "" && ValuesOf(schedules) == [BlankSchedule]
    }

    /** The initial `useState` of both components. */
    constructor ()
      ensures IsBlank() && error == ""
    {
      var blank := new ScheduleEntry(BlankSchedule);
      name, kind, notes, schedules, error := "", "", "", [blank], "";
    }

    /** The reset after a successful add and the Cancel of the edit form:
        blank form, no error. */
    method Reset()
      modifies this
      ensures IsBlank() && error == ""
    {
      var blank := new ScheduleEntry(BlankSchedule);
      name, kind, notes, schedules, error := "", "", "", [blank], "";
    }

    /** The edit form's effect on receiving a medication: name and type
        copied, notes defaulted to "", and an empty schedule list replaced by
        one blank schedule. A non-empty list is taken over as it is: the form
        holds the very schedule objects of the dashboard's medication. */
    method LoadFrom(med: ClientMedication)
      modifies this
      ensures name == med.name && kind == med.kind && notes == med.notes.GetOr("")
      ensures |med.schedules| > 0 ==> schedules == med.schedules
      ensures |med.schedules| == 0 ==> ValuesOf(schedules) == [BlankSchedule]
      ensures error == old(error)
    {
      name, kind, notes := med.name, med.kind, med.notes.GetOr("");
      if |med.schedules| > 0 {
        schedules := med.schedules;
      } else {
        var blank := new ScheduleEntry(BlankSchedule);
        schedules := [blank];
      }
    }

    /** `handleScheduleChange`: a fresh object with one field replaced takes
        the place of the schedule at `index`. */
    method HandleScheduleChange(index: nat, field: ScheduleField, value: string)
      requires index < |schedules|
      modifies this
      ensures |schedules| == |old(schedules)| && fresh(schedules[index])
      ensures ValuesOf(schedules) == old(ValuesOf(schedules))[index := SetField(old(schedules[index].Value()), field, value)]
      ensures name == old(name) && kind == old(kind) && notes == old(notes) && error == old(error)
    {
      var updated := new ScheduleEntry(SetField(schedules[index].Value(), field, value));
      schedules := schedules[index := updated];
    }

    /** `handleDayChange` as the components write it: the copied array still
        holds the same schedule objects, and the new day list is assigned
        into the object at `index` itself. */
    method HandleDayChangeAsWritten(index: nat, day: Day)
      requires index < |schedules|
      modifies schedules[index]
      ensures schedules[index].daysOfWeek == ToggleDay(old(schedules[index].daysOfWeek), day)
      ensures schedules[index].time == old(schedules[index].time)
      ensures schedules[index].dosage == old(schedules[index].dosage)
    {
      var entry := schedules[index];
      entry.daysOfWeek := ToggleDay(entry.daysOfWeek, day);
    }

    /** `handleDayChange` with the copy the other handlers make: a fresh
        object with the toggled day list replaces the one at `index`, and no
        existing schedule object changes. */
    method HandleDayChange(index: nat, day: Day)
      requires index < |schedules|
      modifies this
      ensures |schedules| == |old(schedules)| && fresh(schedules[index])
      ensures ValuesOf(schedules) == old(ValuesOf(schedules))[index :=
        old(schedules[index].Value()).(daysOfWeek := ToggleDay(old(schedules[index].daysOfWeek), day))]
      ensures name == old(name) && kind == old(kind) && notes == old(notes) && error == old(error)
    {
      var current := schedules[index].Value();
      var updated := new ScheduleEntry(current.(daysOfWeek := ToggleDay(current.daysOfWeek, day)));
      schedules := schedules[index := updated];
    }

    /** `addSchedule`: one blank schedule at the end. */
    method AddSchedule()
      modifies this
      ensures ValuesOf(schedules) == old(ValuesOf(schedules)) + [BlankSchedule]
      ensures name == old(name) && kind == old(kind) && notes == old(notes) && error == old(error)
    {
      var blank := new ScheduleEntry(BlankSchedule);
      schedules := schedules + [blank];
    }

    /** `removeSchedule`: `filter((_, i) => i !== index)`. */
    method RemoveSchedule(index: nat)
      modifies this
      ensures schedules == RemoveAt(old(schedules), index)
      ensures ValuesOf(schedules) == RemoveAt(old(ValuesOf(schedules)), index)
      ensures name == old(name) && kind == old(kind) && notes == old(notes) && error == old(error)
    {
      schedules := RemoveAt(schedules, index);
    }
  }

  /** A day toggled in the edit form and then cancelled, as the code is
      written: the dashboard's own medication now shows the toggled days. */
  method CancelledToggleAsWritten(med: ClientMedication, day: Day) returns (shown: seq<Day>, shownAfter: seq<Day>)
    requires |med.schedules| > 0
    modifies med.schedules[0]
    ensures shown == old(med.schedules[0].daysOfWeek)
    ensures shownAfter == med.schedules[0].daysOfWeek
    ensures shownAfter == ToggleDay(shown, day) && shownAfter != shown
  {
    shown := med.schedules[0].daysOfWeek;
    var form := new MedicationForm();
    form.LoadFrom(med);
    form.HandleDayChangeAsWritten(0, day);
    form.Reset();
    shownAfter := med.schedules[0].daysOfWeek;
    ToggleDayChanges(shown, day);
  }

  /** The same steps with the copying handler: the dashboard's medication is
      untouched, whatever was clicked. */
  method CancelledToggle(med: ClientMedication, day: Day) returns (shown: seq<Day>, shownAfter: seq<Day>)
    requires |med.schedules| > 0
    ensures shownAfter == shown
  {
    shown := med.schedules[0].daysOfWeek;
    var form := new MedicationForm();
    form.LoadFrom(med);
    form.HandleDayChange(0, day);
    form.Reset();
    shownAfter := med.schedules[0].daysOfWeek;
  }
}
