/** components/Dashboard.jsx: the patient's page keeps the readings and the
    medications in component state and reconciles them with what the server
    answered, without fetching again. */
module Dashboard {
  import opened Common
  import opened Domain
  import opened Tables
  import opened Ordering
  import opened Store

  /** `x => x._id !== id`. */
  function KeyIsNot<T>(key: T -> Id, id: Id): T -> bool {
    (x: T) => key(x) != id
  }

  /** `s.map(x => x._id === u._id ? u : x)`. */
  function Replaced<T>(s: seq<T>, u: T, key: T -> Id): (r: seq<T>)
    ensures |r| == |s|
    ensures forall i :: 0 <= i < |s| ==> r[i] == if key(s[i]) == key(u) then u else s[i]
  {
    if s == [] then []
    else [if key(s[0]) == key(u) then u else s[0]] + Replaced(s[1..], u, key)
  }

  /** Replacing keeps every position's id, and the same update twice is the
      update once. */
  lemma ReplacedKeepsIds<T>(s: seq<T>, u: T, key: T -> Id)
    ensures forall i :: 0 <= i < |s| ==> key(Replaced(s, u, key)[i]) == key(s[i])
    ensures Replaced(Replaced(s, u, key), u, key) == Replaced(s, u, key)
  {
    var once := Replaced(s, u, key);
    var twice := Replaced(once, u, key);
    assert |twice| == |once|;
    forall i | 0 <= i < |s| ensures twice[i] == once[i] {
    }
  }

  /** An answer for an id the list does not hold changes nothing. */
  lemma ReplacedAbsent<T>(s: seq<T>, u: T, key: T -> Id)
    requires forall i :: 0 <= i < |s| ==> key(s[i]) != key(u)
    ensures Replaced(s, u, key) == s
  {
  }

  /** Deleting a just-added element with a fresh id gives back the list. */
  lemma {:induction false} AddThenDelete<T>(s: seq<T>, x: T, key: T -> Id)
    requires forall i :: 0 <= i < |s| ==> key(s[i]) != key(x)
    ensures Filter(s + [x], KeyIsNot(key, key(x))) == s
  {
    FilterConcat(s, [x], KeyIsNot(key, key(x)));
    assert Filter([x], KeyIsNot(key, key(x))) == [];
    FilterAll(s, KeyIsNot(key, key(x)));
  }

  /** Deleting keeps exactly the elements with another id, each as often as
      before. */
  lemma DeleteKeepsOthers<T>(s: seq<T>, id: Id, key: T -> Id, x: T)
    ensures x in Filter(s, KeyIsNot(key, id)) <==> x in s && key(x) != id
    ensures multiset(Filter(s, KeyIsNot(key, id)))[x] == if key(x) != id then multiset(s)[x] else 0
  {
    FilterMember(s, KeyIsNot(key, id), x);
    FilterCount(s, KeyIsNot(key, id), x);
  }

  /** One point of the chart: the date label is left as the timestamp. */
  datatype ChartPoint = ChartPoint(timestamp: int, level: int, mealStatus: MealStatus)

  function PointOf(r: Reading): ChartPoint {
    ChartPoint(r.timestamp, r.level, r.mealStatus)
  }

  class DashboardState {
    var readings: seq<Reading>
    var medications: seq<Medication>

    /** Both lists as fetched when the page mounts. */
    constructor (readings0: seq<Reading>, medications0: seq<Medication>)
      ensures readings == readings0 && medications == medications0
    {
      readings, medications := readings0, medications0;
    }

    /** `getLatestReading`: null for no readings, else the reduce's pick, the
        first reading with the largest timestamp. */
    function LatestReading(): (r: Option<Reading>)
      reads this
      ensures r.None? <==> |readings| == 0
      ensures r.Some? ==> r.value in readings
      ensures r.Some? ==> forall x :: x in readings ==> x.timestamp <= r.value.timestamp
      ensures r.Some? ==>
        exists k :: 0 <= k < |readings| && readings[k] == r.value &&
          (forall j :: 0 <= j < k ==> readings[j].timestamp < r.value.timestamp)
    {
      if |readings| == 0 then None
      else
        var k := LatestIndex(readings);
        Some(readings[k])
    }

    /** `chartData`: the readings are sorted oldest first IN PLACE (the state
        array itself is reordered), then mapped to points. */
    method ChartData() returns (points: seq<ChartPoint>)
      modifies this
      ensures multiset(readings) == multiset(old(readings))
      ensures SortedBy(readings, ByTimestampAsc())
      ensures |points| == |readings|
      ensures forall i :: 0 <= i < |points| ==> points[i] == PointOf(readings[i])
      ensures medications == old(medications)
    {
      ReadingOrdersArePreorders();
      SortBySorted(readings, ByTimestampAsc());
      readings := SortBy(readings, ByTimestampAsc());
      points := [];
      var i := 0;
      while i < |readings|
        invariant 0 <= i <= |readings|
        invariant |points| == i
        invariant forall k :: 0 <= k < i ==> points[k] == PointOf(readings[k])
      {
        points := points + [PointOf(readings[i])];
        i := i + 1;
      }
    }

    /** The list of all readings, sorted newest first, again in place. */
    method ListOrder()
      modifies this
      ensures multiset(readings) == multiset(old(readings))
      ensures SortedBy(readings, ByTimestampDesc())
      ensures medications == old(medications)
    {
      ReadingOrdersArePreorders();
      SortBySorted(readings, ByTimestampDesc());
      readings := SortBy(readings, ByTimestampDesc());
    }

    method HandleAddReading(x: Reading)
      modifies this
      ensures readings == old(readings) + [x] && medications == old(medications)
    {
      readings := readings + [x];
    }

    method HandleAddMedication(m: Medication)
      modifies this
      ensures medications == old(medications) + [m] && readings == old(readings)
    {
      medications := medications + [m];
    }

    method HandleUpdateReading(u: Reading)
      modifies this
      ensures readings == Replaced(old(readings), u, ReadingId) && medications == old(medications)
    {
      readings := Replaced(readings, u, ReadingId);
    }

    method HandleUpdateMedication(u: Medication)
      modifies this
      ensures medications == Replaced(old(medications), u, MedicationId) && readings == old(readings)
    {
      medications := Replaced(medications, u, MedicationId);
    }

    /** `handleDeleteReading`: the list changes only when the user confirmed
        and the server's DELETE succeeded. */
    method HandleDeleteReading(id: Id, confirmed: bool, serverOk: bool)
      modifies this
      ensures readings == (if confirmed && serverOk then Filter(old(readings), KeyIsNot(ReadingId, id)) else old(readings))
      ensures medications == old(medications)
    {
      if confirmed && serverOk {
        readings := Filter(readings, KeyIsNot(ReadingId, id));
      }
    }

    method HandleDeleteMedication(id: Id, confirmed: bool, serverOk: bool)
      modifies this
      ensures medications == (if confirmed && serverOk then Filter(old(medications), KeyIsNot(MedicationId, id)) else old(medications))
      ensures readings == old(readings)
    {
      if confirmed && serverOk {
        medications := Filter(medications, KeyIsNot(MedicationId, id));
      }
    }
  }
}
