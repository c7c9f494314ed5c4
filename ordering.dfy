/** Orderings used by the application: the stable sort behind Mongo's
    `.sort(...)` and JavaScript's `Array.prototype.sort`, the code-point order on
    strings that `sort({ name: 1 })` uses, and the "latest reading" reduction. */
module Ordering {
  import opened Domain

  ghost predicate Total<T(!new)>(le: (T, T) -> bool) {
    forall a, b :: le(a, b) || le(b, a)
  }

  ghost predicate Transitive<T(!new)>(le: (T, T) -> bool) {
    forall a, b, c :: le(a, b) && le(b, c) ==> le(a, c)
  }

  /** What a comparator must be for sorting by it to make sense. */
  ghost predicate TotalPreorder<T(!new)>(le: (T, T) -> bool) {
    Total(le) && Transitive(le)
  }

  predicate SortedBy<T>(s: seq<T>, le: (T, T) -> bool) {
    forall i, j :: 0 <= i < j < |s| ==> le(s[i], s[j])
  }

  /** Puts `x` into `s` after every trailing element that is not above it, so
      that among equal elements the older ones stay first. */
  function InsertBy<T>(s: seq<T>, x: T, le: (T, T) -> bool): (r: seq<T>)
    ensures multiset(r) == multiset(s) + multiset{x}
  {
    if s == [] then [x]
    else if le(s[|s| - 1], x) then s + [x]
    else
      assert s == s[..|s| - 1] + [s[|s| - 1]];
      InsertBy(s[..|s| - 1], x, le) + [s[|s| - 1]]
  }

  /** Insertion sort, a stable sort. The browser's `Array.prototype.sort` is
      stable; Mongo leaves the order of ties unspecified, and the contracts of
      the handlers that use it (sorted, and a permutation of the matches) hold
      whatever that order is. */
  function SortBy<T>(s: seq<T>, le: (T, T) -> bool): (r: seq<T>)
    ensures multiset(r) == multiset(s)
  {
    if s == [] then []
    else
      assert s == s[..|s| - 1] + [s[|s| - 1]];
      InsertBy(SortBy(s[..|s| - 1], le), s[|s| - 1], le)
  }

  lemma {:induction false} InsertBySorted<T(!new)>(s: seq<T>, x: T, le: (T, T) -> bool)
    requires TotalPreorder(le)
    requires SortedBy(s, le)
    ensures SortedBy(InsertBy(s, x, le), le)
  {
    if s == [] {
    } else if le(s[|s| - 1], x) {
      var r := s + [x];
      forall i, j | 0 <= i < j < |r| ensures le(r[i], r[j]) {
        if j == |s| && i < |s| - 1 {
          assert le(s[i], s[|s| - 1]);
        }
      }
    } else {
      var last := s[|s| - 1];
      var front := s[..|s| - 1];
      assert le(x, last);
      InsertBySorted(front, x, le);
      var r' := InsertBy(front, x, le);
      forall i | 0 <= i < |r'| ensures le(r'[i], last) {
        assert r'[i] in multiset(r');
        if r'[i] != x {
          assert r'[i] in multiset(front);
          var k :| 0 <= k < |front| && front[k] == r'[i];
          assert le(s[k], s[|s| - 1]);
        }
      }
    }
  }

  lemma {:induction false} SortBySorted<T(!new)>(s: seq<T>, le: (T, T) -> bool)
    requires TotalPreorder(le)
    ensures SortedBy(SortBy(s, le), le)
  {
    if s != [] {
      SortBySorted(s[..|s| - 1], le);
      InsertBySorted(SortBy(s[..|s| - 1], le), s[|s| - 1], le);
    }
  }

  /** Mongo's default string order: by character code, a proper prefix first. */
  predicate LexLe(a: string, b: string) {
    if a == [] then true
    else if b == [] then false
    else if a[0] != b[0] then a[0] < b[0]
    else LexLe(a[1..], b[1..])
  }

  lemma {:induction false} LexLeTotal(a: string, b: string)
    ensures LexLe(a, b) || LexLe(b, a)
  {
    if a != [] && b != [] && a[0] == b[0] {
      LexLeTotal(a[1..], b[1..]);
    }
  }

  lemma {:induction false} LexLeTransitive(a: string, b: string, c: string)
    requires LexLe(a, b) && LexLe(b, c)
    ensures LexLe(a, c)
  {
    if a != [] && b != [] && c != [] && a[0] == b[0] && b[0] == c[0] {
      LexLeTransitive(a[1..], b[1..], c[1..]);
    }
  }

  /** Readings oldest first and newest first, and medications by name. */
  function ByTimestampAsc(): (Reading, Reading) -> bool {
    (a: Reading, b: Reading) => a.timestamp <= b.timestamp
  }

  function ByTimestampDesc(): (Reading, Reading) -> bool {
    (a: Reading, b: Reading) => a.timestamp >= b.timestamp
  }

  function ByName(): (Medication, Medication) -> bool {
    (a: Medication, b: Medication) => LexLe(a.name, b.name)
  }

  lemma ReadingOrdersArePreorders()
    ensures TotalPreorder(ByTimestampAsc()) && TotalPreorder(ByTimestampDesc())
  {
  }

  lemma ByNameIsPreorder()
    ensures TotalPreorder(ByName())
  {
    forall a: Medication, b: Medication ensures ByName()(a, b) || ByName()(b, a) {
      LexLeTotal(a.name, b.name);
    }
    forall a: Medication, b: Medication, c: Medication
      | ByName()(a, b) && ByName()(b, c)
      ensures ByName()(a, c)
    {
      LexLeTransitive(a.name, b.name, c.name);
    }
  }

  /** Index of the element `rs.reduce((latest, cur) => cur.timestamp >
      latest.timestamp ? cur : latest)` picks: the first one with the largest
      timestamp. */
  function LatestIndex(rs: seq<Reading>): (k: nat)
    requires |rs| > 0
    ensures k < |rs|
    ensures forall j :: 0 <= j < |rs| ==> rs[j].timestamp <= rs[k].timestamp
    ensures forall j :: 0 <= j < k ==> rs[j].timestamp < rs[k].timestamp
  {
    if |rs| == 1 then 0
    else
      var k := LatestIndex(rs[..|rs| - 1]);
      if rs[|rs| - 1].timestamp > rs[k].timestamp then |rs| - 1 else k
  }
}
