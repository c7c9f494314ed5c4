/** Sequence operations behind the collections of the application: the
    `filter` of JavaScript, Mongo's "first document matching a query", and
    removal at a position. */
module Tables {
  import opened Common

  /** `s.filter(p)`: keeps the elements satisfying `p`, each as often as it
      occurs, in their original order. */
  function Filter<T>(s: seq<T>, p: T -> bool): (r: seq<T>)
    ensures |r| <= |s|
  {
    if s == [] then [] else (if p(s[0]) then [s[0]] else []) + Filter(s[1..], p)
  }

  /** The filter keeps every occurrence of a kept element and nothing else. */
  lemma {:induction false} FilterCount<T>(s: seq<T>, p: T -> bool, x: T)
    ensures multiset(Filter(s, p))[x] == if p(x) then multiset(s)[x] else 0
  {
    if s != [] {
      assert s == [s[0]] + s[1..];
      FilterCount(s[1..], p, x);
    }
  }

  lemma FilterMember<T>(s: seq<T>, p: T -> bool, x: T)
    ensures x in Filter(s, p) <==> x in s && p(x)
  {
    FilterCount(s, p, x);
    assert x in Filter(s, p) <==> x in multiset(Filter(s, p));
    assert x in s <==> x in multiset(s);
  }

  /** Filtering a concatenation filters each part: the kept elements keep their
      relative order. */
  lemma {:induction false} FilterConcat<T>(a: seq<T>, b: seq<T>, p: T -> bool)
    ensures Filter(a + b, p) == Filter(a, p) + Filter(b, p)
  {
    if a == [] {
      assert a + b == b;
    } else {
      var head := if p(a[0]) then [a[0]] else [];
      assert (a + b)[0] == a[0];
      assert (a + b)[1..] == a[1..] + b;
      FilterConcat(a[1..], b, p);
      assert Filter(a + b, p) == head + Filter(a[1..] + b, p);
      assert Filter(a, p) == head + Filter(a[1..], p);
      var fa, fb := Filter(a[1..], p), Filter(b, p);
      assert head + (fa + fb) == (head + fa) + fb;
    }
  }

  /** Position of the first element satisfying `p`, if any. */
  function FindFirst<T>(s: seq<T>, p: T -> bool): (r: Option<nat>)
    ensures r.Some? ==> r.value < |s| && p(s[r.value])
    ensures r.Some? ==> forall j :: 0 <= j < r.value ==> !p(s[j])
    ensures r.None? <==> forall j :: 0 <= j < |s| ==> !p(s[j])
  {
    if s == [] then None
    else if p(s[0]) then Some(0)
    else match FindFirst(s[1..], p)
      case None => None
      case Some(k) => Some(k + 1)
  }

  /** `s.filter((_, j) => j !== i)`: drops the element at position `i`; an
      index outside the sequence drops nothing. */
  function RemoveAt<T>(s: seq<T>, i: nat): (r: seq<T>)
    ensures i < |s| ==> |r| == |s| - 1
    ensures i < |s| ==> forall k :: 0 <= k < i ==> r[k] == s[k]
    ensures i < |s| ==> forall k :: i <= k < |r| ==> r[k] == s[k + 1]
    ensures i >= |s| ==> r == s
  {
    if i < |s| then s[..i] + s[i + 1..] else s
  }

  /** Every element of `s` differs from every other one under `key`. */
  predicate KeysDistinct<T, K(==)>(s: seq<T>, key: T -> K) {
    forall i, j :: 0 <= i < |s| && 0 <= j < |s| && i != j ==> key(s[i]) != key(s[j])
  }

  /** The Mongo query `{ _id: id, userId: owner }`. */
  function Matching<T, K(==)>(key: T -> K, ownerOf: T -> K, id: K, owner: K): T -> bool {
    (x: T) => key(x) == id && ownerOf(x) == owner
  }

  function NotMatching<T, K(==)>(key: T -> K, ownerOf: T -> K, id: K, owner: K): T -> bool {
    (x: T) => !(key(x) == id && ownerOf(x) == owner)
  }

  /** Filtering with a predicate every element satisfies changes nothing. */
  lemma {:induction false} FilterAll<T>(s: seq<T>, p: T -> bool)
    requires forall i :: 0 <= i < |s| ==> p(s[i])
    ensures Filter(s, p) == s
  {
    if s != [] {
      FilterAll(s[1..], p);
    }
  }

  /** Under distinct keys every element but the match survives the filter. */
  lemma OthersKept<T, K>(s: seq<T>, k: nat, key: T -> K, ownerOf: T -> K, id: K, owner: K)
    requires KeysDistinct(s, key)
    requires k < |s| && Matching(key, ownerOf, id, owner)(s[k])
    ensures Filter(s[..k], NotMatching(key, ownerOf, id, owner)) == s[..k]
    ensures Filter(s[k + 1..], NotMatching(key, ownerOf, id, owner)) == s[k + 1..]
  {
    var keep := NotMatching(key, ownerOf, id, owner);
    var front, back := s[..k], s[k + 1..];
    forall i | 0 <= i < |front| ensures keep(front[i]) {
      assert front[i] == s[i] && key(s[i]) != key(s[k]);
    }
    forall i | 0 <= i < |back| ensures keep(back[i]) {
      assert back[i] == s[k + 1 + i] && key(s[k + 1 + i]) != key(s[k]);
    }
    FilterAll(front, keep);
    FilterAll(back, keep);
  }

  lemma RemoveAtKeepsDistinct<T, K>(s: seq<T>, k: nat, key: T -> K)
    requires KeysDistinct(s, key) && k < |s|
    ensures KeysDistinct(RemoveAt(s, k), key)
  {
    var r := RemoveAt(s, k);
    forall i, j | 0 <= i < |r| && 0 <= j < |r| && i != j ensures key(r[i]) != key(r[j]) {
      var i' := if i < k then i else i + 1;
      var j' := if j < k then j else j + 1;
      assert r[i] == s[i'] && r[j] == s[j'];
    }
  }

  /** Filtering out one element that fails `p`, when the elements around it
      all pass, is removing it at its position. */
  lemma {:induction false} FilterDropsOne<T>(s: seq<T>, k: nat, p: T -> bool)
    requires k < |s| && !p(s[k])
    requires Filter(s[..k], p) == s[..k] && Filter(s[k + 1..], p) == s[k + 1..]
    ensures Filter(s, p) == RemoveAt(s, k)
  {
    var front, back := s[..k], s[k + 1..];
    var rest := s[k..];
    assert s == front + rest;
    FilterConcat(front, rest, p);
    assert rest[0] == s[k] && rest[1..] == back;
    assert Filter(rest, p) == Filter(back, p);
  }

  /** With distinct keys, `findOneAndDelete` of the one match is the same as
      filtering out every match, and keys stay distinct. */
  lemma RemoveMatch<T, K>(s: seq<T>, k: nat, key: T -> K, ownerOf: T -> K, id: K, owner: K)
    requires KeysDistinct(s, key)
    requires k < |s| && Matching(key, ownerOf, id, owner)(s[k])
    ensures RemoveAt(s, k) == Filter(s, NotMatching(key, ownerOf, id, owner))
    ensures KeysDistinct(RemoveAt(s, k), key)
  {
    OthersKept(s, k, key, ownerOf, id, owner);
    FilterDropsOne(s, k, NotMatching(key, ownerOf, id, owner));
    RemoveAtKeepsDistinct(s, k, key);
  }

  /** Appending an element whose key is the next one from a counter keeps the
      keys distinct and below the advanced counter. */
  lemma AppendFreshKeepsDistinct<T>(s: seq<T>, x: T, key: T -> nat, next: nat)
    requires KeysDistinct(s, key) && forall i :: 0 <= i < |s| ==> key(s[i]) < next
    requires key(x) == next
    ensures KeysDistinct(s + [x], key)
    ensures forall i :: 0 <= i < |s + [x]| ==> key((s + [x])[i]) < next + 1
  {
    var r := s + [x];
    forall i, j | 0 <= i < |r| && 0 <= j < |r| && i != j ensures key(r[i]) != key(r[j]) {
      if i < |s| && j < |s| {
        assert r[i] == s[i] && r[j] == s[j];
      }
    }
  }
}
