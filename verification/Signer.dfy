/** The string that a webhook signature is computed over (go/internal/webhook/signer.go). Strings
    are byte sequences; the HMAC and base64 steps after it are not modelled. */
module Signer {

  import opened Collections

  type Str = seq<bv8>

  /** url.Values: every key with the values submitted for it, in submission order. */
  type Values = map<Str, seq<Str>>

  /** Byte order, the order of sort.Strings. */
  predicate Less(a: Str, b: Str) {
    if b == [] then false
    else if a == [] then true
    else if a[0] != b[0] then a[0] < b[0]
    else Less(a[1..], b[1..])
  }

  /** Byte order in so many words: at the first difference the smaller byte, or a proper prefix. */
  ghost predicate ComesBefore(a: Str, b: Str) {
    || (exists p: Str, x: bv8, u: Str, y: bv8, v: Str :: Differ(a, b, p, x, u, y, v) && x < y)
    || (exists v: Str :: v != [] && b == a + v)
  }

  predicate Differ(a: Str, b: Str, p: Str, x: bv8, u: Str, y: bv8, v: Str) {
    a == p + [x] + u && b == p + [y] + v && x != y
  }

  lemma {:induction false} LessAtDifference(p: Str, x: bv8, u: Str, y: bv8, v: Str)
    requires x != y
    ensures Less(p + [x] + u, p + [y] + v) <==> x < y
  {
    if p == [] {
      assert (p + [x] + u)[0] == x && (p + [y] + v)[0] == y;
    } else {
      assert (p + [x] + u)[1..] == p[1..] + [x] + u && (p + [y] + v)[1..] == p[1..] + [y] + v;
      LessAtDifference(p[1..], x, u, y, v);
    }
  }

  lemma {:induction false} LessThanLonger(p: Str, v: Str)
    ensures Less(p, p + v) <==> v != []
  {
    if p == [] {
      assert p + v == v;
    } else {
      assert (p + v)[1..] == p[1..] + v;
      LessThanLonger(p[1..], v);
    }
  }

  lemma DifferLater(a: Str, b: Str, p: Str, x: bv8, u: Str, y: bv8, v: Str)
    requires a != [] && b != [] && a[0] == b[0] && Differ(a[1..], b[1..], p, x, u, y, v)
    ensures Differ(a, b, [a[0]] + p, x, u, y, v)
  {
    assert a == [a[0]] + a[1..] && b == [a[0]] + b[1..];
  }

  lemma LongerLater(a: Str, b: Str, v: Str)
    requires a != [] && b != [] && a[0] == b[0] && b[1..] == a[1..] + v
    ensures b == a + v
  {
    assert a == [a[0]] + a[1..] && b == [a[0]] + b[1..];
  }

  lemma {:induction false} LessFindsDifference(a: Str, b: Str)
    requires Less(a, b)
    ensures ComesBefore(a, b)
  {
    if a == [] {
      assert b == a + b;
    } else if a[0] != b[0] {
      assert Differ(a, b, [], a[0], a[1..], b[0], b[1..]);
    } else {
      LessFindsDifference(a[1..], b[1..]);
      if p: Str, x: bv8, u: Str, y: bv8, v: Str :| Differ(a[1..], b[1..], p, x, u, y, v) && x < y {
        DifferLater(a, b, p, x, u, y, v);
      } else {
        var v :| v != [] && b[1..] == a[1..] + v;
        LongerLater(a, b, v);
      }
    }
  }

  /** The comparison of sort.Strings is the byte order. */
  lemma LessIsByteOrder(a: Str, b: Str)
    ensures Less(a, b) <==> ComesBefore(a, b)
  {
    if Less(a, b) {
      LessFindsDifference(a, b);
    }
    if p: Str, x: bv8, u: Str, y: bv8, v: Str :| Differ(a, b, p, x, u, y, v) && x < y {
      LessAtDifference(p, x, u, y, v);
    } else if v: Str :| v != [] && b == a + v {
      LessThanLonger(a, v);
    }
  }

  lemma {:induction false} LessIsStrict(a: Str, b: Str)
    ensures !(Less(a, b) && Less(b, a))
    ensures a == b || Less(a, b) || Less(b, a)
    ensures a == b ==> !Less(a, b)
  {
    if a != [] && b != [] {
      assert a == [a[0]] + a[1..] && b == [b[0]] + b[1..];
      LessIsStrict(a[1..], b[1..]);
    }
  }

  lemma {:induction false} LessIsTransitive(a: Str, b: Str, c: Str)
    requires Less(a, b) && Less(b, c)
    ensures Less(a, c)
  {
    if a != [] && a[0] == b[0] && b[0] == c[0] {
      LessIsTransitive(a[1..], b[1..], c[1..]);
    }
  }

  ghost predicate StrictlySorted(s: seq<Str>) {
    forall i, j :: 0 <= i < j < |s| ==> Less(s[i], s[j])
  }

  ghost predicate Lists(s: seq<Str>, elements: set<Str>) {
    forall x :: x in s <==> x in elements
  }

  lemma EmptyListing(s: seq<Str>, elements: set<Str>)
    requires Lists(s, elements)
    ensures s == [] <==> elements == {}
  {
    if s != [] {
      assert s[0] in elements;
    }
  }

  /** A set has one strictly sorted listing. */
  lemma {:induction false} SortedListingIsUnique(a: seq<Str>, b: seq<Str>, elements: set<Str>)
    requires StrictlySorted(a) && StrictlySorted(b) && Lists(a, elements) && Lists(b, elements)
    ensures a == b
    decreases |a|
  {
    if a == [] || b == [] {
      EmptyListing(a, elements);
      EmptyListing(b, elements);
    } else {
      assert a[0] in elements && a[0] in b;
      assert b[0] in elements && b[0] in a;
      var i :| 0 <= i < |a| && a[i] == b[0];
      var j :| 0 <= j < |b| && b[j] == a[0];
      LessIsStrict(a[0], b[0]);
      assert a[0] == b[0];
      TailLists(a, elements);
      TailLists(b, elements);
      SortedListingIsUnique(a[1..], b[1..], elements - {a[0]});
    }
  }

  lemma TailLists(a: seq<Str>, elements: set<Str>)
    requires a != [] && StrictlySorted(a) && Lists(a, elements)
    ensures StrictlySorted(a[1..]) && Lists(a[1..], elements - {a[0]})
  {
    forall x
      ensures x in a[1..] <==> x in elements - {a[0]}
    {
      LessIsStrict(x, x);
      if x in a && x != a[0] {
        var i :| 0 <= i < |a| && a[i] == x;
        assert a[1..][i - 1] == x;
      }
    }
  }

  // ---------------------------------------------------------------------------------------------
  // The canonical form

  lemma {:induction false} ListingExists(elements: set<Str>) returns (s: seq<Str>)
    ensures StrictlySorted(s) && Lists(s, elements)
    decreases elements
  {
    if elements == {} {
      s := [];
    } else {
      var x :| x in elements;
      var rest := ListingExists(elements - {x});
      InsertSorts(x, rest);
      s := Insert(x, rest);
    }
  }

  /** The strictly sorted listing of a set. */
  ghost function SortedSet(elements: set<Str>): (s: seq<Str>)
    ensures StrictlySorted(s) && Lists(s, elements)
  {
    assert exists s :: StrictlySorted(s) && Lists(s, elements) by {
      var s := ListingExists(elements);
    }
    var s :| StrictlySorted(s) && Lists(s, elements);
    s
  }

  function ValueSet(vs: seq<Str>): set<Str> {
    set v | v in vs
  }

  /** A parameter map without order and repetition. Keys without values do not show. */
  function Canonical(params: Values): map<Str, set<Str>> {
    map k | k in params && params[k] != [] :: ValueSet(params[k])
  }

  function JoinPairs(k: Str, values: seq<Str>): Str {
    if values == [] then [] else JoinPairs(k, values[..|values| - 1]) + k + values[|values| - 1]
  }

  /** Key and value, without delimiter, for every key in order and every value of it in order. */
  ghost function JoinCanonical(c: map<Str, set<Str>>, keys: seq<Str>): Str {
    if keys == [] then []
    else
      var k := keys[|keys| - 1];
      JoinCanonical(c, keys[..|keys| - 1]) + (if k in c then JoinPairs(k, SortedSet(c[k])) else [])
  }

  /** The base string of a canonical map: the URL, then sorted keys with their sorted values. */
  ghost function BaseString(url: Str, c: map<Str, set<Str>>): Str {
    url + JoinCanonical(c, SortedSet(c.Keys))
  }

  // ---------------------------------------------------------------------------------------------
  // Sign

  /** What sort.Strings does to one more string in front of a sorted list. */
  function Insert(x: Str, s: seq<Str>): (r: seq<Str>)
    ensures |r| == |s| + 1
  {
    if s == [] || !Less(s[0], x) then [x] + s else [s[0]] + Insert(x, s[1..])
  }

  function SortStrings(s: seq<Str>): (r: seq<Str>)
    ensures |r| == |s|
  {
    if s == [] then [] else Insert(s[0], SortStrings(s[1..]))
  }

  lemma {:induction false} InsertSorts(x: Str, s: seq<Str>)
    requires StrictlySorted(s) && x !in s
    ensures StrictlySorted(Insert(x, s)) && forall y :: y in Insert(x, s) <==> y == x || y in s
  {
    if s != [] {
      LessIsStrict(x, s[0]);
      if Less(s[0], x) {
        assert s == [s[0]] + s[1..];
        InsertSorts(x, s[1..]);
        var r := Insert(x, s[1..]);
        forall i | 0 <= i < |r|
          ensures Less(s[0], r[i])
        {
          assert r[i] in r;
        }
      } else {
        forall j | 0 < j < |s|
          ensures Less(x, s[j])
        {
          LessIsTransitive(x, s[0], s[j]);
        }
      }
    }
  }

  lemma {:induction false} SortStringsSorts(s: seq<Str>)
    requires Distinct(s)
    ensures StrictlySorted(SortStrings(s)) && forall y :: y in SortStrings(s) <==> y in s
  {
    if s != [] {
      assert s == [s[0]] + s[1..];
      SortStringsSorts(s[1..]);
      InsertSorts(s[0], SortStrings(s[1..]));
    }
  }

  /** The values of one key, each once, in byte order. */
  method SortedUnique(values: seq<Str>) returns (sorted: seq<Str>)
    ensures sorted == SortedSet(ValueSet(values))
  {
    var seen: set<Str> := {};
    var unique: seq<Str> := [];
    for i := 0 to |values|
      invariant seen == ValueSet(values[..i]) && Lists(unique, seen) && Distinct(unique)
    {
      var v := values[i];
      assert values[..i + 1] == values[..i] + [v];
      if v !in seen {
        seen := seen + {v};
        unique := unique + [v];
      }
    }
    assert values[..|values|] == values;
    SortStringsSorts(unique);
    sorted := SortStrings(unique);
    SortedListingIsUnique(sorted, SortedSet(ValueSet(values)), ValueSet(values));
  }

  /** The key-and-value part for sorted keys, as the program builds it up. */
  ghost function JoinAll(params: Values, keys: seq<Str>): Str
    requires forall k :: k in keys ==> k in params
  {
    if keys == [] then []
    else
      var k := keys[|keys| - 1];
      assert k in keys;
      JoinAll(params, keys[..|keys| - 1]) + JoinPairs(k, SortedSet(ValueSet(params[k])))
  }

  /** The inner loop of Sign. */
  method AppendPairs(base: Str, k: Str, values: seq<Str>) returns (s: Str)
    ensures s == base + JoinPairs(k, values)
  {
    s := base;
    for j := 0 to |values|
      invariant s == base + JoinPairs(k, values[..j])
    {
      assert values[..j + 1][..j] == values[..j];
      s := s + k + values[j];
    }
    assert values[..|values|] == values;
  }

  /** The outer loop of Sign, over the sorted keys. */
  method AppendKeys(url: Str, params: Values, keys: seq<Str>) returns (s: Str)
    requires forall k :: k in keys ==> k in params
    ensures s == url + JoinAll(params, keys)
  {
    s := url;
    for i := 0 to |keys|
      invariant s == url + JoinAll(params, keys[..i])
    {
      JoinAllSnoc(params, keys, i);
      var unique := SortedUnique(params[keys[i]]);
      s := AppendPairs(s, keys[i], unique);
    }
    assert keys[..|keys|] == keys;
  }

  lemma JoinAllSnoc(params: Values, keys: seq<Str>, i: nat)
    requires i < |keys| && forall k :: k in keys ==> k in params
    ensures JoinAll(params, keys[..i + 1])
         == JoinAll(params, keys[..i]) + JoinPairs(keys[i], SortedSet(ValueSet(params[keys[i]])))
  {
    assert keys[..i + 1][..i] == keys[..i];
  }

  /** Sign, up to the string it feeds to the HMAC. `order` is the order in which ranging over the map
      happens to deliver the keys. */
  method SignBase(url: Str, params: Values, order: seq<Str>) returns (s: Str)
    requires Distinct(order) && Lists(order, params.Keys)
    ensures s == BaseString(url, Canonical(params))
  {
    SortStringsSorts(order);
    var keys := SortStrings(order);
    s := AppendKeys(url, params, keys);
    KeysWithoutValuesVanish(params, keys);
  }

  function WithValues(params: Values, keys: seq<Str>): seq<Str>
    requires forall k :: k in keys ==> k in params
  {
    if keys == [] then []
    else
      var k := keys[|keys| - 1];
      assert k in keys;
      WithValues(params, keys[..|keys| - 1]) + (if params[k] == [] then [] else [k])
  }

  lemma {:induction false} WithValuesMembers(params: Values, keys: seq<Str>)
    requires forall k :: k in keys ==> k in params
    ensures forall k :: k in WithValues(params, keys) <==> k in keys && params[k] != []
  {
    if keys != [] {
      var n := |keys| - 1;
      assert keys == keys[..n] + [keys[n]];
      WithValuesMembers(params, keys[..n]);
    }
  }

  lemma {:induction false} WithValuesSorted(params: Values, keys: seq<Str>)
    requires forall k :: k in keys ==> k in params
    requires StrictlySorted(keys)
    ensures StrictlySorted(WithValues(params, keys))
  {
    if keys != [] {
      var n := |keys| - 1;
      var front, k := keys[..n], keys[n];
      assert keys == front + [k];
      WithValuesSorted(params, front);
      WithValuesMembers(params, front);
      var w := WithValues(params, front);
      forall i | 0 <= i < |w|
        ensures Less(w[i], k)
      {
        assert w[i] in w;
      }
    }
  }

  lemma {:induction false} JoinSkipsEmptyKeys(params: Values, keys: seq<Str>)
    requires forall k :: k in keys ==> k in params
    ensures JoinAll(params, keys) == JoinCanonical(Canonical(params), WithValues(params, keys))
  {
    if keys != [] {
      var n := |keys| - 1;
      var front, k := keys[..n], keys[n];
      assert k in keys;
      JoinSkipsEmptyKeys(params, front);
      var w := WithValues(params, front);
      assert (w + [k])[..|w|] == w && w + [] == w;
      if params[k] == [] {
        EmptyListing(SortedSet(ValueSet(params[k])), ValueSet(params[k]));
      } else {
        assert Canonical(params)[k] == ValueSet(params[k]);
      }
    }
  }

  lemma {:induction false} KeysWithoutValuesVanish(params: Values, keys: seq<Str>)
    requires StrictlySorted(keys) && Lists(keys, params.Keys)
    ensures JoinAll(params, keys) == JoinCanonical(Canonical(params), SortedSet(Canonical(params).Keys))
  {
    JoinSkipsEmptyKeys(params, keys);
    WithValuesMembers(params, keys);
    WithValuesSorted(params, keys);
    SortedListingIsUnique(WithValues(params, keys), SortedSet(Canonical(params).Keys), Canonical(params).Keys);
  }

  // ---------------------------------------------------------------------------------------------
  // Main results

  lemma {:induction false} PairsFromTheFront(k: Str, v: Str, vs: seq<Str>)
    ensures JoinPairs(k, [v] + vs) == k + v + JoinPairs(k, vs)
  {
    if vs == [] {
      assert ([v] + vs)[..0] == [] && [v] + vs == [v];
      assert JoinPairs(k, []) == [];
    } else {
      var n := |vs| - 1;
      assert ([v] + vs)[..n + 1] == [v] + vs[..n];
      PairsFromTheFront(k, v, vs[..n]);
    }
  }

  /** The pieces of the base string: every key with each of its values, both in the given order. */
  ghost function Pieces(c: map<Str, set<Str>>, keys: seq<Str>): Str
    requires forall k :: k in keys ==> k in c
  {
    if keys == [] then [] else JoinPairs(keys[0], SortedSet(c[keys[0]])) + Pieces(c, keys[1..])
  }

  lemma {:induction false} PiecesSnoc(c: map<Str, set<Str>>, keys: seq<Str>, k: Str)
    requires k in c && forall x :: x in keys ==> x in c
    ensures Pieces(c, keys + [k]) == Pieces(c, keys) + JoinPairs(k, SortedSet(c[k]))
  {
    if keys == [] {
      assert (keys + [k])[1..] == [] && Pieces(c, []) == [];
    } else {
      assert (keys + [k])[1..] == keys[1..] + [k];
      PiecesSnoc(c, keys[1..], k);
    }
  }

  lemma {:induction false} JoinIsPieces(c: map<Str, set<Str>>, keys: seq<Str>)
    requires forall k :: k in keys ==> k in c
    ensures JoinCanonical(c, keys) == Pieces(c, keys)
  {
    if keys != [] {
      var n := |keys| - 1;
      assert keys == keys[..n] + [keys[n]];
      JoinIsPieces(c, keys[..n]);
      PiecesSnoc(c, keys[..n], keys[n]);
    }
  }

  /** A list in byte order that names the values is their listing. */
  lemma ListingOf(s: seq<Str>, elements: set<Str>)
    requires Lists(s, elements) && forall i, j :: 0 <= i < j < |s| ==> ComesBefore(s[i], s[j])
    ensures SortedSet(elements) == s
  {
    forall i, j | 0 <= i < j < |s|
      ensures Less(s[i], s[j])
    {
      LessIsByteOrder(s[i], s[j]);
    }
    SortedListingIsUnique(s, SortedSet(elements), elements);
  }

  lemma OneValue(k: Str, v: Str)
    ensures JoinPairs(k, SortedSet({v})) == k + v
  {
    ListingOf([v], {v});
    PairsFromTheFront(k, v, []);
    assert [v] + [] == [v] && JoinPairs(k, []) == [];
  }

  /** Two keys with one value each: the key that comes first in byte order is joined first, whatever the
      order of the map. */
  method SignTwoKeys(url: Str, k: Str, v: Str, l: Str, w: Str, swapped: bool) returns (s: Str)
    requires ComesBefore(k, l)
    ensures s == url + k + v + l + w
  {
    LessIsByteOrder(k, l);
    LessIsStrict(k, l);
    var params := map[k := [v], l := [w]];
    var order := if swapped then [l, k] else [k, l];
    s := SignBase(url, params, order);
    TwoKeysJoined(url, k, v, l, w);
  }

  lemma TwoKeysJoined(url: Str, k: Str, v: Str, l: Str, w: Str)
    requires ComesBefore(k, l) && k != l
    ensures BaseString(url, Canonical(map[k := [v], l := [w]])) == url + k + v + l + w
  {
    var c := map[k := {v}, l := {w}];
    TwoKeysCanonical(k, v, l, w);
    ListingOf([k, l], c.Keys);
    JoinIsPieces(c, [k, l]);
    OneValue(k, v);
    OneValue(l, w);
    assert [k, l][1..] == [l] && [l][1..] == [] && Pieces(c, []) == [];
  }

  /** One key with two values, submitted in either order and repeated: each value once, in byte order. */
  method SignTwoValues(url: Str, k: Str, v: Str, w: Str) returns (s: Str)
    requires ComesBefore(v, w)
    ensures s == url + k + v + k + w
  {
    var params := map[k := [w, v, w]];
    s := SignBase(url, params, [k]);
    TwoValuesJoined(url, k, v, w);
  }

  lemma TwoValuesCanonical(k: Str, v: Str, w: Str)
    ensures Canonical(map[k := [w, v, w]]) == map[k := {v, w}]
  {
    assert ValueSet([w, v, w]) == {v, w};
  }

  lemma TwoKeysCanonical(k: Str, v: Str, l: Str, w: Str)
    requires k != l
    ensures Canonical(map[k := [v], l := [w]]) == map[k := {v}, l := {w}]
  {
    assert ValueSet([v]) == {v} && ValueSet([w]) == {w};
  }

  lemma TwoValuesJoined(url: Str, k: Str, v: Str, w: Str)
    requires ComesBefore(v, w)
    ensures BaseString(url, Canonical(map[k := [w, v, w]])) == url + k + v + k + w
  {
    var c := map[k := {v, w}];
    TwoValuesCanonical(k, v, w);
    ListingOf([k], c.Keys);
    ListingOf([v, w], {v, w});
    JoinIsPieces(c, [k]);
    PairsFromTheFront(k, v, [w]);
    PairsFromTheFront(k, w, []);
    assert [v] + [w] == [v, w] && [w] + [] == [w] && JoinPairs(k, []) == [];
    assert [k][1..] == [] && Pieces(c, []) == [];
  }

  /** Two submissions sign alike whenever they give the same keys the same sets of values: the order
      of map iteration, the order of submission and repetitions do not matter. */
  method SameCanonicalSameBase(url: Str, p: Values, q: Values, pOrder: seq<Str>, qOrder: seq<Str>)
    returns (s: Str, t: Str)
    requires Distinct(pOrder) && Lists(pOrder, p.Keys) && Distinct(qOrder) && Lists(qOrder, q.Keys)
    ensures Canonical(p) == Canonical(q) ==> s == t
  {
    s := SignBase(url, p, pOrder);
    t := SignBase(url, q, qOrder);
  }

  /** Reordering and repeating the values of a key leaves the canonical map alone. */
  lemma ResubmissionIsCanonical(p: Values, q: Values)
    requires p.Keys == q.Keys && forall k :: k in p ==> ValueSet(p[k]) == ValueSet(q[k])
    ensures Canonical(p) == Canonical(q)
  {
    forall k | k in p
      ensures p[k] == [] <==> q[k] == []
    {
      assert p[k] == [] <==> ValueSet(p[k]) == {} by {
        if p[k] != [] {
          assert p[k][0] in ValueSet(p[k]);
        }
      }
      assert q[k] == [] <==> ValueSet(q[k]) == {} by {
        if q[k] != [] {
          assert q[k][0] in ValueSet(q[k]);
        }
      }
    }
  }
}
