/** Secret masking in the log stream (go/internal/observability/logging.go). */
module SecretMask {

  type Bytes = seq<bv8>

  const STAR: bv8 := '*' as int as bv8
  const MASK: Bytes := [STAR, STAR, STAR]

  /** Empty secrets are filtered out when the writer is made. */
  type Secret = s: Bytes | |s| > 0 witness [STAR]

  predicate OccursAt(u: Bytes, x: Bytes, i: nat) {
    i + |u| <= |x| && x[i..i + |u|] == u
  }

  ghost predicate Occurs(u: Bytes, x: Bytes) {
    exists i: nat :: OccursAt(u, x, i)
  }

  /** bytes.ReplaceAll with "***": leftmost occurrences first, without overlap. */
  function ReplaceAll(x: Bytes, s: Bytes): Bytes
    requires s != []
  {
    if |x| < |s| then x
    else if x[..|s|] == s then MASK + ReplaceAll(x[|s|..], s)
    else [x[0]] + ReplaceAll(x[1..], s)
  }

  /** One replacement pass per secret, in list order. */
  function MaskAll(x: Bytes, secrets: seq<Secret>): Bytes {
    if secrets == [] then x
    else
      var n := |secrets| - 1;
      ReplaceAll(MaskAll(x, secrets[..n]), secrets[n])
  }

  predicate MaskAt(u: Bytes, i: nat) {
    i + 3 <= |u| && u[i] == STAR && u[i + 1] == STAR && u[i + 2] == STAR
  }

  /** Neither the first nor the last byte is a star, and no three stars stand together. A secret
      without any star is of this kind. */
  ghost predicate StarTight(u: Bytes) {
    u != [] && u[0] != STAR && u[|u| - 1] != STAR &&
    forall i: nat :: !MaskAt(u, i)
  }

  lemma StarFreeIsTight(u: Bytes)
    requires u != [] && STAR !in u
    ensures StarTight(u)
  {
    assert forall i: nat :: i < |u| ==> u[i] in u;
  }

  // ---------------------------------------------------------------------------------------------
  // A pass never creates an occurrence of a star-tight secret

  lemma OccursInTail(u: Bytes, x: Bytes, k: nat)
    requires k <= |x| && Occurs(u, x[k..])
    ensures Occurs(u, x)
  {
    var i: nat :| OccursAt(u, x[k..], i);
    assert x[k..][i..i + |u|] == x[k + i..k + i + |u|];
    assert OccursAt(u, x, k + i);
  }

  /** The inside of a text without three stars together. */
  ghost predicate Bounded(v: Bytes) {
    (v != [] ==> v[|v| - 1] != STAR) && forall i: nat :: !MaskAt(v, i)
  }

  lemma BoundedTail(v: Bytes)
    requires Bounded(v) && v != []
    ensures Bounded(v[1..])
  {
    forall i: nat
      ensures !MaskAt(v[1..], i)
    {
      assert !MaskAt(v, i + 1);
    }
  }

  lemma MaskIsNotBounded(v: Bytes, r: Bytes)
    requires v != [] && v <= r && MaskAt(r, 0)
    ensures !Bounded(v)
  {
    if |v| >= 3 {
      assert MaskAt(v, 0);
    } else {
      assert v[|v| - 1] == r[|v| - 1];
    }
  }

  /** A prefix of the result that cannot touch an inserted mask was a prefix before. */
  lemma {:induction false} UntouchedPrefix(v: Bytes, y: Bytes, s: Bytes)
    requires s != [] && Bounded(v) && v <= ReplaceAll(y, s)
    ensures v <= y
    decreases |y|
  {
    if v != [] && |y| >= |s| {
      if y[..|s|] == s {
        MaskIsNotBounded(v, ReplaceAll(y, s));
      } else {
        var r := ReplaceAll(y[1..], s);
        assert v[1..] <= r;
        BoundedTail(v);
        UntouchedPrefix(v[1..], y[1..], s);
        assert v == [y[0]] + v[1..];
      }
    }
  }

  lemma AfterMask(u: Bytes, tail: Bytes, i: nat)
    requires StarTight(u) && OccursAt(u, MASK + tail, i)
    ensures i >= 3 && OccursAt(u, tail, i - 3)
  {
    var r := MASK + tail;
    assert u[0] == r[i];
    assert r[i..i + |u|] == tail[i - 3..i - 3 + |u|];
  }

  lemma AfterByte(u: Bytes, b: bv8, tail: Bytes, i: nat)
    requires u != [] && OccursAt(u, [b] + tail, i)
    ensures i > 0 ==> OccursAt(u, tail, i - 1)
    ensures i == 0 ==> u == [b] + u[1..] && u[1..] <= tail
  {
    var r := [b] + tail;
    if i > 0 {
      assert r[i..i + |u|] == tail[i - 1..i - 1 + |u|];
    } else {
      assert u == r[..|u|];
    }
  }

  lemma AtTheFront(u: Bytes, x: Bytes, s: Bytes)
    requires s != [] && x != [] && StarTight(u) && u == [x[0]] + u[1..] && u[1..] <= ReplaceAll(x[1..], s)
    ensures OccursAt(u, x, 0)
  {
    BoundedTail(u);
    UntouchedPrefix(u[1..], x[1..], s);
    assert x == [x[0]] + x[1..];
  }

  /** Whatever occurs after a pass occurred before it, and the replaced secret no longer occurs. */
  lemma {:induction false} PassCreatesNothing(u: Bytes, x: Bytes, s: Bytes, i: nat)
    requires s != [] && StarTight(u) && OccursAt(u, ReplaceAll(x, s), i)
    ensures Occurs(u, x) && u != s
    decreases |x|
  {
    if |x| < |s| {
      assert OccursAt(u, x, i);
    } else if x[..|s|] == s {
      AfterMask(u, ReplaceAll(x[|s|..], s), i);
      PassCreatesNothing(u, x[|s|..], s, i - 3);
      OccursInTail(u, x, |s|);
    } else {
      AfterByte(u, x[0], ReplaceAll(x[1..], s), i);
      if i > 0 {
        PassCreatesNothing(u, x[1..], s, i - 1);
        OccursInTail(u, x, 1);
      } else {
        AtTheFront(u, x, s);
      }
    }
  }

  /** No star-tight secret of the list occurs once its pass has run, and none comes back. */
  lemma {:induction false} NoSecretSurvives(x: Bytes, secrets: seq<Secret>, k: nat)
    requires k < |secrets| && StarTight(secrets[k])
    ensures !Occurs(secrets[k], MaskAll(x, secrets))
  {
    var n := |secrets| - 1;
    var before := MaskAll(x, secrets[..n]);
    if i: nat :| OccursAt(secrets[k], MaskAll(x, secrets), i) {
      PassCreatesNothing(secrets[k], before, secrets[n], i);
      NoSecretSurvives(x, secrets[..n], k);
      assert false;
    }
  }

  // ---------------------------------------------------------------------------------------------
  // Exactly which secrets are safe

  lemma NoCopyInTail(a: Bytes, s: Bytes, x: Bytes)
    requires a != [] && x != [] && forall i: nat :: i < |a| ==> !OccursAt(s, x, i)
    ensures forall i: nat :: i < |a[1..]| ==> !OccursAt(s, x[1..], i)
  {
    forall i: nat | i < |a[1..]|
      ensures !OccursAt(s, x[1..], i)
    {
      assert !OccursAt(s, x, i + 1);
      if i + |s| <= |x[1..]| {
        assert x[1..][i..i + |s|] == x[i + 1..i + 1 + |s|];
      }
    }
  }

  lemma HeadBack(a: Bytes, c: bv8, m: Bytes, b: Bytes)
    requires a != [] && c == a[0]
    ensures [c] + (a[1..] + m + b) == a + m + b
  {
  }

  /** A pass replaces the first copy, keeps what is before it, and goes on behind it. */
  lemma {:induction false} ReplaceFirst(a: Bytes, s: Bytes, b: Bytes)
    requires s != [] && forall i: nat :: i < |a| ==> !OccursAt(s, a + s + b, i)
    ensures ReplaceAll(a + s + b, s) == a + MASK + ReplaceAll(b, s)
    decreases |a|
  {
    var x := a + s + b;
    if a == [] {
      assert x[..|s|] == s && x[|s|..] == b;
    } else {
      assert !OccursAt(s, x, 0);
      assert x[1..] == a[1..] + s + b;
      NoCopyInTail(a, s, x);
      ReplaceFirst(a[1..], s, b);
      HeadBack(a, x[0], MASK, ReplaceAll(b, s));
    }
  }

  /** An input on which a secret that is not star-tight comes out again. */
  ghost function LeakingInput(s: Bytes): Bytes
    requires s != [] && !StarTight(s)
  {
    if s[0] == STAR then s + s[1..]
    else if s[|s| - 1] == STAR then s[..|s| - 1] + s
    else
      var i := FirstMask(s, 0);
      s[..i] + s + s[i + 3..]
  }

  ghost function FirstMask(s: Bytes, from: nat): (i: nat)
    requires exists j: nat :: from <= j && MaskAt(s, j)
    ensures from <= i && MaskAt(s, i) && forall j: nat :: from <= j < i ==> !MaskAt(s, j)
    decreases |s| - from
  {
    if MaskAt(s, from) then from else FirstMask(s, from + 1)
  }

  lemma LeaksAtFront(s: Bytes)
    requires s != [] && s[0] == STAR
    ensures OccursAt(s, ReplaceAll(s + s[1..], s), 2)
  {
    var b := s[1..];
    ReplaceFirst([], s, b);
    assert [] + s + b == s + b && ReplaceAll(b, s) == b;
    EndsWithSecret(s);
  }

  lemma EndsWithSecret(s: Bytes)
    requires s != [] && s[0] == STAR
    ensures OccursAt(s, [] + MASK + s[1..], 2)
  {
    var r := [] + MASK + s[1..];
    assert r[2..2 + |s|] == s;
  }

  lemma {:induction false} LeaksAtBack(s: Bytes)
    requires s != [] && s[0] != STAR && s[|s| - 1] == STAR
    ensures OccursAt(s, ReplaceAll(s[..|s| - 1] + s, s), 0)
  {
    var a := s[..|s| - 1];
    forall i: nat | i < |a|
      ensures !OccursAt(s, a + s + [], i)
    {
      NoCopyAcrossStar(s, i);
    }
    ReplaceFirst(a, s, []);
    assert a + s + [] == a + s;
    StartsWithSecret(s);
  }

  lemma StartsWithSecret(s: Bytes)
    requires s != [] && s[|s| - 1] == STAR
    ensures OccursAt(s, s[..|s| - 1] + MASK + [], 0)
  {
    var r := s[..|s| - 1] + MASK + [];
    assert r[0..|s|] == s;
  }

  /** What a copy of s at i makes of the text there. */
  lemma CopyReads(s: Bytes, x: Bytes, i: nat, k: nat)
    requires k < |s|
    ensures OccursAt(s, x, i) ==> i + k < |x| && x[i + k] == s[k]
  {
    if OccursAt(s, x, i) {
      assert x[i..i + |s|][k] == x[i + k];
    }
  }

  /** A copy of s starting inside s without its final star would start with a star. */
  lemma NoCopyAcrossStar(s: Bytes, i: nat)
    requires s != [] && s[0] != STAR && s[|s| - 1] == STAR && i < |s| - 1
    ensures !OccursAt(s, s[..|s| - 1] + s + [], i)
  {
    var x := s[..|s| - 1] + s + [];
    assert x[i] == s[i] && x[i + (|s| - 1)] == s[i];
    CopyReads(s, x, i, 0);
    CopyReads(s, x, i, |s| - 1);
  }

  lemma {:induction false} LeaksInside(s: Bytes, p: nat)
    requires s != [] && s[0] != STAR && MaskAt(s, p) && forall j: nat :: j < p ==> !MaskAt(s, j)
    ensures OccursAt(s, ReplaceAll(s[..p] + s + s[p + 3..], s), 0)
  {
    var a, b := s[..p], s[p + 3..];
    forall i: nat | i < |a|
      ensures !OccursAt(s, a + s + b, i)
    {
      NoEarlierCopy(s, p, i);
    }
    ReplaceFirst(a, s, b);
    MaskCompletes(s, p);
  }

  lemma MaskCompletes(s: Bytes, p: nat)
    requires MaskAt(s, p)
    ensures OccursAt(s, s[..p] + MASK + s[p + 3..], 0)
  {
    assert s == s[..p] + MASK + s[p + 3..];
  }

  /** In s[..p] + s + ... no copy of s starts before p when the first mask of s is at p: the mask of
      that copy would be an earlier one. */
  lemma NoEarlierCopy(s: Bytes, p: nat, i: nat)
    requires s != [] && MaskAt(s, p) && i < p && forall j: nat :: j < p ==> !MaskAt(s, j)
    ensures !OccursAt(s, s[..p] + s + s[p + 3..], i)
  {
    var x := s[..p] + s + s[p + 3..];
    assert x[p + i] == s[i] && x[p + i + 1] == s[i + 1] && x[p + i + 2] == s[i + 2];
    assert !MaskAt(s, i);
    CopyReads(s, x, i, p);
    CopyReads(s, x, i, p + 1);
    CopyReads(s, x, i, p + 2);
  }

  /** Every configuration that lists the secret keeps it out of every line. */
  ghost predicate AlwaysMasked(s: Secret) {
    forall secrets: seq<Secret>, x: Bytes :: s in secrets ==> !Occurs(s, MaskAll(x, secrets))
  }

  /** The secrets that are always masked are exactly the star-tight ones. */
  lemma SafeIffTight(s: Secret)
    ensures AlwaysMasked(s) <==> StarTight(s)
  {
    if StarTight(s) {
      forall secrets: seq<Secret>, x: Bytes | s in secrets
        ensures !Occurs(s, MaskAll(x, secrets))
      {
        var k :| 0 <= k < |secrets| && secrets[k] == s;
        NoSecretSurvives(x, secrets, k);
      }
    } else {
      LeakingInputLeaks(s);
      var secrets: seq<Secret> := [s];
      assert s in secrets && Occurs(s, MaskAll(LeakingInput(s), secrets));
    }
  }

  lemma LeakingInputLeaks(s: Secret)
    requires !StarTight(s)
    ensures Occurs(s, MaskAll(LeakingInput(s), [s]))
  {
    var x := LeakingInput(s);
    var secrets: seq<Secret> := [s];
    assert secrets[..0] == [];
    assert MaskAll(x, secrets) == ReplaceAll(x, s);
    if s[0] == STAR {
      LeaksAtFront(s);
    } else if s[|s| - 1] == STAR {
      LeaksAtBack(s);
    } else {
      LeaksInside(s, FirstMask(s, 0));
    }
  }

  // ---------------------------------------------------------------------------------------------
  // Text without secrets, and the order of the passes

  lemma {:induction false} NothingToReplace(x: Bytes, s: Bytes)
    requires s != [] && !Occurs(s, x)
    ensures ReplaceAll(x, s) == x
    decreases |x|
  {
    if |x| >= |s| {
      assert !OccursAt(s, x, 0);
      if Occurs(s, x[1..]) {
        OccursInTail(s, x, 1);
      }
      NothingToReplace(x[1..], s);
    }
  }

  /** The pieces of a text, with a separator between each and the next. */
  function Join(pieces: seq<Bytes>, separator: Bytes): Bytes
    requires pieces != []
  {
    if |pieces| == 1 then pieces[0] else pieces[0] + separator + Join(pieces[1..], separator)
  }

  /** The pieces left by taking out copies of s from the left: no copy begins inside a piece. */
  ghost predicate CutBy(pieces: seq<Bytes>, s: Bytes) {
    && pieces != []
    && (forall i: nat :: i < |pieces[0]| ==> !OccursAt(s, Join(pieces, s), i))
    && (if |pieces| == 1 then !Occurs(s, pieces[0]) else CutBy(pieces[1..], s))
  }

  /** Text outside the copies of the secret is kept: a pass puts the mask between the same pieces. */
  lemma {:induction false} PassKeepsPieces(pieces: seq<Bytes>, s: Bytes)
    requires s != [] && CutBy(pieces, s)
    ensures ReplaceAll(Join(pieces, s), s) == Join(pieces, MASK)
    decreases |pieces|
  {
    if |pieces| == 1 {
      NothingToReplace(pieces[0], s);
    } else {
      assert Join(pieces, s) == pieces[0] + s + Join(pieces[1..], s);
      ReplaceFirst(pieces[0], s, Join(pieces[1..], s));
      PassKeepsPieces(pieces[1..], s);
    }
  }

  /** The first copy of s from position n on. */
  lemma {:induction false} FirstCopy(s: Bytes, x: Bytes, n: nat) returns (k: nat)
    requires Occurs(s, x) && n <= |x| && forall i: nat :: i < n ==> !OccursAt(s, x, i)
    ensures OccursAt(s, x, k) && forall i: nat :: i < k ==> !OccursAt(s, x, i)
    decreases |x| - n
  {
    if OccursAt(s, x, n) {
      k := n;
    } else {
      var j: nat :| OccursAt(s, x, j);
      assert n < j <= |x|;
      k := FirstCopy(s, x, n + 1);
    }
  }

  /** Every text is of that form. */
  lemma {:induction false} EveryTextIsCut(x: Bytes, s: Bytes) returns (pieces: seq<Bytes>)
    requires s != []
    ensures CutBy(pieces, s) && Join(pieces, s) == x
    decreases |x|
  {
    if Occurs(s, x) {
      var k := FirstCopy(s, x, 0);
      var rest := EveryTextIsCut(x[k + |s|..], s);
      pieces := [x[..k]] + rest;
      assert pieces[1..] == rest;
      assert x == x[..k] + s + x[k + |s|..];
    } else {
      pieces := [x];
      assert forall i: nat :: !OccursAt(s, x, i);
    }
  }

  /** A line in which no secret occurs is forwarded as it is. */
  lemma {:induction false} CleanTextUnchanged(x: Bytes, secrets: seq<Secret>)
    requires forall s :: s in secrets ==> !Occurs(s, x)
    ensures MaskAll(x, secrets) == x
  {
    if secrets != [] {
      var n := |secrets| - 1;
      CleanTextUnchanged(x, secrets[..n]);
      NothingToReplace(x, secrets[n]);
    }
  }

  ghost predicate LongestFirst(secrets: seq<Secret>) {
    forall i, j :: 0 <= i < j < |secrets| ==> |secrets[i]| >= |secrets[j]|
  }

  /** When a secret's pass runs, no longer star-tight secret occurs in the text any more, so masking
      a short secret never cuts a longer one in two. */
  lemma ShorterNeverCutsLonger(x: Bytes, secrets: seq<Secret>, j: nat, longer: Bytes)
    requires LongestFirst(secrets) && j < |secrets|
    requires longer in secrets && |longer| > |secrets[j]| && StarTight(longer)
    ensures !Occurs(longer, MaskAll(x, secrets[..j]))
  {
    var i :| 0 <= i < |secrets| && secrets[i] == longer;
    assert i < j;
    assert secrets[..j][i] == longer;
    NoSecretSurvives(x, secrets[..j], i);
  }

  /** Where a stable sort by descending length puts `s` in front of the sorted `rest`. */
  function InsertByLength(s: Secret, rest: seq<Secret>): seq<Secret> {
    if rest == [] || |s| >= |rest[0]| then [s] + rest else [rest[0]] + InsertByLength(s, rest[1..])
  }

  lemma {:induction false} InsertKeepsAll(s: Secret, rest: seq<Secret>)
    ensures multiset(InsertByLength(s, rest)) == multiset(rest) + multiset{s}
  {
    if rest != [] && |s| < |rest[0]| {
      InsertKeepsAll(s, rest[1..]);
      assert rest == [rest[0]] + rest[1..];
    }
  }

  lemma LongestInFront(s: Secret, rest: seq<Secret>)
    requires LongestFirst(rest) && (rest != [] ==> |s| >= |rest[0]|)
    ensures LongestFirst([s] + rest)
  {
  }

  lemma {:induction false} InsertKeepsOrder(s: Secret, rest: seq<Secret>)
    requires LongestFirst(rest)
    ensures var r := InsertByLength(s, rest);
            LongestFirst(r) && r != [] && (r[0] == s || (rest != [] && r[0] == rest[0]))
  {
    if rest == [] || |s| >= |rest[0]| {
      LongestInFront(s, rest);
    } else {
      InsertKeepsOrder(s, rest[1..]);
      LongestInFront(rest[0], InsertByLength(s, rest[1..]));
    }
  }

  function SortByLength(secrets: seq<Secret>): seq<Secret> {
    if secrets == [] then [] else InsertByLength(secrets[0], SortByLength(secrets[1..]))
  }

  /** The sort lists the same secrets, longest first. */
  lemma {:induction false} SortedByLength(secrets: seq<Secret>)
    ensures LongestFirst(SortByLength(secrets)) && multiset(SortByLength(secrets)) == multiset(secrets)
  {
    if secrets != [] {
      SortedByLength(secrets[1..]);
      InsertKeepsOrder(secrets[0], SortByLength(secrets[1..]));
      InsertKeepsAll(secrets[0], SortByLength(secrets[1..]));
      assert secrets == [secrets[0]] + secrets[1..];
    }
  }

  // ---------------------------------------------------------------------------------------------
  // The writer

  datatype WriteResult = Written(n: nat) | Failed(n: nat) | ShortWrite(n: nat)

  /** What the wrapped writer does with a buffer: bytes taken, and whether it reports an error. */
  datatype Sink = Sink(taken: nat, error: bool)

  class SecretMaskWriter {
    const secrets: seq<Secret>
    var forwarded: seq<Bytes>

    ghost predicate Valid()
      reads this
    {
      LongestFirst(secrets)
    }

    constructor (given: seq<Bytes>)
      ensures Valid() && forwarded == []
      ensures forall s: Bytes :: s in secrets <==> s in given && s != []
    {
      var nonempty: seq<Secret> := [];
      for i := 0 to |given|
        invariant forall s: Bytes :: s in nonempty <==> s in given[..i] && s != []
      {
        if given[i] != [] {
          nonempty := nonempty + [given[i]];
        }
      }
      assert given[..|given|] == given;
      var sorted := SortByLength(nonempty);
      SortedByLength(nonempty);
      assert forall s :: s in sorted <==> s in multiset(sorted);
      assert forall s :: s in nonempty <==> s in multiset(nonempty);
      secrets := sorted;
      forwarded := [];
    }

    /** Mask `p` and hand the result to the wrapped writer. */
    method Write(p: Bytes, sink: Sink) returns (r: WriteResult)
      requires Valid() && sink.taken <= |MaskAll(p, secrets)|
      modifies this
      ensures Valid() && forwarded == old(forwarded) + [MaskAll(p, secrets)]
      ensures r.Failed? <==> sink.error
      ensures r.Written? <==> !sink.error && sink.taken == |MaskAll(p, secrets)|
      ensures r.n == if r.Written? then |p| else sink.taken
    {
      var masked := p;
      for i := 0 to |secrets|
        invariant masked == MaskAll(p, secrets[..i])
      {
        assert secrets[..i + 1][..i] == secrets[..i];
        masked := ReplaceAll(masked, secrets[i]);
      }
      assert secrets[..|secrets|] == secrets;
      forwarded := forwarded + [masked];
      if sink.error {
        return Failed(sink.taken);
      }
      if sink.taken < |masked| {
        return ShortWrite(sink.taken);
      }
      return Written(|p|);
    }
  }
}
