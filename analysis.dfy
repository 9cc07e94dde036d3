/**
 * The BPM clean-up of the song analysis (autodj/backend/analysis.py): a raw
 * tempo estimate is moved into a reasonable range by halving and doubling,
 * and the tempos a DJ could read the song at are suggested, sorted.
 */
module BackendAnalysis {
  import opened Wrappers

  /** Python's `x % 2 == 0` on a float: `x` is an even integer. */
  predicate Even(x: real) {
    x == 2.0 * (x / 2.0).Floor as real
  }

  /** Python's `x // 2` on a float. */
  function FloorHalf(x: real): (h: real)
    ensures h <= x / 2.0 < h + 1.0
    ensures Even(x) ==> h == x / 2.0
  {
    (x / 2.0).Floor as real
  }

  /** Halving a real of at least 1 lowers its floor. */
  lemma HalfLowersFloor(y: real)
    requires y >= 1.0
    ensures (y / 2.0).Floor < y.Floor
  {
  }

  /** 2 to the power `k`. */
  function Pow2(k: nat): (p: real)
    ensures p >= 1.0
  {
    if k == 0 then 1.0 else 2.0 * Pow2(k - 1)
  }

  /** `big` is `small` times a power of two. */
  ghost predicate Pow2Multiple(big: real, small: real) {
    exists k: nat :: small * Pow2(k) == big
  }

  lemma Pow2MultipleDoubles(big: real, small: real)
    requires Pow2Multiple(big, small)
    ensures Pow2Multiple(2.0 * big, small)
  {
    var k: nat :| small * Pow2(k) == big;
    assert small * Pow2(k + 1) == 2.0 * big;
  }

  lemma Pow2MultipleOfDouble(big: real, small: real)
    requires Pow2Multiple(big, 2.0 * small)
    ensures Pow2Multiple(big, small)
  {
    var k: nat :| (2.0 * small) * Pow2(k) == big;
    assert small * Pow2(k + 1) == big;
  }

  /** The tempo after the halving loop: halve even tempos above 180. */
  function Halved(x: real): (h: real)
    requires x > 0.0
    ensures h > 0.0 && h <= x
    ensures h > 180.0 ==> !Even(h)
    ensures x <= 180.0 || !Even(x) ==> h == x
    ensures x > 90.0 ==> h > 90.0
    ensures Pow2Multiple(x, h)
    ensures h < x ==> 2.0 * h > 180.0 && Even(2.0 * h)
    decreases x.Floor
  {
    if x > 180.0 && Even(x) then
      var h := Halved(FloorHalf(x));
      Pow2MultipleDoubles(FloorHalf(x), h);
      h
    else
      assert x * Pow2(0) == x;
      x
  }

  /** The tempo after the doubling loop: double tempos below 70. */
  function Doubled(x: real): (d: real)
    requires x > 0.0
    ensures d >= 70.0 && d >= x
    ensures x < 70.0 ==> d < 140.0
    ensures x >= 70.0 ==> d == x
    ensures Pow2Multiple(d, x)
    decreases (70.0 / x).Floor
  {
    if x < 70.0 then
      DoublingLowersMeasure(x);
      var d := Doubled(2.0 * x);
      Pow2MultipleOfDouble(d, x);
      d
    else
      assert x * Pow2(0) == x;
      x
  }

  lemma DoublingLowersMeasure(x: real)
    requires 0.0 < x < 70.0
    ensures 0 <= (70.0 / (2.0 * x)).Floor < (70.0 / x).Floor
  {
    var y := 70.0 / x;
    assert y * x == 70.0;
    assert y > 1.0;
    assert 70.0 / (2.0 * x) == y / 2.0 by {
      assert (y / 2.0) * (2.0 * x) == 70.0;
    }
    HalfLowersFloor(y);
  }

  /** The tempo both loops of `_to_reasonable_bpm` leave. */
  function Reasonable(x: real): (r: real)
    requires x > 0.0
    ensures r >= 70.0
    ensures 70.0 <= x <= 180.0 ==> r == x
    ensures x < 70.0 ==> Pow2Multiple(r, x)
    ensures x >= 70.0 ==> Pow2Multiple(x, r)
    ensures x >= 70.0 && r < x ==> 2.0 * r > 180.0 && Even(2.0 * r)
  {
    Doubled(Halved(x))
  }

  /**
   * A reasonable tempo is at least 70; a tempo below 70 ends below 140; one
   * from 70 to 180 is kept; and one above 180 that stays there is odd.
   */
  lemma ReasonableRange(x: real)
    requires x > 0.0
    ensures Reasonable(x) >= 70.0
    ensures x < 70.0 ==> Reasonable(x) < 140.0
    ensures 70.0 <= x <= 180.0 ==> Reasonable(x) == x
    ensures Reasonable(x) > 180.0 ==> !Even(Reasonable(x)) && Reasonable(x) == Halved(x)
  {
  }

  /** Cleaning up a tempo twice changes nothing more. */
  lemma ReasonableIdempotent(x: real)
    requires x > 0.0
    ensures Reasonable(Reasonable(x)) == Reasonable(x)
  {
    var h := Halved(x);
    var n := Doubled(h);
    if n > 180.0 {
      assert n == h;
      assert Halved(n) == n;
    } else {
      assert Halved(n) == n;
    }
  }

  /** The suggestions for a reasonable tempo `n`, before sorting. */
  function Candidates(n: real): (c: seq<real>)
    requires n >= 70.0
    ensures 1 <= |c| <= 2 && c[0] == n
    ensures |c| == 2 <==> (Even(n) && n >= 140.0) || n <= 90.0
    ensures |c| == 2 ==> c[1] == if n <= 90.0 then 2.0 * n else n / 2.0
    ensures forall i :: 0 <= i < |c| ==> c[i] >= 70.0
  {
    [n] + (if Even(n) && n >= 140.0 then [FloorHalf(n)] else [])
        + (if n <= 90.0 then [n * 2.0] else [])
  }

  predicate Sorted(s: seq<real>) {
    forall i, j :: 0 <= i < j < |s| ==> s[i] <= s[j]
  }

  /** `x` inserted into the sorted `s`. */
  function Insert(x: real, s: seq<real>): (r: seq<real>)
    requires Sorted(s)
    ensures Sorted(r) && multiset(r) == multiset(s) + multiset{x}
    ensures |r| == |s| + 1
    ensures forall k :: 0 <= k < |r| ==> r[k] == x || r[k] in s
  {
    if |s| == 0 then [x]
    else if x <= s[0] then [x] + s
    else
      var t := Insert(x, s[1..]);
      assert s == [s[0]] + s[1..];
      [s[0]] + t
  }

  /** np.sort: the sorted permutation. */
  function Sort(s: seq<real>): (r: seq<real>)
    ensures Sorted(r) && multiset(r) == multiset(s) && |r| == |s|
  {
    if |s| == 0 then []
    else
      assert s == [s[0]] + s[1..];
      Insert(s[0], Sort(s[1..]))
  }

  /** The two loops of `_to_reasonable_bpm`. */
  method HalveAndDouble(bpm: real) returns (b: real)
    requires bpm > 0.0
    ensures b == Reasonable(bpm)
  {
    b := bpm;
    while b > 180.0 && Even(b)
      invariant b > 0.0 && Halved(b) == Halved(bpm)
      decreases b.Floor
    {
      b := FloorHalf(b);
    }
    while b < 70.0
      invariant b > 0.0 && Doubled(b) == Reasonable(bpm)
      decreases (70.0 / b).Floor
    {
      DoublingLowersMeasure(b);
      b := b * 2.0;
    }
  }

  /**
   * The sorted suggestions for a reasonable tempo `n`: one or two tempos of
   * at least 70, `n` among them, the largest last.
   */
  function Suggestions(n: real): (s: seq<real>)
    requires n >= 70.0
    ensures Sorted(s) && multiset(s) == multiset(Candidates(n))
    ensures 1 <= |s| <= 2 && n in s
    ensures forall x :: x in s ==> 70.0 <= x <= s[|s| - 1]
  {
    var s := Sort(Candidates(n));
    SortedBounds(Candidates(n), s);
    s
  }

  /**
   * _to_reasonable_bpm: the suggestions for the cleaned-up tempo; a tempo
   * that is not positive is an error. The largest suggestion, which the
   * analysis takes as the song's tempo, comes last.
   */
  method ToReasonableBpm(bpm: real) returns (r: Option<seq<real>>)
    ensures r.None? <==> bpm <= 0.0
    ensures r.Some? ==> r.value == Suggestions(Reasonable(bpm))
  {
    if bpm <= 0.0 {
      return None;
    }
    var b := HalveAndDouble(bpm);
    var cands: seq<real> := [];
    cands := cands + [b];
    if Even(b) && b >= 140.0 {
      cands := cands + [FloorHalf(b)];
    }
    if b <= 90.0 {
      cands := cands + [b * 2.0];
    }
    assert cands == Candidates(b);
    return Some(Sort(cands));
  }

  lemma SortedBounds(c: seq<real>, s: seq<real>)
    requires 1 <= |c| && (forall i :: 0 <= i < |c| ==> c[i] >= 70.0)
    requires Sorted(s) && multiset(s) == multiset(c)
    ensures |s| == |c| && c[0] in s
    ensures forall x :: x in s ==> 70.0 <= x <= s[|s| - 1]
  {
    assert |s| == |multiset(s)| == |multiset(c)| == |c|;
    assert c[0] in multiset(c);
    forall x | x in s
      ensures 70.0 <= x <= s[|s| - 1]
    {
      assert x in multiset(c);
      var i :| 0 <= i < |c| && c[i] == x;
    }
  }
}
