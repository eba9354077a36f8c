/** The two-sided CUSUM drift detector: a one-pass recursion against its meaning,
    the largest sum over any stretch of the series. */
module Cusum {
  import opened Common

  const MIN_SERIES := 24
  const EPSILON := 0.000000000001

  /** `total` of x over the stretch lo..hi. */
  function Stretch(x: seq<real>, lo: nat, hi: nat): real
    requires lo <= hi <= |x|
    decreases hi
  {
    if lo == hi then 0.0 else Stretch(x, lo, hi - 1) + x[hi - 1]
  }

  function Mean(x: seq<real>): real
    requires x != []
  {
    Ratio(Stretch(x, 0, |x|), |x| as real)
  }

  function Standardised(v: real, mu: real, sd: real): real
    requires sd > 0.0
  {
    Ratio(v - mu, sd)
  }

  /** The per-step excess of the upward test. */
  function Rise(x: seq<real>, mu: real, sd: real, slack: real): seq<real>
    requires sd > 0.0
  {
    seq(|x|, i requires 0 <= i < |x| => Standardised(x[i], mu, sd) - slack)
  }

  /** The per-step excess of the downward test. */
  function Fall(x: seq<real>, mu: real, sd: real, slack: real): seq<real>
    requires sd > 0.0
  {
    seq(|x|, i requires 0 <= i < |x| => -Standardised(x[i], mu, sd) - slack)
  }

  /** Some stretch sums to more than `threshold`. */
  ghost predicate Exceeds(e: seq<real>, threshold: real) {
    exists i, j :: 0 <= i <= j <= |e| && Stretch(e, i, j) > threshold
  }

  /** `peak` is the largest sum of `e` over any stretch, the empty one included. */
  ghost predicate IsLargest(e: seq<real>, peak: real) {
    && (forall i, j :: 0 <= i <= j <= |e| ==> Stretch(e, i, j) <= peak)
    && exists i, j :: 0 <= i <= j <= |e| && Stretch(e, i, j) == peak
  }

  /** Largest sum over the stretches that end at the last element. */
  ghost predicate IsLargestEnding(e: seq<real>, g: real) {
    && (forall i :: 0 <= i <= |e| ==> Stretch(e, i, |e|) <= g)
    && exists i :: 0 <= i <= |e| && Stretch(e, i, |e|) == g
  }

  lemma {:induction false} StretchPrefix(e: seq<real>, n: nat, lo: nat, hi: nat)
    requires lo <= hi <= n <= |e|
    ensures Stretch(e[..n], lo, hi) == Stretch(e, lo, hi)
    decreases hi
  {
    if lo < hi {
      StretchPrefix(e, n, lo, hi - 1);
    }
  }

  /** One step of the recursion keeps both meanings. */
  lemma {:induction false} RecursionStep(e: seq<real>, n: nat, g: real)
    requires n < |e| && IsLargestEnding(e[..n], g)
    ensures IsLargestEnding(e[..n + 1], Max(0.0, g + e[n]))
  {
    var a, b, h := e[..n], e[..n + 1], Max(0.0, g + e[n]);
    forall i | 0 <= i <= |b|
      ensures Stretch(b, i, |b|) <= h
    {
      if i <= n {
        StretchPrefix(e, n, i, n);
        StretchPrefix(e, n + 1, i, n);
        assert Stretch(a, i, |a|) <= g;
      }
    }
    if h == 0.0 {
      assert Stretch(b, n + 1, |b|) == h;
    } else {
      var i :| 0 <= i <= n && Stretch(a, i, |a|) == g;
      StretchPrefix(e, n, i, n);
      StretchPrefix(e, n + 1, i, n);
      assert Stretch(b, i, |b|) == h;
    }
  }

  lemma {:induction false} PeakStep(e: seq<real>, n: nat, peak: real, g: real)
    requires n < |e| && IsLargest(e[..n], peak) && IsLargestEnding(e[..n + 1], g)
    ensures IsLargest(e[..n + 1], Max(peak, g))
  {
    var a, b := e[..n], e[..n + 1];
    forall i, j | 0 <= i <= j <= |b|
      ensures Stretch(b, i, j) <= Max(peak, g)
    {
      if j <= n {
        StretchPrefix(e, n, i, j);
        StretchPrefix(e, n + 1, i, j);
        assert Stretch(a, i, j) <= peak;
      } else {
        assert Stretch(b, i, |b|) <= g;
      }
    }
    if peak >= g {
      var i, j :| 0 <= i <= j <= |a| && Stretch(a, i, j) == peak;
      StretchPrefix(e, n, i, j);
      StretchPrefix(e, n + 1, i, j);
      assert Stretch(b, i, j) == Max(peak, g);
    } else {
      var i :| 0 <= i <= |b| && Stretch(b, i, |b|) == g;
    }
  }

  lemma {:induction false} LargestExceeds(e: seq<real>, peak: real, threshold: real)
    requires IsLargest(e, peak)
    ensures peak > threshold <==> Exceeds(e, threshold)
  {
  }

  /** How many leading points serve as the reference. */
  function Cut(size: nat, baselineFrac: real): nat {
    var scaled := Times(size as real, baselineFrac);
    var whole := if scaled >= 0.0 then scaled.Floor else -((-scaled).Floor);
    if whole < 4 then 4 else whole
  }

  /** What the reference length is: the whole part of the fraction of the series, at
      least four points and at most all of them. */
  predicate IsReference(size: nat, baselineFrac: real, n: nat) {
    var scaled := Times(size as real, baselineFrac);
    && 4 <= n <= size
    && (n == 4 || n as real <= scaled) && (n == size || scaled < n as real + 1.0)
  }

  lemma {:induction false} ReferenceIsUnique(size: nat, baselineFrac: real, n: nat, m: nat)
    requires IsReference(size, baselineFrac, n) && IsReference(size, baselineFrac, m)
    ensures n == m
  {
    hide Times;
  }

  function Reference(x: seq<real>, baselineFrac: real): (n: nat)
    requires |x| >= MIN_SERIES
    ensures IsReference(|x|, baselineFrac, n)
  {
    if Cut(|x|, baselineFrac) <= |x| then Cut(|x|, baselineFrac) else |x|
  }

  function Strength(peak: real, threshold: real): real {
    Clamp01(Ratio(peak, Max(threshold * 1.35, EPSILON)))
  }

  /** After `n` points: the largest sum of a stretch ending there, and of any stretch. */
  ghost predicate Tracks(e: seq<real>, n: nat, g: real, peak: real)
    requires n <= |e|
  {
    IsLargestEnding(e[..n], g) && IsLargest(e[..n], peak)
  }

  lemma {:induction false} TrackNext(e: seq<real>, n: nat, g: real, peak: real)
    requires n < |e| && Tracks(e, n, g, peak)
    ensures var h := Max(0.0, g + e[n]);
      Tracks(e, n + 1, h, Max(peak, h))
  {
    RecursionStep(e, n, g);
    PeakStep(e, n, peak, Max(0.0, g + e[n]));
    hide IsLargest, IsLargestEnding;
  }

  lemma {:induction false} TrackEnds(e: seq<real>)
    ensures Tracks(e, 0, 0.0, 0.0)
    ensures forall g, peak :: Tracks(e, |e|, g, peak) ==> IsLargest(e, peak)
  {
    EmptySeries(e);
    assert e[..|e|] == e;
  }

  /** The recursion itself: the peak of both one-sided sums. */
  method Peak(x: seq<real>, start: nat, mu: real, sd: real, slack: real) returns (peak: real)
    requires start <= |x| && sd > 0.0
    ensures var up, down := Rise(x[start..], mu, sd, slack), Fall(x[start..], mu, sd, slack);
      exists p, q :: IsLargest(up, p) && IsLargest(down, q) && peak == Max(p, q)
  {
    hide Tracks, IsLargest, Ratio;
    ghost var up, down := Rise(x[start..], mu, sd, slack), Fall(x[start..], mu, sd, slack);
    var gp, gm := 0.0, 0.0;
    peak := 0.0;
    ghost var p, q := 0.0, 0.0;
    TrackEnds(up);
    TrackEnds(down);
    for i := start to |x|
      invariant Tracks(up, i - start, gp, p) && Tracks(down, i - start, gm, q)
      invariant peak == Max(p, q)
    {
      ghost var k := i - start;
      var z := Ratio(x[i] - mu, sd);
      assert z == Standardised(x[start..][k], mu, sd);
      assert up[k] == z - slack && down[k] == -z - slack;
      TrackNext(up, k, gp, p);
      TrackNext(down, k, gm, q);
      gp := Max(0.0, gp + z - slack);
      gm := Max(0.0, gm - z - slack);
      p, q := Max(p, gp), Max(q, gm);
      peak := Max(peak, Max(gp, gm));
    }
  }

  /** The verdict on a series whose first `start` points are the reference. */
  ghost predicate Verdict(x: seq<real>, start: nat, slack: real, threshold: real, deviation: real,
                          strength: real, hit: bool)
    requires 0 < start <= |x|
  {
    var mu, sd := Mean(x[..start]), if deviation < EPSILON then 1.0 else deviation;
    var up, down := Rise(x[start..], mu, sd, slack), Fall(x[start..], mu, sd, slack);
    && (hit <==> Exceeds(up, threshold) || Exceeds(down, threshold))
    && exists p, q :: IsLargest(up, p) && IsLargest(down, q) && strength == Strength(Max(p, q), threshold)
  }

  /** The detector. `deviation` is the standard deviation of the reference. Drift
      is reported exactly when some stretch of the points after the reference
      sums, upwards or downwards, to more than the threshold. */
  method CusumTwoSided(x: seq<real>, baselineFrac: real, slack: real, threshold: real, deviation: real)
    returns (strength: real, hit: bool)
    ensures |x| < 24 ==> strength == 0.0 && !hit
    ensures |x| >= 24 ==>
      exists start: nat :: IsReference(|x|, baselineFrac, start)
                           && Verdict(x, start, slack, threshold, deviation, strength, hit)
  {
    if |x| < MIN_SERIES {
      return 0.0, false;
    }
    var start := Reference(x, baselineFrac);
    var mu := Mean(x[..start]);
    var sd := if deviation < EPSILON then 1.0 else deviation;
    var peak := Peak(x, start, mu, sd, slack);
    ghost var up, down := Rise(x[start..], mu, sd, slack), Fall(x[start..], mu, sd, slack);
    ghost var p, q :| IsLargest(up, p) && IsLargest(down, q) && peak == Max(p, q);
    LargestExceeds(up, p, threshold);
    LargestExceeds(down, q, threshold);
    strength := Strength(peak, threshold);
    hit := peak > threshold;
  }

  lemma {:induction false} EmptySeries(e: seq<real>)
    ensures IsLargestEnding(e[..0], 0.0) && IsLargest(e[..0], 0.0)
  {
    assert Stretch(e[..0], 0, 0) == 0.0;
  }

  // ----------------------------------------------------- what the excesses measure

  lemma {:induction false} OneExcess(before: real, v: real, mu: real, sd: real)
    requires sd > 0.0
    ensures Times(before + Standardised(v, mu, sd), sd) == Times(before, sd) + v - mu
  {
    var z := Standardised(v, mu, sd);
    assert z * sd == v - mu;
    assert (before + z) * sd == before * sd + z * sd;
  }

  /** Without slack the excesses add up to the deviations from the mean. */
  lemma {:induction false} ExcessSum(x: seq<real>, mu: real, sd: real, n: nat)
    requires sd > 0.0 && n <= |x|
    ensures Times(Stretch(Rise(x, mu, sd, 0.0), 0, n), sd) == Stretch(x, 0, n) - Times(n as real, mu)
  {
    if n > 0 {
      ExcessSum(x, mu, sd, n - 1);
      OneExcess(Stretch(Rise(x, mu, sd, 0.0), 0, n - 1), x[n - 1], mu, sd);
      OneMore(n as real, mu);
    } else {
      TimesIs(0.0, sd);
      TimesIs(0.0, mu);
    }
    hide Times, Standardised;
  }

  lemma {:induction false} ZeroFactor(a: real, b: real)
    requires b > 0.0 && a * b == 0.0
    ensures a == 0.0
  {
    assert (-a) * b == -(a * b);
    if a > 0.0 {
      ProductSign(a, b);
    } else if a < 0.0 {
      ProductSign(-a, b);
    }
  }

  lemma {:induction false} OneMore(n: real, mu: real)
    ensures Times(n, mu) == Times(n - 1.0, mu) + mu
  {
    assert n * mu == (n - 1.0) * mu + mu;
  }

  /** The reference is centred on its own mean: without slack its excesses cancel. */
  lemma {:induction false} ReferenceIsCentred(x: seq<real>, sd: real)
    requires x != [] && sd > 0.0
    ensures Stretch(Rise(x, Mean(x), sd, 0.0), 0, |x|) == 0.0
  {
    var mu, n, sum := Mean(x), |x| as real, Stretch(Rise(x, Mean(x), sd, 0.0), 0, |x|);
    ExcessSum(x, mu, sd, |x|);
    assert mu * n == Stretch(x, 0, |x|);
    assert n * mu == mu * n;
    TimesIs(sum, sd);
    ZeroFactor(sum, sd);
  }

  /** Units do not matter: scaling and shifting the series scales and shifts its mean
      and deviation, and leaves every excess as it is. */
  lemma {:induction false} UnitsDoNotMatter(v: real, mu: real, sd: real, scale: real, shift: real)
    requires sd > 0.0 && scale > 0.0 && scale * sd > 0.0
    ensures Standardised(scale * v + shift, scale * mu + shift, scale * sd) == Standardised(v, mu, sd)
  {
    var r := Ratio(v - mu, sd);
    assert r * sd == v - mu;
    assert r * (scale * sd) == scale * v - scale * mu;
    var q := Ratio(scale * v + shift - (scale * mu + shift), scale * sd);
    assert q * (scale * sd) == scale * v - scale * mu;
    assert (q - r) * (scale * sd) == 0.0;
  }

  /** A series that stays within the slack of the mean never raises an alarm. */
  lemma {:induction false} QuietWithinSlack(x: seq<real>, mu: real, sd: real, slack: real, threshold: real)
    requires sd > 0.0 && threshold >= 0.0
    requires forall i :: 0 <= i < |x| ==> -slack <= Standardised(x[i], mu, sd) <= slack
    ensures !Exceeds(Rise(x, mu, sd, slack), threshold) && !Exceeds(Fall(x, mu, sd, slack), threshold)
  {
    hide Standardised;
    forall i, j | 0 <= i <= j <= |x|
      ensures Stretch(Rise(x, mu, sd, slack), i, j) <= 0.0 && Stretch(Fall(x, mu, sd, slack), i, j) <= 0.0
    {
      StretchNotPositive(Rise(x, mu, sd, slack), i, j);
      StretchNotPositive(Fall(x, mu, sd, slack), i, j);
    }
  }

  lemma {:induction false} StretchNotPositive(e: seq<real>, lo: nat, hi: nat)
    requires lo <= hi <= |e| && forall i :: 0 <= i < |e| ==> e[i] <= 0.0
    ensures Stretch(e, lo, hi) <= 0.0
    decreases hi
  {
    if lo < hi {
      StretchNotPositive(e, lo, hi - 1);
    }
  }

  /** One point further from the mean than slack and threshold together is enough. */
  lemma {:induction false} SpikeIsSeen(x: seq<real>, mu: real, sd: real, slack: real, threshold: real, i: nat)
    requires sd > 0.0 && i < |x| && Abs(Standardised(x[i], mu, sd)) > slack + threshold
    ensures Exceeds(Rise(x, mu, sd, slack), threshold) || Exceeds(Fall(x, mu, sd, slack), threshold)
  {
    hide Standardised;
    var up, down := Rise(x, mu, sd, slack), Fall(x, mu, sd, slack);
    assert Stretch(up, i, i) == 0.0 && Stretch(down, i, i) == 0.0;
    assert Stretch(up, i, i + 1) == up[i] && Stretch(down, i, i + 1) == down[i];
  }

  /** The strength reported when the peak meets the threshold is 1/1.35, about
      0.74, and an alarm is exactly a strength above it. */
  lemma {:induction false} StrengthAtThreshold(peak: real, threshold: real)
    requires threshold * 1.35 >= EPSILON && peak >= 0.0
    ensures peak > threshold <==> Strength(peak, threshold) > 1.0 / 1.35
    ensures 0.0 <= Strength(peak, threshold) <= 1.0
    ensures Strength(peak, threshold) == 1.0 <==> peak >= threshold * 1.35
  {
    var level := 1.0 / 1.35;
    assert level * 1.35 == 1.0;
    assert level * (threshold * 1.35) == threshold;
    RatioAbove(peak, threshold * 1.35, level);
    RatioAbove(peak, threshold * 1.35, 1.0);
    TimesIs(level, threshold * 1.35);
    TimesIs(1.0, threshold * 1.35);
  }
}
