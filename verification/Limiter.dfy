/**
 The look-ahead peak limiter of the agent's outbound voice: a monotonic deque in a
 ring buffer gives the sliding minimum of the required gains, a release walk lowers
 it further, and a running mean smooths the result.

 Samples and gains are reals. The look-ahead (48 in the program), the ceiling and the
 release step (1/3600) are parameters.
 */
module Limiter {
  import opened RealArithmetic

  datatype Settings = Settings(lookahead: nat, ceiling: real, step: real)

  type Config = s: Settings | s.lookahead >= 2 && s.ceiling > 0.0 && s.step > 0.0
    witness Settings(48, 1.0, 1.0)

  // ------------------------------------------------------------------
  // Gain stages, on the sequence g of required gains
  // ------------------------------------------------------------------

  /** Brute-force minimum of g[lo..hi]. */
  function MinOver(g: seq<real>, lo: nat, hi: nat): (m: real)
    requires lo < hi <= |g|
  {
    if lo + 1 == hi then g[lo] else Min(MinOver(g, lo, hi - 1), g[hi - 1])
  }

  function WindowStart(p: Config, n: nat): nat {
    MaxInt(0, n + 1 - p.lookahead)
  }

  /** m[n]: the least required gain of the last `lookahead` samples ending at n. */
  function WindowMin(p: Config, g: seq<real>, n: nat): real
    requires n < |g|
  {
    MinOver(g, WindowStart(p, n), n + 1)
  }

  /** r[n]: instant attack, then a walk back up by at most `step` a sample. */
  function Release(p: Config, g: seq<real>, n: nat): real
    requires n < |g|
  {
    Min(WindowMin(p, g, n), (if n == 0 then 1.0 else Release(p, g, n - 1)) + p.step)
  }

  function Releases(p: Config, g: seq<real>): (rs: seq<real>)
    ensures |rs| == |g| && forall n :: 0 <= n < |g| ==> rs[n] == Release(p, g, n)
  {
    seq(|g|, n requires 0 <= n < |g| => Release(p, g, n))
  }

  /** The release at time i, the first one standing in for every time before the start. */
  function ReleaseAt(rs: seq<real>, i: int): real
    requires i < |rs| && rs != []
  {
    rs[MaxInt(0, i)]
  }

  /** The `lookahead` release values averaged at n. */
  function ReleaseWindow(p: Config, rs: seq<real>, n: nat): (w: seq<real>)
    requires n < |rs|
    ensures |w| == p.lookahead
    ensures forall i :: 0 <= i < |w| ==> w[i] == ReleaseAt(rs, n + 1 - p.lookahead + i)
  {
    seq(p.lookahead, i requires 0 <= i < p.lookahead => ReleaseAt(rs, n + 1 - p.lookahead + i))
  }

  /** s[n]: the smoothed gain. */
  function Smoothed(p: Config, rs: seq<real>, n: nat): real
    requires n < |rs|
  {
    Mean(ReleaseWindow(p, rs, n))
  }

  function Gain(p: Config, g: seq<real>, n: nat): real
    requires n < |g|
  {
    Smoothed(p, Releases(p, g), n)
  }

  /** All the gains applied so far. */
  function Applied(p: Config, g: seq<real>): (ss: seq<real>)
    ensures |ss| == |g| && forall n :: 0 <= n < |g| ==> ss[n] == Gain(p, g, n)
  {
    seq(|g|, n requires 0 <= n < |g| => Gain(p, g, n))
  }

  /** The smallest of some gains, 1 when there are none. */
  function Worst(ss: seq<real>): real {
    if ss == [] then 1.0 else Min(Worst(ss[..|ss| - 1]), ss[|ss| - 1])
  }

  ghost predicate InUnit(g: seq<real>) {
    forall i :: 0 <= i < |g| ==> 0.0 < g[i] <= 1.0
  }

  lemma {:induction false} MinOverPrefix(g: seq<real>, h: seq<real>, lo: nat, hi: nat)
    requires lo < hi <= |g| && g <= h
    ensures MinOver(g, lo, hi) == MinOver(h, lo, hi)
    decreases hi
  {
    if lo + 1 < hi {
      MinOverPrefix(g, h, lo, hi - 1);
    }
  }

  lemma {:induction false} ReleasePrefix(p: Config, g: seq<real>, h: seq<real>, n: nat)
    requires n < |g| && g <= h
    ensures Release(p, g, n) == Release(p, h, n)
    decreases n
  {
    MinOverPrefix(g, h, WindowStart(p, n), n + 1);
    if n > 0 {
      ReleasePrefix(p, g, h, n - 1);
    }
  }

  /** Every stage is causal: one more required gain appends one value and changes none. */
  lemma StagesAppend(p: Config, g: seq<real>, required: real)
    ensures Releases(p, g + [required]) == Releases(p, g) + [Release(p, g + [required], |g|)]
    ensures Applied(p, g + [required]) == Applied(p, g) + [Gain(p, g + [required], |g|)]
  {
    var h := g + [required];
    forall n | 0 <= n < |g| ensures Releases(p, g)[n] == Releases(p, h)[n] {
      ReleasePrefix(p, g, h, n);
    }
    assert Releases(p, h) == Releases(p, g) + [Release(p, h, |g|)];
    forall n | 0 <= n < |g| ensures Applied(p, g)[n] == Applied(p, h)[n] {
      SmoothedPrefix(p, Releases(p, g), Releases(p, h), n);
    }
  }

  lemma SmoothedPrefix(p: Config, rs: seq<real>, ts: seq<real>, n: nat)
    requires n < |rs| && rs <= ts
    ensures ReleaseWindow(p, rs, n) == ReleaseWindow(p, ts, n)
    ensures Smoothed(p, rs, n) == Smoothed(p, ts, n)
  {
  }

  // ------------------------------------------------------------------
  // Bounds on the gain
  // ------------------------------------------------------------------

  lemma {:induction false} MinOverIsLeast(g: seq<real>, lo: nat, hi: nat)
    requires lo < hi <= |g|
    ensures forall k :: lo <= k < hi ==> MinOver(g, lo, hi) <= g[k]
    ensures exists k :: lo <= k < hi && MinOver(g, lo, hi) == g[k]
    decreases hi
  {
    if lo + 1 < hi {
      MinOverIsLeast(g, lo, hi - 1);
      var k :| lo <= k < hi - 1 && MinOver(g, lo, hi - 1) == g[k];
      var m := if g[k] <= g[hi - 1] then k else hi - 1;
      assert lo <= m < hi && MinOver(g, lo, hi) == g[m];
    } else {
      assert MinOver(g, lo, hi) == g[lo];
    }
  }

  lemma {:induction false} ReleaseInUnit(p: Config, g: seq<real>, n: nat)
    requires n < |g| && InUnit(g)
    ensures 0.0 < Release(p, g, n) <= 1.0
    decreases n
  {
    MinOverIsLeast(g, WindowStart(p, n), n + 1);
    if n > 0 {
      ReleaseInUnit(p, g, n - 1);
    }
  }

  /** The smoothed gain is always in (0, 1]. */
  lemma GainInUnit(p: Config, g: seq<real>, n: nat)
    requires n < |g| && InUnit(g)
    ensures 0.0 < Gain(p, g, n) <= 1.0
  {
    var w := ReleaseWindow(p, Releases(p, g), n);
    forall i | 0 <= i < |w| ensures 0.0 < w[i] <= 1.0 {
      ReleaseInUnit(p, g, MaxInt(0, n + 1 - p.lookahead + i));
    }
    var lo := LeastPositive(w);
    MeanBounds(w, lo, 1.0);
  }

  /** Every release value in the mean at n came from a window containing n + 1 - lookahead. */
  lemma GainWithinRequired(p: Config, g: seq<real>, n: nat)
    requires p.lookahead - 1 <= n < |g| && InUnit(g)
    ensures Gain(p, g, n) <= g[n + 1 - p.lookahead]
  {
    var k := n + 1 - p.lookahead;
    var w := ReleaseWindow(p, Releases(p, g), n);
    forall i | 0 <= i < |w| ensures 0.0 <= w[i] <= g[k] {
      ReleaseInUnit(p, g, k + i);
      MinOverIsLeast(g, WindowStart(p, k + i), k + i + 1);
      assert WindowStart(p, k + i) <= k < k + i + 1;
    }
    MeanBounds(w, 0.0, g[k]);
  }

  lemma {:induction false} ReleaseClimb(p: Config, g: seq<real>, n: nat, k: nat)
    requires n + k < |g|
    ensures Release(p, g, n + k) <= Release(p, g, n) + Times(k, p.step)
    decreases k
  {
    if k > 0 {
      ReleaseClimb(p, g, n, k - 1);
    }
  }

  /** r[n] is the lower envelope of the minima so far, each rising by a step a sample: no less attenuation is spared. */
  lemma {:induction false} ReleaseIsEnvelope(p: Config, g: seq<real>, n: nat)
    requires n < |g| && InUnit(g)
    ensures forall k :: 0 <= k <= n ==> Release(p, g, n) <= WindowMin(p, g, k) + Times(n - k, p.step)
    ensures exists k :: 0 <= k <= n && Release(p, g, n) == WindowMin(p, g, k) + Times(n - k, p.step)
    decreases n
  {
    forall k | 0 <= k <= n ensures Release(p, g, n) <= WindowMin(p, g, k) + Times(n - k, p.step) {
      ReleaseClimb(p, g, k, n - k);
    }
    MinOverIsLeast(g, WindowStart(p, n), n + 1);
    if n == 0 || Release(p, g, n) == WindowMin(p, g, n) {
      assert Release(p, g, n) == WindowMin(p, g, n) + Times(n - n, p.step);
    } else {
      ReleaseIsEnvelope(p, g, n - 1);
      var k :| 0 <= k <= n - 1 && Release(p, g, n - 1) == WindowMin(p, g, k) + Times(n - 1 - k, p.step);
      assert Release(p, g, n) == WindowMin(p, g, k) + Times(n - k, p.step);
    }
  }

  lemma {:induction false} ReleaseAtLeast(p: Config, g: seq<real>, n: nat, lo: real)
    requires n < |g| && lo <= 1.0 && forall k :: 0 <= k <= n ==> g[k] >= lo
    ensures Release(p, g, n) >= lo
    decreases n
  {
    MinOverIsLeast(g, WindowStart(p, n), n + 1);
    if n > 0 {
      ReleaseAtLeast(p, g, n - 1, lo);
    }
  }

  /** The gain never goes below the least required so far. */
  lemma GainAtLeast(p: Config, g: seq<real>, n: nat, lo: real)
    requires n < |g| && lo <= 1.0 && forall k :: 0 <= k <= n ==> g[k] >= lo
    ensures Gain(p, g, n) >= lo
  {
    var w := ReleaseWindow(p, Releases(p, g), n);
    var hi := GreatestOf(w);
    forall i | 0 <= i < |w| ensures lo <= w[i] <= hi {
      ReleaseAtLeast(p, g, MaxInt(0, n + 1 - p.lookahead + i), lo);
    }
    MeanBounds(w, lo, hi);
  }

  lemma WindowSlides(p: Config, rs: seq<real>, n: nat)
    requires n + 1 < |rs|
    ensures ReleaseWindow(p, rs, n + 1) == ReleaseWindow(p, rs, n)[1..] + [rs[n + 1]]
  {
  }

  /** The applied gain rises by at most one release step and falls by at most 1/lookahead per push. */
  lemma GainSlew(p: Config, g: seq<real>, n: nat)
    requires n + 1 < |g| && InUnit(g)
    ensures Gain(p, g, n + 1) - Gain(p, g, n) <= p.step
    ensures Gain(p, g, n) - Gain(p, g, n + 1) <= 1.0 / p.lookahead as real
  {
    var m := MaxInt(0, n + 1 - p.lookahead);
    WindowSlides(p, Releases(p, g), n);
    ReleaseClimb(p, g, m, n + 1 - m);
    TimesMonotone(n + 1 - m, p.lookahead, p.step);
    ReleaseInUnit(p, g, m);
    ReleaseInUnit(p, g, n + 1);
    MeanSlides(ReleaseWindow(p, Releases(p, g), n), Release(p, g, n + 1), p.step);
  }

  lemma {:induction false} ReleaseQuiet(p: Config, g: seq<real>, n: nat)
    requires n < |g| && forall k :: 0 <= k <= n ==> g[k] == 1.0
    ensures Release(p, g, n) == 1.0
    decreases n
  {
    MinOverIsLeast(g, WindowStart(p, n), n + 1);
    if n > 0 {
      ReleaseQuiet(p, g, n - 1);
    }
  }

  /** Once the last loud sample has left the window, the release climbs a step a push up to 1. */
  lemma {:induction false} ReleaseRecovers(p: Config, g: seq<real>, from: nat, k: nat)
    requires from + p.lookahead - 1 + k < |g| && InUnit(g)
    requires forall i :: from <= i < |g| ==> g[i] == 1.0
    ensures Release(p, g, from + p.lookahead - 1 + k) >= Min(1.0, Times(k, p.step))
    decreases k
  {
    var n := from + p.lookahead - 1 + k;
    MinOverIsLeast(g, WindowStart(p, n), n + 1);
    if k == 0 {
      ReleaseInUnit(p, g, n);
    } else {
      ReleaseRecovers(p, g, from, k - 1);
    }
  }

  /** After the last loud sample the gain is exactly 1 again within steps + 2(lookahead - 1) pushes. */
  lemma GainRecovers(p: Config, g: seq<real>, from: nat, steps: nat, n: nat)
    requires Times(steps, p.step) >= 1.0 && InUnit(g)
    requires forall i :: from <= i < |g| ==> g[i] == 1.0
    requires from + steps + 2 * (p.lookahead - 1) <= n < |g|
    ensures Gain(p, g, n) == 1.0
  {
    var w := ReleaseWindow(p, Releases(p, g), n);
    forall i | 0 <= i < |w| ensures 1.0 <= w[i] <= 1.0 {
      var m := n + 1 - p.lookahead + i;
      var k := m - (from + p.lookahead - 1);
      ReleaseRecovers(p, g, from, k);
      TimesMonotone(steps, k, p.step);
      ReleaseInUnit(p, g, m);
    }
    MeanBounds(w, 1.0, 1.0);
  }

  // ------------------------------------------------------------------
  // What the limiter returns, on the history xs of samples
  // ------------------------------------------------------------------

  /** The largest gain a sample may be given. */
  function Required(p: Config, x: real): (g: real)
    ensures 0.0 < g <= 1.0
    ensures Abs(x) <= p.ceiling <==> g == 1.0
  {
    if Abs(x) > p.ceiling then
      var g := p.ceiling / Abs(x);
      DivCancel(p.ceiling, Abs(x));
      MulCancel(g, 1.0, Abs(x));
      g
    else 1.0
  }

  function Gains(p: Config, xs: seq<real>): (g: seq<real>)
    ensures |g| == |xs| && InUnit(g)
    ensures forall i :: 0 <= i < |xs| ==> g[i] == Required(p, xs[i])
  {
    seq(|xs|, i requires 0 <= i < |xs| => Required(p, xs[i]))
  }

  /** The delay line: silence before the first sample. */
  function Sample(xs: seq<real>, i: int): real {
    if 0 <= i < |xs| then xs[i] else 0.0
  }

  lemma GainsAppend(p: Config, xs: seq<real>, x: real)
    ensures Gains(p, xs + [x]) == Gains(p, xs) + [Required(p, x)]
  {
  }

  function Attenuate(x: real, gain: real): real {
    x * gain
  }

  /** What the n-th push returns. */
  function Emitted(p: Config, xs: seq<real>, n: nat): real
    requires n < |xs|
  {
    Attenuate(Sample(xs, n + 1 - p.lookahead), Gain(p, Gains(p, xs), n))
  }

  /** Everything the limiter has returned for the samples xs. */
  function Outputs(p: Config, xs: seq<real>): (ys: seq<real>)
    ensures |ys| == |xs| && forall n :: 0 <= n < |xs| ==> ys[n] == Emitted(p, xs, n)
  {
    seq(|xs|, n requires 0 <= n < |xs| => Emitted(p, xs, n))
  }

  lemma EmittedPrefix(p: Config, xs: seq<real>, x: real, n: nat)
    requires n < |xs|
    ensures Emitted(p, xs + [x], n) == Emitted(p, xs, n)
  {
    GainsAppend(p, xs, x);
    StagesAppend(p, Gains(p, xs), Required(p, x));
    assert Applied(p, Gains(p, xs + [x]))[n] == Applied(p, Gains(p, xs))[n];
  }

  lemma OutputsAppend(p: Config, xs: seq<real>, x: real)
    ensures Outputs(p, xs + [x]) == Outputs(p, xs)
         + [Attenuate(Sample(xs + [x], |xs| + 1 - p.lookahead), Gain(p, Gains(p, xs) + [Required(p, x)], |xs|))]
  {
    GainsAppend(p, xs, x);
    forall n | 0 <= n < |xs| ensures Outputs(p, xs + [x])[n] == Outputs(p, xs)[n] {
      EmittedPrefix(p, xs, x, n);
    }
  }

  /** It is the largest: a louder gain would exceed the ceiling, which a loud sample reaches exactly. */
  lemma RequiredIsLargest(p: Config, x: real, g: real)
    requires 0.0 < g <= 1.0
    ensures Abs(x) * g <= p.ceiling <==> g <= Required(p, x)
    ensures Abs(x) > p.ceiling ==> Abs(x) * Required(p, x) == p.ceiling
  {
    var a, r := Abs(x), Required(p, x);
    if a > p.ceiling {
      DivCancel(p.ceiling, a);
      if g <= r {
        MulMonotone(a, g, r);
      } else {
        MulStrict(a, r, g);
      }
    } else {
      MulMonotone(a, g, 1.0);
    }
  }

  lemma RequiredFits(p: Config, x: real)
    ensures Abs(x) * Required(p, x) <= p.ceiling
  {
  }

  /** The delay starts full of silence. */
  lemma SilentAtFirst(p: Config, xs: seq<real>, n: nat)
    requires n < |xs| && n < p.lookahead - 1
    ensures Emitted(p, xs, n) == 0.0
  {
  }

  /** The safety theorem: no push, after any history, returns a value above the ceiling. */
  lemma CannotClip(p: Config, xs: seq<real>, n: nat)
    requires n < |xs|
    ensures Abs(Emitted(p, xs, n)) <= p.ceiling
  {
    var k, s := n + 1 - p.lookahead, Gain(p, Gains(p, xs), n);
    GainInUnit(p, Gains(p, xs), n);
    if k >= 0 {
      GainWithinRequired(p, Gains(p, xs), n);
      ScaledFits(p, xs[k], s);
    } else {
      assert 0.0 * s == 0.0;
    }
  }

  lemma ScaledFits(p: Config, x: real, s: real)
    requires 0.0 <= s <= Required(p, x)
    ensures Abs(x * s) <= p.ceiling
  {
    RequiredFits(p, x);
    ScaledWithin(x, s, Required(p, x), p.ceiling);
  }

  /** The applied gain is at least the largest gain the loudest sample so far may be given. */
  lemma GainSparesNothing(p: Config, xs: seq<real>, n: nat, peak: real)
    requires n < |xs| && forall k :: 0 <= k <= n ==> Abs(xs[k]) <= Abs(peak)
    ensures Gain(p, Gains(p, xs), n) >= Required(p, peak)
  {
    forall k | 0 <= k <= n ensures Gains(p, xs)[k] >= Required(p, peak) {
      RequiredFalls(p, xs[k], peak);
    }
    GainAtLeast(p, Gains(p, xs), n, Required(p, peak));
  }

  lemma RequiredFalls(p: Config, x: real, peak: real)
    requires Abs(x) <= Abs(peak)
    ensures Required(p, x) >= Required(p, peak)
  {
    var r := Required(p, peak);
    RequiredFits(p, peak);
    ProductAbove(Abs(x), r, Abs(peak), r);
    RequiredIsLargest(p, x, r);
  }

  /** A stream of one loud magnitude comes out at exactly the ceiling, with its signs. */
  lemma SteadyLoudIsAtCeiling(p: Config, xs: seq<real>, n: nat, m: real)
    requires p.lookahead - 1 <= n < |xs| && m > p.ceiling
    requires forall k :: 0 <= k <= n ==> Abs(xs[k]) == m
    ensures Emitted(p, xs, n) == if xs[n + 1 - p.lookahead] > 0.0 then p.ceiling else -p.ceiling
  {
    var x := xs[n + 1 - p.lookahead];
    GainSparesNothing(p, xs, n, m);
    GainWithinRequired(p, Gains(p, xs), n);
    RequiredFalls(p, m, x);
    RequiredFalls(p, x, m);
    RequiredIsLargest(p, x, 1.0);
    AtCeiling(x, m, Gain(p, Gains(p, xs), n), p.ceiling);
  }

  lemma AtCeiling(x: real, a: real, g: real, ceiling: real)
    requires a > 0.0 && a * g == ceiling && (x == a || x == -a)
    ensures Attenuate(x, g) == if x > 0.0 then ceiling else -ceiling
  {
    if x == -a {
      assert x * g == -(a * g);
    }
  }

  /** With a ceiling inside int16, the conversion after the limiter is plain rounding. */
  lemma ConversionNeverSaturates(p: Config, xs: seq<real>, n: nat)
    requires n < |xs| && p.ceiling <= INT16_MAX as real
    ensures ClampInt16(Emitted(p, xs, n)) == Round(Emitted(p, xs, n))
  {
    CannotClip(p, xs, n);
  }

  /** A stream that never exceeds the ceiling comes out unchanged, lookahead - 1 samples late. */
  lemma TransparentBelowCeiling(p: Config, xs: seq<real>, n: nat)
    requires n < |xs|
    requires forall k :: 0 <= k <= n ==> Abs(xs[k]) <= p.ceiling
    ensures Emitted(p, xs, n) == Sample(xs, n + 1 - p.lookahead)
  {
    var g := Gains(p, xs);
    var w := ReleaseWindow(p, Releases(p, g), n);
    forall i | 0 <= i < |w| ensures 1.0 <= w[i] <= 1.0 {
      ReleaseQuiet(p, g, MaxInt(0, n + 1 - p.lookahead + i));
    }
    MeanBounds(w, 1.0, 1.0);
  }

  /** The same once the limiter has recovered from the last loud sample. */
  lemma TransparentAfterRecovery(p: Config, xs: seq<real>, from: nat, steps: nat, n: nat)
    requires steps as real * p.step >= 1.0
    requires forall i :: from <= i < |xs| ==> Abs(xs[i]) <= p.ceiling
    requires from + steps + 2 * (p.lookahead - 1) <= n < |xs|
    ensures Emitted(p, xs, n) == xs[n + 1 - p.lookahead]
  {
    TimesIsProduct(steps, p.step);
    GainRecovers(p, Gains(p, xs), from, steps, n);
  }

  // ------------------------------------------------------------------
  // The monotonic deque
  // ------------------------------------------------------------------

  datatype Entry = Entry(index: int, value: real)

  /**
   The head is the last place where g[lo..] takes its minimum, and the rest of the deque
   describes what follows the head in the same way.
   */
  ghost predicate Minima(dq: seq<Entry>, g: seq<real>, lo: nat)
  {
    if dq == [] then lo >= |g|
    else
      && lo <= dq[0].index < |g|
      && dq[0].value == g[dq[0].index]
      && (forall k :: lo <= k < |g| ==> g[k] >= dq[0].value)
      && (forall k :: dq[0].index < k < |g| ==> g[k] > dq[0].value)
      && Minima(dq[1..], g, dq[0].index + 1)
  }

  lemma {:induction false} LiveCount(dq: seq<Entry>, g: seq<real>, lo: nat)
    requires Minima(dq, g, lo)
    ensures lo <= |g| ==> |dq| <= |g| - lo
  {
    if dq != [] {
      LiveCount(dq[1..], g, dq[0].index + 1);
    }
  }

  /** Live indices and live values both ascend strictly. */
  lemma {:induction false} MinimaAscend(dq: seq<Entry>, g: seq<real>, lo: nat)
    requires Minima(dq, g, lo)
    ensures forall j :: 0 <= j < |dq| ==> lo <= dq[j].index < |g| && dq[j].value == g[dq[j].index]
    ensures forall i, j :: 0 <= i < j < |dq| ==> dq[i].index < dq[j].index && dq[i].value < dq[j].value
  {
    if dq != [] {
      MinimaAscend(dq[1..], g, dq[0].index + 1);
      forall j | 1 <= j < |dq| ensures dq[j] == dq[1..][j - 1] {}
    }
  }

  /** The deque after one push: expired heads off, dominated tails off, the new entry on. */
  function Expired(dq: seq<Entry>, cutoff: int): seq<Entry> {
    if dq != [] && dq[0].index <= cutoff then Expired(dq[1..], cutoff) else dq
  }

  function Undominated(dq: seq<Entry>, v: real): seq<Entry> {
    if dq != [] && dq[|dq| - 1].value >= v then Undominated(dq[..|dq| - 1], v) else dq
  }

  function NextDeque(dq: seq<Entry>, cutoff: int, e: Entry): seq<Entry> {
    Undominated(Expired(dq, cutoff), e.value) + [e]
  }

  /** A head below v survives the back-pops; they only shorten what follows it. */
  lemma {:induction false} HeadSurvives(e: Entry, dq: seq<Entry>, v: real)
    requires e.value < v
    ensures Undominated([e] + dq, v) == [e] + Undominated(dq, v)
    decreases |dq|
  {
    if dq != [] && dq[|dq| - 1].value >= v {
      HeadSurvives(e, dq[..|dq| - 1], v);
      assert ([e] + dq)[..|dq|] == [e] + dq[..|dq| - 1];
    }
  }

  lemma {:induction false} AllPopped(dq: seq<Entry>, v: real)
    requires forall j :: 0 <= j < |dq| ==> dq[j].value >= v
    ensures Undominated(dq, v) == []
    decreases |dq|
  {
    if dq != [] {
      AllPopped(dq[..|dq| - 1], v);
    }
  }

  lemma {:induction false} InsertKeeps(dq: seq<Entry>, g: seq<real>, lo: nat, v: real)
    requires Minima(dq, g, lo) && lo <= |g|
    ensures Minima(Undominated(dq, v) + [Entry(|g|, v)], g + [v], lo)
    decreases |dq|
  {
    var h, e := g + [v], Entry(|g|, v);
    if dq == [] || dq[0].value >= v {
      MinimaAscend(dq, g, lo);
      AllPopped(dq, v);
      assert [e][1..] == [];
    } else {
      InsertKeeps(dq[1..], g, dq[0].index + 1, v);
      var rest := Undominated(dq[1..], v) + [e];
      assert [dq[0]] + dq[1..] == dq;
      HeadSurvives(dq[0], dq[1..], v);
      assert Undominated(dq, v) + [e] == [dq[0]] + rest;
    }
  }

  /** The live deque entries after the required gains g. */
  function DequeAfter(p: Config, g: seq<real>): seq<Entry> {
    if g == [] then []
    else
      var n := |g| - 1;
      NextDeque(DequeAfter(p, g[..n]), n - p.lookahead, Entry(n, g[n]))
  }

  lemma ExpiredMeansInWindow(p: Config, dq: seq<Entry>, g: seq<real>)
    requires Minima(dq, g, MaxInt(0, |g| - p.lookahead))
    ensures Minima(Expired(dq, |g| - p.lookahead), g, WindowStart(p, |g|))
  {
  }

  lemma NextKeeps(p: Config, dq: seq<Entry>, g: seq<real>, v: real)
    requires Minima(dq, g, MaxInt(0, |g| - p.lookahead))
    ensures Minima(NextDeque(dq, |g| - p.lookahead, Entry(|g|, v)), g + [v], WindowStart(p, |g|))
  {
    ExpiredMeansInWindow(p, dq, g);
    InsertKeeps(Expired(dq, |g| - p.lookahead), g, WindowStart(p, |g|), v);
  }

  lemma {:induction false} DequeDescribesWindow(p: Config, g: seq<real>)
    ensures Minima(DequeAfter(p, g), g, MaxInt(0, |g| - p.lookahead))
  {
    if g != [] {
      var n := |g| - 1;
      var before, dq := g[..n], DequeAfter(p, g[..n]);
      DequeDescribesWindow(p, before);
      NextKeeps(p, dq, before, g[n]);
      assert before + [g[n]] == g;
      assert DequeAfter(p, g) == NextDeque(dq, n - p.lookahead, Entry(n, g[n]));
    }
  }

  /**
   The ring-buffer deque refines the brute-force scan: its head is the window minimum, and
   expiring first leaves at most lookahead - 1 live entries, so an insertion overwrites none.
   */
  lemma DequeRefinesScan(p: Config, g: seq<real>, required: real)
    ensures |Expired(DequeAfter(p, g), |g| - p.lookahead)| <= p.lookahead - 1
    ensures var d := DequeAfter(p, g + [required]);
      && d == NextDeque(DequeAfter(p, g), |g| - p.lookahead, Entry(|g|, required))
      && 0 < |d| <= p.lookahead
      && d[0].value == WindowMin(p, g + [required], |g|)
  {
    var h := g + [required];
    assert h[..|g|] == g;
    DequeDescribesWindow(p, g);
    ExpiredMeansInWindow(p, DequeAfter(p, g), g);
    LiveCount(Expired(DequeAfter(p, g), |g| - p.lookahead), g, WindowStart(p, |g|));
    DequeDescribesWindow(p, h);
    LiveCount(DequeAfter(p, h), h, WindowStart(p, |g|));
    HeadIsLeast(DequeAfter(p, h), h, WindowStart(p, |g|));
  }

  lemma HeadIsLeast(dq: seq<Entry>, g: seq<real>, lo: nat)
    requires Minima(dq, g, lo) && lo < |g|
    ensures dq != [] && dq[0].value == MinOver(g, lo, |g|)
  {
    MinOverIsLeast(g, lo, |g|);
  }

  /** The worst gain is unity or one that was applied, and none was smaller. */
  lemma {:induction false} WorstIsLeast(ss: seq<real>)
    ensures Worst(ss) <= 1.0 && forall i :: 0 <= i < |ss| ==> Worst(ss) <= ss[i]
    ensures Worst(ss) == 1.0 || exists i :: 0 <= i < |ss| && Worst(ss) == ss[i]
  {
    if ss != [] {
      var n := |ss| - 1;
      WorstIsLeast(ss[..n]);
      if Worst(ss) != 1.0 && Worst(ss) != ss[n] {
        var i :| 0 <= i < n && Worst(ss[..n]) == ss[..n][i];
        assert Worst(ss) == ss[i];
      }
    }
  }

  lemma WorstAppend(ss: seq<real>, x: real)
    ensures Worst(ss + [x]) == Min(Worst(ss), x)
  {
  }

  function LastRelease(p: Config, g: seq<real>): real {
    if g == [] then 1.0 else Release(p, g, |g| - 1)
  }

  lemma GainStep(p: Config, g: seq<real>, required: real)
    ensures var r := Min(WindowMin(p, g + [required], |g|), LastRelease(p, g) + p.step);
      && Releases(p, g + [required]) == Releases(p, g) + [r]
      && LastRelease(p, g + [required]) == r
    ensures Worst(Applied(p, g + [required])) == Min(Worst(Applied(p, g)), Gain(p, g + [required], |g|))
  {
    StagesAppend(p, g, required);
    WorstAppend(Applied(p, g), Gain(p, g + [required], |g|));
    if g != [] {
      ReleasePrefix(p, g, g + [required], |g| - 1);
    }
  }

  // ------------------------------------------------------------------
  // Ring slots
  // ------------------------------------------------------------------

  /** k % n, written so that a proof about a ring needs no division. */
  function Slot(k: nat, n: nat): (s: nat)
    requires n > 0
    ensures s < n
  {
    if k < n then k else Slot(k - n, n)
  }

  lemma RemainderStep(k: nat, n: nat)
    requires 0 < n <= k
    ensures k % n == (k - n) % n
  {
    var q, r := (k - n) / n, (k - n) % n;
    var d := k / n - q - 1;
    assert k - n == q * n + r && k == k / n * n + k % n;
    assert d * n == k / n * n - q * n - n;
    MulAtLeast(d, n);
  }

  lemma MulAtLeast(q: int, n: nat)
    requires n > 0
    ensures q >= 1 ==> q * n >= n
    ensures q <= -1 ==> q * n + n <= 0
  {
  }

  lemma {:induction false} SlotIsRemainder(k: nat, n: nat)
    requires n > 0
    ensures Slot(k, n) == k % n
  {
    if k >= n {
      SlotIsRemainder(k - n, n);
      RemainderStep(k, n);
    }
  }

  lemma {:induction false} SlotsDistinct(a: nat, b: nat, n: nat)
    requires n > 0 && a < b < a + n
    ensures Slot(a, n) != Slot(b, n)
  {
    if a >= n {
      SlotsDistinct(a - n, b - n, n);
    }
  }

  /** Writing slot |g| of a ring that spans [|g|, |g| + lookahead) makes it span one further. */
  lemma SlotSlides(n: nat, L: nat)
    requires L > 0
    ensures forall k :: n < k < n + L ==> Slot(k, L) != Slot(n, L)
    ensures Slot(n + L, L) == Slot(n, L)
  {
    forall k | n < k < n + L ensures Slot(k, L) != Slot(n, L) {
      SlotsDistinct(n, k, L);
    }
  }

  // ------------------------------------------------------------------
  // The limiter
  // ------------------------------------------------------------------

  class LookAheadLimiter {
    const p: Config
    /** The ring DelayLine describes. */
    const delayed: array<real>
    /** The rings Deque describes: value and index of each live entry, from dequeHead to dequeTail. */
    const dequeValue: array<real>
    const dequeIndex: array<int>
    /** The ring Ring describes, together with releaseSum. */
    const releaseRing: array<real>

    var dequeHead: nat
    var dequeTail: nat
    var cursor: nat
    var release: real
    var releaseSum: real
    var ringPrimed: bool
    var worst: real

    /** Every sample pushed since the last reset. */
    ghost var history: seq<real>
    /** The live deque entries, head first. */
    ghost var live: seq<Entry>

    ghost function Repr(): set<object> {
      {this, delayed, dequeValue, dequeIndex, releaseRing}
    }

    ghost predicate Layout() {
      && delayed.Length == dequeValue.Length == dequeIndex.Length == releaseRing.Length == p.lookahead
      && delayed != dequeValue && delayed != releaseRing && dequeValue != releaseRing
    }

    ghost predicate DelayLine(xs: seq<real>)
      requires Layout()
      reads delayed
    {
      forall k :: |xs| <= k < |xs| + p.lookahead ==> delayed[Slot(k, p.lookahead)] == Sample(xs, k - p.lookahead)
    }

    ghost predicate Deque()
      requires Layout()
      reads this`dequeHead, this`dequeTail, this`live, dequeValue, dequeIndex
    {
      && dequeTail == dequeHead + |live|
      && (forall k :: dequeHead <= k < dequeTail ==>
        && dequeIndex[Slot(k, p.lookahead)] == live[k - dequeHead].index
        && dequeValue[Slot(k, p.lookahead)] == live[k - dequeHead].value)
    }

    /** The ring and its running sum hold the release values averaged after rs. */
    ghost predicate Ring(rs: seq<real>)
      requires Layout()
      reads this`ringPrimed, this`releaseSum, releaseRing
    {
      && (ringPrimed <==> rs != [])
      && (rs != [] ==>
        && releaseSum == Sum(ReleaseWindow(p, rs, |rs| - 1))
        && (forall k :: |rs| <= k < |rs| + p.lookahead ==>
          releaseRing[Slot(k, p.lookahead)] == ReleaseAt(rs, k - p.lookahead)))
    }

    /** The state of the three gain stages after the required gains g. */
    ghost predicate Stages(g: seq<real>)
      requires Layout()
      reads this`dequeHead, this`dequeTail, this`live, dequeValue, dequeIndex
      reads this`ringPrimed, this`releaseSum, releaseRing, this`release, this`worst
    {
      && Deque()
      && live == DequeAfter(p, g)
      && Ring(Releases(p, g))
      && release == LastRelease(p, g)
      && worst == Worst(Applied(p, g))
    }

    ghost predicate Valid()
      reads this, delayed, dequeValue, dequeIndex, releaseRing
    {
      && Layout()
      && cursor == |history|
      && DelayLine(history)
      && Stages(Gains(p, history))
    }

    constructor (p: Config)
      ensures Valid() && this.p == p && history == []
      ensures fresh(Repr())
    {
      this.p := p;
      delayed := new real[p.lookahead](_ => 0.0);
      dequeValue := new real[p.lookahead](_ => 0.0);
      dequeIndex := new int[p.lookahead](_ => 0);
      releaseRing := new real[p.lookahead](_ => 0.0);
      dequeHead, dequeTail, cursor := 0, 0, 0;
      release, releaseSum, ringPrimed, worst := 1.0, 0.0, false, 1.0;
      history, live := [], [];
    }

    /** One deque step on the rings; expiring first is what leaves Append a free slot. */
    method WindowMinimum(required: real) returns (m: real)
      requires Layout() && Deque() && |Expired(live, cursor - p.lookahead)| < p.lookahead
      modifies this`dequeHead, this`dequeTail, this`live, dequeValue, dequeIndex
      ensures Deque() && live == NextDeque(old(live), cursor - p.lookahead, Entry(cursor, required))
      ensures m == live[0].value
    {
      Expire();
      PopDominated(required);
      Append(required);
      m := dequeValue[Slot(dequeHead, p.lookahead)];
    }

    method Expire()
      requires Layout() && Deque()
      modifies this`dequeHead, this`live
      ensures Deque() && live == Expired(old(live), cursor - p.lookahead)
    {
      var n := p.lookahead;
      while dequeTail > dequeHead && dequeIndex[Slot(dequeHead, n)] <= cursor - n
        invariant Deque() && Expired(live, cursor - n) == Expired(old(live), cursor - n)
        decreases |live|
      {
        dequeHead := dequeHead + 1;
        live := live[1..];
      }
    }

    method PopDominated(required: real)
      requires Layout() && Deque()
      modifies this`dequeTail, this`live
      ensures Deque() && live == Undominated(old(live), required) && |live| <= old(|live|)
    {
      var n := p.lookahead;
      while dequeTail > dequeHead && dequeValue[Slot(dequeTail - 1, n)] >= required
        invariant Deque() && |live| <= old(|live|)
        invariant Undominated(live, required) == Undominated(old(live), required)
        decreases |live|
      {
        dequeTail := dequeTail - 1;
        live := live[..|live| - 1];
      }
    }

    /** The ring has a free slot, so no live entry is overwritten. */
    method Append(required: real)
      requires Layout() && Deque() && |live| < p.lookahead
      modifies this`dequeTail, this`live, dequeValue, dequeIndex
      ensures Deque() && live == old(live) + [Entry(cursor, required)]
    {
      var slot := Slot(dequeTail, p.lookahead);
      forall k | dequeHead <= k < dequeTail ensures Slot(k, p.lookahead) != slot {
        SlotsDistinct(k, dequeTail, p.lookahead);
      }
      dequeValue[slot] := required;
      dequeIndex[slot] := cursor;
      dequeTail := dequeTail + 1;
      live := live + [Entry(cursor, required)];
    }

    /** The ring is full: swap the oldest release value for the new one and carry the sum along. */
    method Slide(value: real, slot: nat, ghost rs: seq<real>)
      requires Layout() && Ring(rs) && ringPrimed && slot == Slot(|rs|, p.lookahead)
      modifies this`releaseSum, releaseRing
      ensures Ring(rs + [value])
    {
      ghost var n := |rs|;
      SlotSlides(n, p.lookahead);
      WindowSlides(p, rs + [value], n - 1);
      SmoothedPrefix(p, rs, rs + [value], n - 1);
      SumSlide(ReleaseWindow(p, rs, n - 1), value);
      releaseSum := releaseSum + (value - releaseRing[slot]);
      releaseRing[slot] := value;
    }

    /** The first release value fills the whole ring, as if it had always been there. */
    method Prime(value: real)
      requires Layout() && !ringPrimed
      modifies this`releaseSum, this`ringPrimed, releaseRing
      ensures Ring([value])
    {
      forall i | 0 <= i < releaseRing.Length { releaseRing[i] := value; }
      releaseSum := value * p.lookahead as real;
      SumBounds(ReleaseWindow(p, [value], 0), value, value);
      ringPrimed := true;
    }

    /** One more release value: the ring and its sum follow, and the smoothed gain is read off. */
    method Smooth(value: real, slot: nat, ghost rs: seq<real>) returns (mean: real)
      requires Layout() && Ring(rs) && slot == Slot(|rs|, p.lookahead)
      modifies this`releaseSum, this`ringPrimed, releaseRing
      ensures Ring(rs + [value])
      ensures mean == Smoothed(p, rs + [value], |rs|)
    {
      if ringPrimed {
        Slide(value, slot, rs);
      } else {
        Prime(value);
        assert rs + [value] == [value];
      }
      mean := releaseSum / p.lookahead as real;
    }

    /** The deque answers what a scan of the whole window would. */
    method LeastRequired(required: real, ghost g: seq<real>) returns (m: real)
      requires Layout() && Deque() && live == DequeAfter(p, g) && cursor == |g|
      modifies this`dequeHead, this`dequeTail, this`live, dequeValue, dequeIndex
      ensures Deque() && live == DequeAfter(p, g + [required])
      ensures m == WindowMin(p, g + [required], |g|)
    {
      DequeRefinesScan(p, g, required);
      m := WindowMinimum(required);
    }

    /** r[] walks towards the window minimum, and the mean and the worst gain follow it. */
    method Follow(least: real, slot: nat, ghost rs: seq<real>) returns (gain: real)
      requires Layout() && Ring(rs) && slot == Slot(|rs|, p.lookahead)
      modifies this`release, this`releaseSum, this`ringPrimed, releaseRing, this`worst
      ensures release == Min(least, old(release) + p.step)
      ensures Ring(rs + [release])
      ensures gain == Smoothed(p, rs + [release], |rs|)
      ensures worst == Min(old(worst), gain)
    {
      release := Min(least, release + p.step);
      gain := Smooth(release, slot, rs);
      if gain < worst {
        worst := gain;
      }
    }

    /** All three gain stages, each extended by one value. */
    method NextGain(required: real, slot: nat, ghost g: seq<real>) returns (gain: real)
      requires Layout() && Stages(g) && cursor == |g| && slot == Slot(cursor, p.lookahead)
      modifies this`dequeHead, this`dequeTail, this`live, dequeValue, dequeIndex
      modifies this`release, this`releaseSum, this`ringPrimed, releaseRing, this`worst
      ensures Stages(g + [required])
      ensures gain == Gain(p, g + [required], |g|)
    {
      GainStep(p, g, required);
      var least := LeastRequired(required, g);
      gain := Follow(least, slot, Releases(p, g));
      assert Releases(p, g + [required]) == Releases(p, g) + [release];
    }

    /** The new sample goes into its slot; the oldest one in the ring is due. */
    method Delay(sample: real, slot: nat, ghost xs: seq<real>) returns (x: real)
      requires Layout() && DelayLine(xs) && cursor == |xs| && slot == Slot(cursor, p.lookahead)
      modifies delayed
      ensures DelayLine(xs + [sample])
      ensures x == Sample(xs + [sample], |xs| + 1 - p.lookahead)
    {
      x := delayed[Slot(cursor + 1, p.lookahead)];
      SlotSlides(cursor, p.lookahead);
      delayed[slot] := sample;
    }

    /** Every stage takes the new sample; only the cursor is still to move. */
    method Take(sample: real, ghost xs: seq<real>) returns (emit: real)
      requires Layout() && DelayLine(xs) && Stages(Gains(p, xs)) && cursor == |xs|
      modifies this`dequeHead, this`dequeTail, this`live, dequeValue, dequeIndex, delayed
      modifies this`release, this`releaseSum, this`ringPrimed, releaseRing, this`worst
      ensures DelayLine(xs + [sample]) && Stages(Gains(p, xs) + [Required(p, sample)])
      ensures Outputs(p, xs + [sample]) == Outputs(p, xs) + [emit]
    {
      var slot := Slot(cursor, p.lookahead);
      var gain := NextGain(Required(p, sample), slot, Gains(p, xs));
      var x := Delay(sample, slot, xs);
      emit := Attenuate(x, gain);
      OutputsAppend(p, xs, sample);
    }

    /** One push extends the output stream by one value; CannotClip bounds it. */
    method Push(sample: real) returns (emit: real)
      requires Valid()
      modifies Repr()
      ensures Valid() && history == old(history) + [sample]
      ensures Outputs(p, history) == Outputs(p, old(history)) + [emit]
    {
      ghost var xs := history;
      history := xs + [sample];
      emit := Take(sample, xs);
      GainsAppend(p, xs, sample);
      cursor := cursor + 1;
    }

    method Reset()
      requires Layout()
      modifies Repr()
      ensures Valid() && history == []
    {
      forall i | 0 <= i < p.lookahead { delayed[i] := 0.0; }
      forall i | 0 <= i < p.lookahead { releaseRing[i] := 0.0; }
      dequeHead, dequeTail, cursor := 0, 0, 0;
      release, releaseSum, ringPrimed, worst := 1.0, 0.0, false, 1.0;
      history, live := [], [];
      assert Gains(p, history) == [];
    }
  }

  /** With the program's constants that is 3694 pushes after the last loud sample. */
  lemma RecoveryByDefault(p: Config, xs: seq<real>, from: nat, n: nat)
    requires p.lookahead == 48 && p.step == 1.0 / 3600.0
    requires forall i :: from <= i < |xs| ==> Abs(xs[i]) <= p.ceiling
    requires from + 3694 <= n < |xs|
    ensures Emitted(p, xs, n) == xs[n - 47]
  {
    TransparentAfterRecovery(p, xs, from, 3600, n);
  }
}
