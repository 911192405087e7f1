/**
 The caller-voice detector: a 20 ms frame is loud when it clears an absolute floor and stands
 far enough above the line's own noise, which is tracked by an asymmetric follower; speech is
 a run of loud frames that tolerates short gaps. A frame's level is a non-negative real.
 */
module VoiceActivity {
  import opened RealArithmetic
  import opened Pcm
  import opened Options
  import OutboundQueue

  const NOISE_FALL := 0.25
  const NOISE_RISE := 0.002

  datatype Settings = Settings(floor: real, over: real, runFrames: nat, gapFrames: nat)

  type Config = s: Settings | s.floor > 0.0 && s.over > 0.0 witness Settings(1.0, 2.5, 8, 6)

  type Level = r: real | r >= 0.0

  function MinNoise(c: Config): (m: real)
    ensures m > 0.0
  {
    QuotientPositive(c.floor, c.over);
    c.floor / c.over
  }

  function Threshold(c: Config, noise: real): real {
    noise * c.over
  }

  datatype State = State(noise: real, loudRun: nat, quietRun: nat, frames: nat, loudFrames: nat, voicedFrames: nat, peak: real)

  const START := State(0.0, 0, 0, 0, 0, 0, 0.0)

  /** The first frame of a call seeds the estimate. */
  function Seeded(c: Config, noise: real, rms: real): real {
    if noise == 0.0 then Max(MinNoise(c), rms) else noise
  }

  predicate Loud(c: Config, noise: real, rms: real) {
    rms > c.floor && rms > Threshold(c, noise)
  }

  /** Fast down, slow up, by every frame, and never below the minimum. */
  function Followed(c: Config, noise: real, rms: real): real {
    Max(MinNoise(c), noise + (rms - noise) * (if rms < noise then NOISE_FALL else NOISE_RISE))
  }

  /** The estimate, the frame count and the peak after a frame. */
  function Heard(c: Config, s: State, rms: real): State {
    s.(noise := Followed(c, Seeded(c, s.noise, rms), rms), frames := s.frames + 1, peak := Max(s.peak, rms))
  }

  /** The run counters after it, and whether it counts as speech. */
  function Counted(c: Config, s: State, loud: bool): (State, bool) {
    if !loud then
      (s.(quietRun := s.quietRun + 1, loudRun := if s.quietRun + 1 >= c.gapFrames then 0 else s.loudRun), false)
    else
      var t := s.(loudFrames := s.loudFrames + 1, quietRun := 0, loudRun := s.loudRun + 1);
      if t.loudRun < c.runFrames then (t, false) else (t.(voicedFrames := s.voicedFrames + 1), true)
  }

  function Measured(c: Config, s: State, rms: real): (State, bool) {
    Counted(c, Heard(c, s, rms), Loud(c, Seeded(c, s.noise, rms), rms))
  }

  // ------------------------------------------------------------------
  // Whole calls
  // ------------------------------------------------------------------

  function After(c: Config, levels: seq<Level>): State {
    if levels == [] then START
    else
      var n := |levels| - 1;
      Measured(c, After(c, levels[..n]), levels[n]).0
  }

  /** What the detector reports for the last frame. */
  predicate Voiced(c: Config, levels: seq<Level>)
    requires levels != []
  {
    var n := |levels| - 1;
    Measured(c, After(c, levels[..n]), levels[n]).1
  }

  predicate LastLoud(c: Config, levels: seq<Level>)
    requires levels != []
  {
    var n := |levels| - 1;
    Loud(c, Seeded(c, After(c, levels[..n]).noise, levels[n]), levels[n])
  }

  /** Which frames were loud. */
  function Louds(c: Config, levels: seq<Level>): (h: seq<bool>)
    ensures |h| == |levels|
  {
    if levels == [] then [] else Louds(c, levels[..|levels| - 1]) + [LastLoud(c, levels)]
  }

  lemma AfterAppend(c: Config, levels: seq<Level>, rms: Level)
    ensures After(c, levels + [rms]) == Measured(c, After(c, levels), rms).0
    ensures Voiced(c, levels + [rms]) == Measured(c, After(c, levels), rms).1
  {
  }

  // ------------------------------------------------------------------
  // A run is what was loud since the last gap
  // ------------------------------------------------------------------

  /** A gap length of zero acts like one: every quiet frame ends the run. */
  function Gap(c: Config): nat {
    if c.gapFrames == 0 then 1 else c.gapFrames
  }

  ghost predicate GapEndsAt(h: seq<bool>, gap: nat, e: nat) {
    gap <= e <= |h| && forall i :: e - gap <= i < e ==> !h[i]
  }

  /** End of the last run of `gap` consecutive quiet frames, 0 when there is none. */
  ghost function LastGap(h: seq<bool>, gap: nat): (e: nat)
    requires gap > 0
    ensures e <= |h| && (e > 0 ==> GapEndsAt(h, gap, e))
    ensures forall k :: e < k <= |h| ==> !GapEndsAt(h, gap, k)
  {
    if h == [] then 0
    else if GapEndsAt(h, gap, |h|) then |h|
    else
      var before := h[..|h| - 1];
      var e := LastGap(before, gap);
      assert forall k: nat :: k <= |before| ==> GapEndsAt(h, gap, k) == GapEndsAt(before, gap, k);
      e
  }

  function LoudSince(h: seq<bool>, from: nat): nat {
    if |h| <= from then 0 else LoudSince(h[..|h| - 1], from) + if h[|h| - 1] then 1 else 0
  }

  function TrailingQuiet(h: seq<bool>): nat {
    if h == [] || h[|h| - 1] then 0 else TrailingQuiet(h[..|h| - 1]) + 1
  }

  lemma {:induction false} TrailingQuietIsGap(h: seq<bool>, gap: nat)
    requires gap > 0
    ensures TrailingQuiet(h) <= |h|
    ensures TrailingQuiet(h) >= gap <==> GapEndsAt(h, gap, |h|)
    decreases |h|
  {
    if h != [] && !h[|h| - 1] {
      var before := h[..|h| - 1];
      if gap > 1 {
        TrailingQuietIsGap(before, gap - 1);
        assert GapEndsAt(before, gap - 1, |before|) <==> GapEndsAt(h, gap, |h|);
      } else {
        TrailingQuietIsGap(before, 1);
      }
    }
  }

  lemma {:induction false} CountersTrackRun(c: Config, levels: seq<Level>)
    ensures var (s, h) := (After(c, levels), Louds(c, levels));
      s.quietRun == TrailingQuiet(h) && s.loudRun == LoudSince(h, LastGap(h, Gap(c)))
    decreases |levels|
  {
    if levels != [] {
      var n := |levels| - 1;
      var h, before := Louds(c, levels), Louds(c, levels[..n]);
      CountersTrackRun(c, levels[..n]);
      assert h[..n] == before;
      TrailingQuietIsGap(h, Gap(c));
      if GapEndsAt(h, Gap(c), |h|) {
        assert LoudSince(h, |h|) == 0;
      }
    }
  }

  /**
   A frame is reported voiced exactly when it is loud and at least `runFrames` loud frames,
   itself included, came since the last run of `gapFrames` quiet ones.
   */
  lemma VoicedExactly(c: Config, levels: seq<Level>)
    requires levels != []
    ensures Voiced(c, levels) <==>
      var h := Louds(c, levels);
      h[|h| - 1] && LoudSince(h, LastGap(h, Gap(c))) >= c.runFrames
  {
    CountersTrackRun(c, levels);
  }

  // ------------------------------------------------------------------
  // The noise estimate
  // ------------------------------------------------------------------

  /** The first frame of a call seeds the estimate with its own level, and is never loud. */
  lemma FirstFrameSeeds(c: Config, r: Level)
    requires c.over >= 1.0
    ensures After(c, [r]).noise == Max(MinNoise(c), r) && !LastLoud(c, [r])
  {
    assert [r][..0] == [];
    MulMonotone(Max(MinNoise(c), r), 1.0, c.over);
  }

  /** The estimate stays between the minimum and the loudest frame (or the minimum, if louder). */
  lemma {:induction false} NoiseBounds(c: Config, levels: seq<Level>)
    requires levels != []
    ensures var s := After(c, levels);
      MinNoise(c) <= s.noise <= Max(MinNoise(c), s.peak) && levels[|levels| - 1] <= s.peak
    decreases |levels|
  {
    var n := |levels| - 1;
    if n > 0 {
      NoiseBounds(c, levels[..n]);
    }
    var before := Seeded(c, After(c, levels[..n]).noise, levels[n]);
    FollowBetween(before, levels[n]);
  }

  /** The follower moves part of the way towards the frame. */
  lemma FollowBetween(noise: real, rms: real)
    ensures var next := noise + (rms - noise) * (if rms < noise then NOISE_FALL else NOISE_RISE);
      if rms < noise then rms <= next <= noise else noise <= next <= rms
  {
  }

  function Repeated(r: Level, n: nat): seq<Level> {
    seq(n, _ => r)
  }

  /** What is left after k frames of the slow rise, as a fraction of what there was. */
  function Decay(k: nat): real {
    if k == 0 then 1.0 else Decay(k - 1) * (1.0 - NOISE_RISE)
  }

  lemma {:induction false} DecayAdds(j: nat, k: nat)
    ensures Decay(j + k) == Decay(j) * Decay(k)
    ensures Decay(k) > 0.0
    decreases k
  {
    if k > 0 {
      DecayAdds(j, k - 1);
      var a, b := Decay(j), Decay(k - 1);
      assert (a * b) * (1.0 - NOISE_RISE) == a * (b * (1.0 - NOISE_RISE));
    }
  }

  lemma DecaySquares(k: nat, q: real)
    requires Decay(k) <= q
    ensures Decay(k + k) <= q * q
  {
    DecayAdds(k, k);
    DecayAdds(0, k);
    MulMonotone(Decay(k), Decay(k), q);
    MulMonotone(q, Decay(k), q);
  }

  lemma FourSquarings(k: nat, q1: real, q2: real, q4: real, q8: real)
    requires Decay(k) <= q1 && q1 * q1 <= q2 && q2 * q2 <= q4 && q4 * q4 <= q8
    ensures Decay(16 * k) <= q8 * q8
  {
    DecaySquares(k, q1);
    DecaySquares(k + k, q2);
    DecaySquares(k + k + k + k, q4);
    var eight := k + k + k + k + k + k + k + k;
    DecaySquares(eight, q8);
    assert eight + eight == 16 * k;
  }

  /** 0.998 to the 256th, by squaring eight times; `one` keeps the powers from being computed out. */
  lemma DecayBelow(one: nat)
    requires one == 1
    ensures Decay(256 * one) <= 0.6
  {
    assert Decay(one) == Decay(one - 1) * 0.998;
    FourSquarings(one, 0.998, 0.996004, 0.99202397, 0.98411156);
    FourSquarings(16 * one, 0.96847557, 0.93794493, 0.8797407, 0.7739437);
  }

  function Shrunk(r: real, k: nat): real {
    r * Decay(k)
  }

  lemma ShrunkStep(r: real, k: nat)
    ensures Shrunk(r, k + 1) == Shrunk(r, k) * (1.0 - NOISE_RISE)
    ensures Shrunk(r, 0) == r
    ensures r >= 0.0 ==> Shrunk(r, k) >= 0.0
  {
    DecayAdds(0, k);
    var d := Decay(k);
    assert r * (d * (1.0 - NOISE_RISE)) == (r * d) * (1.0 - NOISE_RISE);
    if r >= 0.0 {
      MulMonotone(r, 0.0, d);
    }
  }

  lemma NoiseNext(c: Config, levels: seq<Level>, r: Level)
    ensures After(c, levels + [r]).noise == Followed(c, Seeded(c, After(c, levels).noise, r), r)
  {
  }

  lemma FollowApproaches(c: Config, noise: real, r: Level, short: real)
    requires noise >= r - short && short >= 0.0
    ensures Followed(c, noise, r) >= r - short * (1.0 - NOISE_RISE)
    ensures Followed(c, noise, r) >= 0.0
  {
    FollowBetween(noise, r);
  }

  /** One frame of the constant level: the shortfall shrinks by the slow rate, or is gone. */
  lemma ShortfallShrinks(c: Config, before: seq<Level>, r: Level, short: real)
    requires After(c, before).noise >= r - short && short >= 0.0
    ensures After(c, before + [r]).noise >= r - short * (1.0 - NOISE_RISE)
  {
    NoiseNext(c, before, r);
    FollowApproaches(c, Seeded(c, After(c, before).noise, r), r, short);
  }

  /** Under a constant level the estimate closes in on it at least as fast as the decay. */
  lemma {:induction false} ConstantLevelApproach(c: Config, levels: seq<Level>, r: Level, k: nat)
    ensures After(c, levels + Repeated(r, k)).noise >= r - Shrunk(r, k)
    decreases k
  {
    if k == 0 {
      ShrunkStep(r, 0);
      assert levels + Repeated(r, k) == levels;
      if levels != [] {
        NoiseBounds(c, levels);
      }
    } else {
      ConstantLevelApproach(c, levels, r, k - 1);
      ShrunkStep(r, k - 1);
      ShortfallShrinks(c, levels + Repeated(r, k - 1), r, Shrunk(r, k - 1));
      assert levels + Repeated(r, k) == (levels + Repeated(r, k - 1)) + [r];
    }
  }

  lemma AbsorbedOnce(c: Config, r: real, noise: real, decay: real)
    requires r >= 0.0 && noise >= r - r * decay && decay * c.over <= c.over - 1.0
    ensures r <= Threshold(c, noise)
  {
    var o := c.over;
    MulMonotone(o, r - r * decay, noise);
    MulMonotone(r, decay * o, o - 1.0);
    assert o * (r - r * decay) == r * o - r * (decay * o);
    assert r * (o - 1.0) == r * o - r;
  }

  /**
   A constant level stops being loud after `frames` frames and is never loud again while it
   lasts, for any `frames` in which the decay reaches 1 - 1/over.
   */
  lemma ConstantLevelAbsorbed(c: Config, levels: seq<Level>, r: Level, frames: nat, k: nat)
    requires 0 < frames <= k && Decay(frames) * c.over <= c.over - 1.0
    ensures !LastLoud(c, levels + Repeated(r, k + 1))
  {
    NoiseReaches(c, levels, r, frames, k);
    NotLoudNext(c, levels + Repeated(r, k), r);
    assert (levels + Repeated(r, k)) + [r] == levels + Repeated(r, k + 1);
  }

  lemma NoiseReaches(c: Config, levels: seq<Level>, r: Level, frames: nat, k: nat)
    requires 0 < frames <= k && Decay(frames) * c.over <= c.over - 1.0
    ensures r <= Threshold(c, After(c, levels + Repeated(r, k)).noise)
  {
    ConstantLevelApproach(c, levels, r, k);
    AbsorbedAfter(c, r, After(c, levels + Repeated(r, k)).noise, frames, k);
  }

  lemma AbsorbedAfter(c: Config, r: Level, noise: real, frames: nat, k: nat)
    requires frames <= k && Decay(frames) * c.over <= c.over - 1.0 && noise >= r - Shrunk(r, k)
    ensures r <= Threshold(c, noise)
  {
    DecayEnough(c.over, frames, k);
    AbsorbedOnce(c, r, noise, Decay(k));
  }

  lemma NotLoudNext(c: Config, before: seq<Level>, r: Level)
    requires before != [] && r <= Threshold(c, After(c, before).noise)
    ensures !LastLoud(c, before + [r])
  {
  }

  lemma DecayEnough(over: real, frames: nat, k: nat)
    requires over > 0.0 && frames <= k && Decay(frames) * over <= over - 1.0
    ensures Decay(k) * over <= over - 1.0
  {
  }

  lemma {:induction false} DecayShrinks(j: nat, k: nat)
    requires j <= k
    ensures Decay(k) <= Decay(j)
    decreases k
  {
    if j < k {
      DecayShrinks(j, k - 1);
      DecayAdds(0, k - 1);
    }
  }

  /** At the default ratio of 2.5 that is 256 frames, 5.12 s, whatever came before. */
  lemma ConstantLevelAbsorbedByDefault(c: Config, levels: seq<Level>, r: Level, k: nat)
    requires c.over == 2.5 && k >= 256
    ensures !LastLoud(c, levels + Repeated(r, k + 1))
  {
    var one: nat := 1;
    DecayBelow(one);
    ConstantLevelAbsorbed(c, levels, r, 256 * one, k);
  }

  // ------------------------------------------------------------------
  // How long a constant level stays loud, exactly
  // ------------------------------------------------------------------

  /** The rise is exact from any estimate not above the level. */
  lemma {:induction false} ConstantLevelNoise(c: Config, levels: seq<Level>, r: Level, k: nat)
    requires levels != [] && After(c, levels).noise <= r
    ensures After(c, levels + Repeated(r, k)).noise == r - Shrunk(r - After(c, levels).noise, k)
    decreases k
  {
    var short := r - After(c, levels).noise;
    if k == 0 {
      ShrunkStep(short, 0);
      assert levels + Repeated(r, k) == levels;
    } else {
      ConstantLevelNoise(c, levels, r, k - 1);
      ConstantLevelStep(c, levels + Repeated(r, k - 1), r, short, k - 1);
      assert levels + Repeated(r, k) == (levels + Repeated(r, k - 1)) + [r];
    }
  }

  lemma ConstantLevelStep(c: Config, before: seq<Level>, r: Level, short: real, k: nat)
    requires before != [] && short >= 0.0 && After(c, before).noise == r - Shrunk(short, k)
    ensures After(c, before + [r]).noise == r - Shrunk(short, k + 1)
  {
    ShrunkStep(short, k);
    NoiseBounds(c, before);
    NoiseNext(c, before, r);
    RiseIsExact(c, After(c, before).noise, r);
  }

  lemma RiseIsExact(c: Config, noise: real, r: Level)
    requires MinNoise(c) <= noise <= r
    ensures Followed(c, noise, r) == r - (r - noise) * (1.0 - NOISE_RISE)
    ensures Seeded(c, noise, r) == noise
  {
  }

  /** After k frames a constant level is still loud if and only if the decayed gap still clears the ratio. */
  lemma ConstantLevelLoudExactly(c: Config, levels: seq<Level>, r: Level, k: nat)
    requires levels != [] && After(c, levels).noise <= r
    ensures LastLoud(c, levels + Repeated(r, k + 1)) <==>
      r > c.floor && r > Threshold(c, r - Shrunk(r - After(c, levels).noise, k))
  {
    var before := levels + Repeated(r, k);
    ConstantLevelNoise(c, levels, r, k);
    NoiseBounds(c, before);
    assert levels + Repeated(r, k + 1) == before + [r];
    assert (before + [r])[..|before|] == before;
    assert Seeded(c, After(c, before).noise, r) == After(c, before).noise;
  }

  /** What is left after k frames of the fast fall. */
  function FastDecay(k: nat): real {
    if k == 0 then 1.0 else FastDecay(k - 1) * (1.0 - NOISE_FALL)
  }

  function Fallen(r: real, k: nat): real {
    r * FastDecay(k)
  }

  lemma FallenStep(excess: real, k: nat)
    ensures Fallen(excess, k + 1) == Fallen(excess, k) * 0.75 && Fallen(excess, 0) == excess
    ensures excess >= 0.0 ==> Fallen(excess, k) >= 0.0
    decreases k
  {
    var d := FastDecay(k);
    assert excess * (d * 0.75) == (excess * d) * 0.75;
    if k > 0 {
      FallenStep(excess, k - 1);
    }
  }

  /** Under a constant level below it the estimate loses a quarter of its excess a frame, down to the minimum. */
  lemma {:induction false} QuieterLevelNoise(c: Config, levels: seq<Level>, r: Level, k: nat)
    requires levels != [] && r <= After(c, levels).noise
    ensures After(c, levels + Repeated(r, k)).noise == Max(MinNoise(c), r + Fallen(After(c, levels).noise - r, k))
    decreases k
  {
    var excess := After(c, levels).noise - r;
    NoiseBounds(c, levels);
    if k == 0 {
      FallenStep(excess, 0);
      assert levels + Repeated(r, k) == levels;
    } else {
      QuieterLevelNoise(c, levels, r, k - 1);
      FallenStep(excess, k - 1);
      QuieterLevelStep(c, levels + Repeated(r, k - 1), r, Fallen(excess, k - 1));
      assert levels + Repeated(r, k) == (levels + Repeated(r, k - 1)) + [r];
    }
  }

  lemma QuieterLevelStep(c: Config, before: seq<Level>, r: Level, excess: real)
    requires before != [] && excess >= 0.0 && After(c, before).noise == Max(MinNoise(c), r + excess)
    ensures After(c, before + [r]).noise == Max(MinNoise(c), r + excess * 0.75)
  {
    NoiseNext(c, before, r);
  }

  /** Four quiet frames, 80 ms, leave less than a third of the excess. */
  lemma SettlesInFourFrames(c: Config, levels: seq<Level>, r: Level)
    requires levels != [] && MinNoise(c) <= r <= After(c, levels).noise
    ensures After(c, levels + Repeated(r, 4)).noise - r <= (After(c, levels).noise - r) / 3.0
  {
    var excess := After(c, levels).noise - r;
    QuieterLevelNoise(c, levels, r, 4);
    FallenStep(excess, 3);
    FallenStep(excess, 2);
    FallenStep(excess, 1);
    FallenStep(excess, 0);
  }

  /** How often something holds. */
  function Holds(h: seq<bool>): nat {
    if h == [] then 0 else Holds(h[..|h| - 1]) + if h[|h| - 1] then 1 else 0
  }

  /** Which frames were reported as speech. */
  function Voices(c: Config, levels: seq<Level>): (h: seq<bool>)
    ensures |h| == |levels|
  {
    if levels == [] then [] else Voices(c, levels[..|levels| - 1]) + [Voiced(c, levels)]
  }

  /** The statistics count the frames, the loud ones and the reported ones. */
  lemma {:induction false} StatisticsExactly(c: Config, levels: seq<Level>)
    ensures var s := After(c, levels);
      s.frames == |levels| && s.loudFrames == Holds(Louds(c, levels)) && s.voicedFrames == Holds(Voices(c, levels))
    decreases |levels|
  {
    if levels != [] {
      var n := |levels| - 1;
      StatisticsExactly(c, levels[..n]);
      StatisticsStep(c, After(c, levels[..n]), levels[n]);
      HoldsAppend(Louds(c, levels[..n]), LastLoud(c, levels));
      HoldsAppend(Voices(c, levels[..n]), Voiced(c, levels));
    }
  }

  lemma StatisticsStep(c: Config, s: State, rms: Level)
    ensures var (t, voiced) := Measured(c, s, rms);
      && t.frames == s.frames + 1 && t.peak == Max(s.peak, rms)
      && t.loudFrames == s.loudFrames + (if Loud(c, Seeded(c, s.noise, rms), rms) then 1 else 0)
      && t.voicedFrames == s.voicedFrames + (if voiced then 1 else 0)
  {
  }

  lemma HoldsAppend(h: seq<bool>, b: bool)
    ensures Holds(h + [b]) == Holds(h) + if b then 1 else 0
  {
    assert (h + [b])[..|h|] == h;
  }

  /** The peak is the loudest level so far. */
  lemma {:induction false} PeakExactly(c: Config, levels: seq<Level>)
    requires levels != []
    ensures forall i :: 0 <= i < |levels| ==> levels[i] <= After(c, levels).peak
    ensures exists i :: 0 <= i < |levels| && levels[i] == After(c, levels).peak
    decreases |levels|
  {
    var n := |levels| - 1;
    StatisticsStep(c, After(c, levels[..n]), levels[n]);
    if n > 0 {
      PeakExactly(c, levels[..n]);
      var i :| 0 <= i < n && levels[..n][i] == After(c, levels[..n]).peak;
      assert levels[if levels[n] >= levels[i] then n else i] == After(c, levels).peak;
    } else {
      assert levels[0] == After(c, levels).peak;
    }
  }

  lemma DecayProduct(j: nat, k: nat, a: real, b: real)
    requires 0.0 <= a <= Decay(j) && 0.0 <= b <= Decay(k)
    ensures Decay(j + k) >= a * b
  {
    DecayAdds(j, k);
    ProductAbove(a, b, Decay(j), Decay(k));
  }

  lemma FifthPower(k: nat, q: real, q2: real, q4: real)
    requires 0.0 <= q <= Decay(k) && 0.0 <= q2 <= q * q && 0.0 <= q4 <= q2 * q2
    ensures Decay(5 * k) >= q4 * q
  {
    DecayProduct(k, k, q, q);
    DecayProduct(k + k, k + k, q2, q2);
    var four := k + k + k + k;
    DecayProduct(four, k, q4, q);
    assert four + k == 5 * k;
  }

  /** 0.998 to the 250th, by three fifth powers of its square. */
  lemma DecayAbove(one: nat)
    requires one == 1
    ensures Decay(5 * (5 * (5 * (one + one)))) >= 0.606
  {
    assert Decay(one) == Decay(one - 1) * 0.998;
    DecayProduct(one, one, 0.998, 0.998);
    FifthPower(one + one, 0.996004, 0.992023, 0.984109);
    FifthPower(5 * (one + one), 0.980176, 0.960744, 0.923029);
    FifthPower(5 * (5 * (one + one)), 0.904730, 0.818536, 0.670001);
  }

  /** With the defaults a full-scale tone after one silent frame outlasts 250 frames, five seconds. */
  lemma FiveSecondsAreTooShort(c: Config)
    requires c.over == 2.5 && c.floor <= 104.0
    ensures LastLoud(c, [0.0] + Repeated(32767.0, 251))
  {
    var one: nat := 1;
    var k := 5 * (5 * (5 * (one + one)));
    var start: seq<Level> := [0.0];
    DecayAbove(one);
    SilenceSeedsMinimum(c);
    ToneClears(c, MinNoise(c), k);
    ConstantLevelLoudExactly(c, start, 32767.0, k);
    assert k + 1 == 251;
  }

  lemma ToneClears(c: Config, noise: real, k: nat)
    requires c.over == 2.5 && noise * 2.5 <= 104.0 && Decay(k) >= 0.606
    ensures 32767.0 > Threshold(c, 32767.0 - Shrunk(32767.0 - noise, k))
  {
    MulMonotone(32767.0 - noise, 0.606, Decay(k));
  }

  lemma SilenceSeedsMinimum(c: Config)
    ensures After(c, [0.0]).noise == MinNoise(c)
    ensures MinNoise(c) * c.over == c.floor
  {
  }

  // ------------------------------------------------------------------
  // The detector
  // ------------------------------------------------------------------

  function LevelsOf(level: OutboundQueue.Frame -> Level, fs: seq<OutboundQueue.Frame>): seq<Level> {
    if fs == [] then [] else [level(fs[0])] + LevelsOf(level, fs[1..])
  }

  /** Some frame from `from` on counted as speech. */
  ghost predicate AnyVoiced(c: Config, levels: seq<Level>, from: nat) {
    exists i :: from < i <= |levels| && Voiced(c, levels[..i])
  }

  lemma AnyVoicedAppend(c: Config, levels: seq<Level>, rms: Level, from: nat)
    requires from <= |levels|
    ensures AnyVoiced(c, levels + [rms], from) <==> Voiced(c, levels + [rms]) || AnyVoiced(c, levels, from)
  {
    var more := levels + [rms];
    assert more[..|more|] == more;
    assert forall i :: 0 <= i <= |levels| ==> more[..i] == levels[..i];
  }

  /** The first frame of what is left after `offset` bytes, and the rest. */
  lemma LevelsStep(level: OutboundQueue.Frame -> Level, source: seq<byte>, offset: nat)
    requires offset + OutboundQueue.FRAME_BYTES <= |source|
    ensures var next := offset + OutboundQueue.FRAME_BYTES;
      && LevelsOf(level, OutboundQueue.Frames(source[offset..]))
         == [level(source[offset..next])] + LevelsOf(level, OutboundQueue.Frames(source[next..]))
      && OutboundQueue.Remainder(source[offset..]) == OutboundQueue.Remainder(source[next..])
  {
    var rest, next := source[offset..], offset + OutboundQueue.FRAME_BYTES;
    assert rest[..OutboundQueue.FRAME_BYTES] == source[offset..next];
    assert rest[OutboundQueue.FRAME_BYTES..] == source[next..];
  }

  class CallerVoiceActivity {
    const c: Config
    const level: OutboundQueue.Frame -> Level
    var noiseRms: real
    var loudRun: nat
    var quietRun: nat
    var frameCount: nat
    var loudFrameCount: nat
    var voicedFrameCount: nat
    var peak: real
    var lastFrame: Option<int>
    var lastVoice: Option<int>
    var tail: seq<byte>
    /** The level of every frame measured. */
    ghost var heard: seq<Level>

    function Counters(): State
      reads this
    {
      State(noiseRms, loudRun, quietRun, frameCount, loudFrameCount, voicedFrameCount, peak)
    }

    ghost predicate Valid()
      reads this
    {
      Counters() == After(c, heard)
    }

    constructor (c: Config, level: OutboundQueue.Frame -> Level)
      ensures Valid() && heard == [] && tail == [] && lastVoice.None?
      ensures this.c == c && this.level == level
    {
      this.c, this.level := c, level;
      noiseRms, loudRun, quietRun, frameCount, loudFrameCount, voicedFrameCount, peak := 0.0, 0, 0, 0, 0, 0, 0.0;
      lastFrame, lastVoice, tail, heard := None, None, [], [];
    }

    method Measure(rms: Level, now: int) returns (voiced: bool)
      requires Valid()
      modifies this`noiseRms, this`loudRun, this`quietRun, this`frameCount, this`loudFrameCount
      modifies this`voicedFrameCount, this`peak, this`lastVoice, this`heard
      ensures Valid() && heard == old(heard) + [rms]
      ensures voiced == Voiced(c, heard)
      ensures lastVoice == if voiced then Some(now) else old(lastVoice)
    {
      AfterAppend(c, heard, rms);
      var loud := TrackNoise(rms);
      voiced := CountFrame(loud);
      heard := heard + [rms];
      if voiced {
        lastVoice := Some(now);
      }
    }

    /** The noise estimate takes the frame, which was loud or not against the estimate before it. */
    method TrackNoise(rms: Level) returns (loud: bool)
      modifies this`noiseRms, this`frameCount, this`peak
      ensures Counters() == Heard(c, old(Counters()), rms)
      ensures loud == Loud(c, Seeded(c, old(noiseRms), rms), rms)
    {
      frameCount := frameCount + 1;
      peak := Max(peak, rms);
      var noise := Seeded(c, noiseRms, rms);
      loud := Loud(c, noise, rms);
      noiseRms := Followed(c, noise, rms);
    }

    /** The run counters, and whether this frame is speech. */
    method CountFrame(loud: bool) returns (voiced: bool)
      modifies this`loudRun, this`quietRun, this`loudFrameCount, this`voicedFrameCount
      ensures (Counters(), voiced) == Counted(c, old(Counters()), loud)
    {
      if !loud {
        quietRun := quietRun + 1;
        if quietRun >= c.gapFrames {
          loudRun := 0;
        }
        return false;
      }
      loudFrameCount := loudFrameCount + 1;
      quietRun := 0;
      loudRun := loudRun + 1;
      if loudRun < c.runFrames {
        return false;
      }
      voicedFrameCount := voicedFrameCount + 1;
      voiced := true;
    }

    /** Feed caller audio of any length; every whole frame is measured, none is skipped. */
    method Push(slin8k: seq<byte>, now: int) returns (voiced: bool)
      requires Valid()
      modifies this
      ensures Valid()
      ensures heard == old(heard) + if slin8k == [] then [] else LevelsOf(level, OutboundQueue.Frames(old(tail) + slin8k))
      ensures slin8k != [] ==> tail == OutboundQueue.Remainder(old(tail) + slin8k) && lastFrame == Some(now)
      ensures voiced <==> AnyVoiced(c, heard, old(|heard|))
      ensures lastVoice == if voiced then Some(now) else old(lastVoice)
    {
      if slin8k == [] {
        return false;
      }
      lastFrame := Some(now);
      var source := if tail == [] then slin8k else tail + slin8k;
      assert source == tail + slin8k;
      var offset;
      voiced, offset := MeasureAll(source, now);
      tail := source[offset..];
    }

    method MeasureFrame(frame: OutboundQueue.Frame, now: int, ghost from: nat) returns (voiced: bool)
      requires Valid() && from <= |heard|
      modifies this`noiseRms, this`loudRun, this`quietRun, this`frameCount, this`loudFrameCount
      modifies this`voicedFrameCount, this`peak, this`lastVoice, this`heard
      ensures Valid() && heard == old(heard) + [level(frame)]
      ensures AnyVoiced(c, heard, from) <==> voiced || AnyVoiced(c, old(heard), from)
      ensures lastVoice == if voiced then Some(now) else old(lastVoice)
    {
      AnyVoicedAppend(c, heard, level(frame), from);
      voiced := Measure(level(frame), now);
    }

    method MeasureAll(source: seq<byte>, now: int) returns (voiced: bool, offset: nat)
      requires Valid()
      modifies this`noiseRms, this`loudRun, this`quietRun, this`frameCount, this`loudFrameCount
      modifies this`voicedFrameCount, this`peak, this`lastVoice, this`heard
      ensures Valid()
      ensures offset <= |source| && source[offset..] == OutboundQueue.Remainder(source)
      ensures heard == old(heard) + LevelsOf(level, OutboundQueue.Frames(source))
      ensures voiced <==> AnyVoiced(c, heard, old(|heard|))
      ensures lastVoice == if voiced then Some(now) else old(lastVoice)
    {
      offset, voiced := 0, false;
      assert source[0..] == source;
      while |source| - offset >= OutboundQueue.FRAME_BYTES
        invariant Valid() && offset <= |source|
        invariant old(|heard|) <= |heard|
        invariant heard + LevelsOf(level, OutboundQueue.Frames(source[offset..]))
               == old(heard) + LevelsOf(level, OutboundQueue.Frames(source))
        invariant OutboundQueue.Remainder(source[offset..]) == OutboundQueue.Remainder(source)
        invariant voiced <==> AnyVoiced(c, heard, old(|heard|))
        invariant lastVoice == if voiced then Some(now) else old(lastVoice)
      {
        var frame := source[offset..offset + OutboundQueue.FRAME_BYTES];
        ghost var before, rest := heard, LevelsOf(level, OutboundQueue.Frames(source[offset + |frame|..]));
        LevelsStep(level, source, offset);
        assert before + ([level(frame)] + rest) == (before + [level(frame)]) + rest;
        var one := MeasureFrame(frame, now, old(|heard|));
        voiced := one || voiced;
        offset := offset + OutboundQueue.FRAME_BYTES;
      }
    }
  }
}
