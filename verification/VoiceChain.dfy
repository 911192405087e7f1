/**
 The composition of an optional bell filter, a gain, the limiter and the decimator.
 The bell's design and the dB conversion are parameters; the bell itself runs as written.
 */
module VoiceChain {
  import opened Options
  import opened RealArithmetic
  import opened Pcm
  import opened Chunks
  import Limiter
  import opened Resampler

  const PRESENCE_MAX_DB := 12.0
  const OUTPUT_GAIN_MAX_DB := 12.0

  /** Absent and non-finite settings read as zero, as does anything below it. */
  function ClampGainDb(value: Option<real>, max: real): real {
    if value.None? then 0.0 else Min(max, Max(0.0, value.value))
  }

  // ------------------------------------------------------------------
  // The bell, direct form II transposed
  // ------------------------------------------------------------------

  datatype Biquad = Biquad(b0: real, b1: real, b2: real, a1: real, a2: real)

  datatype Delays = Delays(z1: real, z2: real)

  function Lift(presence: Option<Biquad>, z: Delays, sample: real): real {
    match presence
    case None => sample
    case Some(b) => b.b0 * sample + z.z1
  }

  function NextDelays(presence: Option<Biquad>, z: Delays, sample: real): Delays {
    match presence
    case None => z
    case Some(b) => Feedback(b, z, sample, Lift(presence, z, sample))
  }

  function Feedback(b: Biquad, z: Delays, sample: real, output: real): Delays {
    Delays(b.b1 * sample - b.a1 * output + z.z2, b.b2 * sample - b.a2 * output)
  }

  // ------------------------------------------------------------------
  // The chain on whole streams
  // ------------------------------------------------------------------

  datatype Setup = Setup(presence: Option<Biquad>, makeUp: real, limiter: Limiter.Config, fir: Coefficients)

  function DelaysAfter(s: Setup, xs: seq<int16>): Delays {
    if xs == [] then Delays(0.0, 0.0)
    else
      var n := |xs| - 1;
      NextDelays(s.presence, DelaysAfter(s, xs[..n]), xs[n] as real)
  }

  function Amplify(makeUp: real, x: real): real {
    x * makeUp
  }

  /** The stream after the bell and the make-up gain. */
  function Lifted(s: Setup, xs: seq<int16>): (ys: seq<real>)
    ensures |ys| == |xs|
  {
    if xs == [] then []
    else
      var n := |xs| - 1;
      Lifted(s, xs[..n]) + [Amplify(s.makeUp, Lift(s.presence, DelaysAfter(s, xs[..n]), xs[n] as real))]
  }

  function Clamped(ys: seq<real>): (xs: seq<int16>)
    ensures |xs| == |ys| && forall n :: 0 <= n < |ys| ==> xs[n] == ClampInt16(ys[n])
  {
    seq(|ys|, n requires 0 <= n < |ys| => ClampInt16(ys[n]))
  }

  /** The stream the decimator is given. */
  function Staged(s: Setup, xs: seq<int16>): (ys: seq<int16>)
    ensures |ys| == |xs|
  {
    Clamped(Limiter.Outputs(s.limiter, Lifted(s, xs)))
  }

  lemma LiftedAppend(s: Setup, xs: seq<int16>, x: int16)
    ensures DelaysAfter(s, xs + [x]) == NextDelays(s.presence, DelaysAfter(s, xs), x as real)
    ensures Lifted(s, xs + [x])
         == Lifted(s, xs) + [Amplify(s.makeUp, Lift(s.presence, DelaysAfter(s, xs), x as real))]
  {
  }

  lemma StagedAppend(s: Setup, xs: seq<int16>, x: int16, limited: real)
    requires Limiter.Outputs(s.limiter, Lifted(s, xs + [x])) == Limiter.Outputs(s.limiter, Lifted(s, xs)) + [limited]
    ensures Staged(s, xs + [x]) == Staged(s, xs) + [ClampInt16(limited)]
  {
  }

  /** What the bell returns for a stream. */
  function Bell(s: Setup, xs: seq<int16>): (ys: seq<real>)
    ensures |ys| == |xs|
  {
    if xs == [] then []
    else
      var n := |xs| - 1;
      Bell(s, xs[..n]) + [Lift(s.presence, DelaysAfter(s, xs[..n]), xs[n] as real)]
  }

  lemma {:induction false} BellAt(s: Setup, xs: seq<int16>, n: nat)
    requires n < |xs|
    ensures Bell(s, xs)[n] == Lift(s.presence, DelaysAfter(s, xs[..n]), xs[n] as real)
    ensures Lifted(s, xs)[n] == Amplify(s.makeUp, Bell(s, xs)[n])
  {
    if n < |xs| - 1 {
      BellAt(s, xs[..|xs| - 1], n);
      assert xs[..|xs| - 1][..n] == xs[..n];
    }
  }

  /** A stream before its start is silent. */
  function InputAt(xs: seq<int16>, i: int): real {
    if 0 <= i < |xs| then xs[i] as real else 0.0
  }

  function OutputAt(ys: seq<real>, i: int): real {
    if 0 <= i < |ys| then ys[i] else 0.0
  }

  /** The difference equation of the transfer function, on three samples and three outputs, newest first. */
  predicate Solves(b: Biquad, x0: real, x1: real, x2: real, y0: real, y1: real, y2: real) {
    y0 == b.b0 * x0 + b.b1 * x1 + b.b2 * x2 - b.a1 * y1 - b.a2 * y2
  }

  /** The two delay words carry what two samples and two outputs contribute to the next output. */
  lemma DelaysCarry(b: Biquad, z: Delays, x0: real, x1: real, x2: real, y1: real, y2: real)
    ensures Solves(b, x0, x1, x2, Lift(Some(b), Feedback(b, Feedback(b, z, x2, y2), x1, y1), x0), y1, y2)
  {
  }

  lemma DelaysAt(s: Setup, b: Biquad, xs: seq<int16>, n: nat)
    requires s.presence == Some(b) && n < |xs|
    ensures DelaysAfter(s, xs[..n + 1]) == Feedback(b, DelaysAfter(s, xs[..n]), xs[n] as real, Bell(s, xs)[n])
  {
    var z, y := DelaysAfter(s, xs[..n]), Bell(s, xs)[n];
    DelaysStep(s, xs, n);
    BellAt(s, xs, n);
    assert Lift(Some(b), z, xs[n] as real) == y;
    assert NextDelays(Some(b), z, xs[n] as real) == Feedback(b, z, xs[n] as real, y);
  }

  lemma DelaysStep(s: Setup, xs: seq<int16>, n: nat)
    requires n < |xs|
    ensures DelaysAfter(s, xs[..n + 1]) == NextDelays(s.presence, DelaysAfter(s, xs[..n]), xs[n] as real)
  {
    assert xs[..n + 1][..n] == xs[..n];
  }

  /** Silence leaves no trace. */
  lemma SilentStart(b: Biquad)
    ensures Feedback(b, Delays(0.0, 0.0), 0.0, 0.0) == Delays(0.0, 0.0)
  {
  }

  /** Two steps leave nothing of the delay words before them. */
  lemma TwoStepsForget(b: Biquad, z: Delays, w: Delays, x2: real, y2: real, x1: real, y1: real)
    ensures Feedback(b, Feedback(b, z, x2, y2), x1, y1) == Feedback(b, Feedback(b, w, x2, y2), x1, y1)
  {
  }

  /** The delay words after n samples are what the last two samples, or silence, leave. */
  lemma DelaysBefore(s: Setup, b: Biquad, xs: seq<int16>, n: nat, z: Delays)
    requires s.presence == Some(b) && n <= |xs|
    ensures var ys := Bell(s, xs);
      DelaysAfter(s, xs[..n]) == Feedback(b, Feedback(b, z, InputAt(xs, n - 2), OutputAt(ys, n - 2)),
        InputAt(xs, n - 1), OutputAt(ys, n - 1))
  {
    SilentStart(b);
    if n > 0 {
      DelaysAt(s, b, xs, n - 1);
    }
    if n > 1 {
      DelaysAt(s, b, xs, n - 2);
    }
    TwoStepsForget(b, z, if n > 1 then DelaysAfter(s, xs[..n - 2]) else Delays(0.0, 0.0),
      InputAt(xs, n - 2), OutputAt(Bell(s, xs), n - 2), InputAt(xs, n - 1), OutputAt(Bell(s, xs), n - 1));
  }

  /**
   The bell solves the difference equation of its transfer function on every stream, from silence,
   and the make-up gain scales what it returns.
   */
  lemma BellSolvesEquation(s: Setup, b: Biquad, xs: seq<int16>, n: nat)
    requires s.presence == Some(b) && n < |xs|
    ensures var ys := Bell(s, xs);
      Solves(b, InputAt(xs, n), InputAt(xs, n - 1), InputAt(xs, n - 2), ys[n], OutputAt(ys, n - 1), OutputAt(ys, n - 2))
    ensures Lifted(s, xs)[n] == Amplify(s.makeUp, Bell(s, xs)[n])
  {
    var ys := Bell(s, xs);
    var z := Delays(0.0, 0.0);
    DelaysBefore(s, b, xs, n, z);
    BellAt(s, xs, n);
    DelaysCarry(b, z, InputAt(xs, n), InputAt(xs, n - 1), InputAt(xs, n - 2), OutputAt(ys, n - 1), OutputAt(ys, n - 2));
  }

  /** The make-up gain multiplies: unity changes nothing, and it is linear in the sample. */
  lemma GainMultiplies(makeUp: real, x: real, y: real)
    ensures Amplify(1.0, x) == x && Amplify(makeUp, 1.0) == makeUp
    ensures Amplify(makeUp, x + y) == Amplify(makeUp, x) + Amplify(makeUp, y)
  {
  }

  /** Without a bell the stream passes unchanged but for the gain. */
  lemma NoBellIsTransparent(s: Setup, xs: seq<int16>, n: nat)
    requires s.presence.None? && n < |xs|
    ensures Lifted(s, xs)[n] == Amplify(s.makeUp, xs[n] as real)
  {
    BellAt(s, xs, n);
  }

  /** What the chain returns for a stream of bytes, whatever its chunking. */
  function ChainOutput(s: Setup, bypassed: bool, b: seq<byte>): seq<byte> {
    Bytes(Decimated(s.fir, if bypassed then Samples(b) else Staged(s, Samples(b))))
  }

  /** The output is exactly as long as the bare downsampler's, which it equals when bypassed. */
  lemma ChainKeepsContract(s: Setup, bypassed: bool, b: seq<byte>)
    ensures |ChainOutput(s, bypassed, b)| == |Bytes(Decimated(s.fir, Samples(b)))|
    ensures |ChainOutput(s, bypassed, b)| == 2 * ((|b| / 2 + 2) / 3)
    ensures ChainOutput(s, true, b) == Bytes(Decimated(s.fir, Samples(b)))
  {
  }

  /** No sample handed to the decimator was saturated, and none exceeds the rounded ceiling. */
  lemma StagedWithinCeiling(s: Setup, xs: seq<int16>, n: nat)
    requires n < |xs| && s.limiter.ceiling <= INT16_MAX as real
    ensures Staged(s, xs)[n] == Round(Limiter.Outputs(s.limiter, Lifted(s, xs))[n])
    ensures Abs(Staged(s, xs)[n] as real) <= s.limiter.ceiling + 0.5
  {
    Limiter.ConversionNeverSaturates(s.limiter, Lifted(s, xs), n);
    Limiter.CannotClip(s.limiter, Lifted(s, xs), n);
  }

  /** The chain when it has a stage to run; RunChain uses the bare downsampler otherwise. */
  class AgentVoiceChain {
    const s: Setup
    const limiter: Limiter.LookAheadLimiter
    const downsampler: Downsampler
    var z: Delays
    var pendingByte: int
    /** Every byte fed since the last reset. */
    ghost var fed: seq<byte>

    ghost function Repr(): set<object> {
      {this, downsampler, downsampler.history} + limiter.Repr()
    }

    ghost predicate Separate() {
      && limiter.p == s.limiter && downsampler.c == s.fir
      && this !in limiter.Repr() && downsampler !in limiter.Repr() && downsampler.history !in limiter.Repr()
    }

    ghost predicate Valid()
      reads this, limiter, limiter.Repr(), downsampler, downsampler.history
    {
      Separate() && downsampler.Valid() && Running(fed)
    }

    /** The state of the processing stages after the bytes b. */
    ghost predicate Running(b: seq<byte>)
      reads this`z, this`pendingByte, limiter, limiter.Repr(), downsampler
    {
      && pendingByte == Pending(b)
      && FrontEnd(Samples(b))
      && downsampler.fed == Bytes(Staged(s, Samples(b)))
    }

    /** The bell and the limiter have processed the samples xs. */
    ghost predicate FrontEnd(xs: seq<int16>)
      reads this`z, limiter, limiter.Repr()
    {
      Separate() && limiter.Valid() && z == DelaysAfter(s, xs) && limiter.history == Lifted(s, xs)
    }

    constructor (s: Setup)
      ensures Valid() && fed == [] && fresh(Repr()) && this.s == s
    {
      this.s := s;
      downsampler := new Downsampler(s.fir);
      limiter := new Limiter.LookAheadLimiter(s.limiter);
      z, pendingByte, fed := Delays(0.0, 0.0), -1, [];
    }

    method RunPresence(sample: real) returns (output: real)
      modifies this`z
      ensures output == Lift(s.presence, old(z), sample) && z == NextDelays(s.presence, old(z), sample)
    {
      if s.presence.None? {
        return sample;
      }
      var b := s.presence.value;
      output := b.b0 * sample + z.z1;
      var z1 := b.b1 * sample - b.a1 * output + z.z2;
      var z2 := b.b2 * sample - b.a2 * output;
      z := Delays(z1, z2);
    }

    /** One sample through the bell, the gain, the limiter and back to int16. */
    method Stage(x: int16, ghost xs: seq<int16>) returns (y: int16)
      requires FrontEnd(xs)
      modifies this`z, limiter.Repr()
      ensures FrontEnd(xs + [x])
      ensures Staged(s, xs + [x]) == Staged(s, xs) + [y]
    {
      LiftedAppend(s, xs, x);
      var lifted := RunPresence(x as real);
      var limited := limiter.Push(Amplify(s.makeUp, lifted));
      StagedAppend(s, xs, x, limited);
      y := ClampInt16(limited);
    }

    /** One more staged sample. */
    method StageNext(x: int16, staged: seq<int16>, ghost xs: seq<int16>, ghost start: seq<int16>) returns (next: seq<int16>)
      requires FrontEnd(xs) && Staged(s, xs) == start + staged
      modifies this`z, limiter.Repr()
      ensures FrontEnd(xs + [x]) && Staged(s, xs + [x]) == start + next
    {
      var y := Stage(x, xs);
      next := staged + [y];
    }

    /** The staged samples of a chunk. */
    method StageAll(source: seq<byte>, ghost xs: seq<int16>) returns (staged: seq<int16>)
      requires FrontEnd(xs)
      modifies this`z, limiter.Repr()
      ensures FrontEnd(xs + Samples(source))
      ensures Staged(s, xs + Samples(source)) == Staged(s, xs) + staged
    {
      staged := [];
      ghost var zs, start := Samples(source), Staged(s, xs);
      assert xs + zs[..0] == xs;
      for i := 0 to |source| / 2
        invariant FrontEnd(xs + zs[..i]) && Staged(s, xs + zs[..i]) == start + staged
      {
        TakeOneMore(xs, zs, i);
        staged := StageNext(ReadInt16(source, i), staged, xs + zs[..i], start);
      }
      assert zs[..|source| / 2] == zs;
    }

    /** Convert one chunk: appended to what earlier chunks produced, it is the one-shot output so far. */
    method Process(input: seq<byte>) returns (out: array<byte>)
      requires Valid()
      modifies Repr()
      ensures Valid() && fed == old(fed) + input && fresh(out)
      ensures ChainOutput(s, false, fed) == ChainOutput(s, false, old(fed)) + out[..]
      ensures downsampler.pendingByte == -1
    {
      ghost var xs := Samples(fed);
      SamplesResume(fed, input);
      var source := Resume(pendingByte, input);
      pendingByte := Pending(source);
      fed := fed + input;
      out := Convert(source, xs);
    }

    /** The samples of a chunk, staged and decimated. */
    method Convert(source: seq<byte>, ghost xs: seq<int16>) returns (out: array<byte>)
      requires downsampler.Valid() && FrontEnd(xs) && downsampler.fed == Bytes(Staged(s, xs))
      modifies this`z, limiter.Repr(), downsampler, downsampler.history
      ensures downsampler.Valid() && FrontEnd(xs + Samples(source)) && fresh(out)
      ensures downsampler.fed == Bytes(Staged(s, xs + Samples(source))) && downsampler.pendingByte == -1
      ensures Bytes(Decimated(s.fir, Staged(s, xs + Samples(source)))) == Bytes(Decimated(s.fir, Staged(s, xs))) + out[..]
    {
      var staged := StageAll(source, xs);
      out := Decimate(staged, Staged(s, xs), xs + Samples(source));
    }

    /** Whole samples go in, so no byte stays pending in the downsampler. */
    method Decimate(staged: seq<int16>, ghost ys: seq<int16>, ghost xs: seq<int16>) returns (out: array<byte>)
      requires downsampler.Valid() && downsampler.fed == Bytes(ys) && FrontEnd(xs)
      modifies downsampler, downsampler.history
      ensures downsampler.Valid() && downsampler.fed == Bytes(ys + staged) && FrontEnd(xs)
      ensures downsampler.pendingByte == -1 && fresh(out)
      ensures Bytes(Decimated(downsampler.c, ys + staged)) == Bytes(Decimated(downsampler.c, ys)) + out[..]
    {
      BytesConcat(ys, staged);
      SamplesOfBytes(ys);
      SamplesOfBytes(ys + staged);
      out := downsampler.Process(Bytes(staged));
    }

    method Reset()
      requires Valid()
      modifies Repr()
      ensures Valid() && fed == []
    {
      z, pendingByte, fed := Delays(0.0, 0.0), -1, [];
      limiter.Reset();
      downsampler.Reset();
    }
  }

  /** What one call's settings make of the chain: nothing to run, or a stage and a gain. */
  function SetupFor(presenceDb: Option<real>, outputGainDb: Option<real>,
    design: real -> Biquad, toLinear: real -> real, limiter: Limiter.Config, fir: Coefficients): (Setup, bool)
  {
    var presence, gain := ClampGainDb(presenceDb, PRESENCE_MAX_DB), ClampGainDb(outputGainDb, OUTPUT_GAIN_MAX_DB);
    (Setup(if presence == 0.0 then None else Some(design(presence)), toLinear(gain), limiter, fir),
     presence == 0.0 && gain == 0.0)
  }

  predicate Above(value: Option<real>) {
    value.Some? && value.value > 0.0
  }

  /**
   The chain is bypassed exactly when neither setting is above zero. A bell is designed exactly for
   a presence above zero, the gain is that of the other setting, and neither is read above its limit.
   */
  lemma SetupExactly(presenceDb: Option<real>, outputGainDb: Option<real>,
    design: real -> Biquad, toLinear: real -> real, limiter: Limiter.Config, fir: Coefficients)
    ensures var (s, bypassed) := SetupFor(presenceDb, outputGainDb, design, toLinear, limiter, fir);
      && (bypassed <==> !Above(presenceDb) && !Above(outputGainDb))
      && (s.presence.Some? <==> Above(presenceDb))
      && (Above(presenceDb) && presenceDb.value <= 12.0 ==> s.presence == Some(design(presenceDb.value)))
      && (Above(presenceDb) && presenceDb.value > 12.0 ==> s.presence == Some(design(12.0)))
      && (Above(outputGainDb) && outputGainDb.value <= 12.0 ==> s.makeUp == toLinear(outputGainDb.value))
      && (Above(outputGainDb) && outputGainDb.value > 12.0 ==> s.makeUp == toLinear(12.0))
      && (!Above(outputGainDb) ==> s.makeUp == toLinear(0.0))
      && s.limiter == limiter && s.fir == fir
  {
  }

  /** A chain with a stage to run, fed chunk by chunk. */
  method ProcessChunks(s: Setup, chunks: seq<seq<byte>>) returns (out: seq<byte>)
    ensures out == ChainOutput(s, false, Concat(chunks))
  {
    var chain := new AgentVoiceChain(s);
    out := [];
    assert Samples([]) == [];
    assert chunks[..|chunks|] == chunks;
    for i := 0 to |chunks|
      invariant chain.Valid() && fresh(chain.Repr()) && chain.s == s
      invariant chain.fed == Concat(chunks[..i])
      invariant out == ChainOutput(s, false, chain.fed)
    {
      assert chunks[..i + 1][..i] == chunks[..i];
      var part := chain.Process(chunks[i]);
      out := out + part[..];
    }
  }

  /** However a stream is cut into chunks, the chain's outputs concatenate to its one-shot output. */
  method RunChain(presenceDb: Option<real>, outputGainDb: Option<real>, design: real -> Biquad,
    toLinear: real -> real, limiter: Limiter.Config, fir: Coefficients, chunks: seq<seq<byte>>) returns (out: seq<byte>)
    ensures var (s, bypassed) := SetupFor(presenceDb, outputGainDb, design, toLinear, limiter, fir);
      out == ChainOutput(s, bypassed, Concat(chunks))
  {
    var (s, bypassed) := SetupFor(presenceDb, outputGainDb, design, toLinear, limiter, fir);
    if bypassed {
      out := DownsampleChunks(fir, chunks);
    } else {
      out := ProcessChunks(s, chunks);
    }
  }
}
