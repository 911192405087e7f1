/**
 The two streaming sample-rate converters: a causal linear interpolator from 8 to 24 kHz
 and a FIR decimator from 24 to 8 kHz. The FIR coefficients are a parameter.
 */
module Resampler {
  import opened RealArithmetic
  import opened Pcm
  import opened Chunks

  const RESAMPLE_FACTOR := 3

  // ------------------------------------------------------------------
  // Decimation as a convolution of the whole sample stream
  // ------------------------------------------------------------------

  type Coefficients = c: seq<real> | |c| > 0 witness [1.0]

  /** The stream is silent before its first sample. */
  function At(xs: seq<int16>, i: int): real {
    if 0 <= i < |xs| then xs[i] as real else 0.0
  }

  function Tap(coefficient: real, x: real): real {
    coefficient * x
  }

  /** Sum of c[j] * x[n - j] for j below k. */
  function Dot(c: seq<real>, xs: seq<int16>, n: int, k: nat): real
    requires k <= |c|
  {
    if k == 0 then 0.0 else Dot(c, xs, n, k - 1) + Tap(c[k - 1], At(xs, n - (k - 1)))
  }

  function Convolve(c: seq<real>, xs: seq<int16>, n: int): real {
    Dot(c, xs, n, |c|)
  }

  /** Every third sample of the filtered stream. */
  function Decimated(c: seq<real>, xs: seq<int16>): (ys: seq<int16>)
    ensures |ys| == (|xs| + 2) / 3
    ensures forall j :: 0 <= j < |ys| ==> ys[j] == ClampInt16(Convolve(c, xs, 3 * j))
  {
    seq((|xs| + 2) / 3, j requires 0 <= j < (|xs| + 2) / 3 => ClampInt16(Convolve(c, xs, 3 * j)))
  }

  lemma {:induction false} DotPrefix(c: seq<real>, xs: seq<int16>, x: int16, n: int, k: nat)
    requires k <= |c| && n < |xs|
    ensures Dot(c, xs + [x], n, k) == Dot(c, xs, n, k)
  {
    if k > 0 {
      DotPrefix(c, xs, x, n, k - 1);
    }
  }

  /** The coefficient that weighs the sample i places before the newest, none outside the filter. */
  function Weight(c: seq<real>, i: int): real {
    if 0 <= i < |c| then c[i] else 0.0
  }

  /** The same filter from the side of the input: what the first m samples contribute to the output at n. */
  function Contributions(c: seq<real>, xs: seq<int16>, n: int, m: nat): real
    requires m <= |xs|
  {
    if m == 0 then 0.0 else Contributions(c, xs, n, m - 1) + Tap(Weight(c, n - (m - 1)), xs[m - 1] as real)
  }

  lemma {:induction false} DotLastSample(c: seq<real>, xs: seq<int16>, x: int16, n: int, k: nat)
    requires k <= |c|
    ensures Dot(c, xs + [x], n, k)
         == Dot(c, xs, n, k) + if 0 <= n - |xs| < k then Tap(c[n - |xs|], x as real) else 0.0
  {
    if k > 0 {
      DotLastSample(c, xs, x, n, k - 1);
    }
  }

  lemma {:induction false} DotOfNothing(c: seq<real>, n: int, k: nat)
    requires k <= |c|
    ensures Dot(c, [], n, k) == 0.0
  {
    if k > 0 {
      DotOfNothing(c, n, k - 1);
    }
  }

  /** Each sample contributes its value times the coefficient at its distance, and nothing else does. */
  lemma {:induction false} ConvolveIsContributions(c: seq<real>, xs: seq<int16>, n: int)
    ensures Convolve(c, xs, n) == Contributions(c, xs, n, |xs|)
    decreases |xs|
  {
    if xs == [] {
      DotOfNothing(c, n, |c|);
    } else {
      var m := |xs| - 1;
      assert xs[..m] + [xs[m]] == xs;
      DotLastSample(c, xs[..m], xs[m], n, |c|);
      ConvolveIsContributions(c, xs[..m], n);
      ContributionsPrefix(c, xs, n, m);
    }
  }

  lemma {:induction false} ContributionsPrefix(c: seq<real>, xs: seq<int16>, n: int, m: nat)
    requires m <= |xs|
    ensures Contributions(c, xs[..m], n, m) == Contributions(c, xs, n, m)
    decreases m
  {
    if m > 0 {
      ContributionsPrefix(c, xs, n, m - 1);
      ContributionsPrefix(c, xs[..m], n, m - 1);
      assert xs[..m][..m - 1] == xs[..m - 1];
    }
  }

  function L1(c: seq<real>, k: nat): real
    requires k <= |c|
  {
    if k == 0 then 0.0 else L1(c, k - 1) + Abs(c[k - 1])
  }

  /** The filter cannot raise a peak by more than the sum of its coefficients' magnitudes. */
  lemma {:induction false} DotBound(c: seq<real>, xs: seq<int16>, n: int, k: nat, peak: real)
    requires k <= |c| && peak >= 0.0
    requires forall i :: 0 <= i < |xs| ==> Abs(xs[i] as real) <= peak
    ensures Abs(Dot(c, xs, n, k)) <= Tap(L1(c, k), peak)
  {
    if k > 0 {
      DotBound(c, xs, n, k - 1, peak);
      var x := At(xs, n - (k - 1));
      TapBound(c[k - 1], x, peak);
      TapAdds(L1(c, k - 1), Abs(c[k - 1]), peak);
    }
  }

  lemma TapBound(coefficient: real, x: real, peak: real)
    requires Abs(x) <= peak
    ensures Abs(Tap(coefficient, x)) <= Tap(Abs(coefficient), peak)
  {
  }

  lemma TapAdds(a: real, b: real, x: real)
    ensures Tap(a + b, x) == Tap(a, x) + Tap(b, x)
  {
  }

  function NextOutput(c: seq<real>, xs: seq<int16>, x: int16): seq<int16> {
    if |xs| % 3 == 0 then [ClampInt16(Convolve(c, xs + [x], |xs|))] else []
  }

  lemma DecimatedAppend(c: seq<real>, xs: seq<int16>, x: int16)
    ensures Decimated(c, xs + [x]) == Decimated(c, xs) + NextOutput(c, xs, x)
  {
    forall j | 0 <= j < (|xs| + 2) / 3 ensures Decimated(c, xs + [x])[j] == Decimated(c, xs)[j] {
      DotPrefix(c, xs, x, 3 * j, |c|);
    }
  }

  /** What the samples zs produce when they follow xs. */
  function Produced(c: seq<real>, xs: seq<int16>, zs: seq<int16>): seq<int16> {
    if zs == [] then []
    else
      var n := |zs| - 1;
      Produced(c, xs, zs[..n]) + NextOutput(c, xs + zs[..n], zs[n])
  }

  /** Streaming outputs concatenate to the decimation of the whole stream. */
  lemma {:induction false} ProducedCompletes(c: seq<real>, xs: seq<int16>, zs: seq<int16>)
    ensures Decimated(c, xs + zs) == Decimated(c, xs) + Produced(c, xs, zs)
    decreases |zs|
  {
    if zs == [] {
      assert xs + zs == xs;
    } else {
      var n := |zs| - 1;
      ProducedCompletes(c, xs, zs[..n]);
      DecimatedAppend(c, xs + zs[..n], zs[n]);
      assert xs + zs == (xs + zs[..n]) + [zs[n]];
    }
  }

  lemma ProducedCount(c: seq<real>, xs: seq<int16>, zs: seq<int16>)
    ensures |Produced(c, xs, zs)| == OutputCount(|zs|, Phase(|xs|))
  {
    ProducedCompletes(c, xs, zs);
    OutputCountExact(|xs|, |zs|);
  }

  lemma ProducedStep(c: seq<real>, xs: seq<int16>, zs: seq<int16>, i: nat)
    requires i < |zs|
    ensures Produced(c, xs, zs[..i + 1]) == Produced(c, xs, zs[..i]) + NextOutput(c, xs + zs[..i], zs[i])
    ensures xs + zs[..i + 1] == (xs + zs[..i]) + [zs[i]]
    ensures |Produced(c, xs, zs[..i + 1])| <= OutputCount(|zs|, Phase(|xs|))
  {
    assert zs[..i + 1][..i] == zs[..i];
    ProducedCompletes(c, xs, zs[..i + 1]);
    OutputCountExact(|xs|, |zs|);
  }

  /** Position of the k-th newest sample in a ring whose newest sample is at `newest`. */
  function Back(newest: nat, k: nat, taps: nat): (i: nat)
    requires newest < taps && k < taps
    ensures i < taps
  {
    if k <= newest then newest - k else newest - k + taps
  }

  /** How many of the next samples cause no output. */
  function Phase(n: nat): nat {
    if n % 3 == 0 then 0 else 3 - n % 3
  }

  /** Outputs the next `sampleCount` inputs will produce. */
  function OutputCount(sampleCount: nat, phase: nat): nat {
    if sampleCount > phase then (sampleCount - phase + RESAMPLE_FACTOR - 1) / RESAMPLE_FACTOR else 0
  }

  /** The count fixed before the loop is the number of outputs the loop writes. */
  lemma OutputCountExact(n: nat, sampleCount: nat)
    ensures (n + 2) / 3 + OutputCount(sampleCount, Phase(n)) == (n + sampleCount + 2) / 3
  {
  }

  /** Store one sample at a byte offset. */
  method Store(out: array<byte>, offset: nat, y: int16, ghost written: seq<int16>)
    requires offset + 2 <= out.Length && out[..offset] == Bytes(written)
    modifies out
    ensures out[..offset + 2] == Bytes(written + [y])
  {
    BytesAppend(written, y);
    out[offset], out[offset + 1] := LowByte(y), HighByte(y);
    assert out[..offset + 2] == out[..offset] + [LowByte(y), HighByte(y)];
  }

  class Downsampler {
    const c: Coefficients
    const history: array<real>
    var newest: nat
    var phase: nat
    var pendingByte: int
    /** Every byte fed since the last reset. */
    ghost var fed: seq<byte>

    ghost predicate HistoryOf(xs: seq<int16>)
      reads this`newest, history
    {
      && history.Length == |c|
      && newest < |c|
      && (forall k :: 0 <= k < |c| ==> history[Back(newest, k, |c|)] == At(xs, |xs| - 1 - k))
    }

    ghost predicate FilterState(xs: seq<int16>)
      reads this`newest, this`phase, history
    {
      HistoryOf(xs) && phase == Phase(|xs|)
    }

    ghost predicate Valid()
      reads this, history
    {
      && FilterState(Samples(fed))
      && pendingByte == Pending(fed)
    }

    constructor (c: Coefficients)
      ensures Valid() && this.c == c && fed == []
      ensures fresh(history)
    {
      this.c := c;
      history := new real[|c|](_ => 0.0);
      newest, phase, pendingByte := |c| - 1, 0, -1;
      fed := [];
    }

    method Filter(ghost xs: seq<int16>) returns (accumulator: real)
      requires HistoryOf(xs)
      ensures accumulator == Convolve(c, xs, |xs| - 1)
    {
      accumulator := 0.0;
      var index := newest;
      for k := 0 to |c|
        invariant accumulator == Dot(c, xs, |xs| - 1, k)
        invariant k < |c| ==> index == Back(newest, k, |c|)
      {
        accumulator := accumulator + Tap(c[k], history[index]);
        index := if index == 0 then |c| - 1 else index - 1;
      }
    }

    /** Shift one sample in; one output when the phase says so. */
    method Feed(x: int16, ghost xs: seq<int16>) returns (out: seq<int16>)
      requires FilterState(xs)
      modifies this`newest, this`phase, history
      ensures FilterState(xs + [x])
      ensures out == NextOutput(c, xs, x)
    {
      ghost var before := newest;
      newest := if newest + 1 == |c| then 0 else newest + 1;
      assert forall k :: 1 <= k < |c| ==> Back(newest, k, |c|) == Back(before, k - 1, |c|) != newest;
      history[newest] := x as real;
      if phase == 0 {
        var y := Filter(xs + [x]);
        out := [ClampInt16(y)];
        phase := RESAMPLE_FACTOR - 1;
      } else {
        out := [];
        phase := phase - 1;
      }
    }

    /**
     Convert one chunk. The result is exactly as long as computed beforehand, and appended to
     what earlier chunks produced it is the decimation of the whole stream.
     */
    method Process(input: seq<byte>) returns (out: array<byte>)
      requires Valid()
      modifies this, history
      ensures Valid() && fed == old(fed) + input
      ensures fresh(out)
      ensures Bytes(Decimated(c, Samples(fed))) == Bytes(Decimated(c, Samples(old(fed)))) + out[..]
    {
      SamplesResume(fed, input);
      var source := Resume(pendingByte, input);
      ProducedCompletes(c, Samples(fed), Samples(source));
      BytesConcat(Decimated(c, Samples(fed)), Produced(c, Samples(fed), Samples(source)));
      out := Convert(source, Samples(fed));
      pendingByte := Pending(source);
      fed := fed + input;
    }

    /** The loop over the whole samples of a chunk. */
    method Convert(source: seq<byte>, ghost xs: seq<int16>) returns (out: array<byte>)
      requires FilterState(xs)
      modifies this`newest, this`phase, history
      ensures FilterState(xs + Samples(source)) && fresh(out)
      ensures out[..] == Bytes(Produced(c, xs, Samples(source)))
    {
      var sampleCount := |source| / 2;
      var outputCount := OutputCount(sampleCount, phase);
      out := new byte[2 * outputCount];
      var offset := 0;
      ghost var zs := Samples(source);
      assert xs + zs[..0] == xs;
      for i := 0 to sampleCount
        invariant FilterState(xs + zs[..i])
        invariant offset == 2 * |Produced(c, xs, zs[..i])| <= out.Length
        invariant out[..offset] == Bytes(Produced(c, xs, zs[..i]))
      {
        ProducedStep(c, xs, zs, i);
        offset := FeedInto(ReadInt16(source, i), xs + zs[..i], out, offset, Produced(c, xs, zs[..i]));
      }
      assert zs[..sampleCount] == zs;
      ProducedCount(c, xs, zs);
      assert out[..] == out[..offset];
    }

    /** Feed one sample and store the output it causes, if any. */
    method FeedInto(x: int16, ghost done: seq<int16>, out: array<byte>, offset: nat, ghost written: seq<int16>)
      returns (next: nat)
      requires FilterState(done) && out as object != history
      requires offset + 2 * |NextOutput(c, done, x)| <= out.Length && out[..offset] == Bytes(written)
      modifies this`newest, this`phase, history, out
      ensures FilterState(done + [x])
      ensures next == offset + 2 * |NextOutput(c, done, x)|
      ensures out[..next] == Bytes(written + NextOutput(c, done, x))
    {
      var ys := Feed(x, done);
      if ys != [] {
        Store(out, offset, ys[0], written);
        assert written + ys == written + [ys[0]];
        next := offset + 2;
      } else {
        assert written + ys == written;
        next := offset;
      }
    }

    method Reset()
      requires history.Length == |c|
      modifies this, history
      ensures Valid() && fed == []
    {
      forall i | 0 <= i < |c| { history[i] := 0.0; }
      newest, phase, pendingByte := |c| - 1, 0, -1;
      fed := [];
    }
  }

  /** However a stream is cut into chunks, the outputs concatenate to its one-shot decimation. */
  method DownsampleChunks(c: Coefficients, chunks: seq<seq<byte>>) returns (out: seq<byte>)
    ensures out == Bytes(Decimated(c, Samples(Concat(chunks))))
  {
    var downsampler := new Downsampler(c);
    out := [];
    assert Decimated(c, Samples([])) == [];
    assert chunks[..|chunks|] == chunks;
    for i := 0 to |chunks|
      invariant downsampler.Valid() && fresh(downsampler) && fresh(downsampler.history) && downsampler.c == c
      invariant downsampler.fed == Concat(chunks[..i])
      invariant out == Bytes(Decimated(c, Samples(downsampler.fed)))
    {
      assert chunks[..i + 1][..i] == chunks[..i];
      var part := downsampler.Process(chunks[i]);
      out := out + part[..];
    }
  }

  // ------------------------------------------------------------------
  // Interpolation
  // ------------------------------------------------------------------

  /** Two thirds of the way and all the way from the previous sample to the current one. */
  function Triple(previous: int16, current: int16): (t: seq<int16>)
    ensures |t| == 3
  {
    var delta := (current - previous) as real;
    [ClampInt16(previous as real + delta / 3.0), ClampInt16(previous as real + 2.0 * delta / 3.0), current]
  }

  /** The last sample of a stream that `before` precedes. */
  function Last(before: int16, xs: seq<int16>): int16 {
    if xs == [] then before else xs[|xs| - 1]
  }

  /** What the samples zs produce when they follow the sample `previous`. */
  function InterpolatedAfter(previous: int16, zs: seq<int16>): (ys: seq<int16>)
    ensures |ys| == 3 * |zs|
  {
    if zs == [] then []
    else
      var n := |zs| - 1;
      InterpolatedAfter(previous, zs[..n]) + Triple(Last(previous, zs[..n]), zs[n])
  }

  /** A whole stream, which starts from silence. */
  function Interpolated(xs: seq<int16>): seq<int16> {
    InterpolatedAfter(0, xs)
  }

  predicate Between(a: int, x: int, b: int) {
    a <= x <= b || b <= x <= a
  }

  lemma TripleBetween(previous: int16, current: int16)
    ensures var t := Triple(previous, current);
      && Between(previous, t[0], t[1])
      && Between(t[0], t[1], current)
      && Between(previous, t[0], current)
  {
  }

  /** The two samples between stand at the thirds, each to the nearest whole number. */
  lemma TripleThirds(previous: int16, current: int16)
    ensures var t := Triple(previous, current);
      && -1 <= 3 * t[0] - (2 * previous + current) <= 1
      && -1 <= 3 * t[1] - (previous + 2 * current) <= 1
      && t[2] == current
  {
    var delta := (current - previous) as real;
    RoundIsNearest(previous as real + delta / 3.0, 0);
    RoundIsNearest(previous as real + 2.0 * delta / 3.0, 0);
  }

  /**
   Every third output is an input, on time, and the two before it lie in order between the
   previous input and it; the stream starts from silence.
   */
  lemma {:induction false} InterpolatedAt(xs: seq<int16>, i: nat)
    requires i < |xs|
    ensures var ys := Interpolated(xs);
      && ys[3 * i + 2] == xs[i]
      && Between(Last(0, xs[..i]), ys[3 * i], ys[3 * i + 1])
      && Between(ys[3 * i], ys[3 * i + 1], xs[i])
      && Between(Last(0, xs[..i]), ys[3 * i], xs[i])
      && -1 <= 3 * ys[3 * i] as int - (2 * Last(0, xs[..i]) as int + xs[i] as int) <= 1
      && -1 <= 3 * ys[3 * i + 1] as int - (Last(0, xs[..i]) as int + 2 * xs[i] as int) <= 1
    decreases |xs|
  {
    var n := |xs| - 1;
    if i < n {
      InterpolatedAt(xs[..n], i);
      assert xs[..n][..i] == xs[..i];
    } else {
      TripleBetween(Last(0, xs[..n]), xs[n]);
      TripleThirds(Last(0, xs[..n]), xs[n]);
    }
  }

  lemma InterpolatedAppend(previous: int16, zs: seq<int16>, x: int16)
    ensures InterpolatedAfter(previous, zs + [x])
         == InterpolatedAfter(previous, zs) + Triple(Last(previous, zs), x)
  {
  }

  lemma LastConcat(before: int16, xs: seq<int16>, zs: seq<int16>)
    ensures Last(before, xs + zs) == Last(Last(before, xs), zs)
  {
  }

  lemma {:induction false} InterpolatedConcat(previous: int16, xs: seq<int16>, zs: seq<int16>)
    ensures InterpolatedAfter(previous, xs + zs)
         == InterpolatedAfter(previous, xs) + InterpolatedAfter(Last(previous, xs), zs)
    decreases |zs|
  {
    if zs == [] {
      assert xs + zs == xs;
    } else {
      var n := |zs| - 1;
      InterpolatedConcat(previous, xs, zs[..n]);
      LastConcat(previous, xs, zs[..n]);
      InterpolatedAppend(previous, xs + zs[..n], zs[n]);
      assert xs + zs == (xs + zs[..n]) + [zs[n]];
    }
  }

  lemma InterpolatedStep(previous: int16, zs: seq<int16>, i: nat)
    requires i < |zs|
    ensures InterpolatedAfter(previous, zs[..i + 1])
         == InterpolatedAfter(previous, zs[..i]) + Triple(Last(previous, zs[..i]), zs[i])
    ensures Last(previous, zs[..i + 1]) == zs[i]
  {
    assert zs[..i + 1][..i] == zs[..i];
  }

  class Upsampler {
    var previous: int16
    var pendingByte: int
    ghost var fed: seq<byte>

    ghost predicate Valid()
      reads this
    {
      previous == Last(0, Samples(fed)) && pendingByte == Pending(fed)
    }

    constructor ()
      ensures Valid() && fed == []
    {
      previous, pendingByte, fed := 0, -1, [];
    }

    method Process(input: seq<byte>) returns (out: array<byte>)
      requires Valid()
      modifies this
      ensures Valid() && fed == old(fed) + input && fresh(out)
      ensures Bytes(Interpolated(Samples(fed))) == Bytes(Interpolated(Samples(old(fed)))) + out[..]
    {
      SamplesResume(fed, input);
      var source := Resume(pendingByte, input);
      InterpolatedConcat(0, Samples(fed), Samples(source));
      LastConcat(0, Samples(fed), Samples(source));
      BytesConcat(Interpolated(Samples(fed)), InterpolatedAfter(previous, Samples(source)));
      out := Convert(source);
      pendingByte := Pending(source);
      fed := fed + input;
    }

    method Convert(source: seq<byte>) returns (out: array<byte>)
      modifies this`previous
      ensures fresh(out) && out[..] == Bytes(InterpolatedAfter(old(previous), Samples(source)))
      ensures previous == Last(old(previous), Samples(source))
    {
      var sampleCount := |source| / 2;
      out := new byte[sampleCount * RESAMPLE_FACTOR * 2];
      ghost var zs := Samples(source);
      var offset := 0;
      for i := 0 to sampleCount
        invariant offset == 6 * i && out.Length == 6 * sampleCount
        invariant out[..offset] == Bytes(InterpolatedAfter(old(previous), zs[..i]))
        invariant previous == Last(old(previous), zs[..i])
      {
        InterpolatedStep(old(previous), zs, i);
        FeedInto(ReadInt16(source, i), out, offset, InterpolatedAfter(old(previous), zs[..i]));
        offset := offset + 6;
      }
      assert zs[..sampleCount] == zs;
      assert out[..] == out[..offset];
    }

    /** Store the three outputs one sample causes. */
    method FeedInto(current: int16, out: array<byte>, offset: nat, ghost written: seq<int16>)
      requires offset + 6 <= out.Length && out[..offset] == Bytes(written)
      modifies this`previous, out
      ensures previous == current && out[..offset + 6] == Bytes(written + Triple(old(previous), current))
    {
      StoreTriple(out, offset, previous, current, written);
      previous := current;
    }

    method StoreTriple(out: array<byte>, offset: nat, previous: int16, current: int16, ghost written: seq<int16>)
      requires offset + 6 <= out.Length && out[..offset] == Bytes(written)
      modifies out
      ensures out[..offset + 6] == Bytes(written + Triple(previous, current))
    {
      var t := Triple(previous, current);
      Store(out, offset, t[0], written);
      Store(out, offset + 2, t[1], written + [t[0]]);
      Store(out, offset + 4, t[2], written + [t[0]] + [t[1]]);
      assert written + [t[0]] + [t[1]] + [t[2]] == written + t;
    }

    method Reset()
      modifies this
      ensures Valid() && fed == []
    {
      previous, pendingByte, fed := 0, -1, [];
    }
  }

  method UpsampleChunks(chunks: seq<seq<byte>>) returns (out: seq<byte>)
    ensures out == Bytes(Interpolated(Samples(Concat(chunks))))
  {
    var upsampler := new Upsampler();
    out := [];
    assert Interpolated(Samples([])) == [];
    assert chunks[..|chunks|] == chunks;
    for i := 0 to |chunks|
      invariant upsampler.Valid() && fresh(upsampler)
      invariant upsampler.fed == Concat(chunks[..i])
      invariant out == Bytes(Interpolated(Samples(upsampler.fed)))
    {
      assert chunks[..i + 1][..i] == chunks[..i];
      var part := upsampler.Process(chunks[i]);
      out := out + part[..];
    }
  }
}
