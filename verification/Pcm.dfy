/** Little-endian PCM16 in byte buffers, and how a stream of bytes carries a stream of samples. */
module Pcm {

  type byte = b: int | 0 <= b < 256
  type int16 = v: int | -32768 <= v <= 32767

  function Int16(lo: byte, hi: byte): int16 {
    var u := lo + 256 * hi;
    if u >= 32768 then u - 65536 else u
  }

  function LowByte(v: int16): byte {
    (if v < 0 then v + 65536 else v) % 256
  }

  function HighByte(v: int16): byte {
    (if v < 0 then v + 65536 else v) / 256
  }

  function Bytes(xs: seq<int16>): (b: seq<byte>)
    ensures |b| == 2 * |xs|
  {
    if xs == [] then []
    else Bytes(xs[..|xs| - 1]) + [LowByte(xs[|xs| - 1]), HighByte(xs[|xs| - 1])]
  }

  function ReadInt16(b: seq<byte>, i: nat): int16
    requires i < |b| / 2
  {
    Int16(b[2 * i], b[2 * i + 1])
  }

  /** The whole samples of a buffer; a trailing odd byte is not one. */
  function Samples(b: seq<byte>): (xs: seq<int16>)
    ensures |xs| == |b| / 2
    ensures forall i :: 0 <= i < |xs| ==> xs[i] == ReadInt16(b, i)
  {
    seq(|b| / 2, i requires 0 <= i < |b| / 2 => ReadInt16(b, i))
  }

  /** Sample i is bytes 2i and 2i + 1, the low one first, in two's complement. */
  lemma SampleExactly(b: seq<byte>, i: nat)
    requires i < |b| / 2
    ensures var unsigned := b[2 * i] as int + 256 * b[2 * i + 1] as int;
      ReadInt16(b, i) == if unsigned < 32768 then unsigned else unsigned - 65536
  {
  }

  /** The byte a stream holds back: the last one when an odd number has arrived, else -1. */
  function Pending(b: seq<byte>): int {
    if |b| % 2 == 1 then b[|b| - 1] else -1
  }

  /** The next chunk with the held byte put back in front of it. */
  function Resume(pending: int, input: seq<byte>): seq<byte>
    requires -1 <= pending < 256
  {
    if pending >= 0 then [pending] + input else input
  }

  lemma BytesAppend(xs: seq<int16>, v: int16)
    ensures Bytes(xs + [v]) == Bytes(xs) + [LowByte(v), HighByte(v)]
  {
  }

  lemma {:induction false} BytesConcat(xs: seq<int16>, ys: seq<int16>)
    ensures Bytes(xs + ys) == Bytes(xs) + Bytes(ys)
    decreases |ys|
  {
    if ys == [] {
      assert xs + ys == xs;
    } else {
      var n := |ys| - 1;
      BytesConcat(xs, ys[..n]);
      assert xs + ys == (xs + ys[..n]) + [ys[n]];
      BytesAppend(xs + ys[..n], ys[n]);
    }
  }

  /** Writing samples and reading them back is the identity. */
  lemma {:induction false} SamplesOfBytes(xs: seq<int16>)
    ensures Samples(Bytes(xs)) == xs
  {
    if xs != [] {
      var n := |xs| - 1;
      SamplesOfBytes(xs[..n]);
      var b := Bytes(xs[..n]);
      forall i | 0 <= i < |xs| ensures Samples(Bytes(xs))[i] == xs[i] {
        if i < n {
          assert Samples(b)[i] == xs[..n][i];
        }
      }
    }
  }

  /** Joining the held byte with the next chunk continues the sample stream where it stopped. */
  lemma SamplesResume(fed: seq<byte>, input: seq<byte>)
    ensures Samples(fed + input) == Samples(fed) + Samples(Resume(Pending(fed), input))
    ensures Pending(fed + input) == Pending(Resume(Pending(fed), input))
  {
    var source, n := Resume(Pending(fed), input), |fed| / 2;
    forall i | n <= i < |fed + input| / 2
      ensures Samples(fed + input)[i] == Samples(source)[i - n]
    {
      assert (fed + input)[2 * i] == source[2 * (i - n)];
      assert (fed + input)[2 * i + 1] == source[2 * (i - n) + 1];
    }
  }

  lemma TakeOneMore(xs: seq<int16>, zs: seq<int16>, i: nat)
    requires i < |zs|
    ensures xs + zs[..i + 1] == (xs + zs[..i]) + [zs[i]]
  {
  }
}
