/** Streams that arrive cut into chunks. */
module Chunks {

  function Concat<T>(chunks: seq<seq<T>>): seq<T> {
    if chunks == [] then [] else Concat(chunks[..|chunks| - 1]) + chunks[|chunks| - 1]
  }

  /** One chunk is the stream it holds, and cutting a stream further does not change it. */
  lemma {:induction false} ConcatJoins<T>(chunks: seq<seq<T>>, more: seq<seq<T>>, chunk: seq<T>)
    ensures Concat([chunk]) == chunk
    ensures Concat(chunks + more) == Concat(chunks) + Concat(more)
    decreases |more|
  {
    assert [chunk][..0] == [];
    if more == [] {
      assert chunks + more == chunks;
    } else {
      var n := |more| - 1;
      ConcatJoins(chunks, more[..n], chunk);
      assert (chunks + more)[..|chunks + more| - 1] == chunks + more[..n];
    }
  }
}
