/**
 The outbound half of an AudioSocket session: audio cut into frames, a bounded queue that drops
 its oldest frame on overflow, one frame a slot, and promises that the queue has emptied.
 */
module OutboundQueue {
  import opened Pcm
  import Framer

  const FRAME_BYTES := 320

  type Frame = f: seq<byte> | |f| == FRAME_BYTES witness seq(FRAME_BYTES, _ => 0)

  const SILENCE: Frame := Zeros(FRAME_BYTES)

  function Zeros(n: nat): (z: seq<byte>)
    ensures |z| == n && forall i :: 0 <= i < n ==> z[i] == 0
  {
    if n == 0 then [] else Zeros(n - 1) + [0]
  }

  function Wire(f: Frame): (w: seq<byte>)
    ensures |w| == Framer.HEADER_BYTES + FRAME_BYTES
  {
    Framer.Encode(Framer.Packet(Framer.AUDIO, f))
  }

  // ------------------------------------------------------------------
  // Re-framing
  // ------------------------------------------------------------------

  function Frames(b: seq<byte>): seq<Frame> {
    if |b| < FRAME_BYTES then [] else [b[..FRAME_BYTES]] + Frames(b[FRAME_BYTES..])
  }

  function Remainder(b: seq<byte>): (r: seq<byte>)
    ensures |r| < FRAME_BYTES
  {
    if |b| < FRAME_BYTES then b else Remainder(b[FRAME_BYTES..])
  }

  function Flatten(fs: seq<Frame>): seq<byte> {
    if fs == [] then [] else fs[0] + Flatten(fs[1..])
  }

  /** Re-framing loses, repeats and reorders no byte. */
  lemma {:induction false} FramesConserveBytes(b: seq<byte>)
    ensures Flatten(Frames(b)) + Remainder(b) == b
  {
    if |b| >= FRAME_BYTES {
      FramesConserveBytes(b[FRAME_BYTES..]);
      assert b == b[..FRAME_BYTES] + b[FRAME_BYTES..];
    }
  }

  lemma NothingToFrame(tail: seq<byte>)
    requires |tail| < FRAME_BYTES
    ensures Frames(tail + []) == [] && Remainder(tail + []) == tail
  {
    assert tail + [] == tail;
  }

  /** The frames of a stream do not depend on how it is cut into calls. */
  lemma {:induction false} FramesResume(b: seq<byte>, more: seq<byte>)
    ensures Frames(b + more) == Frames(b) + Frames(Remainder(b) + more)
    ensures Remainder(b + more) == Remainder(Remainder(b) + more)
  {
    if |b| >= FRAME_BYTES {
      FramesResume(b[FRAME_BYTES..], more);
      assert (b + more)[FRAME_BYTES..] == b[FRAME_BYTES..] + more;
      assert (b + more)[..FRAME_BYTES] == b[..FRAME_BYTES];
    }
  }

  // ------------------------------------------------------------------
  // What becomes of a frame
  // ------------------------------------------------------------------

  datatype Fate = SentOut | Overflowed | Discarded | Abandoned

  function Count(fates: seq<Fate>, f: Fate): nat {
    if fates == [] then 0 else Count(fates[..|fates| - 1], f) + if fates[|fates| - 1] == f then 1 else 0
  }

  lemma CountAppend(fates: seq<Fate>, x: Fate, f: Fate)
    ensures Count(fates + [x], f) == Count(fates, f) + if x == f then 1 else 0
  {
  }

  function Repeat(x: Fate, n: nat): seq<Fate> {
    seq(n, _ => x)
  }

  lemma {:induction false} CountRepeat(fates: seq<Fate>, x: Fate, n: nat, f: Fate)
    ensures Count(fates + Repeat(x, n), f) == Count(fates, f) + if x == f then n else 0
  {
    if n == 0 {
      assert fates + Repeat(x, n) == fates;
    } else {
      CountRepeat(fates, x, n - 1, f);
      CountAppend(fates + Repeat(x, n - 1), x, f);
      assert fates + Repeat(x, n) == (fates + Repeat(x, n - 1)) + [x];
    }
  }

  lemma CountsAppend(fates: seq<Fate>, x: Fate)
    ensures forall f :: Count(fates + [x], f) == Count(fates, f) + if x == f then 1 else 0
  {
  }

  lemma CountsRepeat(fates: seq<Fate>, x: Fate, n: nat)
    ensures forall f :: Count(fates + Repeat(x, n), f) == Count(fates, f) + if x == f then n else 0
  {
    forall f ensures Count(fates + Repeat(x, n), f) == Count(fates, f) + if x == f then n else 0 {
      CountRepeat(fates, x, n, f);
    }
  }

  /** Every frame has exactly one fate. */
  lemma {:induction false} CountTotal(fates: seq<Fate>)
    ensures Count(fates, SentOut) + Count(fates, Overflowed) + Count(fates, Discarded) + Count(fates, Abandoned) == |fates|
  {
    if fates != [] {
      CountTotal(fates[..|fates| - 1]);
    }
  }

  /** The frames whose fate is to be sent, in the order they were enqueued. */
  function SentOf(enqueued: seq<Frame>, fates: seq<Fate>): seq<Frame>
    requires |fates| <= |enqueued|
    decreases |fates|
  {
    if fates == [] then []
    else
      var n := |fates| - 1;
      SentOf(enqueued, fates[..n]) + if fates[n] == SentOut then [enqueued[n]] else []
  }

  lemma {:induction false} SentOfExtends(enqueued: seq<Frame>, more: seq<Frame>, fates: seq<Fate>)
    requires |fates| <= |enqueued|
    ensures SentOf(enqueued + more, fates) == SentOf(enqueued, fates)
    decreases |fates|
  {
    if fates != [] {
      SentOfExtends(enqueued, more, fates[..|fates| - 1]);
    }
  }

  lemma SentOfAppend(enqueued: seq<Frame>, fates: seq<Fate>, x: Fate)
    requires |fates| < |enqueued|
    ensures SentOf(enqueued, fates + [x])
         == SentOf(enqueued, fates) + if x == SentOut then [enqueued[|fates|]] else []
  {
  }

  lemma {:induction false} SentOfRepeat(enqueued: seq<Frame>, fates: seq<Fate>, x: Fate, n: nat)
    requires |fates| + n <= |enqueued| && x != SentOut
    ensures SentOf(enqueued, fates + Repeat(x, n)) == SentOf(enqueued, fates)
  {
    if n == 0 {
      assert fates + Repeat(x, n) == fates;
    } else {
      SentOfRepeat(enqueued, fates, x, n - 1);
      SentOfAppend(enqueued, fates + Repeat(x, n - 1), x);
      assert fates + Repeat(x, n) == (fates + Repeat(x, n - 1)) + [x];
    }
  }

  /** xs is ys with some elements left out, at ascending positions. */
  ghost predicate Subsequence(xs: seq<Frame>, ys: seq<Frame>)
    decreases |ys|
  {
    if xs == [] then true
    else if ys == [] then false
    else
      || (xs[|xs| - 1] == ys[|ys| - 1] && Subsequence(xs[..|xs| - 1], ys[..|ys| - 1]))
      || Subsequence(xs, ys[..|ys| - 1])
  }

  lemma SubsequenceGrows(xs: seq<Frame>, ys: seq<Frame>, y: Frame)
    requires Subsequence(xs, ys)
    ensures Subsequence(xs + [y], ys + [y]) && Subsequence(xs, ys + [y])
  {
    assert (xs + [y])[..|xs|] == xs && (ys + [y])[..|ys|] == ys;
  }

  lemma {:induction false} SubsequenceFollowed(xs: seq<Frame>, ys: seq<Frame>, rest: seq<Frame>)
    requires Subsequence(xs, ys)
    ensures Subsequence(xs + rest, ys + rest)
    decreases |rest|
  {
    if rest == [] {
      assert xs + rest == xs && ys + rest == ys;
    } else {
      var (x, y) := (xs + [rest[0]], ys + [rest[0]]);
      assert x + rest[1..] == xs + rest && y + rest[1..] == ys + rest;
      SubsequenceGrows(xs, ys, rest[0]);
      SubsequenceFollowed(x, y, rest[1..]);
    }
  }

  lemma {:induction false} SentIsSubsequence(left: seq<Frame>, fates: seq<Fate>)
    requires |left| == |fates|
    ensures Subsequence(SentOf(left, fates), left)
    decreases |fates|
  {
    if fates != [] {
      var n := |fates| - 1;
      var before := SentOf(left[..n], fates[..n]);
      assert left[..n] + [left[n]] == left && before + [] == before;
      SentOfExtends(left[..n], [left[n]], fates[..n]);
      SentIsSubsequence(left[..n], fates[..n]);
      SubsequenceGrows(before, left[..n], left[n]);
    }
  }

  /** What was sent, followed by what is still queued, is an in-order subsequence of what was enqueued. */
  lemma SentThenQueued(enqueued: seq<Frame>, fates: seq<Fate>)
    requires |fates| <= |enqueued|
    ensures Subsequence(SentOf(enqueued, fates) + enqueued[|fates|..], enqueued)
  {
    var left, queued := enqueued[..|fates|], enqueued[|fates|..];
    SentIsSubsequence(left, fates);
    SentOfExtends(left, queued, fates);
    SubsequenceFollowed(SentOf(left, fates), left, queued);
    assert left + queued == enqueued;
  }

  const TERMINATED := Framer.Encode(Framer.Packet(Framer.TERMINATE, []))

  /** What goes out besides the frames enqueued. */
  const FILLER: set<seq<byte>> := {Wire(SILENCE), TERMINATED}

  /** `written` is the wire form of `items`, each once and in order, with nothing but filler around them. */
  ghost predicate OnTheWire<T(!new)>(items: seq<T>, wire: T -> seq<byte>, filler: set<seq<byte>>, written: seq<seq<byte>>)
    decreases |written|
  {
    if written == [] then items == []
    else
      var n := |written| - 1;
      || (written[n] in filler && OnTheWire(items, wire, filler, written[..n]))
      || (items != [] && written[n] == wire(items[|items| - 1])
          && OnTheWire(items[..|items| - 1], wire, filler, written[..n]))
  }

  lemma WireSends<T(!new)>(items: seq<T>, wire: T -> seq<byte>, filler: set<seq<byte>>, written: seq<seq<byte>>, item: T)
    requires OnTheWire(items, wire, filler, written)
    ensures OnTheWire(items + [item], wire, filler, written + [wire(item)])
  {
    assert (items + [item])[..|items|] == items;
    assert (written + [wire(item)])[..|written|] == written;
  }

  lemma WireFills<T(!new)>(items: seq<T>, wire: T -> seq<byte>, filler: set<seq<byte>>, written: seq<seq<byte>>, w: seq<byte>)
    requires OnTheWire(items, wire, filler, written) && w in filler
    ensures OnTheWire(items, wire, filler, written + [w])
  {
    assert (written + [w])[..|written|] == written;
  }

  // ------------------------------------------------------------------
  // The session
  // ------------------------------------------------------------------

  /** Every frame of a stretch was sent or pushed out by an overflow. */
  ghost predicate PlayedOrOverflowed(fates: seq<Fate>, from: nat, until: nat) {
    forall i :: from <= i < until && i < |fates| ==> fates[i] == SentOut || fates[i] == Overflowed
  }

  /** Promises already settled keep their result. */
  ghost predicate SettledKept(before: map<nat, bool>, after: map<nat, bool>) {
    forall w :: w in before ==> w in after && after[w] == before[w]
  }

  function SettledAs(pending: set<nat>, drained: bool): map<nat, bool> {
    map w | w in pending :: drained
  }

  lemma SettleOneMore(before: map<nat, bool>, all: set<nat>, left: set<nat>, w: nat, drained: bool)
    requires w in left && left <= all
    ensures before + SettledAs(all - (left - {w}), drained) == (before + SettledAs(all - left, drained))[w := drained]
  {
  }

  datatype Span = Span(from: nat, until: nat)

  /**
   A pending promise has seen nothing of its span discarded or abandoned; one settled with
   "true" has seen all of its span leave that way.
   */
  ghost predicate WaiterState(pending: set<nat>, settled: map<nat, bool>, next: nat, spans: map<nat, Span>,
    fates: seq<Fate>, total: nat)
  {
    && pending !! settled.Keys
    && (forall w :: w in pending ==> w < next && w in spans && Kept(spans[w], fates, total))
    && (forall w :: w in settled ==> w < next && w in spans && (settled[w] ==> Kept(spans[w], fates, |fates|)))
  }

  /** The span lies before `end`, and what has left of it was sent or pushed out by an overflow. */
  ghost predicate Kept(span: Span, fates: seq<Fate>, end: nat) {
    span.until <= end && PlayedOrOverflowed(fates, span.from, span.until)
  }

  /** A frame leaving by being sent or by an overflow breaks no promise. */
  lemma DepartureKeeps(pending: set<nat>, settled: map<nat, bool>, next: nat, spans: map<nat, Span>,
    fates: seq<Fate>, total: nat, x: Fate)
    requires WaiterState(pending, settled, next, spans, fates, total) && (x == SentOut || x == Overflowed)
    ensures WaiterState(pending, settled, next, spans, fates + [x], total)
  {
  }

  /** With no promise pending, frames may leave in any way. */
  lemma ClearingKeeps(settled: map<nat, bool>, next: nat, spans: map<nat, Span>,
    fates: seq<Fate>, total: nat, more: seq<Fate>)
    requires WaiterState({}, settled, next, spans, fates, total)
    ensures WaiterState({}, settled, next, spans, fates + more, total)
  {
  }

  /** Settling every pending promise: with "true" only once all enqueued frames have left. */
  lemma SettlingKeeps(pending: set<nat>, settled: map<nat, bool>, next: nat, spans: map<nat, Span>,
    fates: seq<Fate>, total: nat, w: nat, drained: bool)
    requires WaiterState(pending, settled, next, spans, fates, total) && w in pending
    requires drained ==> |fates| == total
    ensures WaiterState(pending - {w}, settled[w := drained], next, spans, fates, total)
  {
  }

  class Session {
    const maxQueuedFrames: nat
    /** Complete wire frames, oldest first. */
    var queue: seq<seq<byte>>
    /** What Remainder leaves of the audio so far. */
    var tail: seq<byte>
    var waitingForSocketDrain: bool
    var closed: bool
    var bytesSent: nat
    var framesSent: nat
    var framesDropped: nat
    var framesAbandoned: nat
    /** Promises waiting for the queue to empty, and the results of those already settled. */
    var drainWaiters: set<nat>
    var settled: map<nat, bool>
    var nextWaiter: nat
    /** Everything written to the socket. */
    var written: seq<seq<byte>>

    /** Every frame ever enqueued; the first |fates| have left the queue, each with its fate. */
    ghost var enqueued: seq<Frame>
    ghost var fates: seq<Fate>
    /** The frames among them that went out. */
    ghost var sent: seq<Frame>
    /** What was in the queue when each waiter registered. */
    ghost var spans: map<nat, Span>

    ghost predicate QueueState()
      reads this`queue, this`enqueued, this`fates, this`sent
    {
      && |enqueued| == |fates| + |queue| && sent == SentOf(enqueued, fates)
      && (forall i :: 0 <= i < |queue| ==> queue[i] == Wire(enqueued[|fates| + i]))
    }

    ghost predicate Counters()
      reads this`fates, this`framesSent, this`framesDropped, this`framesAbandoned, this`bytesSent
    {
      && framesSent == Count(fates, SentOut)
      && framesDropped == Count(fates, Overflowed)
      && framesAbandoned == Count(fates, Abandoned)
      && bytesSent == FRAME_BYTES * framesSent
    }

    ghost predicate Waiters()
      reads this`drainWaiters, this`settled, this`nextWaiter, this`spans, this`fates, this`enqueued
    {
      WaiterState(drainWaiters, settled, nextWaiter, spans, fates, |enqueued|)
    }

    /** What the socket has been given; only EmitOneFrame and Hangup touch it. */
    ghost predicate Aired()
      reads this`sent, this`written
    {
      OnTheWire(sent, Wire, FILLER, written)
    }

    ghost predicate Valid()
      reads this
    {
      && QueueState() && Counters() && Waiters()
      && |queue| <= maxQueuedFrames && |tail| < FRAME_BYTES
      && (closed ==> queue == [] && tail == [])
      && (drainWaiters != {} ==> !closed && queue != [])
    }

    constructor (maxQueuedFrames: nat)
      ensures Valid() && Aired() && enqueued == [] && fates == [] && this.maxQueuedFrames == maxQueuedFrames
    {
      this.maxQueuedFrames := maxQueuedFrames;
      queue, tail, waitingForSocketDrain, closed := [], [], false, false;
      bytesSent, framesSent, framesDropped, framesAbandoned := 0, 0, 0, 0;
      drainWaiters, settled, nextWaiter, written := {}, map[], 0, [];
      enqueued, fates, sent, spans := [], [], [], map[];
    }

    /** Push one frame, then drop the oldest ones beyond the cap. */
    method EnqueueFrame(payload: Frame)
      requires Valid() && !closed
      modifies this`queue, this`framesDropped, this`enqueued, this`fates
      ensures Valid() && enqueued == old(enqueued) + [payload]
      ensures fates == old(fates) + if old(|queue|) < maxQueuedFrames then [] else [Overflowed]
    {
      Append(payload);
      while |queue| > maxQueuedFrames
        invariant QueueState() && Counters() && Waiters()
        invariant enqueued == old(enqueued) + [payload]
        invariant if |fates| == old(|fates|) then fates == old(fates)
          else |queue| == maxQueuedFrames == old(|queue|) && fates == old(fates) + [Overflowed]
      {
        DropOldest();
      }
    }

    method Append(payload: Frame)
      requires QueueState() && Waiters()
      modifies this`queue, this`enqueued
      ensures QueueState() && Waiters()
      ensures queue == old(queue) + [Wire(payload)] && enqueued == old(enqueued) + [payload]
    {
      SentOfExtends(enqueued, [payload], fates);
      queue := queue + [Wire(payload)];
      enqueued := enqueued + [payload];
    }

    method DropOldest()
      requires QueueState() && Counters() && Waiters() && queue != []
      modifies this`queue, this`framesDropped, this`fates
      ensures QueueState() && Counters() && Waiters()
      ensures queue == old(queue)[1..] && fates == old(fates) + [Overflowed]
    {
      CountsAppend(fates, Overflowed);
      SentOfAppend(enqueued, fates, Overflowed);
      DepartureKeeps(drainWaiters, settled, nextWaiter, spans, fates, |enqueued|, Overflowed);
      queue := queue[1..];
      framesDropped := framesDropped + 1;
      fates := fates + [Overflowed];
    }

    method Send(slin8k: seq<byte>)
      requires Valid()
      modifies this`queue, this`tail, this`framesDropped, this`enqueued, this`fates
      ensures Valid()
      ensures enqueued == old(enqueued) + if closed then [] else Frames(old(tail) + slin8k)
      ensures !closed ==> tail == Remainder(old(tail) + slin8k)
      ensures old(fates) <= fates && forall i :: old(|fates|) <= i < |fates| ==> fates[i] == Overflowed
    {
      if closed || slin8k == [] {
        NothingToFrame(tail);
        return;
      }
      var source := if tail == [] then slin8k else tail + slin8k;
      assert source == tail + slin8k;
      var offset := EnqueueAll(source);
      tail := source[offset..];
    }

    method EnqueueAll(source: seq<byte>) returns (offset: nat)
      requires Valid() && !closed
      modifies this`queue, this`framesDropped, this`enqueued, this`fates
      ensures Valid()
      ensures offset <= |source| && source[offset..] == Remainder(source)
      ensures enqueued == old(enqueued) + Frames(source)
      ensures old(fates) <= fates && forall i :: old(|fates|) <= i < |fates| ==> fates[i] == Overflowed
    {
      offset := 0;
      assert source[0..] == source;
      while |source| - offset >= FRAME_BYTES
        invariant Valid() && offset <= |source|
        invariant enqueued + Frames(source[offset..]) == old(enqueued) + Frames(source)
        invariant Remainder(source[offset..]) == Remainder(source)
        invariant old(fates) <= fates && forall i :: old(|fates|) <= i < |fates| ==> fates[i] == Overflowed
      {
        ghost var rest := source[offset..];
        assert rest[..FRAME_BYTES] == source[offset..offset + FRAME_BYTES];
        assert rest[FRAME_BYTES..] == source[offset + FRAME_BYTES..];
        EnqueueFrame(source[offset..offset + FRAME_BYTES]);
        offset := offset + FRAME_BYTES;
      }
    }

    /** The partial frame goes out padded with silence. */
    method Flush()
      requires Valid()
      modifies this`queue, this`tail, this`framesDropped, this`enqueued, this`fates
      ensures Valid() && tail == []
      ensures enqueued == old(enqueued)
        + if old(tail) == [] then [] else [old(tail) + SILENCE[..FRAME_BYTES - |old(tail)|]]
    {
      if closed || tail == [] {
        return;
      }
      var padded := tail + SILENCE[..FRAME_BYTES - |tail|];
      tail := [];
      EnqueueFrame(padded);
    }

    /** All pending promises get the same answer. */
    method SettleDrainWaiters(drained: bool)
      requires Waiters() && (drained ==> queue == [] && QueueState())
      modifies this`drainWaiters, this`settled
      ensures Waiters() && drainWaiters == {}
      ensures settled == old(settled) + SettledAs(old(drainWaiters), drained) && SettledKept(old(settled), settled)
    {
      ghost var before := settled;
      while drainWaiters != {}
        invariant Waiters() && drainWaiters <= old(drainWaiters)
        invariant settled == before + SettledAs(old(drainWaiters) - drainWaiters, drained)
      {
        var w :| w in drainWaiters;
        SettlingKeeps(drainWaiters, settled, nextWaiter, spans, fates, |enqueued|, w, drained);
        SettleOneMore(before, old(drainWaiters), drainWaiters, w, drained);
        settled := settled[w := drained];
        drainWaiters := drainWaiters - {w};
      }
    }

    /** Everything queued leaves with one fate, and no one waiting for it is told it was played. */
    method ClearQueue(ghost x: Fate) returns (left: nat)
      requires QueueState() && Waiters() && x != SentOut
      modifies this`queue, this`tail, this`fates, this`drainWaiters, this`settled
      ensures QueueState() && Waiters() && queue == [] && tail == [] && drainWaiters == {}
      ensures left == old(|queue|) && fates == old(fates) + Repeat(x, left)
      ensures settled == old(settled) + SettledAs(old(drainWaiters), false) && SettledKept(old(settled), settled)
    {
      left := |queue|;
      SentOfRepeat(enqueued, fates, x, left);
      queue := [];
      tail := [];
      SettleDrainWaiters(false);
      ClearingKeeps(settled, nextWaiter, spans, fates, |enqueued|, Repeat(x, left));
      fates := fates + Repeat(x, left);
    }

    /** Throw away queued audio. */
    method DiscardQueuedAudio() returns (dropped: nat)
      requires Valid()
      modifies this`queue, this`tail, this`fates, this`drainWaiters, this`settled
      ensures Valid() && queue == [] && tail == [] && drainWaiters == {}
      ensures dropped == old(|queue|) && fates == old(fates) + Repeat(Discarded, dropped)
      ensures settled == old(settled) + SettledAs(old(drainWaiters), false) && SettledKept(old(settled), settled)
    {
      CountsRepeat(fates, Discarded, |queue|);
      dropped := ClearQueue(Discarded);
    }

    method MarkClosed()
      requires Valid()
      modifies this`closed, this`queue, this`tail, this`fates, this`drainWaiters, this`settled, this`framesAbandoned
      ensures Valid() && closed && drainWaiters == {}
      ensures fates == old(fates) + Repeat(Abandoned, old(|queue|))
      ensures settled == old(settled) + SettledAs(old(drainWaiters), false) && SettledKept(old(settled), settled)
    {
      CountsRepeat(fates, Abandoned, |queue|);
      closed := true;
      framesAbandoned := framesAbandoned + |queue|;
      var _ := ClearQueue(Abandoned);
    }

    method Hangup(writable: bool)
      requires Valid()
      modifies this`closed, this`queue, this`tail, this`fates, this`drainWaiters, this`settled
      modifies this`framesAbandoned, this`written
      ensures Valid() && closed
      ensures fates == old(fates) + Repeat(Abandoned, old(|queue|))
      ensures written == old(written)
        + if writable && !old(closed) then [TERMINATED] else []
      ensures old(Aired()) ==> Aired()
      ensures settled == old(settled) + SettledAs(old(drainWaiters), false) && SettledKept(old(settled), settled)
    {
      if closed {
        return;
      }
      MarkClosed();
      if writable {
        if Aired() {
          WireFills(sent, Wire, FILLER, written, TERMINATED);
        }
        written := written + [TERMINATED];
      }
    }

    /** A promise of the queue emptying; settled at once when the session is closed or nothing is queued. */
    method WaitForQueueDrain() returns (w: nat)
      requires Valid()
      modifies this`drainWaiters, this`settled, this`nextWaiter, this`spans
      ensures Valid() && w == old(nextWaiter) && nextWaiter == w + 1
      ensures spans == old(spans)[w := Span(|fates|, |enqueued|)]
      ensures closed ==> settled == old(settled)[w := false] && drainWaiters == old(drainWaiters)
      ensures !closed && queue == [] ==> settled == old(settled)[w := true] && drainWaiters == old(drainWaiters)
      ensures !closed && queue != [] ==> settled == old(settled) && drainWaiters == old(drainWaiters) + {w}
      ensures SettledKept(old(settled), settled)
    {
      w := nextWaiter;
      nextWaiter := nextWaiter + 1;
      spans := spans[w := Span(|fates|, |enqueued|)];
      if closed {
        settled := settled[w := false];
      } else if queue == [] {
        settled := settled[w := true];
      } else {
        drainWaiters := drainWaiters + {w};
      }
    }

    method WaiterTimesOut(w: nat)
      requires Valid() && w in drainWaiters
      modifies this`drainWaiters, this`settled
      ensures Valid() && settled == old(settled)[w := false] && drainWaiters == old(drainWaiters) - {w}
      ensures SettledKept(old(settled), settled)
    {
      SettlingKeeps(drainWaiters, settled, nextWaiter, spans, fates, |enqueued|, w, false);
      drainWaiters := drainWaiters - {w};
      settled := settled[w := false];
    }

    predicate Skips(writable: bool)
      reads this
    {
      closed || !writable || waitingForSocketDrain
    }

    /** One slot: the oldest frame or silence is written, unless the slot is skipped. */
    method EmitOneFrame(writable: bool, accepted: bool)
      requires Valid()
      modifies this`queue, this`fates, this`sent, this`framesSent, this`bytesSent, this`written
      modifies this`waitingForSocketDrain, this`drainWaiters, this`settled
      ensures Valid()
      ensures old(Aired()) ==> Aired()
      ensures old(closed || waitingForSocketDrain) || !writable ==>
        && written == old(written) && fates == old(fates) && settled == old(settled)
        && waitingForSocketDrain == old(waitingForSocketDrain)
      ensures !old(closed || waitingForSocketDrain) && writable ==>
        && written == old(written) + [if old(queue) == [] then Wire(SILENCE) else old(queue)[0]]
        && fates == old(fates) + (if old(queue) == [] then [] else [SentOut])
        && waitingForSocketDrain == !accepted
        && settled == (if old(|queue|) == 1 then old(settled) + SettledAs(old(drainWaiters), true) else old(settled))
      ensures SettledKept(old(settled), settled)
    {
      if Skips(writable) {
        return;
      }
      waitingForSocketDrain := !accepted;
      if queue == [] {
        EmitSilence();
      } else {
        PlayOldest();
      }
    }

    method EmitSilence()
      modifies this`written
      ensures written == old(written) + [Wire(SILENCE)]
      ensures old(Aired()) ==> Aired()
    {
      if Aired() {
        WireFills(sent, Wire, FILLER, written, Wire(SILENCE));
      }
      written := written + [Wire(SILENCE)];
    }

    method PlayOldest()
      requires Valid() && queue != []
      modifies this`queue, this`framesSent, this`bytesSent, this`fates, this`sent, this`written
      modifies this`drainWaiters, this`settled
      ensures Valid() && (old(Aired()) ==> Aired())
      ensures written == old(written) + [old(queue)[0]] && fates == old(fates) + [SentOut]
      ensures settled == (if old(|queue|) == 1 then old(settled) + SettledAs(old(drainWaiters), true) else old(settled))
      ensures SettledKept(old(settled), settled)
    {
      if Aired() {
        WireSends(sent, Wire, FILLER, written, enqueued[|fates|]);
      }
      written := written + [queue[0]];
      TakeOldest();
    }

    /** The head leaves, and when it was the last one every pending promise is kept. */
    method TakeOldest()
      requires Valid() && queue != []
      modifies this`queue, this`framesSent, this`bytesSent, this`fates, this`sent, this`drainWaiters, this`settled
      ensures Valid()
      ensures queue == old(queue)[1..] && fates == old(fates) + [SentOut]
      ensures sent == old(sent) + [enqueued[old(|fates|)]]
      ensures settled == (if old(|queue|) == 1 then old(settled) + SettledAs(old(drainWaiters), true) else old(settled))
      ensures SettledKept(old(settled), settled)
    {
      Depart();
      if queue == [] {
        SettleDrainWaiters(true);
      }
    }

    method Depart()
      requires QueueState() && Counters() && Waiters() && queue != []
      modifies this`queue, this`framesSent, this`bytesSent, this`fates, this`sent
      ensures QueueState() && Counters() && Waiters()
      ensures queue == old(queue)[1..] && fates == old(fates) + [SentOut]
      ensures sent == old(sent) + [enqueued[old(|fates|)]]
    {
      CountsAppend(fates, SentOut);
      SentOfAppend(enqueued, fates, SentOut);
      sent := sent + [enqueued[|fates|]];
      DepartureKeeps(drainWaiters, settled, nextWaiter, spans, fates, |enqueued|, SentOut);
      assert |queue[0]| == Framer.HEADER_BYTES + FRAME_BYTES;
      framesSent := framesSent + 1;
      bytesSent := bytesSent + |queue[0]| - Framer.HEADER_BYTES;
      queue := queue[1..];
      fates := fates + [SentOut];
    }

    method ReleaseSocketBackpressure()
      requires Valid()
      modifies this`waitingForSocketDrain
      ensures Valid() && !waitingForSocketDrain
    {
      waitingForSocketDrain := false;
    }

    /** In every reachable state each enqueued frame is sent, dropped, abandoned, discarded or still queued. */
    lemma Conservation()
      requires Valid()
      ensures |enqueued| == framesSent + framesDropped + framesAbandoned + Count(fates, Discarded) + |queue|
      ensures Subsequence(SentOf(enqueued, fates) + enqueued[|fates|..], enqueued)
    {
      CountTotal(fates);
      SentThenQueued(enqueued, fates);
    }

    /** What went out is the frames sent, each once and in order, and nothing else but silence and TERMINATE. */
    lemma WireCarriesSent()
      requires Valid() && Aired()
      ensures OnTheWire(SentOf(enqueued, fates), Wire, FILLER, written)
    {
    }

    /** A promise kept is true: everything queued when it was made was played or pushed out by an overflow. */
    lemma DrainedMeansPlayed(w: nat, i: nat)
      requires Valid() && w in settled && settled[w] && spans[w].from <= i < spans[w].until
      ensures fates[i] == SentOut || fates[i] == Overflowed
    {
    }
  }
}
