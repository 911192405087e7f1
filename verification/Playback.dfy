/** What the playback horizon of the realtime provider means for the caller's ear. */
module Playback {
  import opened RealArithmetic
  import opened Options
  import opened BoundedMemory
  import opened ResponseGate

  /** A non-empty chunk of u-law audio and when it was handed over. */
  datatype Chunk = Chunk(at: real, bytes: nat)

  function Millis(c: Chunk): real {
    c.bytes as real / ULAW_BYTES_PER_MS
  }

  /** The horizon after some chunks, starting from the zero an abandonment leaves. */
  function Horizon(chunks: seq<Chunk>): real {
    if chunks == [] then 0.0
    else
      var n := |chunks| - 1;
      LaterHorizon(Horizon(chunks[..n]), chunks[n].at, chunks[n].bytes)
  }

  lemma HorizonStep(chunks: seq<Chunk>, c: Chunk)
    ensures Horizon(chunks + [c]) == LaterHorizon(Horizon(chunks), c.at, c.bytes)
    ensures Horizon(chunks + [c]) == Max(Horizon(chunks), c.at) + Millis(c)
    ensures Horizon(chunks + []) == Horizon(chunks)
  {
    assert (chunks + [c])[..|chunks|] == chunks;
    assert chunks + [] == chunks;
  }

  /** Duration of the chunks from i on. */
  function Duration(chunks: seq<Chunk>, i: nat): real
    requires i <= |chunks|
    decreases |chunks| - i
  {
    if i == |chunks| then 0.0 else Millis(chunks[i]) + Duration(chunks, i + 1)
  }

  lemma {:induction false} DurationAppend(chunks: seq<Chunk>, c: Chunk, i: nat)
    requires i <= |chunks|
    ensures Duration(chunks + [c], i) == Duration(chunks, i) + Millis(c)
    decreases |chunks| - i
  {
    if i < |chunks| {
      DurationAppend(chunks, c, i + 1);
    }
  }

  /**
   The horizon is the latest of the times by which the audio from some chunk on could have
   finished: the maximum over i of at[i] plus all durations from i.
   */
  lemma {:induction false} HorizonIsLatestFinish(chunks: seq<Chunk>)
    requires chunks != [] && chunks[0].at >= 0.0
    ensures forall i :: 0 <= i < |chunks| ==> Horizon(chunks) >= chunks[i].at + Duration(chunks, i)
    ensures exists i :: 0 <= i < |chunks| && Horizon(chunks) == chunks[i].at + Duration(chunks, i)
    decreases |chunks|
  {
    var n := |chunks| - 1;
    var before, c := chunks[..n], chunks[n];
    assert before + [c] == chunks;
    HorizonStep(before, c);
    forall i | 0 <= i <= n ensures Duration(chunks, i) == Duration(before, i) + Millis(c) {
      DurationAppend(before, c, i);
    }
    if n > 0 {
      HorizonIsLatestFinish(before);
      var i :| 0 <= i < n && Horizon(before) == before[i].at + Duration(before, i);
      var m := if Horizon(before) >= c.at then i else n;
      assert Horizon(chunks) == chunks[m].at + Duration(chunks, m);
    } else {
      assert Horizon(chunks) == chunks[0].at + Duration(chunks, 0);
    }
  }

  /** What an ideal real-time player still has to play at `now`: it drains one millisecond a millisecond. */
  function Unplayed(chunks: seq<Chunk>, now: real): real
    decreases |chunks|, 1
  {
    if chunks == [] then 0.0 else Max(0.0, LevelAfter(chunks) - (now - chunks[|chunks| - 1].at))
  }

  /** The same right after its last chunk. */
  function LevelAfter(chunks: seq<Chunk>): real
    requires chunks != []
    decreases |chunks|, 0
  {
    var n := |chunks| - 1;
    Unplayed(chunks[..n], chunks[n].at) + Millis(chunks[n])
  }

  ghost predicate InOrder(chunks: seq<Chunk>) {
    && (forall i :: 0 <= i < |chunks| ==> chunks[i].at >= 0.0)
    && (forall i, j :: 0 <= i < j < |chunks| ==> chunks[i].at <= chunks[j].at)
  }

  lemma {:induction false} LevelIsLead(chunks: seq<Chunk>)
    requires InOrder(chunks) && chunks != []
    ensures LevelAfter(chunks) == Horizon(chunks) - chunks[|chunks| - 1].at
    decreases |chunks|
  {
    var n := |chunks| - 1;
    if n > 0 {
      LevelIsLead(chunks[..n]);
    }
  }

  /** "Still audible" holds exactly when that player still has something to play. */
  lemma StillAudibleExactly(chunks: seq<Chunk>, now: real)
    requires InOrder(chunks) && now >= 0.0
    requires chunks != [] ==> now >= chunks[|chunks| - 1].at
    ensures Horizon(chunks) > now <==> Unplayed(chunks, now) > 0.0
    ensures Unplayed(chunks, now) == Max(0.0, Horizon(chunks) - now)
  {
    if chunks != [] {
      LevelIsLead(chunks);
    }
  }

  datatype Delivery = Delivery(id: Option<Id>, chunk: Chunk)

  /** The gate after some deliveries, of any responses. */
  function Hearing(g: Gate, ds: seq<Delivery>): Gate {
    if ds == [] then g
    else
      var d := ds[|ds| - 1];
      AfterAudio(Hearing(g, ds[..|ds| - 1]), d.chunk.at, d.id, d.chunk.bytes)
  }

  /** The chunks among them that are not empty and not of an abandoned response. */
  function Kept(cancelled: seq<Id>, ds: seq<Delivery>): seq<Chunk> {
    if ds == [] then []
    else
      var d := ds[|ds| - 1];
      Kept(cancelled, ds[..|ds| - 1])
      + if d.chunk.bytes == 0 || (d.id.Some? && d.id.value in cancelled) then [] else [d.chunk]
  }

  /** From an abandonment on the provider's horizon is the horizon of exactly the audio that counts. */
  lemma {:induction false} ProviderKeepsHorizon(g: Gate, ds: seq<Delivery>)
    ensures var after := AfterAbandon(g).gate;
      && Hearing(after, ds).cancelled == after.cancelled
      && Hearing(after, ds).horizon == Horizon(Kept(after.cancelled, ds))
    decreases |ds|
  {
    if ds != [] {
      var d, before := ds[|ds| - 1], Kept(AfterAbandon(g).gate.cancelled, ds[..|ds| - 1]);
      ProviderKeepsHorizon(g, ds[..|ds| - 1]);
      HorizonStep(before, d.chunk);
    }
  }

  /** At the start of a session nothing is playing and nothing has been abandoned. */
  lemma {:induction false} StartKeepsHorizon(ds: seq<Delivery>)
    ensures Hearing(INITIAL_GATE, ds).cancelled == [] && Hearing(INITIAL_GATE, ds).horizon == Horizon(Kept([], ds))
    decreases |ds|
  {
    if ds != [] {
      var d, before := ds[|ds| - 1], Kept([], ds[..|ds| - 1]);
      StartKeepsHorizon(ds[..|ds| - 1]);
      HorizonStep(before, d.chunk);
    }
  }

  /** The response that was last heard by name. */
  function LastNamed(cancelled: seq<Id>, ds: seq<Delivery>): Option<Id> {
    if ds == [] then None
    else
      var d := ds[|ds| - 1];
      if d.chunk.bytes > 0 && d.id.Some? && d.id.value !in cancelled then d.id else LastNamed(cancelled, ds[..|ds| - 1])
  }

  /** It is the one an abandonment cuts off when none is active any more: its audio may still be playing. */
  lemma {:induction false} LastHeardIsAbandoned(g: Gate, ds: seq<Delivery>)
    ensures Hearing(g, ds).cancelled == g.cancelled && Hearing(g, ds).active == g.active
    ensures Hearing(g, ds).lastAudio == if LastNamed(g.cancelled, ds).Some? then LastNamed(g.cancelled, ds) else g.lastAudio
    ensures g.active.None? && LastNamed(g.cancelled, ds).Some? ==>
      AfterAbandon(Hearing(g, ds)).gate.cancelled
        == Remember(g.cancelled, LastNamed(g.cancelled, ds).value, MAX_TRACKED_CANCELLED_RESPONSES)
    decreases |ds|
  {
    if ds != [] {
      LastHeardIsAbandoned(g, ds[..|ds| - 1]);
    }
  }

  /** The response whose audio an abandonment cuts off. */
  function Audible(g: Gate): Option<Id> {
    if g.active.Some? then g.active else g.lastAudio
  }

  /** An abandonment remembers that response: as the newest one, or where it already stood. */
  lemma AbandonedIsRemembered(g: Gate) returns (at: nat)
    requires Distinct(g.cancelled) && |g.cancelled| <= MAX_TRACKED_CANCELLED_RESPONSES && Audible(g).Some?
    ensures var kept := AfterAbandon(g).gate.cancelled;
      && Distinct(kept) && |kept| <= MAX_TRACKED_CANCELLED_RESPONSES
      && at < |kept| && kept[at] == Audible(g).value
      && (Audible(g).value in g.cancelled ==> kept == g.cancelled)
      && (Audible(g).value !in g.cancelled ==> at == |kept| - 1)
  {
    var id, kept := Audible(g).value, AfterAbandon(g).gate.cancelled;
    RememberKeepsOrder(g.cancelled, id, MAX_TRACKED_CANCELLED_RESPONSES);
    if id in g.cancelled {
      at :| at < |kept| && kept[at] == id;
    } else {
      at := |kept| - 1;
    }
  }

  /** Its late audio changes nothing while fewer than sixteen ids, newer ones and further ones, follow it. */
  lemma AbandonedAudioIsDiscarded(g: Gate, later: Gate, at: nat, more: seq<Id>, now: real, bytes: nat)
    requires var kept := AfterAbandon(g).gate.cancelled;
      && at < |kept| && Audible(g) == Some(kept[at])
      && |kept| - 1 - at + |more| < MAX_TRACKED_CANCELLED_RESPONSES
      && later.cancelled == RememberAll(kept, more, MAX_TRACKED_CANCELLED_RESPONSES)
    ensures AfterAudio(later, now, Audible(g), bytes) == later
  {
    StaysRemembered(AfterAbandon(g).gate.cancelled, at, more, MAX_TRACKED_CANCELLED_RESPONSES);
  }

  /** Once that many other ids have been abandoned since, it is forgotten and its audio would count again. */
  lemma AbandonedIsForgotten(ids: seq<Id>, at: nat, more: seq<Id>)
    requires Distinct(ids + more) && at < |ids| <= MAX_TRACKED_CANCELLED_RESPONSES
    requires |ids| - 1 - at + |more| >= MAX_TRACKED_CANCELLED_RESPONSES
    ensures ids[at] !in RememberAll(ids, more, MAX_TRACKED_CANCELLED_RESPONSES)
  {
    RememberAllIsLast(ids, more, MAX_TRACKED_CANCELLED_RESPONSES);
    var all := ids + more;
    assert all[at] == ids[at];
  }
}
