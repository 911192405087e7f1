/**
 The AudioSocket framer: one type byte, a big-endian 16-bit length, the payload. The packets of a
 stream are a function of all its bytes; a connection keeps what that function leaves over.
 */
module Framer {
  import opened Pcm
  import opened Chunks
  import opened Options

  const HEADER_BYTES := 3
  const UUID_BYTES := 16
  const MAX_PAYLOAD_BYTES := 0xffff

  const TERMINATE: byte := 0x00
  const UUID: byte := 0x01
  const DTMF: byte := 0x02
  const AUDIO: byte := 0x10
  const ERROR: byte := 0xff

  datatype Packet = Packet(kind: byte, payload: seq<byte>)

  type Sendable = p: Packet | |p.payload| <= MAX_PAYLOAD_BYTES witness Packet(TERMINATE, [])

  function Encode(p: Sendable): seq<byte> {
    [p.kind, |p.payload| / 256, |p.payload| % 256] + p.payload
  }

  function EncodeAll(ps: seq<Sendable>): seq<byte> {
    if ps == [] then [] else Encode(ps[0]) + EncodeAll(ps[1..])
  }

  // ------------------------------------------------------------------
  // Reading a byte stream
  // ------------------------------------------------------------------

  /** Length of the packet a buffer starts with, once its header is complete. */
  function PacketEnd(b: seq<byte>): nat
    requires |b| >= HEADER_BYTES
  {
    HEADER_BYTES + 256 * (b[1] as int) + b[2]
  }

  predicate HasPacket(b: seq<byte>) {
    |b| >= HEADER_BYTES && PacketEnd(b) <= |b|
  }

  function First(b: seq<byte>): Packet
    requires HasPacket(b)
  {
    Packet(b[0], b[HEADER_BYTES..PacketEnd(b)])
  }

  /** The packets of a stream, up to and including the first TERMINATE. */
  function Packets(b: seq<byte>): seq<Packet>
    decreases |b|
  {
    if !HasPacket(b) then []
    else if First(b).kind == TERMINATE then [First(b)]
    else [First(b)] + Packets(b[PacketEnd(b)..])
  }

  predicate Terminated(b: seq<byte>)
    decreases |b|
  {
    HasPacket(b) && (First(b).kind == TERMINATE || Terminated(b[PacketEnd(b)..]))
  }

  /** What is kept for the next read: the unparsed suffix, nothing once terminated. */
  function Residual(b: seq<byte>): seq<byte>
    decreases |b|
  {
    if !HasPacket(b) then b
    else if First(b).kind == TERMINATE then []
    else Residual(b[PacketEnd(b)..])
  }

  /** One type byte, the length with its high byte first, then the payload. */
  lemma EncodedLayout(p: Sendable)
    ensures var b := Encode(p);
      && |b| == 3 + |p.payload| && b[0] == p.kind && 256 * b[1] as int + b[2] as int == |p.payload| && b[3..] == p.payload
  {
  }

  /** A stream can be parsed from what an earlier parse left over. */
  lemma {:induction false} ParsingResumes(b: seq<byte>, more: seq<byte>)
    ensures Terminated(b) ==> Packets(b + more) == Packets(b) && Terminated(b + more)
    ensures !Terminated(b) ==>
      && Packets(b + more) == Packets(b) + Packets(Residual(b) + more)
      && Residual(b + more) == Residual(Residual(b) + more)
      && Terminated(b + more) == Terminated(Residual(b) + more)
    ensures Terminated(b) ==> Residual(b) == []
    decreases |b|
  {
    if HasPacket(b) {
      var e := PacketEnd(b);
      assert (b + more)[e..] == b[e..] + more;
      assert First(b + more) == First(b);
      ParsingResumes(b[e..], more);
    }
  }

  /** The residue is a suffix of the stream, and never holds a complete packet. */
  lemma {:induction false} ResidualIsIncomplete(b: seq<byte>)
    ensures !HasPacket(Residual(b))
    ensures !Terminated(b) ==> |Residual(b)| <= |b| && Residual(b) == b[|b| - |Residual(b)|..]
    decreases |b|
  {
    if HasPacket(b) && First(b).kind != TERMINATE {
      ResidualIsIncomplete(b[PacketEnd(b)..]);
    }
  }

  function UpToTerminate(ps: seq<Packet>): seq<Packet> {
    if ps == [] then []
    else if ps[0].kind == TERMINATE then [ps[0]]
    else [ps[0]] + UpToTerminate(ps[1..])
  }

  predicate HasTerminate(ps: seq<Packet>) {
    exists i :: 0 <= i < |ps| && ps[i].kind == TERMINATE
  }

  lemma EncodedStartsStream(p: Sendable, rest: seq<byte>)
    ensures var b := Encode(p) + rest;
      HasPacket(b) && First(b) == p && b[PacketEnd(b)..] == rest
  {
  }

  /** Encoding and parsing again gives back the packets, up to and including the first TERMINATE. */
  lemma {:induction false} RoundTrip(ps: seq<Sendable>)
    ensures Packets(EncodeAll(ps)) == UpToTerminate(ps)
    ensures Residual(EncodeAll(ps)) == []
    ensures Terminated(EncodeAll(ps)) == HasTerminate(ps)
  {
    if ps != [] {
      EncodedStartsStream(ps[0], EncodeAll(ps[1..]));
      RoundTrip(ps[1..]);
      assert HasTerminate(ps) <==> ps[0].kind == TERMINATE || HasTerminate(ps[1..]) by {
        if HasTerminate(ps) && ps[0].kind != TERMINATE {
          var i :| 0 <= i < |ps| && ps[i].kind == TERMINATE;
          assert ps[1..][i - 1].kind == TERMINATE;
        }
        if HasTerminate(ps[1..]) {
          var i :| 0 <= i < |ps[1..]| && ps[1..][i].kind == TERMINATE;
          assert ps[i + 1].kind == TERMINATE;
        }
      }
    }
  }

  // ------------------------------------------------------------------
  // Dispatch
  // ------------------------------------------------------------------

  datatype Event =
    | SessionStarted(uuid: seq<byte>)
    | AudioReceived(audio: seq<byte>)
    | DtmfReceived(digit: byte)
    | ProtocolError(code: byte)
    | BadUuid(length: nat)

  datatype SessionState = SessionState(uuid: seq<byte>, packetsReceived: nat, hungUp: bool)

  /** `handled` numbers the packets of the connection. */
  datatype Dispatcher = Dispatcher(session: Option<SessionState>, closed: bool, events: seq<Event>, handled: nat)

  const FRESH := Dispatcher(None, false, [], 0)

  /** Whether someone hangs the session up while packet number k is delivered, or before the next one is. */
  type Hangups = nat -> bool

  function Counted(session: Option<SessionState>): Option<SessionState> {
    match session
    case None => None
    case Some(s) => Some(s.(packetsReceived := s.packetsReceived + 1))
  }

  function Delivered(d: Dispatcher, p: Packet): Dispatcher {
    var c := d.(session := Counted(d.session));
    if p.kind == UUID then
      if |p.payload| != UUID_BYTES then c.(events := c.events + [BadUuid(|p.payload|)])
      else if c.session.Some? then c
      else c.(session := Some(SessionState(p.payload, 1, false)), events := c.events + [SessionStarted(p.payload)])
    else if p.kind == AUDIO then
      if c.session.None? || p.payload == [] || c.session.value.hungUp then c
      else c.(events := c.events + [AudioReceived(p.payload)])
    else if p.kind == DTMF then
      if c.session.None? || p.payload == [] then c else c.(events := c.events + [DtmfReceived(p.payload[0])])
    else if p.kind == TERMINATE then c.(closed := true)
    else if p.kind == ERROR then
      c.(events := c.events + [ProtocolError(if p.payload == [] then 0 else p.payload[0])])
    else c
  }

  /** One packet, and what its listeners or a timer make of the session before the next. */
  function Handle(h: Hangups, d: Dispatcher, p: Packet): Dispatcher {
    var c := Delivered(d, p);
    c.(handled := d.handled + 1,
      session := if c.session.Some? && h(d.handled) then Some(c.session.value.(hungUp := true)) else c.session)
  }

  function HandleAll(h: Hangups, d: Dispatcher, ps: seq<Packet>): Dispatcher
    decreases |ps|
  {
    if ps == [] then d else HandleAll(h, Handle(h, d, ps[0]), ps[1..])
  }

  predicate StartsSession(p: Packet) {
    p.kind == UUID && |p.payload| == UUID_BYTES
  }

  /** Index of the packet that opens the session, or the number of packets. */
  function SessionStart(ps: seq<Packet>): (i: nat)
    ensures i <= |ps|
    ensures i < |ps| ==> StartsSession(ps[i])
    ensures forall j :: 0 <= j < i ==> !StartsSession(ps[j])
  {
    if ps == [] || StartsSession(ps[0]) then 0 else 1 + SessionStart(ps[1..])
  }

  lemma {:induction false} SessionStartAppend(ps: seq<Packet>, p: Packet)
    ensures SessionStart(ps + [p]) == (if SessionStart(ps) < |ps| || StartsSession(p) then SessionStart(ps) else |ps| + 1)
  {
    if ps == [] {
      assert (ps + [p])[1..] == [];
    } else {
      SessionStartAppend(ps[1..], p);
      assert (ps + [p])[1..] == ps[1..] + [p];
    }
  }

  lemma {:induction false} HandleAllConcat(h: Hangups, d: Dispatcher, ps: seq<Packet>, qs: seq<Packet>)
    ensures HandleAll(h, d, ps + qs) == HandleAll(h, HandleAll(h, d, ps), qs)
    decreases |ps|
  {
    if ps == [] {
      assert ps + qs == qs;
    } else {
      HandleAllConcat(h, Handle(h, d, ps[0]), ps[1..], qs);
      assert (ps + qs)[1..] == ps[1..] + qs;
    }
  }

  /** What one packet does to the session. */
  lemma SessionAfter(h: Hangups, d: Dispatcher, p: Packet)
    ensures var e := Handle(h, d, p);
      && e.handled == d.handled + 1
      && match d.session {
        case Some(s) => e.session == Some(SessionState(s.uuid, s.packetsReceived + 1, s.hungUp || h(d.handled)))
        case None => e.session == if StartsSession(p) then Some(SessionState(p.payload, 1, h(d.handled))) else None
      }
  {
  }

  /** Someone hangs up from packet `from` on, before packet `until`. */
  ghost predicate HungUp(h: Hangups, from: nat, until: nat) {
    exists k :: from <= k < until && h(k)
  }

  /**
   The session is the one of the first valid UUID, counts that packet and all later ones whether
   or not it has been hung up, and is hung up from the first hang-up after it began.
   */
  lemma {:induction false} PacketsReceivedCount(h: Hangups, ps: seq<Packet>)
    ensures var d, start := HandleAll(h, FRESH, ps), SessionStart(ps);
      && d.handled == |ps|
      && (d.session.None? <==> start == |ps|)
      && (d.session.Some? ==>
        d.session == Some(SessionState(ps[start].payload, |ps| - start, HungUp(h, start, |ps|))))
    decreases |ps|
  {
    if ps != [] {
      var n := |ps| - 1;
      PacketsReceivedCount(h, ps[..n]);
      HandleAllConcat(h, FRESH, ps[..n], [ps[n]]);
      SessionStartAppend(ps[..n], ps[n]);
      assert ps[..n] + [ps[n]] == ps;
      SessionAfter(h, HandleAll(h, FRESH, ps[..n]), ps[n]);
      if SessionStart(ps) <= n {
        HungUpOneMore(h, SessionStart(ps), n);
      }
    }
  }

  lemma HungUpOneMore(h: Hangups, from: nat, until: nat)
    requires from <= until
    ensures HungUp(h, from, until + 1) <==> HungUp(h, from, until) || h(until)
    ensures !HungUp(h, from, from)
  {
    if h(until) {
      assert HungUp(h, from, until + 1);
    }
  }

  function AudioOf(events: seq<Event>): seq<seq<byte>> {
    if events == [] then []
    else
      var n := |events| - 1;
      AudioOf(events[..n]) + if events[n].AudioReceived? then [events[n].audio] else []
  }

  /** The payloads of the non-empty audio packets that come after the session's start and before any hang-up. */
  ghost function Audible(h: Hangups, ps: seq<Packet>): seq<seq<byte>> {
    if ps == [] then []
    else
      var n := |ps| - 1;
      var start := SessionStart(ps);
      Audible(h, ps[..n])
      + if ps[n].kind == AUDIO && ps[n].payload != [] && start < n && !HungUp(h, start, n) then [ps[n].payload] else []
  }

  /** Exactly that audio is delivered, in order. */
  lemma {:induction false} AudioDeliveredExactly(h: Hangups, ps: seq<Packet>)
    ensures AudioOf(HandleAll(h, FRESH, ps).events) == Audible(h, ps)
    decreases |ps|
  {
    if ps != [] {
      var n := |ps| - 1;
      AudioDeliveredExactly(h, ps[..n]);
      PacketsReceivedCount(h, ps[..n]);
      HandleAllConcat(h, FRESH, ps[..n], [ps[n]]);
      SessionStartAppend(ps[..n], ps[n]);
      assert ps[..n] + [ps[n]] == ps;
      AudioOfStep(HandleAll(h, FRESH, ps[..n]), ps[n]);
    }
  }

  /** What packet n makes known to the listeners, given those before it. */
  ghost function EventsOf(h: Hangups, ps: seq<Packet>, n: nat): seq<Event>
    requires n < |ps|
  {
    var started := exists k :: 0 <= k < n && StartsSession(ps[k]);
    EventsGiven(ps[n].kind, ps[n].payload, started, started && HungUp(h, SessionStart(ps[..n]), n))
  }

  function EventsGiven(kind: byte, payload: seq<byte>, started: bool, hungUp: bool): seq<Event> {
    if kind == UUID && |payload| != UUID_BYTES then [BadUuid(|payload|)]
    else if kind == UUID && !started then [SessionStarted(payload)]
    else if kind == AUDIO && payload != [] && started && !hungUp then [AudioReceived(payload)]
    else if kind == DTMF && payload != [] && started then [DtmfReceived(payload[0])]
    else if kind == ERROR then [ProtocolError(if payload == [] then 0 else payload[0])]
    else []
  }

  lemma DeliveredEvents(h: Hangups, d: Dispatcher, p: Packet)
    ensures Handle(h, d, p).events
         == d.events + EventsGiven(p.kind, p.payload, d.session.Some?, d.session.Some? && d.session.value.hungUp)
  {
    assert d.events + [] == d.events;
  }

  ghost function AllEvents(h: Hangups, ps: seq<Packet>): seq<Event> {
    if ps == [] then [] else AllEvents(h, ps[..|ps| - 1]) + EventsOf(h, ps, |ps| - 1)
  }

  /** Exactly these events reach the listeners, in order: one session, its digits, its audio, and every error. */
  lemma {:induction false} EventsExactly(h: Hangups, ps: seq<Packet>)
    ensures HandleAll(h, FRESH, ps).events == AllEvents(h, ps)
    decreases |ps|
  {
    if ps != [] {
      var n := |ps| - 1;
      var before := ps[..n];
      EventsExactly(h, before);
      PacketsReceivedCount(h, before);
      HandleAllConcat(h, FRESH, before, [ps[n]]);
      assert before + [ps[n]] == ps;
      StartedExactly(before, ps);
      DeliveredEvents(h, HandleAll(h, FRESH, before), ps[n]);
    }
  }

  lemma StartedExactly(before: seq<Packet>, ps: seq<Packet>)
    requires |before| < |ps| && before == ps[..|before|]
    ensures SessionStart(before) < |before| <==> exists k :: 0 <= k < |before| && StartsSession(ps[k])
  {
    assert forall k :: 0 <= k < |before| ==> before[k] == ps[k];
    if SessionStart(before) < |before| {
      assert StartsSession(ps[SessionStart(before)]);
    }
  }

  lemma AudioOfStep(d: Dispatcher, p: Packet)
    ensures AudioOf(Delivered(d, p).events) == AudioOf(d.events)
      + if p.kind == AUDIO && p.payload != [] && d.session.Some? && !d.session.value.hungUp then [p.payload] else []
  {
    var e := Delivered(d, p).events;
    if p.kind == AUDIO && p.payload != [] && d.session.Some? && !d.session.value.hungUp {
      AudioOfAppend(d.events, AudioReceived(p.payload));
    } else if e != d.events {
      AudioOfAppend(d.events, e[|d.events|]);
    }
  }

  lemma AudioOfAppend(events: seq<Event>, e: Event)
    ensures AudioOf(events + [e]) == AudioOf(events) + if e.AudioReceived? then [e.audio] else []
  {
    assert (events + [e])[..|events|] == events;
  }

  lemma {:induction false} ClosedExactly(h: Hangups, b: seq<byte>, d: Dispatcher)
    requires !d.closed
    ensures HandleAll(h, d, Packets(b)).closed == Terminated(b)
    decreases |b|
  {
    if HasPacket(b) {
      var rest := b[PacketEnd(b)..];
      assert ([First(b)] + Packets(rest))[1..] == Packets(rest);
      assert [First(b)][1..] == [];
      if First(b).kind != TERMINATE {
        ClosedExactly(h, rest, Handle(h, d, First(b)));
      }
    }
  }

  /** Handling the first packet of a stream, and what is left to handle. */
  lemma DispatchStep(h: Hangups, d: Dispatcher, b: seq<byte>)
    requires HasPacket(b) && !d.closed
    ensures var next, rest := Handle(h, d, First(b)), b[PacketEnd(b)..];
      && next.closed == (First(b).kind == TERMINATE)
      && HandleAll(h, d, Packets(b)) == (if next.closed then next else HandleAll(h, next, Packets(rest)))
      && Residual(b) == if next.closed then [] else Residual(rest)
  {
    var rest := b[PacketEnd(b)..];
    assert [First(b)][1..] == [] && ([First(b)] + Packets(rest))[1..] == Packets(rest);
  }

  /** The packet at an offset is the first one of what starts there, once it is complete. */
  lemma PacketAt(all: seq<byte>, offset: nat)
    requires offset + HEADER_BYTES <= |all|
    ensures var (rest, end) := (all[offset..], offset + HEADER_BYTES + 256 * (all[offset + 1] as int) + all[offset + 2]);
      && (HasPacket(rest) <==> end <= |all|)
      && (end <= |all| ==>
        First(rest) == Packet(all[offset], all[offset + HEADER_BYTES..end]) && rest[PacketEnd(rest)..] == all[end..])
  {
    var rest, end := all[offset..], offset + HEADER_BYTES + 256 * (all[offset + 1] as int) + all[offset + 2];
    assert PacketEnd(rest) == end - offset;
    if end <= |all| {
      assert rest[HEADER_BYTES..PacketEnd(rest)] == all[offset + HEADER_BYTES..end];
      assert rest[PacketEnd(rest)..] == all[end..];
    }
  }

  /** One TCP connection. */
  class Connection {
    /** Who hangs up when is not up to the framer. */
    const h: Hangups
    var buffer: seq<byte>
    var dispatcher: Dispatcher
    /** Every byte the socket has delivered. */
    ghost var fed: seq<byte>

    ghost predicate Valid()
      reads this
    {
      && dispatcher == HandleAll(h, FRESH, Packets(fed))
      && dispatcher.closed == Terminated(fed)
      && buffer == Residual(fed)
    }

    constructor (h: Hangups)
      ensures Valid() && fed == [] && this.h == h
    {
      this.h := h;
      buffer, dispatcher, fed := [], FRESH, [];
    }

    /** One read from the socket: its bytes extend the stream, and a closed connection ignores them. */
    method Consume(chunk: seq<byte>)
      requires Valid()
      modifies this
      ensures Valid() && fed == old(fed) + chunk
    {
      ParsingResumes(fed, chunk);
      if dispatcher.closed {
        ParsingResumes(fed + chunk, []);
        fed := fed + chunk;
        return;
      }
      HandleAllConcat(h, FRESH, Packets(fed), Packets(buffer + chunk));
      var all := if buffer == [] then chunk else buffer + chunk;
      assert all == buffer + chunk;
      var offset := DispatchAll(all);
      buffer := if offset >= |all| then [] else all[offset..];
      fed := fed + chunk;
    }

    /** The packet from `offset` to `packetEnd`; what is left to do is then what starts behind it. */
    method DispatchOne(all: seq<byte>, offset: nat, packetEnd: nat, ghost result: Dispatcher, ghost residual: seq<byte>)
      requires offset + HEADER_BYTES <= packetEnd <= |all| && !dispatcher.closed
      requires packetEnd == offset + HEADER_BYTES + 256 * (all[offset + 1] as int) + all[offset + 2]
      requires result == HandleAll(h, dispatcher, Packets(all[offset..])) && residual == Residual(all[offset..])
      modifies this`dispatcher
      ensures dispatcher.closed ==> dispatcher == result && residual == []
      ensures !dispatcher.closed ==>
        result == HandleAll(h, dispatcher, Packets(all[packetEnd..])) && residual == Residual(all[packetEnd..])
    {
      PacketAt(all, offset);
      DispatchStep(h, dispatcher, all[offset..]);
      dispatcher := Handle(h, dispatcher, Packet(all[offset], all[offset + HEADER_BYTES..packetEnd]));
    }

    /** The loop over the complete packets of the accumulated bytes. */
    method DispatchAll(all: seq<byte>) returns (offset: nat)
      requires !dispatcher.closed
      modifies this`dispatcher
      ensures dispatcher == HandleAll(h, old(dispatcher), Packets(all))
      ensures dispatcher.closed == Terminated(all)
      ensures offset <= |all| && all[offset..] == Residual(all)
    {
      offset := 0;
      ghost var result, residual := HandleAll(h, dispatcher, Packets(all)), Residual(all);
      ClosedExactly(h, all, dispatcher);
      assert all[0..] == all;
      while |all| - offset >= HEADER_BYTES
        invariant offset <= |all| && !dispatcher.closed
        invariant HandleAll(h, dispatcher, Packets(all[offset..])) == result
        invariant Residual(all[offset..]) == residual
      {
        PacketAt(all, offset);
        var payloadLength := 256 * (all[offset + 1] as int) + all[offset + 2];
        var packetEnd := offset + HEADER_BYTES + payloadLength;
        if packetEnd > |all| {
          break;
        }
        DispatchOne(all, offset, packetEnd, result, residual);
        offset := packetEnd;
        if dispatcher.closed {
          offset := |all|;
          return;
        }
      }
    }
  }

  /** Whatever chunks the packets arrive in, they are dispatched in order up to the first TERMINATE. */
  method ReceiveChunks(h: Hangups, ps: seq<Sendable>, chunks: seq<seq<byte>>) returns (d: Dispatcher)
    requires Concat(chunks) == EncodeAll(ps)
    ensures d == HandleAll(h, FRESH, UpToTerminate(ps))
    ensures d.closed == HasTerminate(ps)
  {
    var connection := new Connection(h);
    assert chunks[..|chunks|] == chunks;
    for i := 0 to |chunks|
      invariant fresh(connection) && connection.Valid() && connection.h == h && connection.fed == Concat(chunks[..i])
    {
      assert chunks[..i + 1][..i] == chunks[..i];
      connection.Consume(chunks[i]);
    }
    RoundTrip(ps);
    d := connection.dispatcher;
  }
}
