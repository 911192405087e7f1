/**
 The response gate of the realtime provider: a request goes out only through an idle gate, a turn
 wanted meanwhile waits in a one-place queue, and a timer reopens a gate that awaits an answer. It
 also keeps the clock of audio still playing.
 */
module ResponseGate {
  import opened Options
  import opened BoundedMemory

  /** Response ids; None stands for the empty or missing id on the wire. */
  type Id = nat

  datatype ClientMessage = Create | Cancel(id: Id)

  const MAX_TRACKED_CANCELLED_RESPONSES := 16
  const ULAW_BYTES_PER_MS := 8.0
  const RETRY_AFTER_CONFLICT := "retry_after_conflict"

  datatype Gate = Gate(
    active: Option<Id>,
    awaiting: bool,
    queued: Option<string>,
    armed: bool,
    speaking: bool,
    suppressed: bool,
    stopped: bool,
    open: bool,
    horizon: real,
    lastAudio: Option<Id>,
    cancelled: seq<Id>)

  const INITIAL_GATE := Gate(None, false, None, false, false, false, false, true, 0.0, None, [])

  /** A new gate and the messages handed to the socket on the way. */
  datatype Outcome = Outcome(gate: Gate, sent: seq<ClientMessage>)

  /** A closed socket drops what it is given. */
  function Sent(g: Gate, m: ClientMessage): seq<ClientMessage> {
    if g.open then [m] else []
  }

  predicate Busy(g: Gate) {
    g.active.Some? || g.awaiting
  }

  function AfterRequest(g: Gate, reason: string): Outcome {
    if g.stopped then Outcome(g, [])
    else if Busy(g) then Outcome(g.(queued := Some(reason), armed := true), [])
    else Outcome(g.(awaiting := true, armed := true), Sent(g, Create))
  }

  function AfterFlush(g: Gate): Outcome {
    if g.queued.None? || g.stopped || Busy(g) then Outcome(g, [])
    else Outcome(g.(queued := None, awaiting := true, armed := true), Sent(g, Create))
  }

  function AfterTimer(g: Gate): Outcome {
    if g.stopped then Outcome(g.(armed := false), []) else AfterFlush(g.(armed := false, awaiting := false))
  }

  function AfterAbandon(g: Gate): Outcome {
    var audible := if g.active.Some? then g.active else g.lastAudio;
    Outcome(
      g.(horizon := 0.0, queued := None, armed := false, active := None,
        cancelled := if audible.Some? then Remember(g.cancelled, audible.value, MAX_TRACKED_CANCELLED_RESPONSES) else g.cancelled),
      if g.active.Some? then Sent(g, Cancel(g.active.value)) else [])
  }

  function AfterCreated(g: Gate, id: Option<Id>): Outcome {
    var created := g.(active := id, awaiting := false, armed := false);
    if g.speaking then AfterAbandon(created) else Outcome(created, [])
  }

  function AfterDone(g: Gate, id: Option<Id>): Outcome {
    var cleared := if id.Some? && id == g.active then g.(active := None) else g;
    AfterFlush(cleared.(suppressed := false))
  }

  function AfterSpeechStarted(g: Gate, now: real): Outcome {
    var heard := g.(speaking := true);
    if (g.active.None? && !(g.horizon > now)) || g.suppressed then Outcome(heard, []) else AfterAbandon(heard)
  }

  function AfterConflict(g: Gate): Gate {
    g.(awaiting := false, armed := true, queued := if g.queued.Some? then g.queued else Some(RETRY_AFTER_CONFLICT))
  }

  function AfterClose(g: Gate): Gate {
    g.(active := None, awaiting := false, queued := None, armed := false, horizon := 0.0, speaking := false, open := false)
  }

  function AfterStop(g: Gate): Outcome {
    if g.stopped then Outcome(g, [])
    else
      Outcome(AfterClose(g).(stopped := true),
        if g.open && g.active.Some? then [Cancel(g.active.value)] else [])
  }

  function LaterHorizon(horizon: real, now: real, bytes: nat): real {
    (if horizon >= now then horizon else now) + bytes as real / ULAW_BYTES_PER_MS
  }

  function AfterAudio(g: Gate, now: real, id: Option<Id>, bytes: nat): Gate {
    if bytes == 0 || (id.Some? && id.value in g.cancelled) then g
    else
      g.(horizon := LaterHorizon(g.horizon, now, bytes), lastAudio := if id.Some? then id else g.lastAudio)
  }

  /** The gate never waits for a response.created while it knows of an active response. */
  predicate Exclusive(g: Gate) {
    g.active.Some? ==> !g.awaiting
  }

  /** A queued turn of a live session has an active response to wait for, or an armed timer. */
  predicate NotStranded(g: Gate) {
    !g.stopped && g.queued.Some? ==> g.active.Some? || g.armed
  }

  /** The provider's fields and handlers. */
  class RealtimeProvider {
    var activeResponseId: Option<Id>
    var awaitingResponseCreated: bool
    var pendingResponseReason: Option<string>
    var pendingResponseTimer: bool
    var callerSpeaking: bool
    var bargeInSuppressed: bool
    var stopped: bool
    var socketOpen: bool
    var playbackHorizonMs: real
    var lastAudioResponseId: Option<Id>
    var cancelledResponses: seq<Id>
    /** Everything the open socket has been given. */
    var wire: seq<ClientMessage>

    function State(): Gate
      reads this
    {
      Gate(activeResponseId, awaitingResponseCreated, pendingResponseReason, pendingResponseTimer, callerSpeaking,
        bargeInSuppressed, stopped, socketOpen, playbackHorizonMs, lastAudioResponseId, cancelledResponses)
    }

    predicate Valid()
      reads this
    {
      Exclusive(State()) && NotStranded(State())
    }

    constructor ()
      ensures Valid()
      ensures State() == INITIAL_GATE && wire == []
    {
      activeResponseId, awaitingResponseCreated, pendingResponseReason, pendingResponseTimer := None, false, None, false;
      callerSpeaking, bargeInSuppressed, stopped, socketOpen := false, false, false, true;
      playbackHorizonMs, lastAudioResponseId, cancelledResponses, wire := 0.0, None, [], [];
    }

    method Send(m: ClientMessage)
      modifies this`wire
      ensures wire == old(wire) + if socketOpen then [m] else []
    {
      if !socketOpen {
        return;
      }
      wire := wire + [m];
    }

    method RequestResponse(reason: string)
      modifies this
      ensures State() == AfterRequest(old(State()), reason).gate
      ensures wire == old(wire) + AfterRequest(old(State()), reason).sent
      ensures old(Valid()) ==> Valid()
    {
      if stopped {
        return;
      }
      if activeResponseId.Some? || awaitingResponseCreated {
        pendingResponseReason := Some(reason);
        pendingResponseTimer := true;
        return;
      }
      awaitingResponseCreated := true;
      pendingResponseTimer := true;
      Send(Create);
    }

    method FlushPendingResponse()
      modifies this
      ensures State() == AfterFlush(old(State())).gate && wire == old(wire) + AfterFlush(old(State())).sent
    {
      if pendingResponseReason.None? || stopped {
        return;
      }
      if activeResponseId.Some? || awaitingResponseCreated {
        return;
      }
      pendingResponseReason := None;
      awaitingResponseCreated := true;
      pendingResponseTimer := true;
      Send(Create);
    }

    /** The callback armPendingResponseTimer schedules. */
    method TimerFired()
      requires pendingResponseTimer
      modifies this
      ensures State() == AfterTimer(old(State())).gate && wire == old(wire) + AfterTimer(old(State())).sent
      ensures old(Valid()) ==> Valid()
    {
      pendingResponseTimer := false;
      if stopped {
        return;
      }
      if awaitingResponseCreated {
        awaitingResponseCreated := false;
      }
      FlushPendingResponse();
    }

    method AbandonCurrentResponse()
      modifies this
      ensures State() == AfterAbandon(old(State())).gate && wire == old(wire) + AfterAbandon(old(State())).sent
      ensures Valid()
    {
      var responseId := activeResponseId;
      var audibleResponseId := if responseId.Some? then responseId else lastAudioResponseId;
      playbackHorizonMs := 0.0;
      pendingResponseReason := None;
      pendingResponseTimer := false;
      if audibleResponseId.Some? {
        cancelledResponses := RememberInPlace(cancelledResponses, audibleResponseId.value, MAX_TRACKED_CANCELLED_RESPONSES);
      }
      if responseId.None? {
        return;
      }
      activeResponseId := None;
      Send(Cancel(responseId.value));
    }

    method HandleResponseCreated(id: Option<Id>)
      modifies this
      ensures State() == AfterCreated(old(State()), id).gate && wire == old(wire) + AfterCreated(old(State()), id).sent
      ensures old(Valid()) ==> (Valid() <==>
        id.Some? || old(State()).queued.None? || old(State()).speaking || old(State()).stopped)
    {
      activeResponseId := id;
      awaitingResponseCreated := false;
      pendingResponseTimer := false;
      if callerSpeaking {
        AbandonCurrentResponse();
      }
    }

    method HandleResponseDone(id: Option<Id>)
      modifies this
      ensures State() == AfterDone(old(State()), id).gate && wire == old(wire) + AfterDone(old(State()), id).sent
      ensures old(Valid()) ==> Valid()
    {
      if id.Some? && id == activeResponseId {
        activeResponseId := None;
      }
      bargeInSuppressed := false;
      FlushPendingResponse();
    }

    method HandleSpeechStarted(now: real)
      modifies this
      ensures State() == AfterSpeechStarted(old(State()), now).gate
      ensures wire == old(wire) + AfterSpeechStarted(old(State()), now).sent
      ensures old(Valid()) ==> Valid()
    {
      callerSpeaking := true;
      var stillAudible := playbackHorizonMs > now;
      if activeResponseId.None? && !stillAudible {
        return;
      }
      if bargeInSuppressed {
        return;
      }
      AbandonCurrentResponse();
    }

    method HandleSpeechStopped()
      modifies this`callerSpeaking
      ensures State() == old(State()).(speaking := false)
      ensures old(Valid()) ==> Valid()
    {
      callerSpeaking := false;
    }

    method SuppressBargeIn()
      modifies this`bargeInSuppressed
      ensures State() == old(State()).(suppressed := true)
      ensures old(Valid()) ==> Valid()
    {
      bargeInSuppressed := true;
    }

    method HandleConflictError()
      modifies this
      ensures State() == AfterConflict(old(State())) && wire == old(wire)
      ensures old(Valid()) ==> Valid()
    {
      awaitingResponseCreated := false;
      if pendingResponseReason.None? {
        pendingResponseReason := Some(RETRY_AFTER_CONFLICT);
      }
      pendingResponseTimer := true;
    }

    method HandleClose()
      modifies this
      ensures State() == AfterClose(old(State())) && wire == old(wire)
      ensures Valid()
    {
      socketOpen := false;
      activeResponseId := None;
      awaitingResponseCreated := false;
      pendingResponseReason := None;
      pendingResponseTimer := false;
      playbackHorizonMs := 0.0;
      callerSpeaking := false;
    }

    method Stop()
      modifies this
      ensures State() == AfterStop(old(State())).gate && wire == old(wire) + AfterStop(old(State())).sent
      ensures old(Valid()) ==> Valid()
    {
      if stopped {
        return;
      }
      stopped := true;
      pendingResponseTimer := false;
      if socketOpen {
        if activeResponseId.Some? {
          Send(Cancel(activeResponseId.value));
        }
        socketOpen := false;
      }
      activeResponseId := None;
      awaitingResponseCreated := false;
      pendingResponseReason := None;
      playbackHorizonMs := 0.0;
      callerSpeaking := false;
    }

    /** One audio chunk of `bytes` u-law bytes; zero bytes stands for a missing or empty delta. */
    method HandleOutputAudioDelta(now: real, id: Option<Id>, bytes: nat)
      modifies this`playbackHorizonMs, this`lastAudioResponseId
      ensures State() == AfterAudio(old(State()), now, id, bytes)
      ensures old(Valid()) ==> Valid()
    {
      if id.Some? && id.value in cancelledResponses {
        return;
      }
      if bytes == 0 {
        return;
      }
      lastAudioResponseId := if id.Some? then id else lastAudioResponseId;
      var chunkMs := bytes as real / ULAW_BYTES_PER_MS;
      playbackHorizonMs := (if playbackHorizonMs >= now then playbackHorizonMs else now) + chunkMs;
    }
  }
}
