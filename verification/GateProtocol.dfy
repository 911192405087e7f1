/**
 The response gate against a small server over two FIFO channels: every interleaving of
 requests, barge-ins, completions, conflicts, lost or damaged events, timer expiries and reconnects.
 */
module GateProtocol {
  import opened Options
  import opened BoundedMemory
  import opened ResponseGate

  datatype ServerMessage = Created(id: Option<Id>) | Done(ended: Id) | Conflict | BenignRace

  /** `up` and `down` are the channels, oldest message first; `running` is the server's response. */
  datatype System = System(g: Gate, up: seq<ClientMessage>, down: seq<ServerMessage>, running: Option<Id>, nextId: Id)

  const INITIAL := System(INITIAL_GATE, [], [], None, 0)

  datatype Step =
    | Want(reason: string)
    | SpeechStarts(now: real)
    | SpeechStops
    | SuppressBargeIn
    | CancelWanted
    | Audio(now: real, id: Option<Id>, bytes: nat)
    | TimerExpires
    | SocketCloses
    | SocketReopens
    | Stop
    | Deliver
    | Receive
    | Finish
    | ServerStarts
    | LoseEvent
    | LoseId

  predicate Enabled(s: System, step: Step) {
    match step
    case TimerExpires => s.g.armed
    case SocketCloses => s.g.open
    case SocketReopens => !s.g.open && !s.g.stopped
    case Deliver => s.down != []
    case LoseEvent => s.down != []
    case LoseId => s.down != [] && s.down[0].Created?
    case Receive => s.up != []
    case Finish => s.running.Some?
    case ServerStarts => s.g.open && s.running.None?
    case _ => true
  }

  function Handled(g: Gate, m: ServerMessage): Outcome {
    match m
    case Created(id) => AfterCreated(g, id)
    case Done(id) => AfterDone(g, Some(id))
    case Conflict => Outcome(AfterConflict(g), [])
    case BenignRace => Outcome(g, [])
  }

  function Client(s: System, o: Outcome): System {
    s.(g := o.gate, up := s.up + o.sent)
  }

  function Started(s: System): System {
    s.(running := Some(s.nextId), nextId := s.nextId + 1, down := s.down + [Created(Some(s.nextId))])
  }

  /** The server runs one response and refuses a second; a cancel ends only the one it names. */
  function Received(s: System, m: ClientMessage): System {
    match m
    case Create => if s.running.None? then Started(s) else s.(down := s.down + [Conflict])
    case Cancel(id) =>
      if s.running == Some(id) then s.(running := None, down := s.down + [Done(id)])
      else s.(down := s.down + [BenignRace])
  }

  function Apply(s: System, step: Step): System
    requires Enabled(s, step)
  {
    match step
    case Want(reason) => Client(s, AfterRequest(s.g, reason))
    case SpeechStarts(now) => Client(s, AfterSpeechStarted(s.g, now))
    case SpeechStops => s.(g := s.g.(speaking := false))
    case SuppressBargeIn => s.(g := s.g.(suppressed := true))
    case CancelWanted => Client(s, AfterAbandon(s.g))
    case Audio(now, id, bytes) => s.(g := AfterAudio(s.g, now, id, bytes))
    case TimerExpires => Client(s, AfterTimer(s.g))
    case SocketCloses => System(AfterClose(s.g), [], [], None, s.nextId)
    case SocketReopens => s.(g := s.g.(open := true))
    case Stop => if s.g.stopped then s else System(AfterStop(s.g).gate, [], [], None, s.nextId)
    case Deliver => Client(s.(down := s.down[1..]), Handled(s.g, s.down[0]))
    case Receive => Received(s.(up := s.up[1..]), s.up[0])
    case Finish => s.(running := None, down := s.down + [Done(s.running.value)])
    case ServerStarts => Started(s)
    case LoseEvent => s.(down := s.down[1..])
    case LoseId => s.(down := [Created(None)] + s.down[1..])
  }

  // ------------------------------------------------------------------
  // Runs
  // ------------------------------------------------------------------

  /** Which steps a kind of run admits, and in which states. */
  type Rule = (System, Step) -> bool

  /** The steps can be taken one after the other from s, each admitted where it is taken. */
  ghost predicate Along(s: System, steps: seq<Step>, rule: Rule)
    decreases |steps|
  {
    steps != [] ==>
      Enabled(s, steps[0]) && rule(s, steps[0]) && Along(Apply(s, steps[0]), steps[1..], rule)
  }

  /** Where they lead; a step that cannot be taken ends the run. */
  function After(s: System, steps: seq<Step>): System
    decreases |steps|
  {
    if steps == [] || !Enabled(s, steps[0]) then s else After(Apply(s, steps[0]), steps[1..])
  }

  lemma Prepend(s: System, step: Step, steps: seq<Step>, rule: Rule)
    requires Enabled(s, step) && rule(s, step) && Along(Apply(s, step), steps, rule)
    ensures Along(s, [step] + steps, rule)
    ensures After(s, [step] + steps) == After(Apply(s, step), steps)
  {
    assert ([step] + steps)[1..] == steps;
  }

  lemma {:induction false} Compose(s: System, xs: seq<Step>, ys: seq<Step>, rule: Rule)
    requires Along(s, xs, rule) && Along(After(s, xs), ys, rule)
    ensures Along(s, xs + ys, rule)
    ensures After(s, xs + ys) == After(After(s, xs), ys)
    decreases |xs|
  {
    if xs == [] {
      assert xs + ys == ys;
    } else {
      Compose(Apply(s, xs[0]), xs[1..], ys, rule);
      Prepend(s, xs[0], xs[1..] + ys, rule);
      assert [xs[0]] + (xs[1..] + ys) == xs + ys;
    }
  }

  /** Nothing is excluded. */
  predicate Anything(s: System, step: Step) {
    true
  }

  // ------------------------------------------------------------------
  // Who is speaking
  // ------------------------------------------------------------------

  /** The j-th step ends the caller's speech; a stop counts only once. */
  ghost predicate SpeechEnds(stopped: bool, steps: seq<Step>, j: nat)
    requires j < |steps|
  {
    || steps[j].SpeechStops? || steps[j].SocketCloses?
    || (steps[j].Stop? && !stopped && forall k :: 0 <= k < j ==> !steps[k].Stop?)
  }

  /** A speech start is not followed by any of these. */
  ghost predicate SpeechOpen(stopped: bool, steps: seq<Step>) {
    exists i :: 0 <= i < |steps| && steps[i].SpeechStarts? && NoEnd(stopped, steps, i + 1)
  }

  ghost predicate NoEnd(stopped: bool, steps: seq<Step>, from: nat) {
    forall j :: from <= j < |steps| ==> !SpeechEnds(stopped, steps, j)
  }

  /** Along every run the gate takes the caller to be speaking exactly from a speech start to what ends it. */
  lemma SpeakingExactly(steps: seq<Step>)
    requires Along(INITIAL, steps, Anything)
    ensures After(INITIAL, steps).g.speaking <==> SpeechOpen(false, steps)
  {
    SpeakingFrom(INITIAL, steps);
  }

  lemma {:induction false} SpeakingFrom(s: System, steps: seq<Step>)
    requires Along(s, steps, Anything)
    ensures After(s, steps).g.speaking <==>
      SpeechOpen(s.g.stopped, steps) || (s.g.speaking && NoEnd(s.g.stopped, steps, 0))
    decreases |steps|
  {
    if steps != [] {
      var t, rest := Apply(s, steps[0]), steps[1..];
      SpeakingFrom(t, rest);
      StepSpeaks(s, steps[0]);
      assert NoEnd(s.g.stopped, steps, 0) <==> !SpeechEnds(s.g.stopped, steps, 0) && NoEnd(s.g.stopped, steps, 1);
      forall j | 0 <= j < |rest|
        ensures SpeechEnds(s.g.stopped, steps, j + 1) == SpeechEnds(t.g.stopped, rest, j)
      {
        EndsLater(s.g.stopped, steps, j);
      }
      OpenLater(s.g.stopped, t.g.stopped, steps);
    }
  }

  lemma StepSpeaks(s: System, step: Step)
    requires Enabled(s, step)
    ensures Apply(s, step).g.stopped == (s.g.stopped || step.Stop?)
    ensures Apply(s, step).g.speaking <==>
      step.SpeechStarts? || (s.g.speaking && !step.SpeechStops? && !step.SocketCloses? && (step.Stop? ==> s.g.stopped))
  {
    if step.Deliver? {
      HandlerSpeaks(s.g, s.down[0]);
    }
  }

  lemma HandlerSpeaks(g: Gate, m: ServerMessage)
    ensures Handled(g, m).gate.speaking == g.speaking && Handled(g, m).gate.stopped == g.stopped
  {
  }

  lemma EndsLater(stopped: bool, steps: seq<Step>, j: nat)
    requires j + 1 < |steps|
    ensures SpeechEnds(stopped, steps, j + 1) == SpeechEnds(stopped || steps[0].Stop?, steps[1..], j)
  {
    var rest := steps[1..];
    assert forall k :: 0 <= k < j ==> steps[k + 1] == rest[k];
    if forall k :: 0 <= k < j + 1 ==> !steps[k].Stop? {
      assert !steps[0].Stop?;
    } else {
      var k :| 0 <= k < j + 1 && steps[k].Stop?;
      assert k > 0 ==> rest[k - 1].Stop?;
    }
  }

  lemma OpenLater(stopped: bool, later: bool, steps: seq<Step>)
    requires steps != []
    requires forall j :: 0 <= j < |steps| - 1 ==> SpeechEnds(stopped, steps, j + 1) == SpeechEnds(later, steps[1..], j)
    ensures NoEnd(stopped, steps, 1) == NoEnd(later, steps[1..], 0)
    ensures SpeechOpen(stopped, steps) <==>
      (steps[0].SpeechStarts? && NoEnd(stopped, steps, 1)) || SpeechOpen(later, steps[1..])
  {
    var rest := steps[1..];
    forall i | 1 <= i <= |steps| ensures NoEnd(stopped, steps, i) == NoEnd(later, rest, i - 1) {
      assert forall j :: i <= j < |steps| ==> SpeechEnds(stopped, steps, j) == SpeechEnds(later, rest, j - 1);
      assert forall j :: i - 1 <= j < |rest| ==> SpeechEnds(later, rest, j) == SpeechEnds(stopped, steps, j + 1);
    }
    if SpeechOpen(stopped, steps) {
      var i :| 0 <= i < |steps| && steps[i].SpeechStarts? && NoEnd(stopped, steps, i + 1);
      assert i > 0 ==> rest[i - 1].SpeechStarts? && NoEnd(later, rest, i - 1 + 1);
    }
    if SpeechOpen(later, rest) {
      var i :| 0 <= i < |rest| && rest[i].SpeechStarts? && NoEnd(later, rest, i + 1);
      assert steps[i + 1].SpeechStarts? && NoEnd(stopped, steps, i + 1 + 1);
    }
  }

  /** A response created while the caller speaks is cancelled on the spot; otherwise it becomes the active one. */
  lemma CreatedWhileSpeaking(steps: seq<Step>)
    requires Along(INITIAL, steps, Anything)
    requires var s := After(INITIAL, steps); s.down != [] && s.down[0].Created?
    ensures var s := After(INITIAL, steps);
      var t, id := Apply(s, Deliver), s.down[0].id;
      if SpeechOpen(false, steps) then
        t.g.active.None? && t.g.horizon == 0.0 && t.up == s.up + if id.Some? && s.g.open then [Cancel(id.value)] else []
      else
        t.g.active == id && t.up == s.up
  {
    SpeakingExactly(steps);
  }

  // ------------------------------------------------------------------
  // No stranded turn
  // ------------------------------------------------------------------

  /** Every response.created on the wire carries an id. */
  ghost predicate Named(s: System) {
    forall i :: 0 <= i < |s.down| && s.down[i].Created? ==> s.down[i].id.Some?
  }

  predicate KeepsIds(s: System, step: Step) {
    !step.LoseId?
  }

  lemma StepKeepsGate(s: System, step: Step)
    requires Enabled(s, step) && Exclusive(s.g) && NotStranded(s.g)
    requires step.Deliver? && s.down[0] == Created(None) ==> s.g.stopped || s.g.queued.None? || s.g.speaking
    ensures Exclusive(Apply(s, step).g) && NotStranded(Apply(s, step).g)
  {
    if step.Deliver? {
      HandlerKeepsGate(s.g, s.down[0]);
    }
  }

  lemma HandlerKeepsGate(g: Gate, m: ServerMessage)
    requires Exclusive(g) && NotStranded(g)
    ensures var h := Handled(g, m).gate;
      Exclusive(h) && (m != Created(None) || g.stopped || g.queued.None? || g.speaking ==> NotStranded(h))
  {
  }

  lemma StepKeepsNamed(s: System, step: Step)
    requires Enabled(s, step) && Named(s) && KeepsIds(s, step)
    ensures Named(Apply(s, step))
  {
  }

  /** Whatever is lost but ids, every reachable queued turn has an active response or an armed timer. */
  lemma NoStrandedTurn(steps: seq<Step>)
    requires Along(INITIAL, steps, KeepsIds)
    ensures Exclusive(After(INITIAL, steps).g) && NotStranded(After(INITIAL, steps).g)
  {
    NoStrandedTurnFrom(INITIAL, steps);
  }

  lemma {:induction false} NoStrandedTurnFrom(s: System, steps: seq<Step>)
    requires Along(s, steps, KeepsIds) && Named(s) && Exclusive(s.g) && NotStranded(s.g)
    ensures Exclusive(After(s, steps).g) && NotStranded(After(s, steps).g)
    decreases |steps|
  {
    if steps != [] {
      StepKeepsGate(s, steps[0]);
      StepKeepsNamed(s, steps[0]);
      NoStrandedTurnFrom(Apply(s, steps[0]), steps[1..]);
    }
  }

  /** A response.created strands a queued turn exactly when it has no id, a turn waits and the caller is silent. */
  lemma EmptyIdStrands(g: Gate, id: Option<Id>)
    requires Exclusive(g) && NotStranded(g) && !g.stopped
    ensures NotStranded(AfterCreated(g, id).gate) <==> id.Some? || g.queued.None? || g.speaking
  {
  }

  // ------------------------------------------------------------------
  // What moves a queued turn
  // ------------------------------------------------------------------

  /** Each response announced in `down` is running, or its end follows its announcement. */
  ghost predicate EndsFollow(running: Option<Id>, down: seq<ServerMessage>) {
    down != [] ==>
      && (down[0].Created? && down[0].id.Some? ==> running == down[0].id || Done(down[0].id.value) in down[1..])
      && EndsFollow(running, down[1..])
  }

  /** The response the client knows of is still running, or its end is on the way; so with those announced. */
  ghost predicate EndsComing(s: System) {
    && (s.g.active.Some? ==> s.running == s.g.active || Done(s.g.active.value) in s.down)
    && EndsFollow(s.running, s.down)
  }

  /** Every response ends once: no end of a running response is on the way, and no end twice. */
  ghost predicate EndsOnce(s: System) {
    && (s.running.Some? ==> s.running.value < s.nextId && Done(s.running.value) !in s.down)
    && (forall i :: 0 <= i < |s.down| && s.down[i].Done? ==> s.down[i].ended < s.nextId)
    && (forall i, j :: 0 <= i < j < |s.down| && s.down[i].Done? ==> s.down[i] != s.down[j])
  }

  predicate KeepsDones(s: System, step: Step) {
    step.LoseEvent? && s.down != [] ==> !s.down[0].Done?
  }

  lemma StepKeepsEndsOnce(s: System, step: Step)
    requires Enabled(s, step) && EndsOnce(s)
    ensures EndsOnce(Apply(s, step))
  {
  }

  /** The server's next message, and what it is running after sending it. */
  lemma {:induction false} EndsFollowSend(running: Option<Id>, down: seq<ServerMessage>, m: ServerMessage, next: Option<Id>)
    requires EndsFollow(running, down)
    requires next == running || running.None? || m == Done(running.value)
    requires m.Created? && m.id.Some? ==> next == m.id
    ensures EndsFollow(next, down + [m])
    decreases |down|
  {
    if down != [] {
      EndsFollowSend(running, down[1..], m, next);
      assert (down + [m])[1..] == down[1..] + [m];
    }
  }

  lemma ServerKeepsEndsComing(s: System, t: System)
    requires EndsComing(s) && t.g == s.g && |t.down| == |s.down| + 1 && t.down[..|s.down|] == s.down
    requires t.running == s.running || s.running.None? || t.down[|s.down|] == Done(s.running.value)
    requires t.down[|s.down|].Created? && t.down[|s.down|].id.Some? ==> t.running == t.down[|s.down|].id
    ensures EndsComing(t)
  {
    var m := t.down[|s.down|];
    assert t.down == s.down + [m];
    EndsFollowSend(s.running, s.down, m, t.running);
  }

  lemma DeliverKeepsEndsComing(s: System)
    requires EndsComing(s) && s.down != []
    ensures EndsComing(Apply(s, Deliver))
  {
    HandlerActivates(s.g, s.down[0]);
    assert s.down == [s.down[0]] + s.down[1..];
  }

  lemma HandlerActivates(g: Gate, m: ServerMessage)
    ensures var active := Handled(g, m).gate.active;
      active.Some? ==> m == Created(active) || (active == g.active && m != Done(active.value))
  {
  }

  lemma StepKeepsEndsComing(s: System, step: Step)
    requires Enabled(s, step) && EndsComing(s) && KeepsDones(s, step)
    ensures EndsComing(Apply(s, step))
  {
    match step
    case Receive => ServerKeepsEndsComing(s, Apply(s, step));
    case Finish => ServerKeepsEndsComing(s, Apply(s, step));
    case ServerStarts => ServerKeepsEndsComing(s, Apply(s, step));
    case Deliver => DeliverKeepsEndsComing(s);
    case LoseEvent => assert s.down == [s.down[0]] + s.down[1..];
    case LoseId => assert s.down == [s.down[0]] + s.down[1..];
    case _ =>
  }

  /** Losing the event at the head of `down` breaks that exactly when it is the end of the active response. */
  lemma LostEventExactly(s: System)
    requires EndsComing(s) && EndsOnce(s) && s.down != []
    ensures EndsComing(Apply(s, LoseEvent)) <==> !(s.g.active.Some? && s.down[0] == Done(s.g.active.value))
  {
    assert s.down == [s.down[0]] + s.down[1..];
  }

  /** A queued turn of a live session is moved by the timer, or by the end of the active response, which is coming. */
  ghost predicate CanMove(s: System) {
    !s.g.stopped && s.g.queued.Some? ==>
      s.g.armed || (s.g.active.Some? && (s.running == s.g.active || Done(s.g.active.value) in s.down))
  }

  predicate KeepsIdsAndDones(s: System, step: Step) {
    KeepsIds(s, step) && KeepsDones(s, step)
  }

  /** Unless an id or the end of a response is lost, every reachable queued turn can still move. */
  lemma QueuedTurnCanMove(steps: seq<Step>)
    requires Along(INITIAL, steps, KeepsIdsAndDones)
    ensures var s := After(INITIAL, steps); CanMove(s) && EndsComing(s) && EndsOnce(s)
  {
    QueuedTurnCanMoveFrom(INITIAL, steps);
  }

  lemma {:induction false} QueuedTurnCanMoveFrom(s: System, steps: seq<Step>)
    requires Along(s, steps, KeepsIdsAndDones)
    requires Named(s) && Exclusive(s.g) && NotStranded(s.g) && EndsComing(s) && EndsOnce(s)
    ensures var t := After(s, steps); CanMove(t) && EndsComing(t) && EndsOnce(t)
    decreases |steps|
  {
    if steps != [] {
      StepKeepsGate(s, steps[0]);
      StepKeepsNamed(s, steps[0]);
      StepKeepsEndsComing(s, steps[0]);
      StepKeepsEndsOnce(s, steps[0]);
      QueuedTurnCanMoveFrom(Apply(s, steps[0]), steps[1..]);
    }
  }

  /** How it moves: the end of the active response sends it, and so does the timer once nothing is active. */
  lemma QueuedTurnMoves(g: Gate)
    requires !g.stopped && g.queued.Some? && Exclusive(g)
    ensures var o := if g.active.Some? then AfterDone(g, g.active) else AfterTimer(g);
      o.gate.queued.None? && o.gate.awaiting && o.sent == if g.open then [Create] else []
  {
  }

  /** The timer does not stand in for a lost end: with a response active, or after a stop, its expiry only disarms it. */
  lemma ExpiryLeavesActive(g: Gate)
    requires (g.active.Some? && Exclusive(g)) || g.stopped
    ensures AfterTimer(g) == Outcome(g.(armed := false), [])
  {
  }

  // ------------------------------------------------------------------
  // The timer
  // ------------------------------------------------------------------

  /** The timer runs only while an answer is awaited or a turn is queued, and never after a stop. */
  ghost predicate TimerHasReason(g: Gate) {
    (g.armed ==> g.awaiting || g.queued.Some?) && (g.stopped ==> !g.open)
  }

  lemma StepKeepsTimer(s: System, step: Step)
    requires Enabled(s, step) && TimerHasReason(s.g)
    ensures TimerHasReason(Apply(s, step).g)
  {
    if step.Deliver? {
      HandlerKeepsTimer(s.g, s.down[0]);
    }
  }

  lemma HandlerKeepsTimer(g: Gate, m: ServerMessage)
    requires TimerHasReason(g)
    ensures TimerHasReason(Handled(g, m).gate)
  {
  }

  /** In every reachable state the timer has a reason to run. */
  lemma TimerRunsForSomething(steps: seq<Step>)
    requires Along(INITIAL, steps, Anything)
    ensures TimerHasReason(After(INITIAL, steps).g)
  {
    TimerFrom(INITIAL, steps);
  }

  lemma {:induction false} TimerFrom(s: System, steps: seq<Step>)
    requires Along(s, steps, Anything) && TimerHasReason(s.g)
    ensures TimerHasReason(After(s, steps).g)
    decreases |steps|
  {
    if steps != [] {
      StepKeepsTimer(s, steps[0]);
      TimerFrom(Apply(s, steps[0]), steps[1..]);
    }
  }

  /** Every response.create is sent with the timer running and its answer awaited. */
  lemma CreateIsTimed(s: System, step: Step)
    requires Enabled(s, step) && Create in Apply(s, step).up && Create !in s.up
    ensures Apply(s, step).g.armed && Apply(s, step).g.awaiting
  {
    if step.Deliver? {
      HandlerTimesCreate(s.g, s.down[0]);
    }
  }

  lemma HandlerTimesCreate(g: Gate, m: ServerMessage)
    ensures Create in Handled(g, m).sent ==> Handled(g, m).gate.armed && Handled(g, m).gate.awaiting
  {
  }

  /** A refused create is awaited no longer; its turn, or a newer one already waiting, is queued under the timer. */
  lemma ConflictRequeues(s: System)
    requires s.down != [] && s.down[0] == Conflict
    ensures var t := Apply(s, Deliver);
      && !t.g.awaiting && t.g.queued.Some? && t.g.armed && t.up == s.up
      && (s.g.queued.Some? ==> t.g.queued == s.g.queued)
  {
  }

  /** A request while the gate is busy waits in the queue, in place of any before it; otherwise it goes out. */
  lemma RequestWaitsExactly(s: System, reason: string)
    requires !s.g.stopped
    ensures var t := Apply(s, Want(reason));
      if s.g.active.Some? || s.g.awaiting then t.g.queued == Some(reason) && t.up == s.up
      else t.g.queued == s.g.queued && t.up == s.up + if s.g.open then [Create] else []
  {
  }

  /** A barge-in or a cancel hands the active response's cancel to an open socket, and leaves nothing queued or playing. */
  lemma AbandonSilences(s: System)
    ensures var t := Apply(s, CancelWanted);
      && t.g.active.None? && t.g.queued.None? && !t.g.armed && t.g.horizon == 0.0 && t.g.awaiting == s.g.awaiting
      && t.up == s.up + if s.g.active.Some? && s.g.open then [Cancel(s.g.active.value)] else []
  {
  }

  /** A speech start is a barge-in exactly when a response is active or audible and nothing suppresses it. */
  lemma BargeInExactly(s: System, now: real)
    ensures var t := Apply(s, SpeechStarts(now));
      if (s.g.active.Some? || s.g.horizon > now) && !s.g.suppressed then
        t == Apply(s.(g := s.g.(speaking := true)), CancelWanted)
      else
        t.up == s.up && t.g == s.g.(speaking := true)
  {
  }

  /** The end of any response lifts the suppression, and nothing else does; only the platform sets it. */
  lemma SuppressionStep(s: System, step: Step)
    requires Enabled(s, step)
    ensures Apply(s, step).g.suppressed ==
      (step.SuppressBargeIn? || (s.g.suppressed && !(step.Deliver? && s.down[0].Done?)))
  {
    if step.Deliver? {
      HandlerSuppresses(s.g, s.down[0]);
    }
  }

  lemma HandlerSuppresses(g: Gate, m: ServerMessage)
    ensures Handled(g, m).gate.suppressed == (g.suppressed && !m.Done?)
  {
  }

  /** Whoever never suppresses barge-in always has it. */
  lemma BargeInByDefault(steps: seq<Step>)
    requires Along(INITIAL, steps, Anything) && forall i :: 0 <= i < |steps| ==> !steps[i].SuppressBargeIn?
    ensures !After(INITIAL, steps).g.suppressed
  {
    UnsuppressedFrom(INITIAL, steps);
  }

  lemma {:induction false} UnsuppressedFrom(s: System, steps: seq<Step>)
    requires Along(s, steps, Anything) && forall i :: 0 <= i < |steps| ==> !steps[i].SuppressBargeIn?
    requires !s.g.suppressed
    ensures !After(s, steps).g.suppressed
    decreases |steps|
  {
    if steps != [] {
      SuppressionStep(s, steps[0]);
      UnsuppressedFrom(Apply(s, steps[0]), steps[1..]);
    }
  }

  /** A closed socket leaves the gate as new, but for what the caller may still hear and what was suppressed or stopped. */
  lemma CloseStartsAfresh(s: System)
    ensures var left := INITIAL_GATE.(open := false, suppressed := s.g.suppressed,
        lastAudio := s.g.lastAudio, cancelled := s.g.cancelled);
      && (s.g.open ==> Apply(s, SocketCloses).g == left.(stopped := s.g.stopped))
      && (!s.g.stopped ==> Apply(s, Stop).g == left.(stopped := true))
  {
  }

  /** A stop cancels the active response on an open socket, once. */
  lemma StopCancelsOnce(g: Gate)
    ensures AfterStop(g).sent == if !g.stopped && g.open && g.active.Some? then [Cancel(g.active.value)] else []
    ensures AfterStop(AfterStop(g).gate) == Outcome(AfterStop(g).gate, [])
  {
  }

  // ------------------------------------------------------------------
  // How a queued turn leaves
  // ------------------------------------------------------------------

  predicate Superseded(s: System, step: Step) {
    step.Want? && !s.g.stopped && Busy(s.g) && s.g.queued != Some(step.reason)
  }

  predicate Dropped(s: System, step: Step)
    requires Enabled(s, step)
  {
    match step
    case SpeechStarts(now) => !s.g.suppressed && (s.g.active.Some? || s.g.horizon > now)
    case CancelWanted => true
    case SocketCloses => true
    case Stop => !s.g.stopped
    case Deliver => s.down[0].Created? && s.g.speaking
    case _ => false
  }

  predicate Flushed(s: System, step: Step)
    requires Enabled(s, step)
  {
    match step
    case TimerExpires => !s.g.stopped && s.g.active.None?
    case Deliver =>
      !s.g.stopped && !s.g.awaiting && s.down[0].Done? && (s.g.active.None? || s.g.active == Some(s.down[0].ended))
    case _ => false
  }

  /** A queued turn leaves exactly by a newer request, by barge-in, cancel, close or stop, or by being flushed. */
  lemma QueuedTurnLeaves(s: System, step: Step)
    requires Enabled(s, step) && s.g.queued.Some?
    ensures Apply(s, step).g.queued != s.g.queued <==> Superseded(s, step) || Dropped(s, step) || Flushed(s, step)
  {
    if step.Deliver? {
      HandlerLeavesTurn(s.g, s.down[0]);
    }
  }

  lemma HandlerLeavesTurn(g: Gate, m: ServerMessage)
    requires g.queued.Some?
    ensures Handled(g, m).gate.queued != g.queued <==>
      || (m.Created? && g.speaking)
      || (m.Done? && !g.stopped && !g.awaiting && (g.active.None? || g.active == Some(m.ended)))
  {
  }

  /** A flushed turn is sent exactly when the socket is open; otherwise it is lost. */
  lemma FlushedTurnIsSent(s: System, step: Step)
    requires Enabled(s, step) && s.g.queued.Some? && Flushed(s, step)
    ensures Apply(s, step).g.queued.None? && Apply(s, step).g.awaiting
    ensures Apply(s, step).up == s.up + if s.g.open then [Create] else []
  {
    if step.Deliver? {
      assert Handled(s.g, s.down[0]).sent == if s.g.open then [Create] else [];
    }
  }

  // ------------------------------------------------------------------
  // Runs that strand or lose a turn
  // ------------------------------------------------------------------

  /** One more step of a run. */
  lemma Grow(steps: seq<Step>, s: System, step: Step, rule: Rule) returns (more: seq<Step>, t: System)
    requires Along(INITIAL, steps, rule) && After(INITIAL, steps) == s && Enabled(s, step) && rule(s, step)
    ensures more == steps + [step] && t == Apply(s, step)
    ensures Along(INITIAL, more, rule) && After(INITIAL, more) == t
  {
    more, t := steps + [step], Apply(s, step);
    Prepend(s, step, [], rule);
    assert [step] + [] == [step];
    Compose(INITIAL, steps, [step], rule);
  }

  /** A response.created without an id, for a second turn queued behind it. */
  lemma EmptyIdStrandsRun() returns (steps: seq<Step>)
    ensures Along(INITIAL, steps, Anything) && !NotStranded(After(INITIAL, steps).g)
  {
    var s := INITIAL;
    steps, s := Grow([], s, Want("a"), Anything);
    steps, s := Grow(steps, s, Receive, Anything);
    steps, s := Grow(steps, s, Want("b"), Anything);
    steps, s := Grow(steps, s, LoseId, Anything);
    steps, s := Grow(steps, s, Deliver, Anything);
  }

  /** A second turn waits behind the first one's response. */
  lemma QueuedBehindRun() returns (steps: seq<Step>, s: System)
    ensures Along(INITIAL, steps, KeepsIds) && After(INITIAL, steps) == s
    ensures s.g.open && !s.g.stopped && s.g.queued == Some("b") && s.g.active == Some(0) && !s.g.awaiting && s.g.armed
    ensures s.running == Some(0) && s.up == [] && s.down == []
  {
    s := INITIAL;
    steps, s := Grow([], s, Want("a"), KeepsIds);
    steps, s := Grow(steps, s, Receive, KeepsIds);
    steps, s := Grow(steps, s, Deliver, KeepsIds);
    steps, s := Grow(steps, s, Want("b"), KeepsIds);
  }

  /** A lost response.done: nothing is left that would move the turn. */
  lemma LostDoneStrandsRun() returns (steps: seq<Step>)
    ensures Along(INITIAL, steps, KeepsIds)
    ensures var s := After(INITIAL, steps);
      && s.g.open && !s.g.stopped && s.g.queued.Some? && !s.g.armed
      && s.g.active.Some? && s.running.None? && s.up == [] && s.down == []
  {
    var s;
    steps, s := QueuedBehindRun();
    steps, s := Grow(steps, s, Finish, KeepsIds);
    steps, s := Grow(steps, s, LoseEvent, KeepsIds);
    steps, s := Grow(steps, s, TimerExpires, KeepsIds);
  }

  /** Two turns wanted on a closed socket, and an expiry before it reopens. */
  lemma ClosedSocketLosesTurn() returns (steps: seq<Step>)
    ensures Along(INITIAL, steps, KeepsIdsAndDones)
    ensures var s := After(INITIAL, steps);
      && s.g.queued == Some("b") && Enabled(s, TimerExpires) && Flushed(s, TimerExpires)
      && Apply(s, TimerExpires).g.queued.None? && Apply(s, TimerExpires).up == []
  {
    var s := INITIAL;
    steps, s := Grow([], s, SocketCloses, KeepsIdsAndDones);
    steps, s := Grow(steps, s, Want("a"), KeepsIdsAndDones);
    steps, s := Grow(steps, s, Want("b"), KeepsIdsAndDones);
  }

  // ------------------------------------------------------------------
  // Single flight
  // ------------------------------------------------------------------

  ghost predicate CreateOnTheWay(s: System) {
    Create in s.up || exists i :: 0 <= i < |s.down| && s.down[i].Created?
  }

  /** The event at the head of `down` is the only word the client has of the running response. */
  ghost predicate OnlyWord(s: System) {
    && s.down != [] && s.down[0].Created? && s.running.Some? && s.down[0].id == s.running
    && Cancel(s.running.value) !in s.up
  }

  /**
   The timer does not expire while a response.created is on its way, the server starts a response
   by itself only when the gate awaits one that is not coming, and the only word of a running
   response is neither lost nor stripped of its id.
   */
  ghost predicate Fair(s: System, step: Step) {
    match step
    case TimerExpires => !CreateOnTheWay(s)
    case ServerStarts => s.g.awaiting && !CreateOnTheWay(s)
    case LoseEvent => !OnlyWord(s)
    case LoseId => !OnlyWord(s)
    case _ => true
  }

  /** A create is the last thing sent, and it or its answer is on the way only while the gate awaits it. */
  ghost predicate OneCreate(s: System) {
    && (forall i :: 0 <= i < |s.up| && s.up[i] == Create ==> i == |s.up| - 1)
    && (forall i, j :: 0 <= i < j < |s.down| ==> !(s.down[i].Created? && s.down[j].Created?))
    && (CreateOnTheWay(s) ==> s.g.awaiting)
    && (Create in s.up ==> forall i :: 0 <= i < |s.down| ==> !s.down[i].Created?)
  }

  /** The client knows of the running response, or is about to, or has asked for its end. */
  ghost predicate RunningKnown(s: System) {
    s.running.Some? ==>
      s.g.active == s.running || Created(s.running) in s.down || Cancel(s.running.value) in s.up
  }

  /** Every id in sight is an old one, and the running response's end is not on the way. */
  ghost predicate IdsFresh(s: System) {
    && (s.running.Some? ==> s.running.value < s.nextId)
    && (s.g.active.Some? ==> s.g.active.value < s.nextId)
    && (forall i :: 0 <= i < |s.up| && s.up[i].Cancel? ==> s.up[i].id < s.nextId)
    && (forall i :: 0 <= i < |s.down| && s.down[i].Created? && s.down[i].id.Some? ==> s.down[i].id.value < s.nextId)
    && (forall i :: 0 <= i < |s.down| && s.down[i].Done? ==>
      s.down[i].ended < s.nextId && s.running != Some(s.down[i].ended))
  }

  ghost predicate Inv(s: System) {
    && Exclusive(s.g)
    && OneCreate(s) && RunningKnown(s) && IdsFresh(s)
    && Conflict !in s.down
    && (s.g.stopped ==> !s.g.open)
    && (!s.g.open ==> s.up == [] && s.down == [] && s.running.None?)
  }

  ghost predicate SingleFlight(s: System) {
    s.up != [] && s.up[0] == Create ==> s.running.None?
  }

  lemma InvImpliesSingleFlight(s: System)
    requires Inv(s)
    ensures SingleFlight(s)
  {
  }

  lemma RequestKeeps(s: System, reason: string)
    requires Inv(s)
    ensures Inv(Client(s, AfterRequest(s.g, reason)))
  {
  }

  lemma AbandonKeeps(s: System)
    requires Inv(s)
    ensures Inv(Client(s, AfterAbandon(s.g)))
  {
  }

  /** Changing what the protocol does not depend on. */
  lemma GateOnlyKeeps(s: System, g: Gate)
    requires Inv(s)
    requires g.active == s.g.active && g.awaiting == s.g.awaiting && g.open == s.g.open && g.stopped == s.g.stopped
    ensures Inv(s.(g := g))
  {
  }

  lemma SpeechKeeps(s: System, now: real)
    requires Inv(s)
    ensures Inv(Client(s, AfterSpeechStarted(s.g, now)))
  {
    var t := s.(g := s.g.(speaking := true));
    GateOnlyKeeps(s, t.g);
    AbandonKeeps(t);
    assert Client(t, Outcome(t.g, [])) == t;
  }

  lemma TimerKeeps(s: System)
    requires Inv(s) && !CreateOnTheWay(s)
    ensures Inv(Client(s, AfterTimer(s.g)))
  {
  }

  lemma DeliverKeeps(s: System)
    requires Inv(s) && s.down != []
    ensures Inv(Apply(s, Deliver))
  {
    match s.down[0]
    case Created(_) => DeliverCreatedKeeps(s);
    case Done(_) => DeliverDoneKeeps(s);
    case BenignRace =>
    case Conflict => assert false;
  }

  lemma DeliverCreatedKeeps(s: System)
    requires Inv(s) && s.down != [] && s.down[0].Created?
    ensures Inv(Apply(s, Deliver))
  {
  }

  lemma DeliverDoneKeeps(s: System)
    requires Inv(s) && s.down != [] && s.down[0].Done?
    ensures Inv(Apply(s, Deliver))
  {
  }

  lemma ReceiveKeeps(s: System)
    requires Inv(s) && s.up != []
    ensures Inv(Apply(s, Receive))
  {
  }

  lemma FinishKeeps(s: System)
    requires Inv(s) && s.running.Some?
    ensures Inv(Apply(s, Finish))
  {
  }

  lemma ServerStartKeeps(s: System)
    requires Inv(s) && Enabled(s, ServerStarts) && s.g.awaiting && !CreateOnTheWay(s)
    ensures Inv(Apply(s, ServerStarts))
  {
  }

  lemma LossKeeps(s: System, step: Step)
    requires Inv(s) && Enabled(s, step) && (step.LoseEvent? || step.LoseId?) && !OnlyWord(s)
    ensures Inv(Apply(s, step))
  {
    assert s.down == [s.down[0]] + s.down[1..];
  }

  lemma FairStepKeepsInv(s: System, step: Step)
    requires Inv(s) && Enabled(s, step) && Fair(s, step)
    ensures Inv(Apply(s, step))
  {
    match step
    case Want(_) => RequestKeeps(s, step.reason);
    case SpeechStarts(_) => SpeechKeeps(s, step.now);
    case CancelWanted => AbandonKeeps(s);
    case TimerExpires => TimerKeeps(s);
    case Deliver => DeliverKeeps(s);
    case Receive => ReceiveKeeps(s);
    case Finish => FinishKeeps(s);
    case ServerStarts => ServerStartKeeps(s);
    case LoseEvent => LossKeeps(s, step);
    case LoseId => LossKeeps(s, step);
    case SocketCloses =>
    case SocketReopens =>
    case Stop =>
    case _ => GateOnlyKeeps(s, Apply(s, step).g);
  }

  lemma {:induction false} InvFrom(s: System, steps: seq<Step>)
    requires Inv(s) && Along(s, steps, Fair)
    ensures Inv(After(s, steps))
    decreases |steps|
  {
    if steps != [] {
      FairStepKeepsInv(s, steps[0]);
      InvFrom(Apply(s, steps[0]), steps[1..]);
    }
  }

  /** Along every fair run a response.create finds the server idle. */
  lemma SingleFlightHolds(steps: seq<Step>)
    requires Along(INITIAL, steps, Fair)
    ensures SingleFlight(After(INITIAL, steps)) && Exclusive(After(INITIAL, steps).g)
  {
    InvFrom(INITIAL, steps);
    InvImpliesSingleFlight(After(INITIAL, steps));
  }

  /** The same as a statement about the server: in a fair run it never has to answer with a conflict. */
  lemma FairRunsSeeNoConflict(steps: seq<Step>)
    requires Along(INITIAL, steps, Fair)
    ensures Conflict !in After(INITIAL, steps).down
  {
    InvFrom(INITIAL, steps);
  }

  // ------------------------------------------------------------------
  // What the excluded steps do, in every fair continuation
  // ------------------------------------------------------------------

  /** No fair continuation from s puts a create before a busy server. */
  ghost predicate SafeFrom(s: System) {
    forall steps :: Along(s, steps, Fair) ==> SingleFlight(After(s, steps))
  }

  lemma InvIsSafe(s: System)
    requires Inv(s)
    ensures SafeFrom(s)
  {
    forall steps | Along(s, steps, Fair) ensures SingleFlight(After(s, steps)) {
      InvFrom(s, steps);
      InvImpliesSingleFlight(After(s, steps));
    }
  }

  /** A fair continuation that puts a create before a busy server. */
  ghost predicate Collides(s: System, steps: seq<Step>) {
    Along(s, steps, Fair) && !SingleFlight(After(s, steps))
  }

  lemma CollidesAfter(s: System, first: seq<Step>, second: seq<Step>)
    requires Along(s, first, Fair) && Collides(After(s, first), second)
    ensures Collides(s, first + second)
  {
    Compose(s, first, second, Fair);
  }

  lemma CollidesNext(s: System, step: Step, rest: seq<Step>)
    requires Enabled(s, step) && Fair(s, step) && Collides(Apply(s, step), rest)
    ensures Collides(s, [step] + rest)
  {
    Prepend(s, step, rest, Fair);
  }

  /** The k-th message up is a create, and none before it ends the response `spared`. */
  ghost predicate CreateAt(s: System, k: nat, spared: Option<Id>) {
    k < |s.up| && s.up[k] == Create && forall i :: 0 <= i < k ==> s.up[i].Cancel? && Some(s.up[i].id) != spared
  }

  /** A create that only cancels of other responses stand before reaches the server while it is busy. */
  lemma {:induction false} BusyCollides(s: System, k: nat) returns (steps: seq<Step>)
    requires s.running.Some? && CreateAt(s, k, s.running)
    ensures Collides(s, steps)
    decreases k
  {
    if k == 0 {
      steps := [];
    } else {
      steps := BusyCollides(Apply(s, Receive), k - 1);
      CollidesNext(s, Receive, steps);
      steps := [Receive] + steps;
    }
  }

  /** Two creates, with only cancels of old responses between them: the first makes the server busy for the second. */
  lemma {:induction false} TwoCreatesCollide(s: System, k: nat, n: nat) returns (steps: seq<Step>)
    requires k < n < |s.up| && s.up[k] == Create && s.up[n] == Create
    requires forall i :: k < i < n ==> s.up[i].Cancel? && s.up[i].id < s.nextId
    ensures Collides(s, steps)
    decreases k
  {
    if s.running.Some? && s.up[0] == Create {
      return [];
    }
    var t := Apply(s, Receive);
    if k == 0 {
      steps := BusyCollides(t, n - 1);
    } else {
      steps := TwoCreatesCollide(t, k - 1, n - 1);
    }
    CollidesNext(s, Receive, steps);
    steps := [Receive] + steps;
  }

  ghost predicate Live(s: System) {
    s.g.open && !s.g.stopped
  }

  function CancelOf(id: Option<Id>): seq<ClientMessage> {
    if id.Some? then [Cancel(id.value)] else []
  }

  /** The caller cancels and wants another turn while the gate awaits nothing: one more create is sent. */
  lemma AskAgain(s: System) returns (steps: seq<Step>)
    requires Live(s) && !s.g.awaiting
    ensures Along(s, steps, Fair)
    ensures var t := After(s, steps);
      && t.running == s.running && t.nextId == s.nextId
      && t.up == s.up + CancelOf(s.g.active) + [Create]
  {
    var t := Apply(s, CancelWanted);
    Prepend(t, Want("again"), [], Fair);
    assert [Want("again")] + [] == [Want("again")];
    Prepend(s, CancelWanted, [Want("again")], Fair);
    steps := [CancelWanted] + [Want("again")];
  }

  /** Delivering up to the first response.created reopens the gate, whoever else is about to answer. */
  lemma {:induction false} CreatedArrives(s: System, i: nat) returns (steps: seq<Step>)
    requires Live(s) && s.g.awaiting && s.g.active.None?
    requires i < |s.down| && s.down[i].Created?
    requires forall j :: 0 <= j < i ==> s.down[j].Done? || s.down[j].BenignRace?
    ensures Along(s, steps, Fair)
    ensures var t := After(s, steps);
      && Live(t) && !t.g.awaiting && t.running == s.running && t.nextId == s.nextId
      && t.up + CancelOf(t.g.active) == s.up + CancelOf(s.down[i].id)
    decreases i
  {
    var t := Apply(s, Deliver);
    if i == 0 {
      steps := [];
    } else {
      steps := CreatedArrives(t, i - 1);
    }
    Prepend(s, Deliver, steps, Fair);
    steps := [Deliver] + steps;
  }

  lemma AskAfterCreated(s: System, i: nat) returns (steps: seq<Step>)
    requires Live(s) && s.g.awaiting && s.g.active.None?
    requires i < |s.down| && s.down[i].Created?
    requires forall j :: 0 <= j < i ==> s.down[j].Done? || s.down[j].BenignRace?
    ensures Along(s, steps, Fair)
    ensures var t := After(s, steps);
      t.running == s.running && t.nextId == s.nextId && t.up == s.up + CancelOf(s.down[i].id) + [Create]
  {
    var first := CreatedArrives(s, i);
    var second := AskAgain(After(s, first));
    Compose(s, first, second, Fair);
    steps := first + second;
  }

  /** Where the one response.created on the way stands. */
  lemma CreatedPlace(s: System) returns (i: nat)
    requires Inv(s) && CreateOnTheWay(s) && Create !in s.up
    ensures i < |s.down| && s.down[i].Created? && (s.down[i].id.Some? ==> s.down[i].id.value < s.nextId)
    ensures forall j :: 0 <= j < i ==> s.down[j].Done? || s.down[j].BenignRace?
  {
    i :| 0 <= i < |s.down| && s.down[i].Created?;
    forall j | 0 <= j < i ensures s.down[j].Done? || s.down[j].BenignRace? {
      assert s.down[j] in s.down;
    }
  }

  /** An expiry with a create or its answer on the way: a second create follows, at once or with the next request. */
  lemma ExpiryCollides(s: System) returns (steps: seq<Step>)
    requires Inv(s) && s.g.armed && CreateOnTheWay(s)
    ensures Collides(Apply(s, TimerExpires), steps)
  {
    var t := Apply(s, TimerExpires);
    var first := [];
    if !t.g.awaiting {
      Prepend(t, Want("again"), [], Fair);
      first := [Want("again")] + [];
    }
    var u, n := After(t, first), |s.up|;
    assert u.up == s.up + [Create];
    var rest;
    if Create in s.up {
      rest := TwoCreatesCollide(u, n - 1, n);
    } else {
      var i := CreatedPlace(s);
      var second := AskAfterCreated(u, i);
      var v := After(u, second);
      assert v.up == s.up + [Create] + CancelOf(s.down[i].id) + [Create];
      var third := TwoCreatesCollide(v, n, |v.up| - 1);
      CollidesAfter(u, second, third);
      rest := second + third;
    }
    CollidesAfter(t, first, rest);
    steps := first + rest;
  }

  /** A response the server starts while a create can be sent, or one or its answer is on the way. */
  lemma ServerStartCollides(s: System) returns (steps: seq<Step>)
    requires Inv(s) && Enabled(s, ServerStarts) && (!s.g.awaiting || CreateOnTheWay(s))
    ensures Collides(Apply(s, ServerStarts), steps)
  {
    var t, n := Apply(s, ServerStarts), |s.up|;
    if Create in s.up {
      steps := BusyCollides(t, n - 1);
      return;
    }
    var first;
    if s.g.awaiting {
      var i := CreatedPlace(s);
      first := AskAfterCreated(t, i);
    } else {
      first := AskAgain(t);
    }
    var u := After(t, first);
    var rest := BusyCollides(u, |u.up| - 1);
    CollidesAfter(t, first, rest);
    steps := first + rest;
  }

  /** The only word of a running response lost: the client can ask again. */
  lemma LossCollides(s: System, step: Step) returns (steps: seq<Step>)
    requires Inv(s) && Enabled(s, step) && (step.LoseEvent? || step.LoseId?) && OnlyWord(s)
    ensures Collides(Apply(s, step), steps)
  {
    assert CreateOnTheWay(s);
    var t := Apply(s, step);
    var first;
    if step.LoseId? {
      first := AskAfterCreated(t, 0);
    } else {
      first := AskByTimer(t);
    }
    var u := After(t, first);
    assert u.up == s.up + [Create];
    var rest := BusyCollides(u, |s.up|);
    CollidesAfter(t, first, rest);
    steps := first + rest;
  }

  /** A request that waits for nothing is sent when the timer expires. */
  lemma AskByTimer(s: System) returns (steps: seq<Step>)
    requires Live(s) && s.g.awaiting && s.g.active.None? && !CreateOnTheWay(s)
    ensures Along(s, steps, Fair)
    ensures var t := After(s, steps); t.running == s.running && t.up == s.up + [Create]
  {
    var t := Apply(s, Want("again"));
    assert !CreateOnTheWay(t);
    Prepend(t, TimerExpires, [], Fair);
    Prepend(s, Want("again"), [TimerExpires] + [], Fair);
    steps := [Want("again")] + ([TimerExpires] + []);
  }

  /**
   The exact condition: a step from a state of the invariant keeps single flight, now and in every
   fair continuation, if and only if it is fair, and then it keeps the invariant.
   */
  lemma StepSafeExactly(s: System, step: Step)
    requires Inv(s) && Enabled(s, step)
    ensures SafeFrom(Apply(s, step)) <==> Fair(s, step)
    ensures Inv(Apply(s, step)) <==> Fair(s, step)
  {
    if Fair(s, step) {
      FairStepKeepsInv(s, step);
      InvIsSafe(Apply(s, step));
    } else {
      var steps;
      match step {
        case TimerExpires => steps := ExpiryCollides(s);
        case ServerStarts => steps := ServerStartCollides(s);
        case LoseEvent => steps := LossCollides(s, step);
        case LoseId => steps := LossCollides(s, step);
      }
      assert Collides(Apply(s, step), steps);
      if Inv(Apply(s, step)) {
        InvIsSafe(Apply(s, step));
      }
    }
  }

  /** A timer expiry is safe exactly when no response.create and no answer to one is on its way. */
  lemma ExpirySafeExactly(s: System)
    requires Inv(s) && s.g.armed
    ensures SafeFrom(Apply(s, TimerExpires)) <==> !CreateOnTheWay(s)
  {
    StepSafeExactly(s, TimerExpires);
  }

  /** A response the server starts is safe exactly when it stands in for one awaited that is not coming. */
  lemma ServerStartSafeExactly(s: System)
    requires Inv(s) && Enabled(s, ServerStarts)
    ensures SafeFrom(Apply(s, ServerStarts)) <==> s.g.awaiting && !CreateOnTheWay(s)
  {
    StepSafeExactly(s, ServerStarts);
  }

  // ------------------------------------------------------------------
  // Collisions at once
  // ------------------------------------------------------------------

  /** An expiry puts a create before a busy server at once exactly when it flushes a turn and the server is busy. */
  lemma ExpiryCollidesAtOnce(s: System)
    requires Inv(s) && s.g.armed
    ensures !SingleFlight(Apply(s, TimerExpires)) <==>
      && s.up == [] && s.g.open && !s.g.stopped
      && s.g.queued.Some? && s.g.active.None? && s.running.Some?
    ensures !SingleFlight(Apply(s, TimerExpires)) ==> Created(s.running) in s.down
  {
  }

  /** A server-started response is met by a create at once exactly when that is all there is on the way up. */
  lemma ServerStartCollidesAtOnce(s: System)
    requires Inv(s) && Enabled(s, ServerStarts)
    ensures !SingleFlight(Apply(s, ServerStarts)) <==> s.up == [Create]
  {
  }

  /** Runs in which an expiry or a server-started response is the only unfair step, and a collision follows. */
  predicate OnlyExpiries(s: System, step: Step) {
    !step.ServerStarts? && !step.LoseEvent? && !step.LoseId?
  }

  predicate OnlyServerStarts(s: System, step: Step) {
    !step.TimerExpires? && !step.LoseEvent? && !step.LoseId?
  }

  /** A slow response.created, a second turn, an expiry. */
  lemma ExpiryCollidesRun() returns (steps: seq<Step>)
    ensures Along(INITIAL, steps, OnlyExpiries) && !SingleFlight(After(INITIAL, steps))
  {
    var s := INITIAL;
    steps, s := Grow([], s, Want("a"), OnlyExpiries);
    steps, s := Grow(steps, s, Receive, OnlyExpiries);
    steps, s := Grow(steps, s, Want("b"), OnlyExpiries);
    steps, s := Grow(steps, s, TimerExpires, OnlyExpiries);
  }

  /** The same with nothing queued at the expiry: the next request collides. */
  lemma ExpiryCollidesLaterRun() returns (steps: seq<Step>)
    ensures Along(INITIAL, steps, OnlyExpiries) && !SingleFlight(After(INITIAL, steps))
    ensures |steps| == 4 && steps[2] == TimerExpires && SingleFlight(After(INITIAL, steps[..3]))
  {
    var s := INITIAL;
    var before;
    steps, s := Grow([], s, Want("a"), OnlyExpiries);
    steps, s := Grow(steps, s, Receive, OnlyExpiries);
    before, s := Grow(steps, s, TimerExpires, OnlyExpiries);
    assert SingleFlight(s);
    steps, s := Grow(before, s, Want("b"), OnlyExpiries);
    assert steps[..3] == before;
  }

  /** A response the server starts, and a request before the client has heard of it. */
  lemma ServerStartCollidesRun() returns (steps: seq<Step>)
    ensures Along(INITIAL, steps, OnlyServerStarts) && !SingleFlight(After(INITIAL, steps))
  {
    var s := INITIAL;
    steps, s := Grow([], s, ServerStarts, OnlyServerStarts);
    steps, s := Grow(steps, s, Want("a"), OnlyServerStarts);
  }
}
