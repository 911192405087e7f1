/**
 One role's speaking turns as a stream of interim fragments and final lines. A turn is what the
 deltas between two closings add up to; ids of closed turns are kept in a bounded memory.
 Strings are sequences of UTF-16 code units.
 */
module TurnTranscript {
  import opened Options
  import opened BoundedMemory
  import opened Text

  const MAX_REMEMBERED_TURNS := 8

  datatype Config = Config(interimWindowMs: int, interimMinIntervalMs: int, maxTurnChars: nat)

  const DEFAULTS := Config(1500, 250, 4000)

  /** The line a turn is closed with. */
  function Line(c: Config, text: string): string {
    Trim(Take(Trim(text), c.maxTurnChars))
  }

  /** Capping and trimming again loses a line only when the cap is zero. */
  lemma LineIsEmptyExactly(c: Config, text: string)
    ensures Line(c, text) == [] <==> Trim(text) == [] || c.maxTurnChars == 0
  {
    TrimStartEdge(text);
    if Trim(text) != [] && c.maxTurnChars > 0 {
      TrimEndKeepsHead(TrimStart(text));
      TrimEndKeepsHead(Take(Trim(text), c.maxTurnChars));
    }
  }

  // ------------------------------------------------------------------
  // The stream
  // ------------------------------------------------------------------

  type Id = Option<string>

  datatype Turn = Turn(id: Id, text: string, pending: string, firstEmitAt: Option<int>, lastEmitAt: int)

  datatype Stream = Stream(turn: Option<Turn>, finalised: seq<string>, anonymous: bool)

  const FRESH := Stream(None, [], false)

  /** What a call emits, and for which turn. */
  datatype Output = Silent | Interim(id: Id, fragment: string) | Final(id: Id, line: string)

  function NewTurn(id: Id): Turn {
    Turn(id, "", "", None, 0)
  }

  predicate Finalised(s: Stream, id: Id) {
    id.Some? && id.value in s.finalised
  }

  predicate Different(t: Turn, id: Id) {
    id.Some? && t.id.Some? && t.id != id
  }

  function Remembered(s: Stream, id: Id): Stream {
    match id
    case None => s.(anonymous := true)
    case Some(x) => s.(anonymous := false, finalised := Remember(s.finalised, x, MAX_REMEMBERED_TURNS))
  }

  /** After a delta for `id` has been attributed: a turn is open, and it is not that of another id. */
  function Opened(s: Stream, id: Id): (r: Stream)
    ensures r.turn.Some?
  {
    if s.turn.None? then s.(turn := Some(NewTurn(id)))
    else if Different(s.turn.value, id) then Remembered(s, s.turn.value.id).(turn := Some(NewTurn(id)))
    else if s.turn.value.id.None? then s.(turn := Some(s.turn.value.(id := id)))
    else s
  }

  /** Whether the pending text may go out now. */
  predicate MayEmit(c: Config, t: Turn, now: int) {
    && t.pending != ""
    && (t.firstEmitAt.Some? ==>
      now - t.firstEmitAt.value < c.interimWindowMs && now - t.lastEmitAt >= c.interimMinIntervalMs)
  }

  function EmittedTurn(t: Turn, now: int): Turn {
    t.(firstEmitAt := if t.firstEmitAt.None? then Some(now) else t.firstEmitAt, pending := "", lastEmitAt := now)
  }

  /** The part of a delta that fits goes into the turn, and out with whatever waits, when it may. */
  function Absorbed(c: Config, turn: Turn, delta: string, now: int): (Turn, Output) {
    if |turn.text| >= c.maxTurnChars then (turn, Silent)
    else
      var accepted := Take(delta, c.maxTurnChars - |turn.text|);
      var grown := turn.(text := turn.text + accepted, pending := turn.pending + accepted);
      if MayEmit(c, grown, now) then (EmittedTurn(grown, now), Interim(grown.id, grown.pending)) else (grown, Silent)
  }

  function AfterDelta(c: Config, s: Stream, id: Id, delta: string, now: int): (Stream, Output) {
    if delta == "" || Finalised(s, id) then (s, Silent)
    else
      var current := Opened(s, id);
      var (turn, out) := Absorbed(c, current.turn.value, delta, now);
      (current.(turn := Some(turn)), out)
  }

  /** Closing a turn remembers its id and emits its line, unless that is empty. */
  function Closed(c: Config, s: Stream, id: Id, text: string): (Stream, Output) {
    (Remembered(s, id), if Line(c, text) == "" then Silent else Final(id, Line(c, text)))
  }

  function AfterFinalise(c: Config, s: Stream, id: Id, transcript: Option<string>): (Stream, Output) {
    var wireText := Trim(if transcript.Some? then transcript.value else "");
    if Finalised(s, id) then (s, Silent)
    else if s.turn.None? then
      if id.None? && s.anonymous then (s, Silent) else Closed(c, s, id, wireText)
    else
      var turn, cleared := s.turn.value, s.(turn := None);
      if Different(turn, id) then Closed(c, Remembered(cleared, turn.id), id, wireText)
      else Closed(c, cleared, if id.Some? then id else turn.id, if wireText != "" then wireText else turn.text)
  }

  function AfterAbandon(c: Config, s: Stream): (Stream, Output) {
    if s.turn.None? then (s, Silent) else Closed(c, s.(turn := None), s.turn.value.id, s.turn.value.text)
  }

  class TurnTranscriptStream {
    const c: Config
    var turn: Option<Turn>
    var finalisedIds: seq<string>
    var finalisedAnonymous: bool

    function State(): Stream
      reads this
    {
      Stream(turn, finalisedIds, finalisedAnonymous)
    }

    constructor (c: Config)
      ensures this.c == c && State() == FRESH
    {
      this.c := c;
      turn, finalisedIds, finalisedAnonymous := None, [], false;
    }

    method Remember(id: Id)
      modifies this`finalisedIds, this`finalisedAnonymous
      ensures State() == Remembered(old(State()), id)
    {
      if id.None? {
        finalisedAnonymous := true;
        return;
      }
      finalisedAnonymous := false;
      finalisedIds := RememberInPlace(finalisedIds, id.value, MAX_REMEMBERED_TURNS);
    }

    method OpenTurn(id: Id) returns (t: Turn)
      modifies this
      ensures State() == Opened(old(State()), id) && turn == Some(t)
    {
      if turn.None? {
        turn := Some(NewTurn(id));
      } else if id.Some? && turn.value.id.Some? && turn.value.id != id {
        Remember(turn.value.id);
        turn := Some(NewTurn(id));
      } else if turn.value.id.None? && id.Some? {
        turn := Some(turn.value.(id := id));
      }
      t := turn.value;
    }

    method PushDelta(id: Id, delta: string, now: int) returns (out: Output)
      modifies this
      ensures (State(), out) == AfterDelta(c, old(State()), id, delta, now)
    {
      if delta == "" {
        return Silent;
      }
      if id.Some? && id.value in finalisedIds {
        return Silent;
      }
      var t := OpenTurn(id);
      var room := c.maxTurnChars - |t.text|;
      if room <= 0 {
        return Silent;
      }
      var accepted := if |delta| <= room then delta else delta[..room];
      t := t.(text := t.text + accepted, pending := t.pending + accepted);
      turn := Some(t);
      out := TakeInterim(t, now);
    }

    method TakeInterim(t: Turn, now: int) returns (out: Output)
      requires turn == Some(t)
      modifies this`turn
      ensures State() == old(State()).(turn := Some(if MayEmit(c, t, now) then EmittedTurn(t, now) else t))
      ensures out == if MayEmit(c, t, now) then Interim(t.id, t.pending) else Silent
    {
      if t.pending == "" {
        return Silent;
      }
      if t.firstEmitAt.None? {
        turn := Some(t.(firstEmitAt := Some(now)));
        out := FlushInterim(now);
        return;
      }
      if now - t.firstEmitAt.value >= c.interimWindowMs {
        return Silent;
      }
      if now - t.lastEmitAt < c.interimMinIntervalMs {
        return Silent;
      }
      out := FlushInterim(now);
    }

    method FlushInterim(now: int) returns (out: Output)
      requires turn.Some?
      modifies this`turn
      ensures turn == Some(old(turn).value.(pending := "", lastEmitAt := now))
      ensures out == Interim(old(turn).value.id, old(turn).value.pending)
    {
      out := Interim(turn.value.id, turn.value.pending);
      turn := Some(turn.value.(pending := "", lastEmitAt := now));
    }

    method CloseWith(id: Id, text: string) returns (out: Output)
      modifies this`finalisedIds, this`finalisedAnonymous
      ensures (State(), out) == Closed(c, old(State()), id, text)
    {
      Remember(id);
      var trimmed := Trim(text);
      var content := Trim(if |trimmed| <= c.maxTurnChars then trimmed else trimmed[..c.maxTurnChars]);
      out := if |content| == 0 then Silent else Final(id, content);
    }

    method Finalise(id: Id, transcript: Option<string>) returns (out: Output)
      modifies this
      ensures (State(), out) == AfterFinalise(c, old(State()), id, transcript)
    {
      if id.Some? && id.value in finalisedIds {
        return Silent;
      }
      var wireText := Trim(if transcript.Some? then transcript.value else "");
      if turn.None? {
        if id.None? && finalisedAnonymous {
          return Silent;
        }
        out := CloseWith(id, wireText);
        return;
      }
      var was := turn.value;
      turn := None;
      if id.Some? && was.id.Some? && was.id != id {
        Remember(was.id);
        out := CloseWith(id, wireText);
        return;
      }
      out := CloseWith(if id.Some? then id else was.id, if |wireText| > 0 then wireText else was.text);
    }

    method Abandon() returns (out: Output)
      modifies this
      ensures (State(), out) == AfterAbandon(c, old(State()))
    {
      if turn.None? {
        return Silent;
      }
      var was := turn.value;
      turn := None;
      out := CloseWith(was.id, was.text);
    }

    method Reset()
      modifies this
      ensures State() == FRESH
    {
      turn, finalisedIds, finalisedAnonymous := None, [], false;
    }
  }

  // ------------------------------------------------------------------
  // Runs of calls since construction or the last reset
  // ------------------------------------------------------------------

  datatype Call =
    | DeltaCall(id: Id, delta: string, now: int)
    | FinaliseCall(id: Id, transcript: Option<string>)
    | AbandonCall

  function Step(c: Config, s: Stream, call: Call): (Stream, Output) {
    match call
    case DeltaCall(id, delta, now) => AfterDelta(c, s, id, delta, now)
    case FinaliseCall(id, transcript) => AfterFinalise(c, s, id, transcript)
    case AbandonCall => AfterAbandon(c, s)
  }

  function StateAfter(c: Config, calls: seq<Call>): Stream {
    if calls == [] then FRESH
    else Step(c, StateAfter(c, calls[..|calls| - 1]), calls[|calls| - 1]).0
  }

  function Ids(id: Id): seq<string> {
    if id.Some? then [id.value] else []
  }

  /** The turns a call closes, named or not, in order. */
  function NewlyClosed(s: Stream, call: Call): seq<Id> {
    match call
    case DeltaCall(id, delta, _) =>
      if delta != "" && !Finalised(s, id) && s.turn.Some? && Different(s.turn.value, id) then [s.turn.value.id] else []
    case FinaliseCall(id, _) =>
      if Finalised(s, id) || (s.turn.None? && id.None? && s.anonymous) then []
      else if s.turn.None? then [id]
      else if Different(s.turn.value, id) then [s.turn.value.id, id]
      else if id.Some? then [id]
      else [s.turn.value.id]
    case AbandonCall => if s.turn.Some? then [s.turn.value.id] else []
  }

  function Named(ids: seq<Id>): seq<string> {
    if ids == [] then [] else Ids(ids[0]) + Named(ids[1..])
  }

  lemma NamedOneOrTwo(x: Id, y: Id)
    ensures Named([x]) == Ids(x) && Named([x, y]) == Ids(x) + Ids(y)
  {
    assert [x][1..] == [] && [x, y][1..] == [y];
    assert Named([x]) == Ids(x) + [];
    assert Named([y]) == Ids(y) + [];
  }

  /** The ids a call finalises, in order. */
  function NewlyFinalised(s: Stream, call: Call): seq<string> {
    Named(NewlyClosed(s, call))
  }

  /** Every id ever finalised, oldest first. */
  function Log(c: Config, calls: seq<Call>): seq<string> {
    if calls == [] then []
    else
      var n := |calls| - 1;
      Log(c, calls[..n]) + NewlyFinalised(StateAfter(c, calls[..n]), calls[n])
  }

  ghost predicate Inv(s: Stream) {
    && Distinct(s.finalised) && |s.finalised| <= MAX_REMEMBERED_TURNS
    && (s.turn.Some? ==> !Finalised(s, s.turn.value.id))
  }

  lemma RememberedAppends(s: Stream, id: Id)
    requires Distinct(s.finalised) && |s.finalised| <= MAX_REMEMBERED_TURNS && !Finalised(s, id)
    ensures var r := Remembered(s, id);
      && Distinct(r.finalised) && |r.finalised| <= MAX_REMEMBERED_TURNS
      && r.finalised == LastOf(s.finalised + Ids(id), MAX_REMEMBERED_TURNS)
      && (forall x :: x in r.finalised ==> x in s.finalised || Some(x) == id)
  {
    if id.None? {
      assert s.finalised + [] == s.finalised;
    } else {
      RememberKeepsOrder(s.finalised, id.value, MAX_REMEMBERED_TURNS);
    }
  }

  ghost predicate MemoryGrew(s: Stream, call: Call, t: Stream) {
    Inv(t) && t.finalised == LastOf(s.finalised + NewlyFinalised(s, call), MAX_REMEMBERED_TURNS)
  }

  lemma DeltaKeepsMemory(c: Config, s: Stream, call: Call)
    requires Inv(s) && call.DeltaCall?
    ensures MemoryGrew(s, call, Step(c, s, call).0)
  {
    assert s.finalised + [] == s.finalised;
    if s.turn.Some? && Different(s.turn.value, call.id) {
      NamedOneOrTwo(s.turn.value.id, None);
      RememberedAppends(s, s.turn.value.id);
    }
  }

  lemma FinaliseKeepsMemory(c: Config, s: Stream, call: Call)
    requires Inv(s) && call.FinaliseCall?
    ensures MemoryGrew(s, call, Step(c, s, call).0)
  {
    assert s.finalised + [] == s.finalised;
    if s.turn.Some? && Different(s.turn.value, call.id) && !Finalised(s, call.id) {
      var first, id := s.turn.value.id, call.id;
      NamedOneOrTwo(first, id);
      RememberedAppends(s, first);
      RememberedAppends(Remembered(s, first), id);
      LastOfTwice(s.finalised + Ids(first), Ids(id), MAX_REMEMBERED_TURNS);
      assert s.finalised + Ids(first) + Ids(id) == s.finalised + (Ids(first) + Ids(id));
    } else if !Finalised(s, call.id) {
      var closed := if call.id.Some? || s.turn.None? then call.id else s.turn.value.id;
      NamedOneOrTwo(closed, None);
      RememberedAppends(s, closed);
    }
  }

  /** One call keeps the memory, and the memory is what the call appended to it. */
  lemma StepKeeps(c: Config, s: Stream, call: Call)
    requires Inv(s)
    ensures MemoryGrew(s, call, Step(c, s, call).0)
  {
    match call
    case DeltaCall(_, _, _) => DeltaKeepsMemory(c, s, call);
    case FinaliseCall(_, _) => FinaliseKeepsMemory(c, s, call);
    case AbandonCall =>
      assert s.finalised + [] == s.finalised;
      if s.turn.Some? {
        NamedOneOrTwo(s.turn.value.id, None);
        RememberedAppends(s, s.turn.value.id);
      }
  }

  /** An open turn's id is never among the finalised ones, and those are the last eight of the log. */
  lemma {:induction false} RunInvariant(c: Config, calls: seq<Call>)
    ensures Inv(StateAfter(c, calls))
    ensures StateAfter(c, calls).finalised == LastOf(Log(c, calls), MAX_REMEMBERED_TURNS)
    decreases |calls|
  {
    if calls != [] {
      var n := |calls| - 1;
      RunInvariant(c, calls[..n]);
      StepKeeps(c, StateAfter(c, calls[..n]), calls[n]);
      LastOfTwice(Log(c, calls[..n]), NewlyFinalised(StateAfter(c, calls[..n]), calls[n]), MAX_REMEMBERED_TURNS);
    }
  }

  predicate Names(call: Call, x: string) {
    (call.DeltaCall? || call.FinaliseCall?) && call.id == Some(x)
  }

  /** After an id is finalised, a call naming it emits nothing until eight further ids have been. */
  lemma SilentUntilEightMore(c: Config, calls: seq<Call>, call: Call, p: nat)
    requires p < |Log(c, calls)| <= p + MAX_REMEMBERED_TURNS && Names(call, Log(c, calls)[p])
    ensures Step(c, StateAfter(c, calls), call) == (StateAfter(c, calls), Silent)
  {
    var log := Log(c, calls);
    RunInvariant(c, calls);
    if |log| > MAX_REMEMBERED_TURNS {
      assert LastOf(log, MAX_REMEMBERED_TURNS)[p - (|log| - MAX_REMEMBERED_TURNS)] == log[p];
    }
  }

  /** Nothing is ever emitted for a remembered id, and a final line records its id. */
  lemma OutputsAreOfOpenIds(c: Config, calls: seq<Call>, call: Call)
    ensures var (s, (t, out)) := (StateAfter(c, calls), Step(c, StateAfter(c, calls), call));
      && (out.Interim? ==> !Finalised(s, out.id) && t.turn.Some? && t.turn.value.id == out.id)
      && (out.Final? ==> !Finalised(s, out.id) && t.turn.None?)
      && (out.Final? && out.id.Some? ==> Finalised(t, out.id))
  {
    RunInvariant(c, calls);
    var s := StateAfter(c, calls);
    var (t, out) := Step(c, s, call);
    if out.Final? && out.id.Some? {
      RememberedAppends(s, out.id);
      if s.turn.Some? && call.FinaliseCall? && Different(s.turn.value, call.id) {
        var first := s.turn.value.id;
        RememberedAppends(s, first);
        RememberKeepsOrder(Remembered(s, first).finalised, out.id.value, MAX_REMEMBERED_TURNS);
      } else {
        RememberKeepsOrder(s.finalised, out.id.value, MAX_REMEMBERED_TURNS);
      }
    }
  }

  // ------------------------------------------------------------------
  // Inside one turn
  // ------------------------------------------------------------------

  /** The deltas the open turn has been given, the fragments it has emitted, and when. */
  datatype TurnLog = TurnLog(deltas: string, emitted: string, times: seq<int>)

  const NO_TURN := TurnLog("", "", [])

  /** A turn opened for `id` starts a log of its own. */
  function LogFor(s: Stream, log: TurnLog, id: Id): TurnLog {
    if s.turn.None? || Different(s.turn.value, id) then NO_TURN else log
  }

  function StepLog(c: Config, s: Stream, log: TurnLog, call: Call): TurnLog {
    match call
    case DeltaCall(id, delta, now) =>
      if delta == "" || Finalised(s, id) then log
      else
        Logged(LogFor(s, log, id), delta, Step(c, s, call).1, now)
    case _ => log
  }

  function LogAfter(c: Config, calls: seq<Call>): TurnLog {
    if calls == [] then NO_TURN
    else
      var n := |calls| - 1;
      StepLog(c, StateAfter(c, calls[..n]), LogAfter(c, calls[..n]), calls[n])
  }

  ghost predicate TurnInv(c: Config, t: Turn, log: TurnLog) {
    && t.text == Take(log.deltas, c.maxTurnChars)
    && log.emitted + t.pending == t.text
    && (log.times == [] ==> t.firstEmitAt.None?)
    && (log.times != [] ==> t.firstEmitAt == Some(log.times[0]) && t.lastEmitAt == log.times[|log.times| - 1])
    && (forall k :: 1 <= k < |log.times| ==>
      && log.times[k] - log.times[0] < c.interimWindowMs
      && log.times[k] - log.times[k - 1] >= c.interimMinIntervalMs)
  }

  lemma TakeGrows(a: string, b: string, n: nat)
    ensures |Take(a, n)| >= n ==> Take(a + b, n) == Take(a, n)
    ensures |Take(a, n)| < n ==> Take(a + b, n) == Take(a, n) + Take(b, n - |Take(a, n)|)
  {
  }

  lemma GrowthKeeps(c: Config, t: Turn, log: TurnLog, delta: string)
    requires TurnInv(c, t, log) && |t.text| < c.maxTurnChars
    ensures var accepted := Take(delta, c.maxTurnChars - |t.text|);
      TurnInv(c, t.(text := t.text + accepted, pending := t.pending + accepted), log.(deltas := log.deltas + delta))
  {
  }

  lemma EmissionKeeps(c: Config, t: Turn, log: TurnLog, now: int)
    requires TurnInv(c, t, log) && MayEmit(c, t, now)
    ensures TurnInv(c, EmittedTurn(t, now), log.(emitted := log.emitted + t.pending, times := log.times + [now]))
  {
  }

  function Logged(log: TurnLog, delta: string, out: Output, now: int): TurnLog {
    if out.Interim? then TurnLog(log.deltas + delta, log.emitted + out.fragment, log.times + [now])
    else log.(deltas := log.deltas + delta)
  }

  lemma AbsorbedKeeps(c: Config, turn: Turn, log: TurnLog, delta: string, now: int)
    requires TurnInv(c, turn, log)
    ensures var (t, out) := Absorbed(c, turn, delta, now); TurnInv(c, t, Logged(log, delta, out, now))
  {
    if |turn.text| < c.maxTurnChars {
      GrowthKeeps(c, turn, log, delta);
      var accepted := Take(delta, c.maxTurnChars - |turn.text|);
      var grown := turn.(text := turn.text + accepted, pending := turn.pending + accepted);
      if MayEmit(c, grown, now) {
        EmissionKeeps(c, grown, log.(deltas := log.deltas + delta), now);
      }
    } else {
      TakeGrows(log.deltas, delta, c.maxTurnChars);
    }
  }

  lemma OpenedKeeps(c: Config, s: Stream, log: TurnLog, id: Id)
    requires s.turn.Some? ==> TurnInv(c, s.turn.value, log)
    ensures TurnInv(c, Opened(s, id).turn.value, LogFor(s, log, id))
  {
  }

  lemma DeltaKeepsTurn(c: Config, s: Stream, log: TurnLog, id: Id, delta: string, now: int)
    requires s.turn.Some? ==> TurnInv(c, s.turn.value, log)
    ensures var t := AfterDelta(c, s, id, delta, now).0;
      t.turn.Some? ==> TurnInv(c, t.turn.value, StepLog(c, s, log, DeltaCall(id, delta, now)))
  {
    if delta != "" && !Finalised(s, id) {
      assert StepLog(c, s, log, DeltaCall(id, delta, now))
          == Logged(LogFor(s, log, id), delta, Absorbed(c, Opened(s, id).turn.value, delta, now).1, now);
      OpenedKeeps(c, s, log, id);
      AbsorbedKeeps(c, Opened(s, id).turn.value, LogFor(s, log, id), delta, now);
    }
  }

  /** The invariant of the open turn along every run. */
  lemma {:induction false} TurnInvariant(c: Config, calls: seq<Call>)
    ensures var t := StateAfter(c, calls).turn; t.Some? ==> TurnInv(c, t.value, LogAfter(c, calls))
    decreases |calls|
  {
    if calls != [] {
      var n := |calls| - 1;
      TurnInvariant(c, calls[..n]);
      if calls[n].DeltaCall? {
        DeltaKeepsTurn(c, StateAfter(c, calls[..n]), LogAfter(c, calls[..n]), calls[n].id, calls[n].delta, calls[n].now);
      }
    }
  }

  /** The fragments of a turn concatenate to a prefix of the capped concatenation of its deltas. */
  lemma InterimsArePrefix(c: Config, calls: seq<Call>)
    requires StateAfter(c, calls).turn.Some?
    ensures LogAfter(c, calls).emitted <= Take(LogAfter(c, calls).deltas, c.maxTurnChars)
    ensures StateAfter(c, calls).turn.value.text == Take(LogAfter(c, calls).deltas, c.maxTurnChars)
  {
    TurnInvariant(c, calls);
  }

  lemma {:induction false} Spacing(times: seq<int>, interval: nat, k: nat)
    requires k < |times| && forall i :: 1 <= i < |times| ==> times[i] - times[i - 1] >= interval
    ensures times[k] - times[0] >= k * interval
  {
    if k > 0 {
      Spacing(times, interval, k - 1);
    }
  }

  function Ceiling(w: int, d: nat): int
    requires d > 0
  {
    (w + d - 1) / d
  }

  lemma CeilingBound(n: nat, w: nat, d: nat)
    requires d > 0 && n * d < w
    ensures n < Ceiling(w, d)
  {
  }

  /** At most ceil(window / interval) fragments a turn, and at least one is always allowed. */
  lemma InterimCount(c: Config, calls: seq<Call>)
    requires StateAfter(c, calls).turn.Some? && c.interimMinIntervalMs > 0
    ensures var n := |LogAfter(c, calls).times|;
      n <= 1 || n <= Ceiling(c.interimWindowMs, c.interimMinIntervalMs)
  {
    TurnInvariant(c, calls);
    TimesCount(LogAfter(c, calls).times, c.interimWindowMs, c.interimMinIntervalMs);
  }

  lemma TimesCount(times: seq<int>, window: int, interval: nat)
    requires interval > 0
    requires forall k :: 1 <= k < |times| ==> times[k] - times[0] < window && times[k] - times[k - 1] >= interval
    ensures |times| <= 1 || |times| <= Ceiling(window, interval)
  {
    if |times| > 1 {
      Spacing(times, interval, |times| - 1);
      CeilingBound(|times| - 1, window, interval);
    }
  }

  lemma InterimCountByDefault(calls: seq<Call>)
    requires StateAfter(DEFAULTS, calls).turn.Some?
    ensures |LogAfter(DEFAULTS, calls).times| <= 6
  {
    InterimCount(DEFAULTS, calls);
  }

  // ------------------------------------------------------------------
  // One final line a turn
  // ------------------------------------------------------------------

  /** The call ends the turn that was open. */
  predicate Ends(s: Stream, call: Call)
    requires s.turn.Some?
  {
    match call
    case DeltaCall(id, delta, _) => delta != "" && !Finalised(s, id) && Different(s.turn.value, id)
    case FinaliseCall(id, _) => !Finalised(s, id)
    case AbandonCall => true
  }

  /**
   The documented promise that every turn with text ends in one final line holds except when
   the call that ends it names a different turn: then the open turn's text is dropped.
   */
  lemma EndsInOneFinalExactly(c: Config, s: Stream, call: Call)
    requires Inv(s) && s.turn.Some? && Ends(s, call) && Line(c, s.turn.value.text) != ""
    ensures var t := s.turn.value;
      var out := Step(c, s, call).1;
      var named := !call.AbandonCall? && Different(t, call.id);
      !named <==> out.Final? && (out.id == t.id || t.id.None?)
  {
    LineIsEmptyExactly(c, s.turn.value.text);
    if call.FinaliseCall? {
      var wire := Trim(if call.transcript.Some? then call.transcript.value else "");
      LineIsEmptyExactly(c, wire);
      TrimIsStable(if call.transcript.Some? then call.transcript.value else "");
    }
  }

  // ------------------------------------------------------------------
  // What a call emits, from the calls alone
  // ------------------------------------------------------------------

  function Emission(id: Id, line: string): Output {
    if line == "" then Silent else Final(id, line)
  }

  predicate BlankTranscript(transcript: Option<string>) {
    transcript.None? || Trim(transcript.value) == ""
  }

  /** A transcript with text is the line, whatever the turn has accumulated. */
  lemma TranscriptWins(c: Config, calls: seq<Call>, id: Id, text: string)
    requires Trim(text) != ""
    ensures var s := StateAfter(c, calls);
      var out := Step(c, s, FinaliseCall(id, Some(text))).1;
      if Finalised(s, id) || (s.turn.None? && id.None? && s.anonymous) then out == Silent
      else out == Emission(if id.None? && s.turn.Some? then s.turn.value.id else id, Trim(Take(Trim(text), c.maxTurnChars)))
  {
    TrimTwice(text);
  }

  /** Without one the line of the open turn is what its deltas add up to. */
  lemma DeltasAreTheLine(c: Config, calls: seq<Call>, call: Call)
    requires StateAfter(c, calls).turn.Some? && !call.DeltaCall?
    requires call.FinaliseCall? ==>
      BlankTranscript(call.transcript) && !Finalised(StateAfter(c, calls), call.id)
      && !Different(StateAfter(c, calls).turn.value, call.id)
    ensures var t := StateAfter(c, calls).turn.value;
      Step(c, StateAfter(c, calls), call).1
        == Emission(if call.FinaliseCall? && call.id.Some? then call.id else t.id,
          Trim(Take(Trim(Take(LogAfter(c, calls).deltas, c.maxTurnChars)), c.maxTurnChars)))
  {
    TurnInvariant(c, calls);
    assert Trim("") == "";
  }

  /** A call without text for another turn, or with no turn open, emits nothing, least of all the open turn's text. */
  lemma BlankForAnotherIsSilent(c: Config, calls: seq<Call>, id: Id, transcript: Option<string>)
    requires BlankTranscript(transcript)
    requires var turn := StateAfter(c, calls).turn; turn.None? || Different(turn.value, id)
    ensures Step(c, StateAfter(c, calls), FinaliseCall(id, transcript)).1 == Silent
  {
    assert Trim("") == "" && Take("", c.maxTurnChars) == "";
  }

  /**
   A delta goes out, with everything that still waits, exactly when the turn was not at its cap,
   something waits, and it is the turn's first fragment or inside the window and an interval
   after the one before.
   */
  lemma InterimExactly(c: Config, calls: seq<Call>, id: Id, delta: string, now: int)
    requires delta != "" && !Finalised(StateAfter(c, calls), id)
    ensures var s := StateAfter(c, calls);
      var log := LogFor(s, LogAfter(c, calls), id);
      var out := Step(c, s, DeltaCall(id, delta, now)).1;
      var text := Take(log.deltas + delta, c.maxTurnChars);
      var n := |log.times|;
      var due := n == 0 || (now - log.times[0] < c.interimWindowMs && now - log.times[n - 1] >= c.interimMinIntervalMs);
      && |log.emitted| <= |text|
      && out == if |Take(log.deltas, c.maxTurnChars)| < c.maxTurnChars && text != log.emitted && due
        then Interim(if s.turn.None? || Different(s.turn.value, id) || s.turn.value.id.None? then id else s.turn.value.id,
          text[|log.emitted|..])
        else Silent
  {
    var s := StateAfter(c, calls);
    TurnInvariant(c, calls);
    OpenedKeeps(c, s, LogAfter(c, calls), id);
    AbsorbedExactly(c, Opened(s, id).turn.value, LogFor(s, LogAfter(c, calls), id), delta, now);
  }

  lemma AbsorbedExactly(c: Config, t: Turn, log: TurnLog, delta: string, now: int)
    requires TurnInv(c, t, log) && delta != ""
    ensures var text := Take(log.deltas + delta, c.maxTurnChars);
      var n := |log.times|;
      var due := n == 0 || (now - log.times[0] < c.interimWindowMs && now - log.times[n - 1] >= c.interimMinIntervalMs);
      && |log.emitted| <= |text|
      && Absorbed(c, t, delta, now).1 == if |Take(log.deltas, c.maxTurnChars)| < c.maxTurnChars && text != log.emitted && due
        then Interim(t.id, text[|log.emitted|..]) else Silent
  {
    TakeGrows(log.deltas, delta, c.maxTurnChars);
    if |t.text| < c.maxTurnChars {
      var pending := t.pending + Take(delta, c.maxTurnChars - |t.text|);
      var text := Take(log.deltas + delta, c.maxTurnChars);
      assert text == log.emitted + pending;
    }
  }

  function Closings(c: Config, calls: seq<Call>): seq<Id> {
    if calls == [] then []
    else
      var n := |calls| - 1;
      Closings(c, calls[..n]) + NewlyClosed(StateAfter(c, calls[..n]), calls[n])
  }

  /** A nameless turn counts as closed exactly as long as it was the last one closed. */
  lemma {:induction false} NamelessExactly(c: Config, calls: seq<Call>)
    ensures var closings := Closings(c, calls);
      StateAfter(c, calls).anonymous <==> closings != [] && closings[|closings| - 1].None?
    decreases |calls|
  {
    if calls != [] {
      var n := |calls| - 1;
      NamelessExactly(c, calls[..n]);
      NamelessStep(c, StateAfter(c, calls[..n]), calls[n]);
    }
  }

  lemma NamelessStep(c: Config, s: Stream, call: Call)
    ensures var closed := NewlyClosed(s, call);
      Step(c, s, call).0.anonymous == if closed == [] then s.anonymous else closed[|closed| - 1].None?
  {
  }

  /** It does fail: a delta of a second response arriving first. */
  lemma TurnCanBeDropped()
    ensures var calls := [DeltaCall(Some("a"), "salom", 0), DeltaCall(Some("b"), "x", 1)];
      && StateAfter(DEFAULTS, calls[..1]).turn == Some(Turn(Some("a"), "salom", "", Some(0), 0))
      && Step(DEFAULTS, StateAfter(DEFAULTS, calls[..1]), calls[1]).1 == Interim(Some("b"), "x")
      && StateAfter(DEFAULTS, calls).finalised == ["a"]
  {
    var calls := [DeltaCall(Some("a"), "salom", 0), DeltaCall(Some("b"), "x", 1)];
    assert calls[..1][..0] == [] && calls[..2][..1] == calls[..1] && calls[..2] == calls;
    assert "" + "salom" == "salom" && "" + "x" == "x";
    assert Step(DEFAULTS, FRESH, calls[0]).0.turn == Some(Turn(Some("a"), "salom", "", Some(0), 0));
    assert StateAfter(DEFAULTS, calls[..1]) == Step(DEFAULTS, FRESH, calls[0]).0;
  }
}
