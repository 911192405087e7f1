/**
 Matching AMI responses and list events to the actions in flight by their ActionID, with
 timeouts, failed writes and disconnects ending an action early.
 */
module AmiActions {
  import opened Options
  import opened BoundedMemory
  import opened Text
  import opened AmiStream

  datatype PendingAction = PendingAction(action: string, events: seq<Packet>, response: Option<Packet>)

  datatype Failure = ActionError(packet: Packet) | TimedOut | WriteFailed | ConnectionClosed

  datatype Result = Resolved(response: Packet, events: seq<Packet>) | Rejected(why: Failure)

  // ------------------------------------------------------------------
  // Reading a packet
  // ------------------------------------------------------------------

  function Lower(s: string): string {
    seq(|s|, i requires 0 <= i < |s| => if 'A' <= s[i] <= 'Z' then (s[i] as int + 32) as char else s[i])
  }

  predicate Mentions(s: string, word: string) {
    IndexOf(Lower(s), word) != -1
  }

  predicate EndsWith(s: string, suffix: string) {
    |suffix| <= |s| && s[|s| - |suffix|..] == suffix
  }

  function Field(p: Packet, key: string): string {
    if key in p then p[key] else ""
  }

  predicate StartsList(p: Packet) {
    Lower(Field(p, "EventList")) == "start" || Mentions(Field(p, "Message"), "follow")
  }

  predicate EndsList(p: Packet) {
    Lower(Field(p, "EventList")) == "complete" || EndsWith(Field(p, "Event"), "Complete")
  }

  /** What one packet does to the action it names: the action as it goes on, or its result. */
  datatype Verdict = GoesOn(a: PendingAction) | Ends(r: Result)

  function Success(a: PendingAction): Result {
    Resolved(if a.response.Some? then a.response.value else map[], a.events)
  }

  function Applied(a: PendingAction, p: Packet): Verdict {
    if "Response" in p then
      var answered := a.(response := Some(p));
      if Mentions(p["Response"], "error") then Ends(Rejected(ActionError(p)))
      else if StartsList(p) then GoesOn(answered)
      else Ends(Success(answered))
    else if Field(p, "Event") != "" then
      if EndsList(p) then Ends(Success(a)) else GoesOn(a.(events := a.events + [p]))
    else GoesOn(a)
  }

  // ------------------------------------------------------------------
  // All actions together
  // ------------------------------------------------------------------

  datatype Input =
    | Dispatch(id: string, action: string)
    | PacketIn(p: Packet)
    | TimesOut(id: string)
    | WriteFails(id: string)
    | SocketCloses

  datatype Client = Client(pending: map<string, PendingAction>, results: map<string, Result>, unsolicited: seq<Packet>)

  const IDLE := Client(map[], map[], [])

  /** Settling an action already settled changes nothing. */
  function Settled(c: Client, id: string, r: Result): Client {
    if id !in c.pending then c else c.(pending := c.pending - {id}, results := c.results[id := r])
  }

  function AllClosed(ids: set<string>): map<string, Result> {
    map id | id in ids :: Rejected(ConnectionClosed)
  }

  function ActionIdOf(p: Packet): string {
    Field(p, "ActionID")
  }

  function Next(c: Client, i: Input): Client {
    match i
    case Dispatch(id, action) => c.(pending := c.pending[id := PendingAction(action, [], None)])
    case TimesOut(id) => Settled(c, id, Rejected(TimedOut))
    case WriteFails(id) => Settled(c, id, Rejected(WriteFailed))
    case SocketCloses =>
      c.(pending := map[], results := c.results + AllClosed(c.pending.Keys))
    case PacketIn(p) =>
      var id := ActionIdOf(p);
      if id != "" && id in c.pending then
        match Applied(c.pending[id], p) {
          case GoesOn(a) => c.(pending := c.pending[id := a])
          case Ends(r) => Settled(c, id, r)
        }
      else if Field(p, "Event") != "" then c.(unsolicited := c.unsolicited + [p])
      else c
  }

  function Run(inputs: seq<Input>): Client {
    if inputs == [] then IDLE else Next(Run(inputs[..|inputs| - 1]), inputs[|inputs| - 1])
  }

  function Dispatched(inputs: seq<Input>): seq<string> {
    if inputs == [] then []
    else
      var last := inputs[|inputs| - 1];
      Dispatched(inputs[..|inputs| - 1]) + if last.Dispatch? then [last.id] else []
  }

  /** Ids are numbered by a counter, so none is empty and none is used twice. */
  ghost predicate FreshIds(inputs: seq<Input>) {
    Distinct(Dispatched(inputs)) && "" !in Dispatched(inputs)
  }

  // ------------------------------------------------------------------
  // One action on its own
  // ------------------------------------------------------------------

  datatype Progress = Unknown | Waiting(a: PendingAction) | Done(r: Result)

  function View(c: Client, id: string): Progress {
    if id in c.pending then Waiting(c.pending[id])
    else if id in c.results then Done(c.results[id])
    else Unknown
  }

  predicate Concerns(i: Input, id: string) {
    match i
    case Dispatch(other, _) => other == id
    case PacketIn(p) => ActionIdOf(p) == id
    case TimesOut(other) => other == id
    case WriteFails(other) => other == id
    case SocketCloses => true
  }

  function Relevant(inputs: seq<Input>, id: string): seq<Input> {
    if inputs == [] then []
    else
      var last := inputs[|inputs| - 1];
      Relevant(inputs[..|inputs| - 1], id) + if Concerns(last, id) then [last] else []
  }

  /** The life of one action, seen without the others. */
  function NextProgress(v: Progress, i: Input): Progress {
    match v
    case Done(_) => v
    case Unknown => if i.Dispatch? then Waiting(PendingAction(i.action, [], None)) else v
    case Waiting(a) =>
      match i {
        case Dispatch(_, _) => v
        case TimesOut(_) => Done(Rejected(TimedOut))
        case WriteFails(_) => Done(Rejected(WriteFailed))
        case SocketCloses => Done(Rejected(ConnectionClosed))
        case PacketIn(p) =>
          match Applied(a, p) {
            case GoesOn(b) => Waiting(b)
            case Ends(r) => Done(r)
          }
      }
  }

  function Life(inputs: seq<Input>): Progress {
    if inputs == [] then Unknown else NextProgress(Life(inputs[..|inputs| - 1]), inputs[|inputs| - 1])
  }

  ghost predicate Separate(c: Client) {
    c.pending.Keys !! c.results.Keys
  }

  lemma {:induction false} KnownWereDispatched(inputs: seq<Input>)
    requires FreshIds(inputs)
    ensures Separate(Run(inputs))
    ensures forall id :: id in Run(inputs).pending || id in Run(inputs).results ==> id in Dispatched(inputs)
    decreases |inputs|
  {
    if inputs != [] {
      var n := |inputs| - 1;
      FreshPrefix(inputs);
      KnownWereDispatched(inputs[..n]);
    }
  }

  /** Dropping the last input keeps ids fresh, and what it dispatches is new. */
  lemma FreshPrefix(inputs: seq<Input>)
    requires inputs != [] && FreshIds(inputs)
    ensures FreshIds(inputs[..|inputs| - 1])
    ensures var last := inputs[|inputs| - 1];
      last.Dispatch? ==> last.id !in Dispatched(inputs[..|inputs| - 1]) && last.id != ""
  {
    var before, last := Dispatched(inputs[..|inputs| - 1]), inputs[|inputs| - 1];
    var all := Dispatched(inputs);
    assert all[..|before|] == before;
    if last.Dispatch? {
      assert all[|before|] == last.id;
    }
  }

  lemma NextIsLocal(c: Client, i: Input, id: string)
    requires Separate(c) && id != ""
    requires i.Dispatch? ==> i.id !in c.pending && i.id !in c.results
    ensures View(Next(c, i), id) == if Concerns(i, id) then NextProgress(View(c, id), i) else View(c, id)
  {
  }

  /** Under every interleaving an action's progress is that of its own inputs alone. */
  lemma {:induction false} ActionsAreIndependent(inputs: seq<Input>, id: string)
    requires FreshIds(inputs) && id != ""
    ensures View(Run(inputs), id) == Life(Relevant(inputs, id))
    decreases |inputs|
  {
    if inputs != [] {
      var n := |inputs| - 1;
      FreshPrefix(inputs);
      KnownWereDispatched(inputs[..n]);
      ActionsAreIndependent(inputs[..n], id);
      NextIsLocal(Run(inputs[..n]), inputs[n], id);
      var before := Relevant(inputs[..n], id);
      assert (before + [inputs[n]])[..|before|] == before;
      assert before + [] == before;
    }
  }

  /** Two runs that differ only in what happens to other actions give this one the same result. */
  lemma SameResult(xs: seq<Input>, ys: seq<Input>, id: string)
    requires FreshIds(xs) && FreshIds(ys) && id != "" && Relevant(xs, id) == Relevant(ys, id)
    ensures View(Run(xs), id) == View(Run(ys), id)
  {
    ActionsAreIndependent(xs, id);
    ActionsAreIndependent(ys, id);
  }

  lemma NextKeepsResult(c: Client, i: Input, id: string)
    requires id in c.results && id !in c.pending && (i.Dispatch? ==> i.id != id)
    ensures id in Next(c, i).results && Next(c, i).results[id] == c.results[id] && id !in Next(c, i).pending
  {
  }

  /** An action settles at most once: its first result is its only one. */
  lemma {:induction false} SettlesOnce(xs: seq<Input>, ys: seq<Input>, id: string)
    requires FreshIds(xs + ys) && FreshIds(xs) && id in Run(xs).results
    ensures id in Run(xs + ys).results && Run(xs + ys).results[id] == Run(xs).results[id]
    ensures id !in Run(xs + ys).pending
    decreases |ys|
  {
    if ys == [] {
      assert xs + ys == xs;
      KnownWereDispatched(xs);
    } else {
      var n := |ys| - 1;
      assert xs + ys == (xs + ys[..n]) + [ys[n]];
      FreshPrefix(xs + ys);
      SettlesOnce(xs, ys[..n], id);
      SettledIdIsNotReused(xs + ys[..n], ys[n], id);
    }
  }

  lemma SettledIdIsNotReused(inputs: seq<Input>, i: Input, id: string)
    requires FreshIds(inputs + [i]) && id in Run(inputs).results
    ensures var c := Run(inputs + [i]);
      id in c.results && c.results[id] == Run(inputs).results[id] && id !in c.pending
  {
    var all := inputs + [i];
    assert all[..|inputs|] == inputs;
    FreshPrefix(all);
    KnownWereDispatched(inputs);
    NextKeepsResult(Run(inputs), i, id);
  }

  // ------------------------------------------------------------------
  // Which result an action gets, from its packets alone
  // ------------------------------------------------------------------

  /** The same letter, in whatever case it is written; the word is in lower case. */
  predicate SameLetter(c: char, lower: char) {
    c == lower || ('A' <= c <= 'Z' && c as int + 32 == lower as int)
  }

  /** The word stands at i, in any letter case. */
  ghost predicate WordAt(s: string, i: nat, word: string) {
    i + |word| <= |s| && forall j :: 0 <= j < |word| ==> SameLetter(s[i + j], word[j])
  }

  ghost predicate LowerCase(word: string) {
    forall j :: 0 <= j < |word| ==> 'a' <= word[j] <= 'z'
  }

  lemma WordAtLower(s: string, i: nat, word: string)
    requires LowerCase(word)
    ensures At(Lower(s), i, word) <==> WordAt(s, i, word)
  {
    var t := Lower(s);
    assert forall k :: 0 <= k < |s| ==>
      t[k] == if 'A' <= s[k] <= 'Z' then (s[k] as int + 32) as char else s[k];
    if At(t, i, word) {
      assert forall j :: 0 <= j < |word| ==> t[i..i + |word|][j] == word[j];
    }
    if WordAt(s, i, word) {
      assert t[i..i + |word|] == word;
    }
  }

  /** A field mentions a word exactly when the word stands somewhere in it, in any letter case. */
  lemma MentionsExactly(s: string, word: string)
    requires LowerCase(word) && word != ""
    ensures Mentions(s, word) <==> exists i: nat :: WordAt(s, i, word)
  {
    if Mentions(s, word) {
      IndexOfIsFirst(Lower(s), word, 0);
      WordAtLower(s, IndexOf(Lower(s), word), word);
    }
    if i: nat :| WordAt(s, i, word) {
      WordAtLower(s, i, word);
      IndexOfIsFirst(Lower(s), word, i);
    }
  }

  /** The whole field is the word, in any letter case. */
  lemma IsWordExactly(s: string, word: string)
    requires LowerCase(word)
    ensures Lower(s) == word <==> |s| == |word| && WordAt(s, 0, word)
  {
    WordAtLower(s, 0, word);
  }

  ghost predicate Errs(p: Packet) {
    "Response" in p && exists i: nat :: WordAt(p["Response"], i, "error")
  }

  /** The packet announces a list of events. */
  ghost predicate Announces(p: Packet) {
    || ("EventList" in p && |p["EventList"]| == 5 && WordAt(p["EventList"], 0, "start"))
    || ("Message" in p && exists i: nat :: WordAt(p["Message"], i, "follow"))
  }

  ghost predicate IsEvent(p: Packet) {
    "Response" !in p && "Event" in p && p["Event"] != ""
  }

  /** It is the last event of a list. */
  ghost predicate Terminates(p: Packet) {
    && IsEvent(p)
    && (("EventList" in p && |p["EventList"]| == 8 && WordAt(p["EventList"], 0, "complete"))
        || exists head :: head + "Complete" == p["Event"])
  }

  /** The action goes on after it. */
  ghost predicate Continues(p: Packet) {
    if "Response" in p then !Errs(p) && Announces(p) else !Terminates(p)
  }

  /** The events among some packets, in order. */
  ghost function Events(ps: seq<Packet>): seq<Packet> {
    if ps == [] then []
    else Events(ps[..|ps| - 1]) + if IsEvent(ps[|ps| - 1]) then [ps[|ps| - 1]] else []
  }

  /** The latest response among them. */
  function Response(ps: seq<Packet>): Option<Packet> {
    if ps == [] then None
    else if "Response" in ps[|ps| - 1] then Some(ps[|ps| - 1]) else Response(ps[..|ps| - 1])
  }

  function Received(ps: seq<Packet>): seq<Input> {
    seq(|ps|, i requires 0 <= i < |ps| => PacketIn(ps[i]))
  }

  /** What the packet before which all continue settles the action with. */
  ghost function Outcome(ps: seq<Packet>, last: Packet): Result {
    if Errs(last) then Rejected(ActionError(last))
    else if "Response" in last then Resolved(last, Events(ps))
    else Resolved(if Response(ps).Some? then Response(ps).value else map[], Events(ps))
  }

  lemma KindsExactly(p: Packet)
    ensures "Response" in p ==> (Mentions(p["Response"], "error") <==> Errs(p))
    ensures StartsList(p) <==> Announces(p)
    ensures IsEvent(p) ==> (EndsList(p) <==> Terminates(p))
  {
    if "Response" in p {
      MentionsExactly(p["Response"], "error");
    }
    StartsExactly(p);
    EndsExactly(p);
  }

  lemma StartsExactly(p: Packet)
    ensures StartsList(p) <==> Announces(p)
  {
    IsWordExactly(Field(p, "EventList"), "start");
    MentionsExactly(Field(p, "Message"), "follow");
    assert forall i: nat :: !WordAt("", i, "follow");
  }

  lemma EndsExactly(p: Packet)
    ensures IsEvent(p) ==> (EndsList(p) <==> Terminates(p))
  {
    IsWordExactly(Field(p, "EventList"), "complete");
    var event := Field(p, "Event");
    if EndsWith(event, "Complete") {
      assert event[..|event| - 8] + "Complete" == event;
    }
  }

  lemma AppliedExactly(a: PendingAction, p: Packet)
    ensures Applied(a, p) == if Continues(p) then
        GoesOn(PendingAction(a.action, a.events + (if IsEvent(p) then [p] else []), if "Response" in p then Some(p) else a.response))
      else if Errs(p) then Ends(Rejected(ActionError(p)))
      else if "Response" in p then Ends(Resolved(p, a.events))
      else Ends(Resolved(if a.response.Some? then a.response.value else map[], a.events))
  {
    KindsExactly(p);
    assert a.events + [] == a.events;
  }

  /** While its packets continue, the action waits with the events and the latest response so far. */
  lemma {:induction false} WaitsThrough(id: string, action: string, ps: seq<Packet>)
    requires forall i :: 0 <= i < |ps| ==> Continues(ps[i])
    ensures Life([Dispatch(id, action)] + Received(ps)) == Waiting(PendingAction(action, Events(ps), Response(ps)))
    decreases |ps|
  {
    var inputs := [Dispatch(id, action)] + Received(ps);
    if ps == [] {
      assert inputs == [Dispatch(id, action)];
      assert Life([]) == Unknown;
    } else {
      var n := |ps| - 1;
      WaitsThrough(id, action, ps[..n]);
      assert inputs[..|inputs| - 1] == [Dispatch(id, action)] + Received(ps[..n]);
      assert inputs[|inputs| - 1] == PacketIn(ps[n]);
      AppliedExactly(PendingAction(action, Events(ps[..n]), Response(ps[..n])), ps[n]);
    }
  }

  lemma {:induction false} LifeKeepsResult(before: seq<Input>, more: seq<Input>)
    requires Life(before).Done?
    ensures Life(before + more) == Life(before)
    decreases |more|
  {
    if more == [] {
      assert before + more == before;
    } else {
      var n := |more| - 1;
      assert (before + more)[..|before + more| - 1] == before + more[..n];
      LifeKeepsResult(before, more[..n]);
    }
  }

  /**
   Under every interleaving: after packets that all continue, the first one that does not settles
   the action. An error, in any letter case, rejects it; another response that announces no list
   resolves it with itself; a terminator resolves it with the latest response. The events are
   exactly those that came before, in order.
   */
  lemma PacketSettles(inputs: seq<Input>, id: string, action: string, ps: seq<Packet>, last: Packet, rest: seq<Input>)
    requires FreshIds(inputs) && id != ""
    requires Relevant(inputs, id) == [Dispatch(id, action)] + Received(ps) + [PacketIn(last)] + rest
    requires (forall i :: 0 <= i < |ps| ==> Continues(ps[i])) && !Continues(last)
    ensures View(Run(inputs), id) == Done(Outcome(ps, last))
  {
    var before := [Dispatch(id, action)] + Received(ps);
    ActionsAreIndependent(inputs, id);
    WaitsThrough(id, action, ps);
    AppliedExactly(PendingAction(action, Events(ps), Response(ps)), last);
    assert (before + [PacketIn(last)])[..|before|] == before;
    LifeKeepsResult(before + [PacketIn(last)], rest);
  }

  /** A timeout, a failed write or a closed connection that comes before rejects it accordingly. */
  lemma CutShort(inputs: seq<Input>, id: string, action: string, ps: seq<Packet>, end: Input, rest: seq<Input>)
    requires FreshIds(inputs) && id != "" && (end.TimesOut? || end.WriteFails? || end.SocketCloses?)
    requires Relevant(inputs, id) == [Dispatch(id, action)] + Received(ps) + [end] + rest
    requires forall i :: 0 <= i < |ps| ==> Continues(ps[i])
    ensures View(Run(inputs), id) == Done(Rejected(match end
      case TimesOut(_) => TimedOut
      case WriteFails(_) => WriteFailed
      case _ => ConnectionClosed))
  {
    var before := [Dispatch(id, action)] + Received(ps);
    ActionsAreIndependent(inputs, id);
    WaitsThrough(id, action, ps);
    assert (before + [end])[..|before|] == before;
    LifeKeepsResult(before + [end], rest);
  }

  /** Until then it waits. */
  lemma StillWaits(inputs: seq<Input>, id: string, action: string, ps: seq<Packet>)
    requires FreshIds(inputs) && id != ""
    requires Relevant(inputs, id) == [Dispatch(id, action)] + Received(ps)
    requires forall i :: 0 <= i < |ps| ==> Continues(ps[i])
    ensures View(Run(inputs), id) == Waiting(PendingAction(action, Events(ps), Response(ps)))
  {
    ActionsAreIndependent(inputs, id);
    WaitsThrough(id, action, ps);
  }

  /** A list: its response, k events and the terminator resolve the action with exactly those events. */
  lemma ListResolves(response: Packet, events: seq<Packet>, terminator: Packet)
    requires "Response" in response && forall i :: 0 <= i < |events| ==> IsEvent(events[i])
    requires !Continues(terminator) && "Response" !in terminator
    ensures Outcome([response] + events, terminator) == Resolved(response, events)
  {
    ListCollects(response, events);
  }

  lemma {:induction false} ListCollects(response: Packet, events: seq<Packet>)
    requires "Response" in response && forall i :: 0 <= i < |events| ==> IsEvent(events[i])
    ensures Events([response] + events) == events && Response([response] + events) == Some(response)
    decreases |events|
  {
    var all := [response] + events;
    if events == [] {
      assert all == [response] && all[..0] == [];
    } else {
      var n := |events| - 1;
      assert all[..|all| - 1] == [response] + events[..n];
      ListCollects(response, events[..n]);
    }
  }

  /** The events no action claims: those naming none, or one that is not waiting when they come. */
  function Unclaimed(inputs: seq<Input>): seq<Packet> {
    if inputs == [] then []
    else
      var before, last := inputs[..|inputs| - 1], inputs[|inputs| - 1];
      Unclaimed(before)
      + if last.PacketIn? && Field(last.p, "Event") != ""
          && (ActionIdOf(last.p) == "" || !Life(Relevant(before, ActionIdOf(last.p))).Waiting?) then [last.p] else []
  }

  /** The listeners get exactly those, in order. */
  lemma {:induction false} ListenersGetUnclaimed(inputs: seq<Input>)
    requires FreshIds(inputs)
    ensures Run(inputs).unsolicited == Unclaimed(inputs)
    decreases |inputs|
  {
    if inputs != [] {
      var before, last := inputs[..|inputs| - 1], inputs[|inputs| - 1];
      FreshPrefix(inputs);
      ListenersGetUnclaimed(before);
      if last.PacketIn? && ActionIdOf(last.p) != "" {
        ActionsAreIndependent(before, ActionIdOf(last.p));
      }
      assert Unclaimed(before) + [] == Unclaimed(before);
    }
  }

  /** What an action is sent with is the id its answers are matched by. */
  lemma DispatchNamesAction(name: string, actionId: string, params: seq<Param>)
    requires Trim(actionId) == actionId && Unbroken(actionId)
    requires forall i :: 0 <= i < |params| ==> params[i].key != "ActionID"
    ensures ActionIdOf(Fields(map[], AllParams(name, actionId, params))) == actionId
  {
    SanitisedIsUnbroken(actionId);
    var first := Collected(map[], "Action", Trim(Sanitised(name)));
    var second := Collected(first, "ActionID", Trim(Sanitised(actionId)));
    assert AllParams(name, actionId, params)[1..][1..] == params;
    NoOtherFields(second, params, "ActionID");
  }

  lemma ClosingOneMore(before: map<string, Result>, all: set<string>, left: set<string>, id: string)
    requires id in left && left <= all
    ensures before + AllClosed(all - (left - {id})) == (before + AllClosed(all - left))[id := Rejected(ConnectionClosed)]
  {
  }

  lemma RemovedKeys<K, V>(m: map<K, V>, k: K)
    ensures (m - {k}).Keys == m.Keys - {k}
  {
  }

  lemma NoKeys<K, V>(m: map<K, V>)
    requires m.Keys == {}
    ensures m == map[]
  {
  }

  // ------------------------------------------------------------------
  // The client
  // ------------------------------------------------------------------

  class AmiClient {
    var pending: map<string, PendingAction>
    /** The promises already settled. */
    var results: map<string, Result>
    /** Events passed to the listeners. */
    var unsolicited: seq<Packet>

    function State(): Client
      reads this
    {
      Client(pending, results, unsolicited)
    }

    constructor ()
      ensures State() == IDLE
    {
      pending, results, unsolicited := map[], map[], [];
    }

    method DispatchAction(id: string, action: string)
      modifies this`pending
      ensures State() == Next(old(State()), Dispatch(id, action))
    {
      pending := pending[id := PendingAction(action, [], None)];
    }

    method Settle(id: string, r: Result)
      modifies this`pending, this`results
      ensures State() == Settled(old(State()), id, r)
    {
      if id !in pending {
        return;
      }
      pending := pending - {id};
      results := results[id := r];
    }

    method HandlePacket(p: Packet)
      modifies this
      ensures State() == Next(old(State()), PacketIn(p))
    {
      var id := ActionIdOf(p);
      if id != "" && id in pending {
        ApplyToPending(id, p);
        return;
      }
      if Field(p, "Event") != "" {
        unsolicited := unsolicited + [p];
      }
    }

    method ApplyToPending(id: string, p: Packet)
      requires id in pending
      modifies this`pending, this`results
      ensures Applied(old(pending)[id], p).GoesOn? ==>
        State() == old(State()).(pending := old(pending)[id := Applied(old(pending)[id], p).a])
      ensures Applied(old(pending)[id], p).Ends? ==>
        State() == Settled(old(State()), id, Applied(old(pending)[id], p).r)
    {
      if "Response" in p {
        pending := pending[id := pending[id].(response := Some(p))];
        if Mentions(p["Response"], "error") {
          SettlePending(id, Rejected(ActionError(p)));
          return;
        }
        if !StartsList(p) {
          SettlePending(id, Success(pending[id]));
        }
        return;
      }
      if Field(p, "Event") != "" {
        if EndsList(p) {
          SettlePending(id, Success(pending[id]));
          return;
        }
        pending := pending[id := pending[id].(events := pending[id].events + [p])];
      }
    }

    method SettlePending(id: string, r: Result)
      requires id in pending
      modifies this`pending, this`results
      ensures pending == old(pending) - {id} && results == old(results)[id := r]
    {
      Settle(id, r);
    }

    method TimeOut(id: string)
      modifies this`pending, this`results
      ensures State() == Next(old(State()), TimesOut(id))
    {
      Settle(id, Rejected(TimedOut));
    }

    method FailWrite(id: string)
      modifies this`pending, this`results
      ensures State() == Next(old(State()), WriteFails(id))
    {
      Settle(id, Rejected(WriteFailed));
    }

    /** A dropped connection settles everything in flight. */
    method FailPending()
      modifies this`pending, this`results
      ensures State() == Next(old(State()), SocketCloses)
    {
      ghost var before, all := results, pending.Keys;
      assert before + AllClosed(all - all) == before;
      var left := pending.Keys;
      while left != {}
        invariant left == pending.Keys && left <= all
        invariant results == before + AllClosed(all - left)
      {
        var id :| id in left;
        ClosingOneMore(before, all, left, id);
        RemovedKeys(pending, id);
        SettlePending(id, Rejected(ConnectionClosed));
        left := left - {id};
      }
      assert all - {} == all;
      NoKeys(pending);
    }
  }
}
