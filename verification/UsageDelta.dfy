/**
 Turning session-cumulative usage reports into per-message increments, until some counter goes
 down: from then on the account is taken to report per message and values pass through.
 */
module UsageDelta {

  /** prompt, completion, cached, input audio, input text, output audio, output text. */
  const USAGE_FIELDS := 7

  type Totals = t: seq<int> | |t| == USAGE_FIELDS witness EMPTY_USAGE

  const EMPTY_USAGE: seq<int> := [0, 0, 0, 0, 0, 0, 0]

  predicate WentDown(current: Totals, last: Totals) {
    exists f :: 0 <= f < USAGE_FIELDS && current[f] < last[f]
  }

  function Minus(current: Totals, last: Totals): Totals {
    seq(USAGE_FIELDS, f requires 0 <= f < USAGE_FIELDS => current[f] - last[f])
  }

  datatype State = State(lastUsage: Totals, perMessage: bool)

  const START := State(EMPTY_USAGE, false)

  function Resolved(s: State, current: Totals): (State, Totals) {
    if s.perMessage then (s, current)
    else if WentDown(current, s.lastUsage) then (State(EMPTY_USAGE, true), current)
    else (State(current, false), Minus(current, s.lastUsage))
  }

  class UsageTracker {
    var lastUsage: Totals
    var usageIsPerMessage: bool

    function Current(): State
      reads this
    {
      State(lastUsage, usageIsPerMessage)
    }

    constructor ()
      ensures Current() == START
    {
      lastUsage, usageIsPerMessage := EMPTY_USAGE, false;
    }

    method ResolveUsageDelta(current: Totals) returns (delta: Totals)
      modifies this
      ensures (Current(), delta) == Resolved(old(Current()), current)
    {
      if usageIsPerMessage {
        return current;
      }
      if WentDown(current, lastUsage) {
        usageIsPerMessage := true;
        lastUsage := EMPTY_USAGE;
        return current;
      }
      var fields: seq<int> := [];
      for f := 0 to USAGE_FIELDS
        invariant |fields| == f && forall g :: 0 <= g < f ==> fields[g] == current[g] - lastUsage[g]
      {
        fields := fields + [current[f] - lastUsage[f]];
      }
      assert fields == Minus(current, lastUsage);
      delta := fields;
      lastUsage := current;
    }
  }

  // ------------------------------------------------------------------
  // Runs
  // ------------------------------------------------------------------

  function After(reports: seq<Totals>): State {
    if reports == [] then START
    else Resolved(After(reports[..|reports| - 1]), reports[|reports| - 1]).0
  }

  function LastDelta(reports: seq<Totals>): Totals
    requires reports != []
  {
    Resolved(After(reports[..|reports| - 1]), reports[|reports| - 1]).1
  }

  /** What one counter's deltas have added up to. */
  function DeltaSum(reports: seq<Totals>, f: nat): int
    requires f < USAGE_FIELDS
  {
    if reports == [] then 0 else DeltaSum(reports[..|reports| - 1], f) + LastDelta(reports)[f]
  }

  function ReportSum(reports: seq<Totals>, f: nat): int
    requires f < USAGE_FIELDS
  {
    if reports == [] then 0 else ReportSum(reports[..|reports| - 1], f) + reports[|reports| - 1][f]
  }

  function Before(reports: seq<Totals>, i: nat): Totals
    requires i <= |reports|
  {
    if i == 0 then EMPTY_USAGE else reports[i - 1]
  }

  /** The first report in which any counter is below the report before it, or their number. */
  function FirstDecrease(reports: seq<Totals>): (d: nat)
    ensures d <= |reports|
  {
    if reports == [] then 0
    else
      var n := |reports| - 1;
      var d := FirstDecrease(reports[..n]);
      if d < n || WentDown(reports[n], Before(reports, n)) then d else n + 1
  }

  /** It is the first: none of the reports before it is below its predecessor, and it is. */
  lemma {:induction false} FirstDecreaseIsFirst(reports: seq<Totals>, i: nat)
    requires i < |reports|
    ensures i < FirstDecrease(reports) ==> forall f :: 0 <= f < USAGE_FIELDS ==> reports[i][f] >= Before(reports, i)[f]
    ensures i == FirstDecrease(reports) ==> exists f :: 0 <= f < USAGE_FIELDS && reports[i][f] < Before(reports, i)[f]
    decreases |reports|
  {
    var n := |reports| - 1;
    assert Before(reports[..n], n) == Before(reports, n);
    if i < n {
      FirstDecreaseIsFirst(reports[..n], i);
      assert Before(reports[..n], i) == Before(reports, i);
    }
  }

  lemma {:induction false} StateIs(reports: seq<Totals>)
    ensures After(reports) ==
      if FirstDecrease(reports) < |reports| then State(EMPTY_USAGE, true) else State(Before(reports, |reports|), false)
    decreases |reports|
  {
    if reports != [] {
      var n := |reports| - 1;
      StateIs(reports[..n]);
      assert Before(reports, n) == Before(reports[..n], n);
    }
  }

  ghost predicate NonNegative(reports: seq<Totals>) {
    forall i, f :: 0 <= i < |reports| && 0 <= f < USAGE_FIELDS ==> reports[i][f] >= 0
  }

  /** Every reported delta of a run of non-negative reports is non-negative. */
  lemma {:induction false} DeltaNonNegative(reports: seq<Totals>, f: nat)
    requires NonNegative(reports) && reports != [] && f < USAGE_FIELDS
    ensures LastDelta(reports)[f] >= 0
  {
    StateIs(reports[..|reports| - 1]);
  }

  /** A delta is a difference before the first decrease and the report itself from it on. */
  lemma DeltaIs(reports: seq<Totals>, f: nat)
    requires reports != [] && f < USAGE_FIELDS
    ensures var n := |reports| - 1;
      LastDelta(reports)[f] == reports[n][f] - if FirstDecrease(reports) <= n then 0 else Before(reports, n)[f]
  {
    var n := |reports| - 1;
    StateIs(reports[..n]);
    assert Before(reports, n) == Before(reports[..n], n);
  }

  lemma FirstDecreasePrefix(reports: seq<Totals>)
    requires reports != []
    ensures var n := |reports| - 1;
      FirstDecrease(reports[..n]) == if FirstDecrease(reports) <= n then FirstDecrease(reports) else n
  {
  }

  lemma DeltaSumStep(reports: seq<Totals>, f: nat)
    requires reports != [] && f < USAGE_FIELDS
    ensures var n := |reports| - 1;
      DeltaSum(reports, f) == DeltaSum(reports[..n], f) + reports[n][f]
        - if FirstDecrease(reports) <= n then 0 else Before(reports, n)[f]
  {
    DeltaIs(reports, f);
  }

  /** Up to the first decrease the deltas add up to the latest report. */
  lemma {:induction false} SumBeforeDecrease(reports: seq<Totals>, f: nat)
    requires f < USAGE_FIELDS && FirstDecrease(reports) == |reports|
    ensures DeltaSum(reports, f) == Before(reports, |reports|)[f]
    decreases |reports|
  {
    if reports != [] {
      var n := |reports| - 1;
      FirstDecreasePrefix(reports);
      SumBeforeDecrease(reports[..n], f);
      DeltaSumStep(reports, f);
      assert Before(reports[..n], n) == Before(reports, n);
    }
  }

  /**
   The deltas of a counter sum to the last report before the first decrease of any counter,
   plus every report from it on.
   */
  lemma {:induction false} DeltasTelescope(reports: seq<Totals>, f: nat)
    requires f < USAGE_FIELDS
    ensures var d := FirstDecrease(reports);
      DeltaSum(reports, f) == Before(reports, d)[f] + ReportSum(reports, f) - ReportSum(reports[..d], f)
    decreases |reports|
  {
    var d := FirstDecrease(reports);
    if d == |reports| {
      SumBeforeDecrease(reports, f);
      assert reports[..d] == reports;
    } else {
      var n := |reports| - 1;
      assert reports[..n + 1] == reports;
      FirstDecreasePrefix(reports);
      DeltasTelescope(reports[..n], f);
      DeltaSumStep(reports, f);
      PrefixSums(reports, n, d, f);
    }
  }

  lemma PrefixSums(reports: seq<Totals>, n: nat, d: nat, f: nat)
    requires d <= n < |reports| && f < USAGE_FIELDS
    ensures ReportSum(reports[..n][..d], f) == ReportSum(reports[..d], f)
    ensures ReportSum(reports[..n + 1], f) == ReportSum(reports[..n], f) + reports[n][f]
    ensures Before(reports[..n], d) == Before(reports, d)
  {
    assert reports[..n][..d] == reports[..d] && reports[..n + 1][..n] == reports[..n];
  }

  /** Some report has some counter strictly below that counter in the report before it. */
  ghost predicate Dropped(reports: seq<Totals>) {
    exists i, f :: 0 <= i < |reports| && 0 <= f < USAGE_FIELDS && reports[i][f] < Before(reports, i)[f]
  }

  /** Reports are taken to be per message exactly once that has happened; an unchanged counter is no drop. */
  lemma PerMessageExactly(reports: seq<Totals>)
    ensures After(reports).perMessage <==> Dropped(reports)
  {
    StateIs(reports);
    var d := FirstDecrease(reports);
    if d < |reports| {
      FirstDecreaseIsFirst(reports, d);
    } else if Dropped(reports) {
      var i, f :| 0 <= i < |reports| && 0 <= f < USAGE_FIELDS && reports[i][f] < Before(reports, i)[f];
      FirstDecreaseIsFirst(reports, i);
    }
  }

  /** The newest report is charged in full exactly from then on, and before that for what it adds. */
  lemma DeltaExactly(reports: seq<Totals>, f: nat)
    requires reports != [] && f < USAGE_FIELDS
    ensures var n := |reports| - 1;
      LastDelta(reports)[f] == reports[n][f] - if Dropped(reports) then 0 else Before(reports, n)[f]
  {
    DeltaIs(reports, f);
    StateIs(reports);
    PerMessageExactly(reports);
  }

  /** A run that never decreases sums to its last report. */
  lemma MonotoneRunSumsToLast(reports: seq<Totals>, f: nat)
    requires f < USAGE_FIELDS && reports != []
    requires forall i, k :: 0 <= i < |reports| && 0 <= k < USAGE_FIELDS ==> reports[i][k] >= Before(reports, i)[k]
    ensures DeltaSum(reports, f) == reports[|reports| - 1][f] && !After(reports).perMessage
  {
    if FirstDecrease(reports) < |reports| {
      FirstDecreaseIsFirst(reports, FirstDecrease(reports));
    }
    StateIs(reports);
    DeltasTelescope(reports, f);
    assert reports[..|reports|] == reports;
  }

  lemma {:induction false} LastAtMostSum(reports: seq<Totals>, d: nat, f: nat)
    requires NonNegative(reports) && d <= |reports| && f < USAGE_FIELDS
    ensures 0 <= Before(reports, d)[f] <= ReportSum(reports[..d], f)
    decreases d
  {
    if d > 0 {
      LastAtMostSum(reports, d - 1, f);
      assert reports[..d][..d - 1] == reports[..d - 1];
    }
  }

  /** No run of non-negative reports is charged more than the total of its reports. */
  lemma {:induction false} NeverMoreThanReported(reports: seq<Totals>, f: nat)
    requires NonNegative(reports) && f < USAGE_FIELDS
    ensures DeltaSum(reports, f) <= ReportSum(reports, f)
  {
    DeltasTelescope(reports, f);
    LastAtMostSum(reports, FirstDecrease(reports), f);
  }
}
