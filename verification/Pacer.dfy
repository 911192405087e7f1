/**
 The outbound pacer: one tick a 20 ms slot, the next slot scheduled from an absolute time, and
 a resynchronisation to now once the clock has fallen more than 100 ms behind.
 Times are integer milliseconds, passed in.
 */
module Pacer {
  import opened Options

  const FRAME_MS := 20
  const MAX_PACING_SLIP_MS := 100

  function NextSlot(slot: int, now: int): int {
    if now - slot > MAX_PACING_SLIP_MS then now + FRAME_MS else slot + FRAME_MS
  }

  /** One run of the timer callback: the slot it was armed for, when it ran, and when it rescheduled. */
  datatype Tick = Tick(slot: int, ranAt: int, rescheduledAt: int)

  /** A monotone clock and timers that never fire early. */
  ghost predicate Paced(ticks: seq<Tick>) {
    && (forall i :: 0 <= i < |ticks| ==> ticks[i].slot <= ticks[i].ranAt <= ticks[i].rescheduledAt)
    && (forall i :: 0 <= i < |ticks| - 1 ==>
      && ticks[i + 1].slot == NextSlot(ticks[i].slot, ticks[i].rescheduledAt)
      && ticks[i].rescheduledAt <= ticks[i + 1].ranAt)
  }

  lemma {:induction false} SlotsAdvance(ticks: seq<Tick>, i: nat, j: nat)
    requires Paced(ticks) && i <= j < |ticks|
    ensures ticks[j].slot >= ticks[i].slot + FRAME_MS * (j - i)
    decreases j
  {
    if i < j {
      SlotsAdvance(ticks, i, j - 1);
    }
  }

  /** Two ticks j - i apart are at least that many slots less one slip apart in time. */
  lemma TicksApart(ticks: seq<Tick>, i: nat, j: nat)
    requires Paced(ticks) && i <= j < |ticks|
    ensures ticks[j].ranAt - ticks[i].ranAt >= FRAME_MS * (j - i) - MAX_PACING_SLIP_MS
  {
    SlotsAdvance(ticks, i, j);
    if i < j {
      SlotsAdvance(ticks, i + 1, j);
    }
  }

  /** A lag of more than the slip limit is forgiven whole, one frame ahead of the clock; a smaller one is made up for. */
  lemma LagExactly(slot: int, now: int)
    ensures now - slot > 100 ==> NextSlot(slot, now) - now == 20
    ensures now - slot <= 100 ==> NextSlot(slot, now) - slot == 20 && now - NextSlot(slot, now) <= 80
  {
  }

  /** Any window of T ms holds at most floor(T / 20) + 6 ticks. */
  lemma RateBound(ticks: seq<Tick>, i: nat, count: nat, from: int, window: nat)
    requires Paced(ticks) && i + count <= |ticks|
    requires forall k :: i <= k < i + count ==> from <= ticks[k].ranAt <= from + window
    ensures count <= window / FRAME_MS + 6
  {
    if count > 0 {
      TicksApart(ticks, i, i + count - 1);
    }
  }

  /** The bound is reached for every T: a tick run exactly 100 ms late is followed by five at once. */
  lemma RateBoundTight(window: nat) returns (ticks: seq<Tick>)
    ensures Paced(ticks) && |ticks| == window / FRAME_MS + 6
    ensures forall k :: 0 <= k < |ticks| ==>
      MAX_PACING_SLIP_MS <= ticks[k].ranAt <= MAX_PACING_SLIP_MS + window
  {
    ticks := seq(window / FRAME_MS + 6, k requires 0 <= k < window / FRAME_MS + 6 =>
      var at := if FRAME_MS * k <= MAX_PACING_SLIP_MS then MAX_PACING_SLIP_MS else FRAME_MS * k;
      Tick(FRAME_MS * k, at, at));
  }

  /** The n-th slot is the first plus 20 n, for as long and only as long as the lag never exceeds 100 ms. */
  lemma {:induction false} NoDriftExactly(ticks: seq<Tick>, n: nat)
    requires Paced(ticks) && n < |ticks|
    ensures (forall m :: 0 <= m <= n ==> ticks[m].slot == ticks[0].slot + FRAME_MS * m)
       <==> (forall i :: 0 <= i < n ==> ticks[i].rescheduledAt - ticks[i].slot <= MAX_PACING_SLIP_MS)
    decreases n
  {
    if n > 0 {
      NoDriftExactly(ticks, n - 1);
      assert ticks[n].slot == NextSlot(ticks[n - 1].slot, ticks[n - 1].rescheduledAt);
      if forall m :: 0 <= m <= n ==> ticks[m].slot == ticks[0].slot + FRAME_MS * m {
        assert ticks[n - 1].slot == ticks[0].slot + FRAME_MS * (n - 1);
      }
    }
  }

  class PacingClock {
    /** When the armed timer is due; none while stopped. */
    var paceTimer: Option<int>
    /** The slot of the next tick, NextSlot of the one before. */
    var nextSlotAt: int
    var closed: bool
    /** The ticks since pacing was last started. */
    ghost var ticks: seq<Tick>

    ghost predicate Valid()
      reads this
    {
      && Paced(ticks)
      && (closed ==> paceTimer.None?)
      && (paceTimer.Some? ==>
        && nextSlotAt <= paceTimer.value
        && (ticks != [] ==>
          var last := ticks[|ticks| - 1];
          nextSlotAt == NextSlot(last.slot, last.rescheduledAt) && last.rescheduledAt <= paceTimer.value))
    }

    constructor ()
      ensures Valid() && ticks == [] && !closed
    {
      paceTimer, nextSlotAt, closed, ticks := None, 0, false, [];
    }

    method StartPacing(now: int)
      requires Valid()
      modifies this
      ensures Valid()
      ensures old(paceTimer).None? && !closed ==> ticks == [] && nextSlotAt == now + FRAME_MS && paceTimer == Some(now + FRAME_MS)
      ensures !(old(paceTimer).None? && !closed) ==> ticks == old(ticks) && nextSlotAt == old(nextSlotAt)
    {
      if paceTimer.Some? || closed {
        return;
      }
      nextSlotAt := now + FRAME_MS;
      ticks := [];
      ScheduleNextSlot(now);
    }

    method ScheduleNextSlot(now: int)
      modifies this`paceTimer
      ensures closed ==> paceTimer == old(paceTimer)
      ensures !closed ==> paceTimer == Some(if nextSlotAt > now then nextSlotAt else now)
    {
      if closed {
        return;
      }
      var delay := if nextSlotAt - now > 0 then nextSlotAt - now else 0;
      paceTimer := Some(now + delay);
    }

    /** The armed timer runs at `ranAt`, not early; the frame has been emitted by `now`. */
    method TimerFires(ranAt: int, now: int)
      requires Valid() && paceTimer.Some? && paceTimer.value <= ranAt <= now
      modifies this
      ensures Valid() && ticks == old(ticks) + [Tick(old(nextSlotAt), ranAt, now)]
      ensures nextSlotAt == NextSlot(old(nextSlotAt), now)
      ensures paceTimer == Some(if nextSlotAt > now then nextSlotAt else now)
    {
      paceTimer := None;
      ticks := ticks + [Tick(nextSlotAt, ranAt, now)];
      nextSlotAt := if now - nextSlotAt > MAX_PACING_SLIP_MS then now + FRAME_MS else nextSlotAt + FRAME_MS;
      ScheduleNextSlot(now);
    }

    method StopPacing()
      requires Paced(ticks)
      modifies this`paceTimer
      ensures Valid() && paceTimer.None?
    {
      paceTimer := None;
    }

    method Close()
      requires Valid()
      modifies this`paceTimer, this`closed
      ensures Valid() && closed
    {
      closed := true;
      StopPacing();
    }
  }
}
