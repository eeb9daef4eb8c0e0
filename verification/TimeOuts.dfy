/**
 Deadlines computed from modular tick values: `xTaskDelayUntil` and `xTaskCheckForTimeOut`.
 */
module TimeOuts {
  import opened Rings
  import opened Ticks
  import opened Scheduler
  import opened SchedulerTime
  import opened SchedulerRuns

  // ----- xTaskDelayUntil -----

  /** The decision whether the next wake time still lies ahead. */
  predicate ShouldDelay(previous: nat, increment: nat, tick: nat) {
    var wake := Plus(previous, increment);
    if tick < previous then wake < previous && wake > tick
    else wake < previous || wake > tick
  }

  /**
   For a reference time `p` at most one turn old, the call blocks exactly if the next period
   has not begun, and for exactly the ticks that are left.
   */
  lemma DelayUntilExact(p: nat, now: nat, increment: nat)
    requires p <= now < p + M && 0 < increment < M
    ensures ShouldDelay(p % M, increment, now % M) <==> p + increment > now
    ensures Plus(p % M, increment) == (p + increment) % M
    ensures p + increment > now ==>
              Minus(Plus(p % M, increment), now % M) == p + increment - now && 1 <= p + increment - now < M
  {
    Advance(p, increment);
    Advance(p, now - p);
    if p + increment > now {
      Elapsed(now, p + increment);
      Advance(now, p + increment - now);
    }
  }

  /** The reference after `n` calls. */
  function References(previous: nat, increment: nat, n: nat): nat {
    if n == 0 then previous else Plus(References(previous, increment, n - 1), increment)
  }

  /** The reference never drifts, whether or not the calls blocked. */
  lemma {:induction false} ReferencesDoNotDrift(p: nat, increment: nat, n: nat)
    requires increment < M
    ensures References(p % M, increment, n) == (p + n * increment) % M
  {
    if n > 0 {
      ReferencesDoNotDrift(p, increment, n - 1);
      Advance(p + (n - 1) * increment, increment);
      assert p + n * increment == p + (n - 1) * increment + increment;
    }
  }

  /** The block a call enters: the ticks from now to the next wake time, not indefinite. */
  function UntilBlock(previous: nat, increment: nat, tick: nat): Step {
    BlockCurrent(Minus(Plus(previous, increment), tick), false, false)
  }

  /**
   A periodic task whose reference stands for the absolute time `p` and that calls at time
   `now` sleeps until exactly `p + increment`, if that time lies ahead.
   */
  lemma PeriodIsExact(s: Sched, now: nat, p: nat, increment: nat, block: Step)
    requires ListsOk(s) && SchedOk(s) && At(s, now) && p <= now < p + M && 0 < increment < M
    requires ShouldDelay(p % M, increment, s.tick) && block == UntilBlock(p % M, increment, s.tick)
    requires Enabled(s, block)
    ensures block.ticks + now == p + increment && !block.onEvent && !block.indefinitely
    ensures SleepsUntil(Next(s, block), now, s.current, p + increment)
  {
    hide ListsOk, SchedOk, ShouldDelay, SleepsUntil, Next, Enabled;
    DelayUntilExact(p, now, increment);
    BlockSleeps(s, now, block);
  }

  /** Such a call: the task that runs when the scheduler starts has period one. */
  lemma PeriodFromBoot(idle: Task)
    ensures var s, block := Boot(idle), UntilBlock(0, 1, Boot(idle).tick);
            && ListsOk(s) && SchedOk(s) && At(s, 0) && ShouldDelay(0 % M, 1, s.tick) && Enabled(s, block)
            && SleepsUntil(Next(s, block), 0, idle, 1)
  {
    hide ListsOk, SchedOk, SleepsUntil, Next;
    BootOk(idle);
    BootRuns(idle);
    DivModUnique(0, 0);
    DelayUntilExact(0, 0, 1);
    PeriodIsExact(Boot(idle), 0, 0, 1, UntilBlock(0, 1, Boot(idle).tick));
  }

  // ----- xTaskCheckForTimeOut -----

  /** `TimeOut_t`: overflow count and tick value at a starting point. */
  datatype TimeOut = TimeOut(overflows: nat, entering: nat)

  /** `vTaskInternalSetTimeOutState`. */
  function Start(tick: nat, overflows: nat): TimeOut { TimeOut(overflows, tick) }

  datatype Check = Check(expired: bool, timeOut: TimeOut, ticksToWait: nat)

  /** `xTaskCheckForTimeOut` when the delay was not aborted. */
  function CheckForTimeOut(t: TimeOut, ticksToWait: nat, tick: nat, overflows: nat): Check {
    var elapsed := Minus(tick, t.entering);
    if ticksToWait == MAX_DELAY then Check(false, t, ticksToWait)
    else if overflows != t.overflows && tick >= t.entering then Check(true, t, 0)
    else if elapsed < ticksToWait then Check(false, Start(tick, overflows), ticksToWait - elapsed)
    else Check(true, t, 0)
  }

  /** The time-out structure was filled in at absolute time `from`. */
  predicate StartedAt(t: TimeOut, from: nat) { t == Start(from % M, from / M) }

  function CheckAt(t: TimeOut, ticksToWait: nat, now: nat): Check {
    CheckForTimeOut(t, ticksToWait, now % M, now / M)
  }

  /**
   A finite wait is reported expired exactly if that many ticks have passed, given at most one
   overflow since the last check; otherwise the remaining wait shrinks by the elapsed time.
   */
  lemma CheckIsExact(t: TimeOut, w: nat, from: nat, now: nat)
    requires StartedAt(t, from) && from <= now && w < MAX_DELAY && now / M <= from / M + 1
    ensures var c := CheckAt(t, w, now);
            && (c.expired <==> now - from >= w)
            && (!c.expired ==> StartedAt(c.timeOut, now) && c.ticksToWait == w - (now - from))
            && (c.expired ==> c.ticksToWait == 0)
  {
    Elapsed(from, now);
    if now - from < M {
      WrapSeen(from, now);
    } else {
      OneTurnLater(from, now);
    }
  }

  lemma OneTurnLater(from: nat, now: nat)
    requires now >= from + M && now / M <= from / M + 1
    ensures now / M == from / M + 1 && now % M >= from % M
  {
    Div(from);
    Div(now);
    Monotone(from + M, now);
    DivModUnique(from / M + 1, from % M);
  }

  /**
   Without the bound on overflows the report is right exactly if less than a full turn has
   passed, or the tick value is not below the starting one, or the wait is over even modulo `M`.
   */
  lemma CheckIsRightExactly(t: TimeOut, w: nat, from: nat, now: nat)
    requires StartedAt(t, from) && from <= now && w < MAX_DELAY
    ensures (CheckAt(t, w, now).expired <==> now - from >= w)
       <==> (now - from < M || now % M >= from % M || Minus(now % M, from % M) >= w)
  {
    Elapsed(from, now);
    if now - from < M {
      WrapSeen(from, now);
    } else {
      Monotone(from + M, now);
      ModShift(from, 1);
      DivModUnique(from / M + 1, from % M);
      Div(from);
    }
  }

  /** The condition can fail: a wait of two ticks, looked at a turn and a tick after it began, is still running. */
  lemma LateCheckIsWrong()
    requires M > 3
    ensures var t := Start(M - 1, 0);
            StartedAt(t, M - 1) && !CheckAt(t, 2, 2 * M).expired && CheckAt(t, 2, 2 * M).ticksToWait == 1
  {
    DivModUnique(0, M - 1);
    DivModUnique(2, 0);
    assert 2 * M + 0 == 2 * M;
    ModShift(1 - M, 1);
    DivModUnique(0, 1);
  }

  /** The checks a blocking call makes at successive times, until the first expiry. */
  function Retries(t: TimeOut, w: nat, times: seq<nat>): Check
    decreases |times|
  {
    if times == [] then Check(false, t, w)
    else
      var c := CheckAt(t, w, times[0]);
      if c.expired then c else Retries(c.timeOut, c.ticksToWait, times[1..])
  }

  /** Each sample follows the one before it with at most one overflow between. */
  predicate Samples(from: nat, times: seq<nat>)
    decreases |times|
  {
    times == [] || (from <= times[0] && times[0] / M <= from / M + 1 && Samples(times[0], times[1..]))
  }

  /**
   Over any number of retries nothing of the wait is lost or gained: what remains and what has
   elapsed add up to the original wait, and the call reports expiry as soon as the wait is over.
   */
  lemma {:induction false} RetriesAddUp(t: TimeOut, w: nat, from: nat, times: seq<nat>)
    requires StartedAt(t, from) && w < MAX_DELAY && Samples(from, times)
    ensures var c := Retries(t, w, times);
            if c.expired then exists i :: 0 <= i < |times| && times[i] - from >= w
            else c.ticksToWait + ((if times == [] then from else times[|times| - 1]) - from) == w
                 && forall i :: 0 <= i < |times| ==> times[i] - from < w
    decreases |times|
  {
    if times != [] {
      CheckIsExact(t, w, from, times[0]);
      var c := CheckAt(t, w, times[0]);
      if !c.expired {
        RetriesAddUp(c.timeOut, c.ticksToWait, times[0], times[1..]);
        assert forall i :: 0 <= i < |times| - 1 ==> times[1..][i] == times[i + 1];
        assert times[|times| - 1] == (if times[1..] == [] then times[0] else times[1..][|times[1..]| - 1]);
      }
    }
  }

  /** An indefinite wait never expires, however often and however late it is looked at. */
  lemma {:induction false} IndefiniteNeverExpires(t: TimeOut, times: seq<nat>)
    ensures Retries(t, MAX_DELAY, times) == Check(false, t, MAX_DELAY)
    decreases |times|
  {
    if times != [] {
      IndefiniteNeverExpires(t, times[1..]);
    }
  }

  /** It is the only one: any other wait can be seen to expire. */
  lemma OnlyIndefiniteNeverExpires(t: TimeOut, w: nat, from: nat)
    requires StartedAt(t, from) && w < M
    ensures (forall times :: !Retries(t, w, times).expired) <==> w == MAX_DELAY
  {
    if w == MAX_DELAY {
      forall times ensures !Retries(t, w, times).expired {
        IndefiniteNeverExpires(t, times);
      }
    } else {
      WrapSeen(from, from + w);
      CheckIsExact(t, w, from, from + w);
      assert Retries(t, w, [from + w]).expired;
    }
  }
}
