/**
 Waking, parking, re-prioritising and selecting tasks: the operations of `tasks.c` that other
 parts of the kernel call, each with what it does to the sleeping tasks and to the invariant.
 */
module SchedulerMoves {
  import opened Rings
  import opened Priorities
  import opened Scheduler
  import opened SchedulerTime
  import opened SchedulerSteps

  ghost predicate SameTime(s: Sched, r: Sched) {
    r.tick == s.tick && r.overflows == s.overflows && r.pendedTicks == s.pendedTicks
  }

  /** At time `now`, `r` is consistent and differs from `s` in `t` only; the clock stands still. */
  ghost predicate Touched(s: Sched, now: nat, t: Task, r: Sched) {
    && SchedOk(r) && SameTime(s, r) && r.tcb.Keys == s.tcb.Keys
    && (Wakes(r, now) == Wakes(s, now) || Wakes(r, now) == WithoutOwner(Wakes(s, now), t))
    && (forall u :: u in s.tcb && u != t ==> r.tcb[u] == s.tcb[u])
  }

  // ----- waking -----

  lemma WakeOk(s: Sched, t: Task, now: nat)
    requires ListsOk(s) && SchedOk(s) && t in s.tcb
    ensures Touched(s, now, t, Wake(s, t))
    ensures Wakes(Wake(s, t), now) == WithoutOwner(Wakes(s, now), t)
    ensures Wake(s, t).tcb == s.tcb[t := s.tcb[t].(state := Ready(s.tcb[t].prio.current), event := NoEvent)]
    ensures Wake(s, t).tcb == s.tcb[t := Woken(s.tcb[t])] && SameClock(s, Wake(s, t))
  {
    hide ListsOk, PendingOk, NextOk, Above, Wake, Wakes, WithoutOwner;
    WakeKeeps(s, t);
    WakePending(s, t);
    WakeWakes(s, t, now);
  }

  /** A task that is readied waits its turn behind the others of its priority; nobody else's turn changes. */
  lemma WakeOrder(s: Sched, t: Task)
    requires ListsOk(s) && t in s.tcb && !s.tcb[t].state.Ready?
    ensures var r, p := Wake(s, t), s.tcb[t].prio.current;
            && |s.ready| == |r.ready| == MAX_PRIORITIES && p < MAX_PRIORITIES && JoinsBack(s.ready[p], r.ready[p], t)
            && forall q :: 0 <= q < MAX_PRIORITIES && q != p ==> r.ready[q] == s.ready[q]
  {
    UnlistKeeps(s, t);
    var u := Unlist(s, t);
    UneventKeeps(u, t);
    AddReadyOrder(Unevent(u, t), t);
    assert u.ready == s.ready && |s.ready| == MAX_PRIORITIES;
    hide ListsOk, JoinsBack;
  }

  /** Hold `t`, whose event item is free, on the pending-ready list. */
  function Pend(s: Sched, t: Task): Sched
    requires t in s.tcb
  {
    s.(pending := s.pending + [t], tcb := s.tcb[t := s.tcb[t].(event := PendingReady)])
  }

  lemma PendOk(s: Sched, t: Task, now: nat)
    requires ListsOk(s) && SchedOk(s) && t in s.tcb && s.tcb[t].event != PendingReady && s.depth > 0
    ensures Touched(s, now, t, Pend(s, t)) && Wakes(Pend(s, t), now) == Wakes(s, now)
    ensures Pend(s, t).tcb == s.tcb[t := s.tcb[t].(event := PendingReady)] && SameClock(s, Pend(s, t))
  {
    var r := Pend(s, t);
    hide ListsOk, Above, WithoutOwner;
    RetagKeeps(s, r, t, s.tcb[t].(event := PendingReady));
    NoDupInsert(s.pending, |s.pending|, t);
    assert s.pending[..|s.pending|] + [t] + s.pending[|s.pending|..] == r.pending;
  }

  predicate Outranks(s: Sched, t: Task)
    requires t in s.tcb && s.current in s.tcb
  {
    s.tcb[t].prio.current > s.tcb[s.current].prio.current
  }

  /** `xTaskRemoveFromEventList` for the task `t` at the head of an event list. */
  function EventWake(s: Sched, t: Task): Sched
    requires ListsOk(s) && t in s.tcb
  {
    var r := if s.depth == 0 then Wake(s, t) else Pend(s, t);
    r.(yieldPending := s.yieldPending || Outranks(s, t))
  }

  /** `vTaskRemoveFromUnorderedEventList`: called with the scheduler suspended, the task is readied at once. */
  function UnorderedWake(s: Sched, t: Task): Sched
    requires ListsOk(s) && t in s.tcb
  {
    Wake(s, t).(yieldPending := s.yieldPending || Outranks(s, t))
  }

  /** `eTaskGetState` says blocked: sleeping, or parked while waiting for an event. */
  predicate IsBlocked(s: Sched, t: Task)
    requires t in s.tcb
  {
    t != s.current && (s.tcb[t].state == Delayed || (s.tcb[t].state == Suspended && s.tcb[t].event != NoEvent))
  }

  /** `xTaskAbortDelay`, between suspending and resuming the scheduler. */
  function AbortDelay(s: Sched, t: Task): Sched
    requires ListsOk(s) && t in s.tcb
  {
    if !IsBlocked(s, t) then s
    else
      var x := s.tcb[t].(delayAborted := s.tcb[t].delayAborted || s.tcb[t].event != NoEvent);
      RetagKeeps(s, s.(tcb := s.tcb[t := x]), t, x);
      Wake(s.(tcb := s.tcb[t := x]), t).(yieldPending := s.yieldPending || Outranks(s, t))
  }

  /** `prvTaskIsTaskSuspended`. */
  predicate IsSuspended(s: Sched, t: Task)
    requires t in s.tcb
  {
    s.tcb[t].state == Suspended && s.tcb[t].event == NoEvent
  }

  /** `vTaskResume`. */
  function ResumeTask(s: Sched, t: Task): Sched
    requires ListsOk(s) && t in s.tcb
  {
    if t != s.current && IsSuspended(s, t) then Wake(s, t) else s
  }

  /** Whether `vTaskResume` asks for a context switch. */
  predicate ResumeAsks(s: Sched, t: Task)
    requires t in s.tcb && s.current in s.tcb
  {
    t != s.current && IsSuspended(s, t) && s.tcb[t].prio.current >= s.tcb[s.current].prio.current
  }

  /** `xTaskResumeFromISR`. */
  function ResumeFromIsr(s: Sched, t: Task): Sched
    requires ListsOk(s) && t in s.tcb
  {
    if !IsSuspended(s, t) then s
    else if s.depth == 0 then
      Wake(s, t).(yieldPending := s.yieldPending || s.tcb[t].prio.current >= s.tcb[s.current].prio.current)
    else Pend(s, t)
  }

  /** `vTaskSuspend`. */
  function SuspendTask(s: Sched, t: Task): Sched
    requires ListsOk(s) && t in s.tcb
  {
    UnlistSame(s, t);
    var s1 := Park(Unevent(Unlist(s, t), t), t);
    s1.(nextUnblock := HeadOrMax(s1.delayed))
  }

  lemma YieldTouched(s: Sched, now: nat, t: Task, r: Sched, y: bool)
    requires Touched(s, now, t, r)
    ensures Touched(s, now, t, r.(yieldPending := y))
  {
    YieldKeeps(r, y);
    assert Wakes(r.(yieldPending := y), now) == Wakes(r, now);
    hide SchedOk, WakesFrom, WithoutOwner;
  }

  lemma Untouched(s: Sched, now: nat, t: Task)
    requires SchedOk(s)
    ensures Touched(s, now, t, s)
  {
  }

  /** The task is readied, or held on the pending-ready list with its state item where it was. */
  lemma EventWakeOk(s: Sched, t: Task, now: nat)
    requires ListsOk(s) && SchedOk(s) && t in s.tcb && s.current in s.tcb && s.tcb[t].event == Waiting
    ensures Touched(s, now, t, EventWake(s, t)) && SameClockButYield(s, EventWake(s, t))
    ensures EventWake(s, t).tcb == s.tcb[t := if s.depth == 0 then Woken(s.tcb[t]) else s.tcb[t].(event := PendingReady)]
    ensures EventWake(s, t).yieldPending == (s.yieldPending || Outranks(s, t))
  {
    hide ListsOk, SchedOk, Touched, Wake, Pend, Wakes;
    if s.depth == 0 {
      WakeOk(s, t, now);
      YieldTouched(s, now, t, Wake(s, t), s.yieldPending || Outranks(s, t));
    } else {
      PendOk(s, t, now);
      YieldTouched(s, now, t, Pend(s, t), s.yieldPending || Outranks(s, t));
    }
  }

  /** The task is readied at once. */
  lemma UnorderedWakeOk(s: Sched, t: Task, now: nat)
    requires ListsOk(s) && SchedOk(s) && t in s.tcb && s.current in s.tcb
    ensures Touched(s, now, t, UnorderedWake(s, t)) && SameClockButYield(s, UnorderedWake(s, t))
    ensures UnorderedWake(s, t).tcb == s.tcb[t := Woken(s.tcb[t])]
    ensures UnorderedWake(s, t).yieldPending == (s.yieldPending || Outranks(s, t))
  {
    hide ListsOk, SchedOk, Touched, Wake, Wakes;
    WakeOk(s, t, now);
    YieldTouched(s, now, t, Wake(s, t), s.yieldPending || Outranks(s, t));
  }

  /** A blocked task is readied, and told of it if it waited for an event; others are left alone. */
  lemma AbortDelayOk(s: Sched, t: Task, now: nat)
    requires ListsOk(s) && SchedOk(s) && t in s.tcb && s.current in s.tcb
    ensures Touched(s, now, t, AbortDelay(s, t)) && SameClockButYield(s, AbortDelay(s, t))
    ensures t == s.current || s.tcb[t].state.Ready? || s.tcb[t].state.Nowhere? ==> AbortDelay(s, t) == s
    ensures t != s.current && s.tcb[t].state == Suspended && s.tcb[t].event == NoEvent ==> AbortDelay(s, t) == s
    ensures (t != s.current
             && (s.tcb[t].state == Delayed || (s.tcb[t].state == Suspended && s.tcb[t].event != NoEvent))) ==>
              var told := s.tcb[t].delayAborted || s.tcb[t].event != NoEvent;
              && AbortDelay(s, t).tcb == s.tcb[t := Woken(s.tcb[t]).(delayAborted := told)]
              && AbortDelay(s, t).yieldPending == (s.yieldPending || Outranks(s, t))
  {
    hide ListsOk, SchedOk, Touched, Wake, Wakes;
    if IsBlocked(s, t) {
      var x := s.tcb[t].(delayAborted := s.tcb[t].delayAborted || s.tcb[t].event != NoEvent);
      var s1 := s.(tcb := s.tcb[t := x]);
      RetagOk(s, t, x);
      RetagKeeps(s, s1, t, x);
      WakeOk(s1, t, now);
      YieldTouched(s1, now, t, Wake(s1, t), s.yieldPending || Outranks(s, t));
      TouchedThrough(s, s1, now, t, AbortDelay(s, t));
    } else {
      Untouched(s, now, t);
    }
  }

  /** A change to the fields of `t` that no list depends on can come first. */
  lemma TouchedThrough(s: Sched, m: Sched, now: nat, t: Task, r: Sched)
    requires t in s.tcb && t in m.tcb && m.tcb == s.tcb[t := m.tcb[t]] && SameTime(s, m)
        && m.delayed == s.delayed && m.overflow == s.overflow
    requires Touched(m, now, t, r)
    ensures Touched(s, now, t, r)
  {
    hide SchedOk, WakesFrom, WithoutOwner;
  }

  /** A task that is truly suspended is readied; others, and the running one, are left alone. */
  lemma ResumeTaskOk(s: Sched, t: Task, now: nat)
    requires ListsOk(s) && SchedOk(s) && t in s.tcb
    ensures Touched(s, now, t, ResumeTask(s, t)) && SameClock(s, ResumeTask(s, t))
    ensures if t != s.current && s.tcb[t].state == Suspended && s.tcb[t].event == NoEvent
            then ResumeTask(s, t).tcb == s.tcb[t := Woken(s.tcb[t])]
            else ResumeTask(s, t) == s
    ensures s.current in s.tcb ==>
              (ResumeAsks(s, t) <==> !s.tcb[t].state.Ready? && ResumeTask(s, t).tcb[t].state.Ready?
                                     && s.tcb[t].prio.current >= s.tcb[s.current].prio.current)
  {
    hide ListsOk, SchedOk, Touched, Wake, Wakes;
    WakeOk(s, t, now);
    Untouched(s, now, t);
  }

  /** A task that is truly suspended is readied, or held on the pending-ready list until the scheduler resumes. */
  lemma ResumeFromIsrOk(s: Sched, t: Task, now: nat)
    requires ListsOk(s) && SchedOk(s) && t in s.tcb && s.current in s.tcb
    ensures Touched(s, now, t, ResumeFromIsr(s, t)) && SameClockButYield(s, ResumeFromIsr(s, t))
    ensures if s.tcb[t].state == Suspended && s.tcb[t].event == NoEvent then
              ResumeFromIsr(s, t).tcb
                == s.tcb[t := if s.depth == 0 then Woken(s.tcb[t]) else s.tcb[t].(event := PendingReady)]
            else ResumeFromIsr(s, t) == s
    ensures ResumeFromIsr(s, t).yieldPending <==>
            || s.yieldPending
            || (!s.tcb[t].state.Ready? && ResumeFromIsr(s, t).tcb[t].state.Ready?
                && s.tcb[t].prio.current >= s.tcb[s.current].prio.current)
  {
    hide ListsOk, SchedOk, Touched, Wake, Wakes, Pend;
    if IsSuspended(s, t) {
      if s.depth == 0 {
        WakeOk(s, t, now);
        YieldTouched(s, now, t, Wake(s, t), ResumeFromIsr(s, t).yieldPending);
      } else {
        PendOk(s, t, now);
      }
    } else {
      Untouched(s, now, t);
    }
  }

  /** The task ends on the suspended list, waits for no event, and the cached unblock time is exact. */
  lemma SuspendTaskOk(s: Sched, t: Task, now: nat)
    requires ListsOk(s) && SchedOk(s) && t in s.tcb
    ensures Touched(s, now, t, SuspendTask(s, t)) && SameClock(s, SuspendTask(s, t))
    ensures SuspendTask(s, t).tcb == s.tcb[t := s.tcb[t].(state := Suspended, event := NoEvent)]
    ensures t in SuspendTask(s, t).suspended
    ensures SuspendTask(s, t).nextUnblock == HeadOrMax(SuspendTask(s, t).delayed)
  {
    hide ListsOk, SchedOk, Unlist, Unevent, Park, Wakes, WithoutOwner;
    UnlistOk(s, t);
    UnlistWakes(s, t, now);
    UnlistSame(s, t);
    ParkAfter(Unlist(s, t), t, now);
  }

  lemma ParkAfter(s: Sched, t: Task, now: nat)
    requires ListsOk(s) && SchedOk(s) && t in s.tcb && s.tcb[t].state == Nowhere
    ensures var p := Park(Unevent(s, t), t);
            var r := p.(nextUnblock := HeadOrMax(p.delayed));
            && SchedOk(r) && SameClock(s, r) && Wakes(r, now) == Wakes(s, now)
            && r.tcb == s.tcb[t := s.tcb[t].(state := Suspended, event := NoEvent)]
            && t in r.suspended && r.nextUnblock == HeadOrMax(r.delayed)
  {
    hide ListsOk, SchedOk, WakesFrom;
    UneventOk(s, t);
    ParkKeeps(Unevent(s, t), t);
    NextRefreshed(Park(Unevent(s, t), t));
  }

  lemma UneventOk(s: Sched, t: Task)
    requires ListsOk(s) && SchedOk(s) && t in s.tcb
    ensures SchedOk(Unevent(s, t))
  {
    hide ListsOk, PendingOk, Above;
    UneventKeeps(s, t);
  }

  lemma NextRefreshed(s: Sched)
    requires SchedOk(s)
    ensures SchedOk(s.(nextUnblock := HeadOrMax(s.delayed)))
  {
    var r := s.(nextUnblock := HeadOrMax(s.delayed));
    RetagKeeps(s, r, s.current, s.tcb[s.current]);
    HeadBelow(r);
  }

  // ----- priorities -----

  /** Give `t` the priorities `x`; a task on its ready list moves to the one for its new priority. */
  function SetPrio(s: Sched, t: Task, x: Prio): Sched
    requires ListsOk(s) && t in s.tcb && x.current < MAX_PRIORITIES && x.base < MAX_PRIORITIES
  {
    if s.tcb[t].state == Ready(s.tcb[t].prio.current) then Requeue(s, t, x) else Retune(s, t, x)
  }

  function Requeue(s: Sched, t: Task, x: Prio): Sched
    requires ListsOk(s) && t in s.tcb && x.current < MAX_PRIORITIES && x.base < MAX_PRIORITIES
  {
    UnlistKeeps(s, t);
    RetuneKeeps(Unlist(s, t), t, x);
    AddReady(Retune(Unlist(s, t), t, x), t)
  }

  function Retune(s: Sched, t: Task, x: Prio): Sched
    requires t in s.tcb
  {
    s.(tcb := s.tcb[t := s.tcb[t].(prio := x)])
  }

  lemma RetuneKeeps(s: Sched, t: Task, x: Prio)
    requires ListsOk(s) && t in s.tcb && x.current < MAX_PRIORITIES && x.base < MAX_PRIORITIES
    requires s.tcb[t].state.Ready? ==> x.current == s.tcb[t].prio.current
    ensures ListsOk(Retune(s, t, x))
  {
    hide ReadyOk, DelaysOk, SuspendedOk;
    var r, y := Retune(s, t, x), s.tcb[t].(prio := x);
    RetuneReady(s, t, x);
    DelaysFrame(s, r, t, y);
    SuspendedFrame(s, r, t, y);
  }

  lemma RetuneReady(s: Sched, t: Task, x: Prio)
    requires ReadyOk(s) && t in s.tcb && (s.tcb[t].state.Ready? ==> x.current == s.tcb[t].prio.current)
    ensures ReadyOk(Retune(s, t, x))
  {
    var r := Retune(s, t, x);
    forall u | u in r.tcb && r.tcb[u].state.Ready? ensures InReadyList(r, u) {
      assert InReadyList(s, u);
    }
  }

  lemma SetPrioKeeps(s: Sched, t: Task, x: Prio)
    requires ListsOk(s) && t in s.tcb && x.current < MAX_PRIORITIES && x.base < MAX_PRIORITIES
    ensures var r := SetPrio(s, t, x);
            ListsOk(r) && r.delayed == s.delayed && r.overflow == s.overflow && r.pending == s.pending
                && r.nextUnblock == s.nextUnblock
    ensures var r := SetPrio(s, t, x); SameClock(s, r) && r.tcb == s.tcb[t := Reprioritised(s.tcb[t], x)]
  {
    StateIsOwnReady(s, t);
    hide ListsOk, Requeue;
    if s.tcb[t].state == Ready(s.tcb[t].prio.current) {
      RequeueKeeps(s, t, x);
    } else {
      RetuneKeeps(s, t, x);
    }
  }

  lemma RequeueKeeps(s: Sched, t: Task, x: Prio)
    requires ListsOk(s) && t in s.tcb && x.current < MAX_PRIORITIES && x.base < MAX_PRIORITIES
    requires s.tcb[t].state.Ready?
    ensures var r := Requeue(s, t, x);
            ListsOk(r) && r.delayed == s.delayed && r.overflow == s.overflow && r.pending == s.pending
                && r.nextUnblock == s.nextUnblock
    ensures var r := Requeue(s, t, x);
            SameClock(s, r) && r.tcb == s.tcb[t := s.tcb[t].(prio := x, state := Ready(x.current))]
  {
    hide ListsOk, Unlist, AddReady;
    UnlistReadySame(s, t);
    UnlistKeeps(s, t);
    RetuneKeeps(Unlist(s, t), t, x);
    AddReadyKeeps(Retune(Unlist(s, t), t, x), t);
    AddReadySame(Retune(Unlist(s, t), t, x), t);
  }

  lemma UnlistReadySame(s: Sched, t: Task)
    requires ListsOk(s) && t in s.tcb && s.tcb[t].state.Ready?
    ensures var r := Unlist(s, t);
            && r.delayed == s.delayed && r.overflow == s.overflow && r.pending == s.pending
                && r.nextUnblock == s.nextUnblock
            && SameClock(s, r)
  {
    hide ListsOk;
  }

  lemma AddReadySame(s: Sched, t: Task)
    requires ListsOk(s) && t in s.tcb
    ensures var r := AddReady(s, t);
            && r.delayed == s.delayed && r.overflow == s.overflow && r.pending == s.pending
                && r.nextUnblock == s.nextUnblock
            && SameClock(s, r)
  {
    hide ListsOk;
  }

  lemma StateIsOwnReady(s: Sched, t: Task)
    requires ListsOk(s) && t in s.tcb
    ensures s.tcb[t].state.Ready? ==> s.tcb[t].state == Ready(s.tcb[t].prio.current)
  {
    assert s.tcb[t].state.Ready? ==> InReadyList(s, t);
  }

  function Reprioritised(x: Tcb, p: Prio): Tcb {
    x.(prio := p, state := if x.state == Ready(x.prio.current) then Ready(p.current) else x.state)
  }

  /** A ready task moves to the list of its new priority; any other stays where it is. */
  lemma SetPrioOk(s: Sched, t: Task, x: Prio, now: nat)
    requires ListsOk(s) && SchedOk(s) && t in s.tcb && x.current < MAX_PRIORITIES && x.base < MAX_PRIORITIES
    ensures Touched(s, now, t, SetPrio(s, t, x)) && Wakes(SetPrio(s, t, x), now) == Wakes(s, now)
    ensures SameClock(s, SetPrio(s, t, x)) && SetPrio(s, t, x).tcb == s.tcb[t := Reprioritised(s.tcb[t], x)]
  {
    hide ListsOk, PendingOk, Above, SetPrio, WithoutOwner;
    SetPrioKeeps(s, t, x);
    PendingFrame(s, SetPrio(s, t, x));
  }

  /** `vTaskPrioritySet`. */
  function PrioritySet(s: Sched, t: Task, priority: nat): Sched
    requires ListsOk(s) && t in s.tcb
  {
    var x := s.tcb[t].prio;
    if x.base == Capped(priority) then s else SetPrio(s, t, SetBase(x, Capped(priority)))
  }

  /**
   What setting a priority makes of the task, whatever it holds: the base priority is the one asked
   for, capped; the task runs on it unless it runs on an inherited one; and if it is ready it is in the
   ready list of the priority it now has.
   */
  lemma PrioritySetExactly(s: Sched, t: Task, priority: nat)
    requires ListsOk(s) && t in s.tcb
    ensures var r, p := PrioritySet(s, t, priority), if priority < MAX_PRIORITIES then priority else MAX_PRIORITIES - 1;
            && ListsOk(r) && SameClock(s, r) && t in r.tcb && r.tcb == s.tcb[t := r.tcb[t]]
            && var x, y := s.tcb[t], r.tcb[t];
               && y.prio.base == p && y.prio.held == x.prio.held && y.event == x.event
                   && y.delayAborted == x.delayAborted
               && y.prio.current == (if x.prio.current == x.prio.base then p else x.prio.current)
               && y.prio.eventValue == (if p == x.prio.base then x.prio.eventValue else MAX_PRIORITIES - p)
               && Relisted(x, y, r, t)
  {
    var x := s.tcb[t].prio;
    PriosBounded(s, t);
    StateIsOwnReady(s, t);
    if x.base != Capped(priority) {
      SetPrioKeeps(s, t, SetBase(x, Capped(priority)));
    }
    RelistedIfOk(PrioritySet(s, t, priority), s.tcb[t], t) by {
      hide ListsOk, SetPrio;
    }
    hide ListsOk, SetPrio;
  }

  /** A ready task is in the ready list of the priority it has; any other is where it was. */
  ghost predicate Relisted(x: Tcb, y: Tcb, r: Sched, t: Task) {
    if x.state.Ready? then
      y.state == Ready(y.prio.current) && y.prio.current < |r.ready| && t in r.ready[y.prio.current].items
    else y.state == x.state
  }

  lemma RelistedIfOk(r: Sched, x: Tcb, t: Task)
    requires ListsOk(r) && t in r.tcb && (if x.state.Ready? then r.tcb[t].state.Ready? else r.tcb[t].state == x.state)
    ensures Relisted(x, r.tcb[t], r, t)
  {
    if x.state.Ready? {
      assert InReadyList(r, t);
    }
  }

  /**
   A call that sets a priority asks for a switch exactly if it raises another task to the running one's or
   lowers the running one.
   */
  lemma SetAsksExactly(s: Sched, t: Task, priority: nat)
    requires ListsOk(s) && t in s.tcb && s.current in s.tcb
    ensures var r := PrioritySet(s, t, priority);
            && t in r.tcb
            && var before, after := s.tcb[t].prio.base, r.tcb[t].prio.base;
               SetNeedsSwitch(s, t, priority) <==>
                 (t != s.current && after > before && after >= s.tcb[s.current].prio.current)
                 || (t == s.current && after < before)
  {
    PrioritySetExactly(s, t, priority);
    hide ListsOk, PrioritySet;
  }

  /** Whether `vTaskPrioritySet` asks for a context switch. */
  predicate SetNeedsSwitch(s: Sched, t: Task, priority: nat)
    requires t in s.tcb && s.current in s.tcb
  {
    var p, base := Capped(priority), s.tcb[t].prio.base;
    if p > base then t != s.current && p >= s.tcb[s.current].prio.current
    else p < base && t == s.current
  }

  /** No ready task outranks the one that runs. */
  ghost predicate TopRuns(s: Sched) {
    s.current in s.tcb && forall t :: t in s.tcb && s.tcb[t].state.Ready? ==>
        s.tcb[t].prio.current <= s.tcb[s.current].prio.current
  }

  /** Without a switch asked for, a priority change leaves a task running that none outranks. */
  lemma SetSwitchesEnough(s: Sched, t: Task, priority: nat)
    requires ListsOk(s) && t in s.tcb && TopRuns(s) && !SetNeedsSwitch(s, t, priority)
    ensures TopRuns(PrioritySet(s, t, priority))
  {
    if s.tcb[t].prio.base != Capped(priority) {
      var x := SetBase(s.tcb[t].prio, Capped(priority));
      assert x.current < MAX_PRIORITIES;
      SetPrioKeeps(s, t, x);
      hide ListsOk, SetPrio;
    }
  }

  /** `xTaskPriorityInherit`: the current task is about to wait for a mutex that `h` holds. */
  function PriorityInherit(s: Sched, h: Task): Sched
    requires ListsOk(s) && h in s.tcb
  {
    var x, p := s.tcb[h].prio, s.tcb[s.current].prio.current;
    if x.current < p then SetPrio(s, h, Inherit(x, p)) else s
  }

  /** The holder runs at least at the priority of the task about to wait; nothing else of it changes. */
  lemma InheritExactly(s: Sched, h: Task)
    requires ListsOk(s) && h in s.tcb && s.current in s.tcb
    ensures var r, p := PriorityInherit(s, h), s.tcb[s.current].prio.current;
            && ListsOk(r) && SameClock(s, r) && h in r.tcb && r.tcb == s.tcb[h := r.tcb[h]]
            && var x, y := s.tcb[h], r.tcb[h];
               && y.prio.current >= p && y.prio.current >= x.prio.current
                   && (y.prio.current == p || y.prio.current == x.prio.current)
               && y.prio.base == x.prio.base && y.prio.held == x.prio.held && y.event == x.event
                   && y.delayAborted == x.delayAborted
               && y.prio.eventValue == (if y.prio.current == x.prio.current then x.prio.eventValue else MAX_PRIORITIES - p)
               && Relisted(x, y, r, h)
    ensures Inherited(s.tcb[h].prio, s.tcb[s.current].prio.current) <==>
            PriorityInherit(s, h) != s || s.tcb[s.current].prio.current > s.tcb[h].prio.base
  {
    var x, p := s.tcb[h].prio, s.tcb[s.current].prio.current;
    PriosBounded(s, h);
    PriosBounded(s, s.current);
    StateIsOwnReady(s, h);
    if x.current < p {
      SetPrioKeeps(s, h, Inherit(x, p));
    }
    RelistedIfOk(PriorityInherit(s, h), s.tcb[h], h) by {
      hide ListsOk, SetPrio;
    }
    hide ListsOk, SetPrio;
  }

  /** With its last mutex the holder is back at its base priority; with another left it keeps the one it has. */
  lemma DisinheritExactly(s: Sched, h: Task)
    requires ListsOk(s) && h in s.tcb && s.tcb[h].prio.held > 0
    ensures var r := PriorityDisinherit(s, h);
            && ListsOk(r) && SameClock(s, r) && h in r.tcb && r.tcb == s.tcb[h := r.tcb[h]]
            && var x, y := s.tcb[h], r.tcb[h];
               && y.prio.held == x.prio.held - 1 && y.prio.base == x.prio.base && y.event == x.event
               && y.delayAborted == x.delayAborted
               && y.prio.current == (if y.prio.held == 0 then x.prio.base else x.prio.current)
               && y.prio.eventValue == (if y.prio.current == x.prio.current then x.prio.eventValue else MAX_PRIORITIES - x.prio.base)
               && Relisted(x, y, r, h)
  {
    DisinheritKeeps(s, h);
    StateIsOwnReady(s, h);
    RelistedIfOk(PriorityDisinherit(s, h), s.tcb[h], h) by {
      hide ListsOk, PriorityDisinherit;
    }
    hide ListsOk, PriorityDisinherit;
  }

  /**
   After a time-out a holder of one mutex runs at the larger of its base and what still waits; another is left
   alone.
   */
  lemma AfterTimeoutExactly(s: Sched, h: Task, highest: nat)
    requires ListsOk(s) && h in s.tcb && highest < MAX_PRIORITIES
    ensures var r := PriorityAfterTimeout(s, h, highest);
            && ListsOk(r) && SameClock(s, r) && h in r.tcb && r.tcb == s.tcb[h := r.tcb[h]]
            && var x, y := s.tcb[h], r.tcb[h];
               && (x.prio.held != 1 ==> r == s)
               && (x.prio.held == 1 ==>
                     && y.prio.current >= x.prio.base && y.prio.current >= highest
                     && (y.prio.current == x.prio.base || y.prio.current == highest))
               && y.prio.base == x.prio.base && y.prio.held == x.prio.held && y.event == x.event
                   && y.delayAborted == x.delayAborted
               && y.prio.eventValue
                    == (if y.prio.current == x.prio.current then x.prio.eventValue else MAX_PRIORITIES - y.prio.current)
               && Relisted(x, y, r, h)
  {
    var x := DisinheritAfterTimeout(s.tcb[h].prio, highest);
    PriosBounded(s, h);
    StateIsOwnReady(s, h);
    if x.current != s.tcb[h].prio.current {
      SetPrioKeeps(s, h, x);
    }
    RelistedIfOk(PriorityAfterTimeout(s, h, highest), s.tcb[h], h) by {
      hide ListsOk, SetPrio;
    }
    hide ListsOk, SetPrio;
  }

  /** `xTaskPriorityDisinherit`: the current task `h` gives a mutex back. */
  function PriorityDisinherit(s: Sched, h: Task): Sched
    requires ListsOk(s) && h in s.tcb && s.tcb[h].prio.held > 0
  {
    var x := Disinherit(s.tcb[h].prio);
    if x.current != s.tcb[h].prio.current then SetPrio(s, h, x) else Retune(s, h, x)
  }

  lemma DisinheritKeeps(s: Sched, h: Task)
    requires ListsOk(s) && h in s.tcb && s.tcb[h].prio.held > 0
    ensures var r := PriorityDisinherit(s, h);
            && ListsOk(r) && SameClock(s, r) && r.pending == s.pending
            && r.tcb == s.tcb[h := Reprioritised(s.tcb[h], Disinherit(s.tcb[h].prio))]
  {
    PriosBounded(s, h);
    StateIsOwnReady(s, h);
    hide ListsOk, SetPrio;
    var x := Disinherit(s.tcb[h].prio);
    if x.current != s.tcb[h].prio.current {
      SetPrioKeeps(s, h, x);
    } else {
      RetuneKeeps(s, h, x);
    }
  }

  lemma PriosBounded(s: Sched, t: Task)
    requires ListsOk(s) && t in s.tcb
    ensures s.tcb[t].prio.current < MAX_PRIORITIES && s.tcb[t].prio.base < MAX_PRIORITIES && s.current in s.tcb
  {
  }

  /**
   The critical section of `xQueueGenericSend` in which the current task `h` gives back a mutex that
   the tasks of `waiting` wait for: it disinherits, and then the first of them is woken.
   */
  function MutexGiven(s: Sched, h: Task, waiting: seq<Task>): Sched
    requires ListsOk(s) && h in s.tcb && s.tcb[h].prio.held > 0 && (waiting != [] ==> waiting[0] in s.tcb)
  {
    DisinheritKeeps(s, h);
    var m := PriorityDisinherit(s, h);
    if waiting == [] then m else EventWake(m, waiting[0])
  }

  /**
   Whether the give asks for a context switch: for a woken task that outranks the giver, or, only
   if nobody was waiting, because the giver's priority has dropped.
   */
  predicate GiveAsks(s: Sched, h: Task, waiting: seq<Task>)
    requires h in s.tcb && s.tcb[h].prio.held > 0 && (waiting != [] ==> waiting[0] in s.tcb)
  {
    var p := Disinherit(s.tcb[h].prio).current;
    if waiting != [] then waiting[0] != h && s.tcb[waiting[0]].prio.current > p else p != s.tcb[h].prio.current
  }

  /** `vTaskPriorityDisinheritAfterTimeout`. */
  function PriorityAfterTimeout(s: Sched, h: Task, highest: nat): Sched
    requires ListsOk(s) && h in s.tcb && highest < MAX_PRIORITIES
  {
    var x := DisinheritAfterTimeout(s.tcb[h].prio, highest);
    if x.current != s.tcb[h].prio.current then SetPrio(s, h, x) else s
  }

  /** `pvTaskIncrementMutexHeldCount`. */
  function TakeMutex(s: Sched): Sched
    requires s.current in s.tcb
  {
    var x := s.tcb[s.current].prio;
    Retune(s, s.current, x.(held := x.held + 1))
  }

  // ----- choosing the next task -----

  /** The downward search of `taskSELECT_HIGHEST_PRIORITY_TASK` from priority `p`. */
  function TopReady(s: Sched, p: nat): nat
    requires p < |s.ready| && exists q :: 0 <= q <= p && s.ready[q].items != []
  {
    if s.ready[p].items != [] then p else TopReady(s, p - 1)
  }

  ghost predicate SomeReady(s: Sched) { exists q :: 0 <= q < |s.ready| && s.ready[q].items != [] }

  lemma ReadyBelowTop(s: Sched)
    requires ListsOk(s) && SomeReady(s)
    ensures exists q :: 0 <= q <= s.topReady && s.ready[q].items != []
  {
    var q :| 0 <= q < |s.ready| && s.ready[q].items != [];
    assert q <= s.topReady;
  }

  /** `vTaskSwitchContext` with the scheduler running. */
  function Select(s: Sched): Sched
    requires ListsOk(s) && SomeReady(s)
  {
    ReadyBelowTop(s);
    var p := TopReady(s, s.topReady);
    TopIsHighest(s, s.topReady);
    s.(ready := s.ready[p := s.ready[p].Step()], topReady := p, current := s.ready[p].Next(), yieldPending := false)
  }

  lemma TopIsHighest(s: Sched, p: nat)
    requires p < |s.ready| && exists q :: 0 <= q <= p && s.ready[q].items != []
    ensures var t := TopReady(s, p); t <= p && s.ready[t].items != [] && forall q :: t < q <= p ==>
        s.ready[q].items == []
  {
  }

  /** The chosen task is ready, no ready task has a higher priority, and it is the next of its equals. */
  /** A switch changes which task runs and whose turn is next; a yield that was pending is done with. */
  lemma SelectChangesOnly(s: Sched)
    requires ListsOk(s) && SomeReady(s)
    ensures var r := Select(s);
            r == s.(current := r.current, ready := r.ready, topReady := r.topReady, yieldPending := false)
  {
    hide ListsOk, TopReady;
  }

  lemma SelectPicksHighest(s: Sched)
    requires ListsOk(s) && SomeReady(s)
    ensures var r := Select(s);
            && r.current in s.tcb && s.tcb[r.current].state.Ready?
            && (forall t :: t in s.tcb && s.tcb[t].state.Ready? ==> s.tcb[t].prio.current <= s.tcb[r.current].prio.current)
  {
    ReadyBelowTop(s);
    TopIsHighest(s, s.topReady);
    var p := TopReady(s, s.topReady);
    StepRotates(s.ready[p]);
    var c := s.ready[p].Next();
    assert c in s.ready[p].items;
    assert s.tcb[c].state == Ready(p) && InReadyList(s, c);
    forall t | t in s.tcb && s.tcb[t].state.Ready? ensures s.tcb[t].prio.current <= p {
      assert InReadyList(s, t);
    }
  }

  /** Equals take turns: the chosen task goes to the back of its list's visiting order. */
  lemma SelectRotates(s: Sched, p: nat)
    requires ListsOk(s) && SomeReady(s) && p < MAX_PRIORITIES
    ensures var r := Select(s);
            && |r.ready| == MAX_PRIORITIES && r.ready[p].Valid()
            && (p == r.topReady ==> s.ready[p].items != [])
            && r.ready[p].Order() == if p == r.topReady then s.ready[p].Order()[1..] + [r.current] else s.ready[p].Order()
  {
    ReadyBelowTop(s);
    TopIsHighest(s, s.topReady);
    StepRotates(s.ready[TopReady(s, s.topReady)]);
  }

  lemma SelectOk(s: Sched, now: nat)
    requires ListsOk(s) && SchedOk(s) && SomeReady(s)
    ensures var r := Select(s); SchedOk(r) && r.tick == s.tick && r.tcb == s.tcb && Wakes(r, now) == Wakes(s, now)
  {
    var r := Select(s);
    ReadyBelowTop(s);
    TopIsHighest(s, s.topReady);
    var p := TopReady(s, s.topReady);
    SelectPicksHighest(s);
    assert s.ready[p].Step().Valid() && s.ready[p].Step().items == s.ready[p].items by {
      StepRotates(s.ready[p]);
    }
    SelectLists(s, r, p);
  }

  lemma SelectLists(s: Sched, r: Sched, p: nat)
    requires ListsOk(s) && p < MAX_PRIORITIES && r.tcb == s.tcb && r.current in s.tcb && r.topReady == p
    requires exists q: Ring<Task> :: r.ready == s.ready[p := q] && q.Valid() && q.items == s.ready[p].items
    requires forall q :: p < q < MAX_PRIORITIES ==> s.ready[q].items == []
    requires r.delayed == s.delayed && r.overflow == s.overflow && r.tick == s.tick && r.suspended == s.suspended
    ensures ListsOk(r)
  {
    hide DelaysOk, SuspendedOk, ReadyOk;
    SelectReady(s, r, p);
    DelaysFrame(s, r, s.current, s.tcb[s.current]);
    SuspendedFrame(s, r, s.current, s.tcb[s.current]);
  }

  lemma SelectReady(s: Sched, r: Sched, p: nat)
    requires ReadyOk(s) && p < MAX_PRIORITIES && r.tcb == s.tcb && r.topReady == p
    requires exists q: Ring<Task> :: r.ready == s.ready[p := q] && q.Valid() && q.items == s.ready[p].items
    requires forall q :: p < q < MAX_PRIORITIES ==> s.ready[q].items == []
    ensures ReadyOk(r)
  {
    hide NoDup;
    forall u | u in r.tcb && r.tcb[u].state.Ready? ensures InReadyList(r, u) {
      assert InReadyList(s, u);
    }
  }
}
