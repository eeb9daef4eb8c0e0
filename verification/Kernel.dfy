/**
 The kernel state of `tasks.c` as an object.  Each method does its work on the fields the way
 the source does, loops included, and is proved to act on the whole state as the function of
 the scheduler model that describes it.
 */
module Kernel {
  import opened Rings
  import opened Ticks
  import opened Priorities
  import opened Scheduler
  import opened SchedulerTime
  import opened SchedulerSteps
  import opened SchedulerMoves
  import SchedulerRuns
  import opened TimeOuts

  lemma Shape(s: Sched)
    requires ListsOk(s)
    ensures |s.ready| == MAX_PRIORITIES && s.topReady < MAX_PRIORITIES && s.current in s.tcb
        && s.tcb[s.current].prio.current < MAX_PRIORITIES
  {
  }

  lemma OnReadyList(s: Sched, t: Task)
    requires ListsOk(s) && t in s.tcb && s.tcb[t].state.Ready?
    ensures var p := s.tcb[t].state.priority;
            p < |s.ready| && s.ready[p].cursor <= |s.ready[p].items| && t in s.ready[p].items
  {
    assert InReadyList(s, t);
  }

  lemma EveryRing(s: Sched, p: nat)
    requires ListsOk(s) && p < |s.ready|
    ensures s.ready[p].cursor <= |s.ready[p].items|
  {
  }

  class Kernel {
    var tick: nat
    var overflows: nat
    var delayed: seq<Item>
    var overflow: seq<Item>
    var suspended: seq<Task>
    var ready: seq<Ring<Task>>
    var pending: seq<Task>
    var nextUnblock: nat
    var pendedTicks: nat
    var depth: nat
    var topReady: nat
    var yieldPending: bool
    var current: Task
    var tcb: map<Task, Tcb>

    ghost function View(): Sched
      reads this
    {
      Sched(tick, overflows, delayed, overflow, suspended, ready, pending, nextUnblock, pendedTicks, depth, topReady,
            yieldPending, current, tcb)
    }

    /** The state is consistent; the parts are named so that proofs can keep them folded. */
    ghost predicate Valid()
      reads this
    {
      ListsOk(View()) && SchedOk(View()) && PendingOk(View()) && current in tcb
    }

    // ----- list moves -----

    /** `uxListRemove` on the state item of `t`. */
    method RemoveStateItem(t: Task)
      requires ListsOk(View()) && t in tcb
      modifies this
      ensures View() == Unlist(old(View()), t) && ListsOk(View())
    {
      hide ListsOk;
      UnlistKeeps(View(), t);
      match tcb[t].state {
        case Nowhere =>
          assert tcb[t].(state := Nowhere) == tcb[t];
          assert tcb[t := tcb[t]] == tcb;
        case Ready(p) =>
          OnReadyList(View(), t);
          ready := ready[p := ready[p].Remove(t)];
        case Delayed =>
          delayed := WithoutOwner(delayed, t);
          overflow := WithoutOwner(overflow, t);
        case Suspended =>
          suspended := Without(suspended, t);
      }
      tcb := tcb[t := tcb[t].(state := Nowhere)];
    }

    /** `uxListRemove` on the event item of `t`, if it is on a list. */
    method RemoveEventItem(t: Task)
      requires ListsOk(View()) && t in tcb
      modifies this
      ensures View() == Unevent(old(View()), t) && ListsOk(View())
    {
      UneventKeeps(View(), t);
      if tcb[t].event != NoEvent {
        if tcb[t].event == PendingReady {
          pending := Without(pending, t);
        }
        tcb := tcb[t := tcb[t].(event := NoEvent)];
      } else {
        assert tcb[t := tcb[t].(event := NoEvent)] == tcb;
      }
    }

    method AddTaskToReadyList(t: Task)
      requires ListsOk(View()) && t in tcb && tcb[t].state == Nowhere
      modifies this
      ensures View() == AddReady(old(View()), t) && ListsOk(View())
    {
      hide ListsOk;
      AddReadyKeeps(View(), t);
      TaskBounds(View(), t);
      Shape(View());
      var p := tcb[t].prio.current;
      EveryRing(View(), p);
      if p > topReady {
        topReady := p;
      }
      ready := ready[p := ready[p].InsertEnd(t)];
      tcb := tcb[t := tcb[t].(state := Ready(p))];
    }

    /** The three steps that move a task to its ready list. */
    method MakeReady(t: Task)
      requires ListsOk(View()) && t in tcb
      modifies this
      ensures View() == Wake(old(View()), t) && ListsOk(View())
    {
      UnlistKeeps(View(), t);
      hide ListsOk, Unlist, AddReady;
      RemoveStateItem(t);
      UneventKeeps(View(), t);
      RemoveEventItem(t);
      AddTaskToReadyList(t);
    }

    method ResetNextTaskUnblockTime()
      modifies this`nextUnblock
      ensures nextUnblock == HeadOrMax(delayed)
    {
      if delayed == [] {
        nextUnblock := MAX_DELAY;
      } else {
        nextUnblock := delayed[0].value;
      }
    }

    // ----- ticks -----

    method SwitchDelayedLists()
      modifies this
      ensures View() == Switch(old(View()))
    {
      delayed, overflow := overflow, delayed;
      overflows := overflows + 1;
      ResetNextTaskUnblockTime();
    }

    /** The loop of `xTaskIncrementTick`. */
    method UnblockDueTasks() returns (outranked: bool)
      requires ListsOk(View()) && PendingOk(View()) && current in tcb
      modifies this
      ensures View() == Drain(old(View()))
      ensures outranked <==> exists t :: t in old(tcb) && t in tcb && old(tcb)[t].state == Delayed && tcb[t].state.Ready?
                                  && old(tcb)[t].prio.current >= old(tcb)[old(current)].prio.current
    {
      hide ListsOk, PendingOk, Wake, Unlist;
      outranked := false;
      ghost var s := View();
      while delayed != [] && delayed[0].value <= tick
        invariant ListsOk(View()) && PendingOk(View()) && Drain(View()) == Drain(s)
        invariant current == s.current && tcb.Keys == s.tcb.Keys && tick == s.tick
        invariant forall t :: t in tcb ==>
            tcb[t] == s.tcb[t] || (s.tcb[t].state == Delayed && tcb[t] == Woken(s.tcb[t]))
        invariant outranked <==> exists t :: t in s.tcb && s.tcb[t].state == Delayed && tcb[t].state.Ready?
                                   && s.tcb[t].prio.current >= s.tcb[s.current].prio.current
        decreases |delayed|
      {
        ghost var v := View();
        var t := delayed[0].owner;
        HeadWakes(v);
        WakeKeeps(v, t);
        WakePending(v, t);
        MakeReady(t);
        if tcb[t].prio.current >= tcb[current].prio.current {
          outranked := true;
        }
      }
      ResetNextTaskUnblockTime();
    }

    method IncrementTick() returns (switchRequired: bool)
      requires Valid()
      modifies this
      ensures View() == Tick(old(View())) && ListsOk(View())
      ensures tcb.Keys == old(tcb).Keys && |ready| == MAX_PRIORITIES
          && old(tcb)[old(current)].prio.current < MAX_PRIORITIES
      ensures switchRequired == SwitchRequired(old(View()), View())
      ensures switchRequired <==> old(depth) == 0 && CallsForSwitch(old(View()), View())
    {
      hide ListsOk, SchedOk, PendingOk, NextOk, DueNow, After, CallsForSwitch;
      switchRequired := false;
      ghost var s := View();
      Shape(s);
      if depth == 0 {
        TurnOk(s);
        TickLists(s);
        TickKeeps(s);
        tick := Plus(tick, 1);
        if tick == 0 {
          SwitchDelayedLists();
        }
        assert View() == Turn(s);
        hide Turn;
        if tick >= nextUnblock {
          switchRequired := UnblockDueTasks();
        }
        assert View() == Tick(s);
        hide Tick;
        Shape(View());
        if |ready[tcb[current].prio.current].items| > 1 {
          switchRequired := true;
        }
        if yieldPending {
          switchRequired := true;
        }
      } else {
        pendedTicks := Plus(pendedTicks, 1);
        RetagKeeps(s, View(), current, tcb[current]);
      }
      SwitchRequiredExactly(s, View());
    }

    // ----- blocking -----

    method AddCurrentTaskToDelayedList(ticks: nat, indefinitely: bool)
      requires Valid() && 1 <= ticks < M
      modifies this
      ensures View() == Block(old(View()), ticks, indefinitely)
    {
      hide ListsOk, SchedOk, PendingOk, Sleep;
      ghost var s := View();
      var t := current;
      tcb := tcb[t := tcb[t].(delayAborted := false)];
      RetagKeeps(s, View(), t, tcb[t]);
      UnlistSame(View(), t);
      RemoveStateItem(t);
      assert View() == Freed(s);
      hide Freed, Unlist;
      if ticks == MAX_DELAY && indefinitely {
        suspended := suspended + [t];
        tcb := tcb[t := tcb[t].(state := Suspended)];
      } else {
        AddToDelayedList(t, ticks);
      }
    }

    /** The timed half: the wake time tells the list. */
    method AddToDelayedList(t: Task, ticks: nat)
      requires t in tcb
      modifies this
      ensures View() == Sleep(old(View()), t, ticks)
    {
      var wake := Plus(tick, ticks);
      tcb := tcb[t := tcb[t].(state := Delayed)];
      if wake < tick {
        overflow := InsertSorted(overflow, Item(t, wake));
      } else {
        delayed := InsertSorted(delayed, Item(t, wake));
        if wake < nextUnblock {
          nextUnblock := wake;
        }
      }
    }

    /** `xTaskDelayUntil`, between suspending and resuming the scheduler. */
    method DelayUntil(previous: nat, increment: nat) returns (delayed: bool, next: nat)
      requires Valid() && previous < M && 0 < increment < M && tick < M
      modifies this
      ensures delayed == ShouldDelay(previous, increment, old(tick)) && next == Plus(previous, increment)
      ensures delayed ==> 1 <= Minus(next, old(tick)) < M && View() == Block(old(View()), Minus(next, old(tick)), false)
      ensures !delayed ==> View() == old(View())
    {
      next := Plus(previous, increment);
      delayed := false;
      if tick < previous {
        if next < previous && next > tick {
          delayed := true;
        }
      } else if next < previous || next > tick {
        delayed := true;
      }
      if delayed {
        assert next != tick;
        TimeLeft(next, tick);
        AddCurrentTaskToDelayedList(Minus(next, tick), false);
      }
    }

    /** `xTaskCheckForTimeOut`: an aborted delay counts as expired, once. */
    method CheckTimeOut(t: TimeOut, ticksToWait: nat) returns (c: Check)
      requires Valid()
      modifies this
      ensures old(tcb)[old(current)].delayAborted ==>
                c == Check(true, t, ticksToWait)
                && View() == old(View()).(tcb := old(tcb)[old(current) := old(tcb)[old(current)].(delayAborted := false)])
      ensures !old(tcb)[old(current)].delayAborted ==>
                c == CheckForTimeOut(t, ticksToWait, tick, overflows) && View() == old(View())
    {
      var elapsed := Minus(tick, t.entering);
      if tcb[current].delayAborted {
        tcb := tcb[current := tcb[current].(delayAborted := false)];
        c := Check(true, t, ticksToWait);
      } else if ticksToWait == MAX_DELAY {
        c := Check(false, t, ticksToWait);
      } else if overflows != t.overflows && tick >= t.entering {
        c := Check(true, t, 0);
      } else if elapsed < ticksToWait {
        c := Check(false, Start(tick, overflows), ticksToWait - elapsed);
      } else {
        c := Check(true, t, 0);
      }
    }

    // ----- waking -----

    /** `xTaskRemoveFromEventList`, for the task `t` at the head of the list. */
    method RemoveFromEventList(t: Task) returns (outranks: bool)
      requires Valid() && t in tcb
      modifies this
      ensures View() == EventWake(old(View()), t) && outranks == Outranks(old(View()), t)
    {
      hide ListsOk, SchedOk, PendingOk, Wake;
      ghost var s := View();
      outranks := tcb[t].prio.current > tcb[current].prio.current;
      if depth == 0 {
        WakeKeeps(s, t);
        MakeReady(t);
      } else {
        pending := pending + [t];
        tcb := tcb[t := tcb[t].(event := PendingReady)];
      }
      if outranks {
        yieldPending := true;
      }
    }

    method RemoveFromUnorderedEventList(t: Task)
      requires Valid() && t in tcb
      modifies this
      ensures View() == UnorderedWake(old(View()), t)
    {
      hide ListsOk, SchedOk, PendingOk, Wake;
      var outranks := tcb[t].prio.current > tcb[current].prio.current;
      WakeKeeps(View(), t);
      MakeReady(t);
      if outranks {
        yieldPending := true;
      }
    }

    /** `vTaskSuspend`. */
    method Suspend(t: Task)
      requires Valid() && t in tcb
      modifies this
      ensures View() == SuspendTask(old(View()), t)
    {
      hide ListsOk, SchedOk, PendingOk, Unlist;
      UnlistSame(View(), t);
      RemoveStateItem(t);
      RemoveEventItem(t);
      suspended := suspended + [t];
      tcb := tcb[t := tcb[t].(state := Suspended)];
      ResetNextTaskUnblockTime();
    }

    /** `xTaskAbortDelay`, between suspending and resuming the scheduler. */
    method Abort(t: Task) returns (aborted: bool)
      requires Valid() && t in tcb
      modifies this
      ensures View() == AbortDelay(old(View()), t) && aborted == IsBlocked(old(View()), t)
    {
      hide ListsOk, SchedOk, PendingOk, Wake;
      ghost var s := View();
      aborted := t != current && (tcb[t].state == Delayed || (tcb[t].state == Suspended && tcb[t].event != NoEvent));
      if aborted {
        if tcb[t].event != NoEvent {
          tcb := tcb[t := tcb[t].(delayAborted := true)];
        }
        ghost var x := s.tcb[t].(delayAborted := s.tcb[t].delayAborted || s.tcb[t].event != NoEvent);
        assert View() == s.(tcb := s.tcb[t := x]);
        RetagKeeps(s, View(), t, x);
        ghost var m := View();
        WakeKeeps(m, t);
        MakeReady(t);
        if tcb[t].prio.current > tcb[current].prio.current {
          yieldPending := true;
        }
      }
    }

    /** `vTaskResume`; true if it asks for a context switch. */
    method ResumeSuspended(t: Task) returns (switchRequired: bool)
      requires Valid() && t in tcb
      modifies this
      ensures View() == ResumeTask(old(View()), t)
      ensures switchRequired == ResumeAsks(old(View()), t)
    {
      hide ListsOk, SchedOk, PendingOk, Wake;
      switchRequired := t != current && tcb[t].state == Suspended && tcb[t].event == NoEvent
        && tcb[t].prio.current >= tcb[current].prio.current;
      if t != current && tcb[t].state == Suspended && tcb[t].event == NoEvent {
        MakeReady(t);
      }
    }

    /** `xTaskResumeFromISR`. */
    method ResumeSuspendedFromIsr(t: Task) returns (required: bool)
      requires Valid() && t in tcb
      modifies this
      ensures View() == ResumeFromIsr(old(View()), t)
      ensures required <==> (IsSuspended(old(View()), t) && depth == 0
                             && old(tcb)[t].prio.current >= old(tcb)[old(current)].prio.current)
    {
      hide ListsOk, SchedOk, PendingOk, Wake;
      required := false;
      if tcb[t].state == Suspended && tcb[t].event == NoEvent {
        if depth == 0 {
          WakeKeeps(View(), t);
          if tcb[t].prio.current >= tcb[current].prio.current {
            required := true;
            yieldPending := true;
          }
          RetagKeeps(old(View()), View(), t, tcb[t]);
          WakeIgnoresYield(old(View()), t, yieldPending);
          MakeReady(t);
        } else {
          pending := pending + [t];
          tcb := tcb[t := tcb[t].(event := PendingReady)];
        }
      }
    }

    // ----- priorities -----

    /** Move a task from one ready list to another while its priority changes. */
    method ChangePriority(t: Task, x: Prio)
      requires Valid() && t in tcb && x.current < MAX_PRIORITIES && x.base < MAX_PRIORITIES
      modifies this
      ensures View() == SetPrio(old(View()), t, x)
    {
      hide ListsOk, SchedOk, PendingOk, Unlist, AddReady;
      if tcb[t].state == Ready(tcb[t].prio.current) {
        UnlistKeeps(View(), t);
        RetuneKeeps(Unlist(View(), t), t, x);
        RemoveStateItem(t);
        tcb := tcb[t := tcb[t].(prio := x)];
        AddTaskToReadyList(t);
      } else {
        tcb := tcb[t := tcb[t].(prio := x)];
      }
    }

    /** `vTaskPrioritySet`; true if it asks for a context switch. */
    method SetPriority(t: Task, priority: nat) returns (switchRequired: bool)
      requires Valid() && t in tcb
      modifies this
      ensures View() == PrioritySet(old(View()), t, priority)
      ensures switchRequired == SetNeedsSwitch(old(View()), t, priority)
    {
      hide ListsOk, SchedOk, PendingOk, SetPrio;
      TaskBounds(View(), t);
      switchRequired := false;
      var p := if priority >= MAX_PRIORITIES then MAX_PRIORITIES - 1 else priority;
      var x := tcb[t].prio;
      if x.base != p {
        if p > x.base {
          if t != current {
            switchRequired := p >= tcb[current].prio.current;
          }
        } else if t == current {
          switchRequired := true;
        }
        var current' := if x.base == x.current then p else x.current;
        ChangePriority(t, Prio(current', p, x.held, MAX_PRIORITIES - p));
      }
    }

    /** `xTaskPriorityInherit`. */
    method InheritPriority(holder: Task) returns (inherited: bool)
      requires Valid() && holder in tcb
      modifies this
      ensures View() == PriorityInherit(old(View()), holder)
      ensures inherited == Inherited(old(tcb)[holder].prio, old(tcb)[old(current)].prio.current)
    {
      hide ListsOk, SchedOk, PendingOk, SetPrio;
      TaskBounds(View(), holder);
      TaskBounds(View(), current);
      var x, p := tcb[holder].prio, tcb[current].prio.current;
      inherited := false;
      if x.current < p {
        ChangePriority(holder, x.(current := p, eventValue := MAX_PRIORITIES - p));
        inherited := true;
      } else if x.base < p {
        inherited := true;
      }
    }

    /** `xTaskPriorityDisinherit`, by the running task that gives a mutex back. */
    method DisinheritPriority(holder: Task) returns (dropped: bool)
      requires Valid() && holder in tcb && tcb[holder].prio.held > 0
      modifies this
      ensures View() == PriorityDisinherit(old(View()), holder)
      ensures dropped <==> old(tcb)[holder].prio.current != Disinherit(old(tcb)[holder].prio).current
    {
      hide ListsOk, SchedOk, PendingOk, SetPrio;
      TaskBounds(View(), holder);
      var x := tcb[holder].prio;
      var held := x.held - 1;
      dropped := x.current != x.base && held == 0;
      if dropped {
        ChangePriority(holder, Prio(x.base, x.base, held, MAX_PRIORITIES - x.base));
      } else {
        tcb := tcb[holder := tcb[holder].(prio := x.(held := held))];
      }
    }

    /**
     The critical section of `xQueueGenericSend` in which the running task gives a mutex back; true if
     it asks for a context switch.  What the disinheritance asks for counts only if nobody waits.
     */
    method GiveMutex(holder: Task, waiting: seq<Task>) returns (switchRequired: bool)
      requires Valid() && holder == current && tcb[holder].prio.held > 0
      requires waiting != [] ==> waiting[0] in tcb && tcb[waiting[0]].event == Waiting
      modifies this
      ensures View() == MutexGiven(old(View()), holder, waiting)
      ensures switchRequired == GiveAsks(old(View()), holder, waiting)
    {
      hide ListsOk, SchedOk, PendingOk, PriorityDisinherit, Disinherit, EventWake;
      ghost var s := View();
      DisinheritKeeps(s, holder);
      SchedulerRuns.StillDisinherit(s, 0, SchedulerRuns.MutexTaken, holder);
      Parts(PriorityDisinherit(s, holder));
      var dropped := DisinheritPriority(holder);
      switchRequired := false;
      if waiting != [] {
        switchRequired := RemoveFromEventList(waiting[0]);
      } else if dropped {
        switchRequired := true;
      }
    }

    /** `vTaskPriorityDisinheritAfterTimeout`. */
    method DisinheritAfterTimedOut(holder: Task, highest: nat)
      requires Valid() && holder in tcb && highest < MAX_PRIORITIES
      modifies this
      ensures View() == PriorityAfterTimeout(old(View()), holder, highest)
    {
      hide ListsOk, SchedOk, PendingOk, SetPrio;
      TaskBounds(View(), holder);
      var x := tcb[holder].prio;
      var p := if x.base < highest then highest else x.base;
      if x.current != p {
        if x.held == 1 {
          ChangePriority(holder, x.(current := p, eventValue := MAX_PRIORITIES - p));
        }
      }
    }

    // ----- choosing the next task -----

    /** `vTaskSwitchContext`: a downward search for a ready list that is not empty. */
    method SwitchToNext()
      requires Valid() && (depth == 0 ==> SomeReady(View()))
      modifies this
      ensures View() == if old(depth) > 0 then old(View()).(yieldPending := true) else Select(old(View()))
    {
      hide ListsOk, SchedOk, PendingOk;
      if depth > 0 {
        yieldPending := true;
      } else {
        ghost var s := View();
        ReadyBelowTop(s);
        Shape(s);
        yieldPending := false;
        var p := topReady;
        while ready[p].items == []
          invariant ready == s.ready && 0 <= p <= topReady
          invariant exists q :: 0 <= q <= p && s.ready[q].items != []
          invariant TopReady(s, p) == TopReady(s, topReady)
          decreases p
        {
          p := p - 1;
        }
        EveryRing(s, p);
        current := ready[p].Next();
        ready := ready[p := ready[p].Step()];
        topReady := p;
      }
    }

    // ----- suspending and resuming the scheduler -----

    /** `vTaskSuspendAll`. */
    method SuspendAll()
      modifies this`depth
      ensures View() == old(View()).(depth := old(depth) + 1)
    {
      depth := depth + 1;
    }

    /** The loop that empties the pending-ready list. */
    method MovePendingTasks()
      requires Valid()
      modifies this
      ensures View() == Flush(old(View())) && Valid()
    {
      hide ListsOk, SchedOk, PendingOk, Wake;
      ghost var s := View();
      while pending != []
        invariant Valid() && Flush(View()) == Flush(s)
        decreases |pending|
      {
        ghost var v := View();
        FlushOneKeeps(v);
        var t := pending[0];
        WakeKeeps(v, t);
        MakeReady(t);
        if tcb[t].prio.current >= tcb[current].prio.current {
          yieldPending := true;
        }
        assert View() == FlushOne(v);
        Parts(View());
      }
    }

    /** The loop that processes the ticks that were held pending. */
    method ProcessPendedTicks()
      requires Valid() && depth == 0
      modifies this
      ensures View() == PendedTicks(old(View()), old(pendedTicks)).(pendedTicks := 0) && depth == 0
    {
      hide ListsOk, SchedOk, PendingOk, Tick, SwitchRequired;
      ghost var s := View();
      var left := pendedTicks;
      while left > 0
        invariant Valid() && depth == 0 && PendedTicks(View(), left) == PendedTicks(s, s.pendedTicks)
        decreases left
      {
        ghost var v := View();
        TickKeeps(v);
        var required := IncrementTick();
        if required {
          yieldPending := true;
        }
        assert View() == PendedTick(v);
        PendedTickKeeps(v);
        Parts(View());
        left := left - 1;
      }
      pendedTicks := 0;
    }

    /** `xTaskResumeAll`. */
    method ResumeAll() returns (yielded: bool)
      requires Valid() && depth > 0
      modifies this
      ensures View() == Resume(old(View()))
      ensures yielded <==> depth == 0 && yieldPending
    {
      hide ListsOk, SchedOk, PendingOk, Flush, PendedTicks;
      ghost var s := View();
      yielded := false;
      if depth > 1 {
        depth := depth - 1;
      } else {
        var any := pending != [];
        FlushKeeps(s);
        MovePendingTasks();
        RefreshKeeps(View(), any);
        depth := 0;
        if any {
          ResetNextTaskUnblockTime();
        }
        assert View() == Refresh(Flush(s), s.pending != []);
        Parts(View());
        ProcessPendedTicks();
        yielded := yieldPending;
      }
    }
  }

  lemma TaskBounds(s: Sched, t: Task)
    requires ListsOk(s) && t in s.tcb
    ensures s.tcb[t].prio.current < MAX_PRIORITIES && s.tcb[t].prio.base < MAX_PRIORITIES
  {
  }

  lemma WakeIgnoresYield(s: Sched, t: Task, y: bool)
    requires ListsOk(s) && t in s.tcb && ListsOk(s.(yieldPending := y))
    ensures Wake(s.(yieldPending := y), t) == Wake(s, t).(yieldPending := y)
  {
    hide ListsOk, Unlist;
    UnlistKeeps(s, t);
    UnlistIgnoresYield(s, t, y);
  }

  lemma UnlistIgnoresYield(s: Sched, t: Task, y: bool)
    requires ListsOk(s) && t in s.tcb && ListsOk(s.(yieldPending := y))
    ensures Unlist(s.(yieldPending := y), t) == Unlist(s, t).(yieldPending := y)
  {
    hide ListsOk;
  }

  lemma Parts(s: Sched)
    requires SchedOk(s)
    ensures ListsOk(s) && PendingOk(s) && s.current in s.tcb
  {
  }

  lemma PendedTickKeeps(s: Sched)
    requires SchedOk(s) && s.depth == 0
    ensures SchedOk(PendedTick(s)) && PendedTick(s).depth == 0
  {
    TickKeeps(s);
    YieldKeeps(Tick(s), PendedTick(s).yieldPending);
  }

  lemma TimeLeft(next: nat, tick: nat)
    requires next < M && tick < M && next != tick
    ensures 1 <= Minus(next, tick) < M
  {
    if next > tick {
      DivModUnique(0, next - tick);
    } else {
      ModShift(next - tick, 1);
      DivModUnique(0, next - tick + M);
    }
  }
}
