/**
 The remaining scheduler operations, each as one step on the task lists: suspending and
 resuming the scheduler, blocking, waking, changing priorities and choosing the next task.
 */
module SchedulerSteps {
  import opened Rings
  import opened Ticks
  import opened Priorities
  import opened Scheduler
  import opened SchedulerTime

  // ----- unwinding pended ticks -----

  /** What `xTaskIncrementTick` returns: whether a context switch is called for. */
  predicate SwitchRequired(s: Sched, r: Sched)
    requires s.current in s.tcb && r.tcb.Keys == s.tcb.Keys
    requires s.tcb[s.current].prio.current < |r.ready|
  {
    var p := s.tcb[s.current].prio.current;
    s.depth == 0 &&
    (|| (exists t :: t in s.tcb && s.tcb[t].state == Delayed && r.tcb[t].state.Ready? && s.tcb[t].prio.current >= p)
     || |r.ready[p].items| > 1
     || s.yieldPending)
  }

  /**
   What a processed tick asks for, by tasks alone: a yield was pending, or a task it woke has at least
   the running task's priority, or two tasks of that priority are ready and share the processor.
   */
  ghost predicate CallsForSwitch(s: Sched, r: Sched) {
    && s.current in s.tcb
    && var p := s.tcb[s.current].prio.current;
       || s.yieldPending || WokeAtLeast(s, r, p) || Shared(r, p)
  }

  ghost predicate WokeAtLeast(s: Sched, r: Sched, p: nat) {
    exists t :: t in s.tcb && t in r.tcb && s.tcb[t].state == Delayed && r.tcb[t].state.Ready? && s.tcb[t].prio.current >= p
  }

  ghost predicate Shared(r: Sched, p: nat) {
    exists t, u :: t in r.tcb && u in r.tcb && t != u && r.tcb[t].state == Ready(p) && r.tcb[u].state == Ready(p)
  }

  lemma SwitchRequiredExactly(s: Sched, r: Sched)
    requires ListsOk(r) && s.current in s.tcb && r.tcb.Keys == s.tcb.Keys
        && s.tcb[s.current].prio.current < MAX_PRIORITIES
    ensures |r.ready| == MAX_PRIORITIES
    ensures SwitchRequired(s, r) <==> s.depth == 0 && CallsForSwitch(s, r)
  {
    SharedExactly(r, s.tcb[s.current].prio.current);
    hide ListsOk, Shared;
  }

  /** A ready list has more than one item exactly if two tasks of its priority are ready. */
  lemma SharedExactly(r: Sched, p: nat)
    requires ListsOk(r) && p < MAX_PRIORITIES
    ensures |r.ready| == MAX_PRIORITIES && (|r.ready[p].items| > 1 <==> Shared(r, p))
  {
    var w := r.ready[p].items;
    assert r.ready[p].Valid();
    if |w| > 1 {
      assert w[0] in w && w[1] in w;
      Differ(w, 0, 1);
      assert r.tcb[w[0]].state == Ready(p) && r.tcb[w[1]].state == Ready(p);
    }
    if Shared(r, p) {
      var t, u :| t in r.tcb && u in r.tcb && t != u && r.tcb[t].state == Ready(p) && r.tcb[u].state == Ready(p);
      assert InReadyList(r, t) && InReadyList(r, u);
      var i :| 0 <= i < |w| && w[i] == t;
      var j :| 0 <= j < |w| && w[j] == u;
      assert i != j;
    }
  }

  /** One pended tick; a switch it calls for is left pending. */
  function PendedTick(s: Sched): Sched
    requires SchedOk(s) && s.depth == 0
  {
    TickKeeps(s);
    var r := Tick(s);
    r.(yieldPending := s.yieldPending || SwitchRequired(s, r))
  }

  lemma YieldKeeps(s: Sched, y: bool)
    requires SchedOk(s)
    ensures SchedOk(s.(yieldPending := y))
  {
    RetagKeeps(s, s.(yieldPending := y), s.current, s.tcb[s.current]);
  }

  function PendedTicks(s: Sched, k: nat): Sched
    requires SchedOk(s) && s.depth == 0
    decreases k
  {
    if k == 0 then s
    else
      TickKeeps(s);
      YieldKeeps(Tick(s), PendedTick(s).yieldPending);
      PendedTicks(PendedTick(s), k - 1)
  }

  /** Dropping what is due now and later what is due then is dropping what is due then. */
  lemma AfterAfter(w: seq<Item>, t: nat, u: nat)
    requires t <= u
    ensures After(After(w, t), u) == After(w, u)
    ensures DueNow(w, u) == DueNow(w, t) + DueNow(After(w, t), u)
  {
    var j := Reach(Values(w), t);
    var k := Reach(Values(w[j..]), u);
    ReachTwice(w, t, u);
    SplitTwice(w, j, k);
  }

  lemma ReachTwice(w: seq<Item>, t: nat, u: nat)
    requires t <= u
    ensures var j := Reach(Values(w), t); Reach(Values(w), u) == j + Reach(Values(w[j..]), u)
  {
    var j := Reach(Values(w), t);
    var k := Reach(Values(w[j..]), u);
    assert Values(w)[j..] == Values(w[j..]);
    ReachIs(Values(w), u, j + k);
  }

  lemma SplitTwice<T>(w: seq<T>, j: nat, k: nat)
    requires j + k <= |w|
    ensures w[..j + k] == w[..j] + w[j..][..k] && w[j + k..] == w[j..][k..]
  {
  }

  lemma WokeTwice(s: Sched, m: Sched, r: Sched, a: seq<Task>, b: seq<Task>)
    requires WokeExactly(s, m, a) && WokeExactly(m, r, b)
    ensures WokeExactly(s, r, a + b)
  {
  }

  lemma OwnersConcat(a: seq<Item>, b: seq<Item>)
    ensures Owners(a + b) == Owners(a) + Owners(b)
  {
  }

  /** From absolute time `now`, `k` ticks later: what is due by then is ready, the rest still sleeps. */
  ghost predicate Jumped(s: Sched, now: nat, k: nat, r: Sched) {
    && At(r, now + k) && SameButTime(s, r)
    && Wakes(r, now + k) == After(Wakes(s, now), now + k)
    && WokeExactly(s, r, Owners(DueNow(Wakes(s, now), now + k)))
  }

  /** `k` pended ticks processed one by one do what one jump by `k` would do. */
  lemma {:induction false} PendedTicksJump(s: Sched, now: nat, k: nat)
    requires SchedOk(s) && At(s, now) && s.depth == 0
    ensures Jumped(s, now, k, PendedTicks(s, k))
    decreases k
  {
    hide Jumped, At, SchedOk, PendedTick;
    if k == 0 {
      NothingDue(s, now);
    } else {
      PendedTickJumps(s, now);
      PendedTicksJump(PendedTick(s), now + 1, k - 1);
      JumpTwice(s, PendedTick(s), PendedTicks(s, k), now, k);
    }
  }

  lemma PendedTickJumps(s: Sched, now: nat)
    requires SchedOk(s) && At(s, now) && s.depth == 0
    ensures Jumped(s, now, 1, PendedTick(s))
    ensures At(PendedTick(s), now + 1) && SchedOk(PendedTick(s)) && PendedTick(s).depth == 0
  {
    hide ListsOk, PendingOk, NextOk, Above, Tick, After, DueNow, Owners, WakesFrom, SwitchRequired;
    TickKeeps(s);
    TickWakesDue(s, now);
    YieldKeeps(Tick(s), PendedTick(s).yieldPending);
  }

  lemma JumpTwice(s: Sched, m: Sched, r: Sched, now: nat, k: nat)
    requires k >= 1 && Jumped(s, now, 1, m) && Jumped(m, now + 1, k - 1, r)
    ensures Jumped(s, now, k, r)
  {
    hide At, After, DueNow, Owners, WokeExactly, Wakes;
    var w := Wakes(s, now);
    AfterAfter(w, now + 1, now + k);
    OwnersConcat(DueNow(w, now + 1), DueNow(After(w, now + 1), now + k));
    WokeTwice(s, m, r, Owners(DueNow(w, now + 1)), Owners(DueNow(After(w, now + 1), now + k)));
  }

  lemma NothingDue(s: Sched, now: nat)
    requires At(s, now)
    ensures Jumped(s, now, 0, s)
  {
    hide SchedOk, WakesFrom;
    WakesAhead(s, now);
    NoneReached(Wakes(s, now), now);
  }

  lemma NoneReached(w: seq<Item>, now: nat)
    requires forall i :: 0 <= i < |w| ==> w[i].value > now
    ensures After(w, now) == w && DueNow(w, now) == [] && Owners(DueNow(w, now)) == []
  {
    ReachIs(Values(w), now, 0);
  }

  /** Pended ticks leave a switch pending exactly if one was, or one of them calls for it. */
  lemma {:induction false} PendedTicksAskExactly(s: Sched, k: nat)
    requires ListsOk(s) && SchedOk(s) && s.depth == 0 && k > 0
    ensures var r := PendedTicks(s, k);
            WokenOrSame(s, r) && r.current == s.current && (r.yieldPending <==> CallsForSwitch(s, r))
    decreases k
  {
    hide ListsOk, SchedOk, PendedTick, CallsForSwitch, WokenOrSame;
    var m := PendedTick(s);
    PendedTickAsks(s);
    if k > 1 {
      PendedTicksAskExactly(m, k - 1);
      var r := PendedTicks(s, k);
      WokenTwice(s, m, r);
      CallsTwice(s, m, r);
    } else {
      assert PendedTicks(m, 0) == m;
    }
  }

  /** Every task is as it was, or slept before and is ready now, with the priority it had. */
  ghost predicate WokenOrSame(s: Sched, r: Sched) {
    && s.current in s.tcb && r.tcb.Keys == s.tcb.Keys
    && forall t :: t in s.tcb ==> r.tcb[t] == s.tcb[t] || (s.tcb[t].state == Delayed && r.tcb[t] == Woken(s.tcb[t]))
  }

  lemma WokenTwice(s: Sched, m: Sched, r: Sched)
    requires WokenOrSame(s, m) && WokenOrSame(m, r) && m.current == s.current
    ensures WokenOrSame(s, r)
  {
  }

  lemma CallsTwice(s: Sched, m: Sched, r: Sched)
    requires WokenOrSame(s, m) && WokenOrSame(m, r) && m.current == s.current
        && (m.yieldPending <==> CallsForSwitch(s, m))
    ensures CallsForSwitch(m, r) <==> CallsForSwitch(s, r)
  {
    var p := s.tcb[s.current].prio.current;
    assert m.tcb[m.current].prio.current == p;
    SharedStays(m, r, p);
    WokeInTwo(s, m, r, p);
    hide WokenOrSame, Shared, WokeAtLeast;
  }

  lemma SharedStays(m: Sched, r: Sched, p: nat)
    requires WokenOrSame(m, r)
    ensures Shared(m, p) ==> Shared(r, p)
  {
  }

  lemma WokeInTwo(s: Sched, m: Sched, r: Sched, p: nat)
    requires WokenOrSame(s, m) && WokenOrSame(m, r)
    ensures WokeAtLeast(s, r, p) <==> WokeAtLeast(s, m, p) || WokeAtLeast(m, r, p)
  {
    if WokeAtLeast(s, r, p) {
      var t :| t in s.tcb && t in r.tcb && s.tcb[t].state == Delayed && r.tcb[t].state.Ready?
          && s.tcb[t].prio.current >= p;
      assert m.tcb[t].state.Ready? || (m.tcb[t].state == Delayed && m.tcb[t].prio == s.tcb[t].prio);
    }
    if WokeAtLeast(s, m, p) {
      var t :| t in s.tcb && t in m.tcb && s.tcb[t].state == Delayed && m.tcb[t].state.Ready?
          && s.tcb[t].prio.current >= p;
      assert r.tcb[t].state.Ready?;
    }
    if WokeAtLeast(m, r, p) {
      var t :| t in m.tcb && t in r.tcb && m.tcb[t].state == Delayed && r.tcb[t].state.Ready?
          && m.tcb[t].prio.current >= p;
      assert s.tcb[t].state == Delayed && s.tcb[t].prio == m.tcb[t].prio;
    }
  }

  lemma PendedTickAsks(s: Sched)
    requires ListsOk(s) && SchedOk(s) && s.depth == 0
    ensures var m := PendedTick(s);
            && ListsOk(m) && SchedOk(m) && m.depth == 0 && m.current == s.current && WokenOrSame(s, m)
            && (m.yieldPending <==> CallsForSwitch(s, m))
  {
    TickKeeps(s);
    TickWakesOnly(s);
    var r := Tick(s);
    hide ListsOk, Tick;
    YieldKeeps(r, PendedTick(s).yieldPending);
    CurrentBounded(s);
    SwitchRequiredExactly(s, r);
    hide SchedOk, SwitchRequired;
    YieldIrrelevant(s, r, PendedTick(s).yieldPending);
  }

  lemma YieldIrrelevant(s: Sched, r: Sched, y: bool)
    ensures CallsForSwitch(s, r.(yieldPending := y)) <==> CallsForSwitch(s, r)
  {
    var q := r.(yieldPending := y);
    if s.current in s.tcb {
      var p := s.tcb[s.current].prio.current;
      assert Shared(q, p) <==> Shared(r, p);
      assert WokeAtLeast(s, q, p) <==> WokeAtLeast(s, r, p);
    }
  }

  lemma CurrentBounded(s: Sched)
    requires ListsOk(s)
    ensures s.current in s.tcb && s.tcb[s.current].prio.current < MAX_PRIORITIES
  {
  }

  /** A processed tick readies sleepers and does nothing else to tasks. */
  lemma TickWakesOnly(s: Sched)
    requires ListsOk(s) && SchedOk(s) && s.depth == 0
    ensures WokenOrSame(s, Tick(s)) && Tick(s).current == s.current
  {
    TickKeeps(s);
    TickLists(s);
    TurnOk(s);
    CurrentBounded(s);
    var s1 := Turn(s);
    hide Tick, Turn, SchedOk;
    forall t | t in Owners(DueNow(s1.delayed, s1.tick)) ensures t in s.tcb && s.tcb[t].state == Delayed {
      DueSleeps(s1, t);
    }
    hide ListsOk;
  }

  lemma DueSleeps(s: Sched, u: Task)
    requires ListsOk(s) && u in Owners(DueNow(s.delayed, s.tick))
    ensures u in s.tcb && s.tcb[u].state == Delayed
  {
    hide Reach, ReadyOk, SuspendedOk, NoDup, Sorted;
    var i :| 0 <= i < |DueNow(s.delayed, s.tick)| && Owners(DueNow(s.delayed, s.tick))[i] == u;
    assert Owners(s.delayed)[i] == u;
    assert Sleepers(s)[i] == u;
  }

  // ----- taking a task out of the delays -----

  lemma {:induction false} WithoutOwnerShift(s: seq<Item>, base: nat, t: Task)
    ensures Shift(WithoutOwner(s, t), base) == WithoutOwner(Shift(s, base), t)
  {
    if s != [] {
      WithoutOwnerShift(s[1..], base, t);
      assert Shift(s, base)[1..] == Shift(s[1..], base);
      assert Shift([s[0]] + WithoutOwner(s[1..], t), base) == [Shift(s, base)[0]] + Shift(WithoutOwner(s[1..], t), base);
    }
  }

  lemma {:induction false} WithoutOwnerConcat(a: seq<Item>, b: seq<Item>, t: Task)
    ensures WithoutOwner(a + b, t) == WithoutOwner(a, t) + WithoutOwner(b, t)
  {
    if a == [] {
      assert a + b == b;
    } else {
      assert (a + b)[1..] == a[1..] + b;
      WithoutOwnerConcat(a[1..], b, t);
    }
  }

  lemma OwnersOfWakes(s: Sched, now: nat)
    ensures Owners(Wakes(s, now)) == Sleepers(s)
  {
  }

  /** Unlisting a task removes its wake time, if it has one, and no other. */
  lemma UnlistWakes(s: Sched, t: Task, now: nat)
    requires ListsOk(s) && t in s.tcb
    ensures Wakes(Unlist(s, t), now) == WithoutOwner(Wakes(s, now), t)
  {
    hide ReadyOk, SuspendedOk, DelaysOk, TasksOk, WithoutOwner, Shift;
    var e := EpochStart(now);
    if s.tcb[t].state == Delayed {
      WithoutOwnerShift(s.delayed, e, t);
      WithoutOwnerShift(s.overflow, e + M, t);
      WithoutOwnerConcat(Shift(s.delayed, e), Shift(s.overflow, e + M), t);
    } else {
      NotAsleep(s, t, now);
    }
  }

  lemma NotAsleep(s: Sched, t: Task, now: nat)
    requires DelaysOk(s) && t in s.tcb && s.tcb[t].state != Delayed
    ensures WithoutOwner(Wakes(s, now), t) == Wakes(s, now)
  {
    OwnersOfWakes(s, now);
    SameAbsent(Wakes(s, now), t);
  }

  lemma WakeWakes(s: Sched, t: Task, now: nat)
    requires ListsOk(s) && t in s.tcb
    ensures Wakes(Wake(s, t), now) == WithoutOwner(Wakes(s, now), t)
  {
    UnlistWakes(s, t, now);
    UnlistKeeps(s, t);
    UneventKeeps(Unlist(s, t), t);
    hide ListsOk, WakesFrom;
  }

  // ----- resuming the scheduler -----

  function WithoutOwners(s: seq<Item>, ts: seq<Task>): seq<Item>
    decreases |ts|
  {
    if ts == [] then s else WithoutOwners(WithoutOwner(s, ts[0]), ts[1..])
  }

  /** One turn of the loop that empties the pending-ready list. */
  function FlushOne(s: Sched): Sched
    requires ListsOk(s) && s.pending != [] && s.pending[0] in s.tcb
  {
    var t := s.pending[0];
    Wake(s, t).(yieldPending := s.yieldPending || s.tcb[t].prio.current >= s.tcb[s.current].prio.current)
  }

  function Flush(s: Sched): Sched
    requires SchedOk(s)
    decreases |s.pending|
  {
    if s.pending == [] then s
    else
      FlushOneKeeps(s);
      Flush(FlushOne(s))
  }

  lemma FlushOneKeeps(s: Sched)
    requires SchedOk(s) && s.pending != []
    ensures s.pending[0] in s.tcb && SchedOk(FlushOne(s)) && FlushOne(s).pending == s.pending[1..]
    ensures SameClockButYield(s, FlushOne(s)) && FlushOne(s).tcb == s.tcb[s.pending[0] := Woken(s.tcb[s.pending[0]])]
  {
    hide ListsOk, PendingOk, Wake, Without;
    var t := s.pending[0];
    PendingHead(s);
    WakeKeeps(s, t);
    WakePending(s, t);
    YieldKeeps(Wake(s, t), FlushOne(s).yieldPending);
    WakeTakesPending(s, t);
  }

  lemma PendingHead(s: Sched)
    requires PendingOk(s) && s.pending != []
    ensures var t := s.pending[0];
            t in s.tcb && s.tcb[t].event == PendingReady && Without(s.pending, t) == s.pending[1..]
  {
    assert s.pending[0] in s.pending;
    WithoutAt(s.pending, 0);
    assert s.pending[..0] + s.pending[1..] == s.pending[1..];
  }

  lemma WakeTakesPending(s: Sched, t: Task)
    requires ListsOk(s) && t in s.tcb && s.tcb[t].event == PendingReady
    ensures Wake(s, t).pending == Without(s.pending, t)
  {
    UnlistKeeps(s, t);
    hide ListsOk;
  }

  ghost predicate SameClockButYield(s: Sched, r: Sched) {
    SameClock(s.(yieldPending := r.yieldPending), r)
  }

  ghost predicate Flushed(s: Sched, now: nat, r: Sched) {
    && At(r, now) && r.pending == [] && SameClockButYield(s, r)
    && Wakes(r, now) == WithoutOwners(Wakes(s, now), s.pending)
    && WokeExactly(s, r, s.pending)
  }

  /** Every task of the pending-ready list is moved to its ready list, whatever it was waiting for. */
  lemma {:induction false} FlushWakes(s: Sched, now: nat)
    requires SchedOk(s) && At(s, now)
    ensures Flushed(s, now, Flush(s))
    decreases |s.pending|
  {
    if s.pending != [] {
      FlushOneKeeps(s);
      WakeWakes(s, s.pending[0], now);
      hide SchedOk, FlushOne, Wakes, Flushed;
      FlushWakes(FlushOne(s), now);
      FlushGoesOn(s, now, FlushOne(s), Flush(s));
    }
  }

  lemma FlushGoesOn(s: Sched, now: nat, m: Sched, r: Sched)
    requires s.pending != [] && s.pending[0] in s.tcb && m.pending == s.pending[1..]
    requires SameClockButYield(s, m) && m.tcb == s.tcb[s.pending[0] := Woken(s.tcb[s.pending[0]])]
    requires Wakes(m, now) == WithoutOwner(Wakes(s, now), s.pending[0])
    requires Flushed(m, now, r)
    ensures Flushed(s, now, r)
  {
    hide At, Wakes, WokeExactly;
    WokeFirst(s, m, r, s.pending);
  }

  lemma WokeFirst(s: Sched, m: Sched, r: Sched, who: seq<Task>)
    requires who != [] && who[0] in s.tcb && m.tcb == s.tcb[who[0] := Woken(s.tcb[who[0]])]
    requires WokeExactly(m, r, who[1..])
    ensures WokeExactly(s, r, who)
  {
    assert who == [who[0]] + who[1..];
  }

  /** After the pending tasks are moved, the cached unblock time is recomputed if there were any. */
  function Refresh(s: Sched, any: bool): Sched {
    s.(depth := 0, nextUnblock := if any then HeadOrMax(s.delayed) else s.nextUnblock)
  }

  lemma RefreshKeeps(s: Sched, any: bool)
    requires SchedOk(s) && s.pending == []
    ensures SchedOk(Refresh(s, any))
  {
    var r := Refresh(s, any);
    RetagKeeps(s, r, s.current, s.tcb[s.current]);
    if any {
      HeadBelow(s.(nextUnblock := HeadOrMax(s.delayed))) by {
        RetagKeeps(s, s.(nextUnblock := HeadOrMax(s.delayed)), s.current, s.tcb[s.current]);
      }
    }
  }

  /** `xTaskResumeAll`. */
  function Resume(s: Sched): Sched
    requires SchedOk(s) && s.depth > 0
  {
    if s.depth > 1 then s.(depth := s.depth - 1)
    else
      FlushKeeps(s);
      RefreshKeeps(Flush(s), s.pending != []);
      PendedTicks(Refresh(Flush(s), s.pending != []), s.pendedTicks).(pendedTicks := 0)
  }

  lemma FlushKeeps(s: Sched)
    requires SchedOk(s)
    ensures SchedOk(Flush(s)) && Flush(s).pending == [] && Flush(s).pendedTicks == s.pendedTicks
  {
    ClockShows(s);
    FlushWakes(s, Clock(s));
  }

  /**
   Resuming the scheduler reaches the one-shot specification: the clock stands `k` ticks later,
   the pending tasks and exactly the delayed tasks due by then are ready, nothing is pended.
   */
  ghost predicate Resumed(s: Sched, now: nat, r: Sched) {
    var w := WithoutOwners(Wakes(s, now), s.pending);
    && At(r, now + s.pendedTicks)
    && r.pendedTicks == 0 && r.depth == 0 && r.pending == [] && r.current == s.current
    && Wakes(r, now + s.pendedTicks) == After(w, now + s.pendedTicks)
    && WokeExactly(s, r, s.pending + Owners(DueNow(w, now + s.pendedTicks)))
  }

  lemma ResumeIsOneShot(s: Sched, now: nat)
    requires SchedOk(s) && At(s, now) && s.depth == 1
    ensures Resumed(s, now, Resume(s))
  {
    var f := Flush(s);
    var g := Refresh(f, s.pending != []);
    FlushWakes(s, now);
    FlushKeeps(s);
    RefreshKeeps(f, s.pending != []);
    RefreshWakes(f, s.pending != [], now);
    PendedTicksJump(g, now, s.pendedTicks);
    hide Flush, Refresh, SchedOk, Wakes, DueNow, After, Owners, PendedTicks;
    ResumeDone(s, f, g, PendedTicks(g, s.pendedTicks), now);
  }

  lemma RefreshWakes(s: Sched, any: bool, now: nat)
    ensures Wakes(Refresh(s, any), now) == Wakes(s, now)
  {
  }

  lemma ResumeDone(s: Sched, f: Sched, g: Sched, h: Sched, now: nat)
    requires Flushed(s, now, f) && g.tcb == f.tcb && Wakes(g, now) == Wakes(f, now)
    requires g.depth == 0 && g.current == f.current && g.pendedTicks == f.pendedTicks
    requires Jumped(g, now, s.pendedTicks, h)
    ensures Resumed(s, now, h.(pendedTicks := 0))
  {
    hide At, Wakes, DueNow, After, Owners, WithoutOwners;
    var w := WithoutOwners(Wakes(s, now), s.pending);
    var due := Owners(DueNow(w, now + s.pendedTicks));
    WokeTwice(s, f, h, s.pending, due);
    PendedCleared(h, now + s.pendedTicks);
  }

  lemma PendedCleared(s: Sched, now: nat)
    requires At(s, now)
    ensures At(s.(pendedTicks := 0), now) && Wakes(s.(pendedTicks := 0), now) == Wakes(s, now)
    ensures s.depth == 0 ==> s.pending == []
  {
    RetagKeeps(s, s.(pendedTicks := 0), s.current, s.tcb[s.current]);
  }

  // ----- the cached unblock time -----

  /** The cache is the wake value of the next sleeper, or the maximum: neither stale-high nor stale-low. */
  predicate CacheExact(s: Sched) { s.nextUnblock == HeadOrMax(s.delayed) }

  lemma TickKeepsCache(s: Sched)
    requires ListsOk(s) && SchedOk(s) && s.depth == 0 && CacheExact(s)
    ensures CacheExact(Tick(s))
  {
    hide ListsOk, SchedOk, Drain, Turn;
    TurnOk(s);
    TurnKeepsCache(s);
    DrainWakesDue(Turn(s));
  }

  lemma TurnKeepsCache(s: Sched)
    requires CacheExact(s)
    ensures CacheExact(Turn(s))
  {
    hide Plus;
  }

  lemma {:induction false} PendedTicksKeepCache(s: Sched, k: nat)
    requires SchedOk(s) && s.depth == 0 && CacheExact(s)
    ensures CacheExact(PendedTicks(s, k))
    decreases k
  {
    hide SchedOk, PendedTick, CacheExact;
    if k > 0 {
      PendedTickKeepsCache(s);
      PendedTicksKeepCache(PendedTick(s), k - 1);
    }
  }

  lemma PendedTickKeepsCache(s: Sched)
    requires SchedOk(s) && s.depth == 0 && CacheExact(s)
    ensures SchedOk(PendedTick(s)) && PendedTick(s).depth == 0 && CacheExact(PendedTick(s))
  {
    TickKeepsCache(s);
    hide Tick, ListsOk;
    TickKeeps(s);
    YieldKeeps(Tick(s), PendedTick(s).yieldPending);
  }

  /** A resume that moves a task leaves the cache exact; one that moves none keeps it exact. */
  lemma ResumeCachesNext(s: Sched)
    requires SchedOk(s) && s.depth == 1 && (s.pending != [] || CacheExact(s))
    ensures CacheExact(Resume(s))
  {
    FlushKeeps(s);
    RefreshKeeps(Flush(s), s.pending != []);
    var g := Refresh(Flush(s), s.pending != []);
    assert CacheExact(g);
    hide SchedOk, Flush, Refresh;
    PendedTicksKeepCache(g, s.pendedTicks);
    hide PendedTicks;
  }

  // ----- blocking -----

  /** The calling task leaves its ready list, and a past abort is forgotten. */
  function Freed(s: Sched): Sched
    requires ListsOk(s)
  {
    var t := s.current;
    var s1 := s.(tcb := s.tcb[t := s.tcb[t].(delayAborted := false)]);
    RetagKeeps(s, s1, t, s1.tcb[t]);
    Unlist(s1, t)
  }

  /** `prvAddCurrentTaskToDelayedList`. */
  function Block(s: Sched, ticks: nat, indefinitely: bool): Sched
    requires ListsOk(s)
  {
    FreedTcb(s);
    if ticks == MAX_DELAY && indefinitely then Park(Freed(s), s.current) else Sleep(Freed(s), s.current, ticks)
  }

  lemma FreedTcb(s: Sched)
    requires ListsOk(s)
    ensures Freed(s).tcb == s.tcb[s.current := s.tcb[s.current].(delayAborted := false, state := Nowhere)]
    ensures SameClock(s, Freed(s)) && Freed(s).pending == s.pending
  {
    var t := s.current;
    var s1 := s.(tcb := s.tcb[t := s.tcb[t].(delayAborted := false)]);
    RetagKeeps(s, s1, t, s1.tcb[t]);
    hide ListsOk, Unlist;
    UnlistSame(s1, t);
  }

  /** The calling task has put its event item on an event list. */
  function Awaiting(s: Sched): (r: Sched)
    requires ListsOk(s)
    ensures ListsOk(r)
  {
    var t := s.current;
    var r := s.(tcb := s.tcb[t := s.tcb[t].(event := Waiting)]);
    RetagKeeps(s, r, t, r.tcb[t]);
    r
  }

  /** Park an unlisted task on the suspended list. */
  function Park(s: Sched, t: Task): Sched
    requires t in s.tcb
  {
    s.(suspended := s.suspended + [t], tcb := s.tcb[t := s.tcb[t].(state := Suspended)])
  }

  lemma ParkKeeps(s: Sched, t: Task)
    requires SchedOk(s) && t in s.tcb && s.tcb[t].state == Nowhere
    ensures SchedOk(Park(s, t))
  {
    hide ReadyOk, DelaysOk, TasksOk;
    var r, x := Park(s, t), s.tcb[t].(state := Suspended);
    ReadyFrame(s, r, t, x);
    DelaysFrame(s, r, t, x);
    TasksFrame(s, r, t, x);
    assert NoDup(r.suspended) by {
      NoDupInsert(s.suspended, |s.suspended|, t);
      assert s.suspended[..|s.suspended|] + [t] + s.suspended[|s.suspended|..] == r.suspended;
    }
  }

  lemma TasksFrame(s: Sched, r: Sched, t: Task, x: Tcb)
    requires TasksOk(s) && t in s.tcb && r.tcb == s.tcb[t := x] && r.current == s.current
    requires x.prio == s.tcb[t].prio
    ensures TasksOk(r)
  {
  }

  lemma RetagOk(s: Sched, t: Task, x: Tcb)
    requires SchedOk(s) && t in s.tcb && x.state == s.tcb[t].state && x.prio == s.tcb[t].prio
    requires x.event == PendingReady <==> s.tcb[t].event == PendingReady
    ensures SchedOk(s.(tcb := s.tcb[t := x]))
  {
    hide ListsOk;
    RetagKeeps(s, s.(tcb := s.tcb[t := x]), t, x);
  }

  lemma PendingFrame(s: Sched, r: Sched)
    requires PendingOk(s) && r.pending == s.pending && r.depth == s.depth && r.tcb.Keys == s.tcb.Keys
    requires forall t :: t in s.tcb ==> r.tcb[t].event == s.tcb[t].event
    ensures PendingOk(r)
  {
  }

  lemma UnlistSame(s: Sched, t: Task)
    requires ListsOk(s) && t in s.tcb
    ensures var r := Unlist(s, t);
            SameClock(s, r) && r.pending == s.pending && r.tcb == s.tcb[t := s.tcb[t].(state := Nowhere)]
  {
    UnlistKeeps(s, t);
    hide ListsOk;
  }

  lemma UnlistOk(s: Sched, t: Task)
    requires SchedOk(s) && t in s.tcb
    ensures ListsOk(Unlist(s, t)) && SchedOk(Unlist(s, t))
  {
    hide ListsOk, PendingOk, NextOk, Above, Unlist;
    UnlistKeeps(s, t);
    UnlistSame(s, t);
    PendingFrame(s, Unlist(s, t));
  }

  function BlockedWakes(s: Sched, ticks: nat, indefinitely: bool, now: nat): seq<Item> {
    var w := WithoutOwner(Wakes(s, now), s.current);
    if ticks == MAX_DELAY && indefinitely then w else InsertSorted(w, Item(s.current, now + ticks))
  }

  function Blocked(x: Tcb, ticks: nat, indefinitely: bool): Tcb {
    x.(delayAborted := false, state := if ticks == MAX_DELAY && indefinitely then Suspended else Delayed)
  }

  /**
   Blocking for a number of ticks inserts the absolute wake time; blocking indefinitely only
   takes the task off the ready lists.
   */
  lemma BlockWakes(s: Sched, ticks: nat, indefinitely: bool, now: nat)
    requires ListsOk(s) && SchedOk(s) && At(s, now) && 1 <= ticks < M
    ensures var r := Block(s, ticks, indefinitely); At(r, now) && SameClock(s, r) && r.pending == s.pending
    ensures Wakes(Block(s, ticks, indefinitely), now) == BlockedWakes(s, ticks, indefinitely, now)
    ensures Block(s, ticks, indefinitely).tcb == s.tcb[s.current := Blocked(s.tcb[s.current], ticks, indefinitely)]
  {
    hide ListsOk, SchedOk, Freed, Wakes, Sleep, Park, InsertSorted, WithoutOwner;
    FreedWakes(s, now);
    FreedTcb(s);
    MovedTcb(Freed(s), s.current, ticks);
    BlockedFrom(Freed(s), s.current, ticks, indefinitely, now);
  }

  lemma FreedWakes(s: Sched, now: nat)
    requires SchedOk(s) && At(s, now)
    ensures SchedOk(Freed(s)) && At(Freed(s), now) && Wakes(Freed(s), now) == WithoutOwner(Wakes(s, now), s.current)
  {
    var t, x := s.current, s.tcb[s.current].(delayAborted := false);
    var s1 := s.(tcb := s.tcb[t := x]);
    RetagOk(s, t, x);
    UnlistWakes(s1, t, now);
    hide ListsOk, NextOk, PendingOk, Above, WakesFrom, Unlist;
    UnlistOk(s1, t);
    UnlistSame(s1, t);
  }

  lemma MovedTcb(s: Sched, t: Task, ticks: nat)
    requires t in s.tcb
    ensures var r := Park(s, t);
            SameClock(s, r) && r.pending == s.pending && r.tcb == s.tcb[t := s.tcb[t].(state := Suspended)]
    ensures var r := Sleep(s, t, ticks);
            SameClock(s, r) && r.pending == s.pending && r.tcb == s.tcb[t := s.tcb[t].(state := Delayed)]
  {
  }

  lemma BlockedFrom(s: Sched, t: Task, ticks: nat, indefinitely: bool, now: nat)
    requires SchedOk(s) && At(s, now) && 1 <= ticks < M && t in s.tcb && s.tcb[t].state == Nowhere
    ensures At(Park(s, t), now) && At(Sleep(s, t, ticks), now)
    ensures Wakes(Park(s, t), now) == Wakes(s, now)
    ensures Wakes(Sleep(s, t, ticks), now) == InsertSorted(Wakes(s, now), Item(t, now + ticks))
  {
    BelowM(s);
    hide SchedOk, WakesFrom, InsertSorted;
    ParkKeeps(s, t);
    SleepKeeps(s, t, ticks);
    SleepInserts(s, t, ticks, now);
  }

  lemma BelowM(s: Sched)
    requires SchedOk(s)
    ensures Below(s.delayed, M)
  {
  }
}
