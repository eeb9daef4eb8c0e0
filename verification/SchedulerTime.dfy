/**
 Time in the scheduler.  The two delayed lists over modular ticks are compared with one list
 of absolute wake times: entering a delay is a stable sorted insertion into that list, and a
 processed tick drops exactly what is due.
 */
module SchedulerTime {
  import opened Rings
  import opened Ticks
  import opened Scheduler

  // ----- the reference: one list of absolute wake times -----

  function Shift(s: seq<Item>, base: nat): (r: seq<Item>)
    ensures |r| == |s| && forall i :: 0 <= i < |s| ==> r[i] == Item(s[i].owner, s[i].value + base)
  {
    seq(|s|, i requires 0 <= i < |s| => Item(s[i].owner, s[i].value + base))
  }

  /** The wake times the two lists stand for when the absolute time is `now`. */
  function Wakes(s: Sched, now: nat): seq<Item> { WakesFrom(s.delayed, s.overflow, EpochStart(now)) }

  function WakesFrom(delayed: seq<Item>, overflow: seq<Item>, epoch: nat): seq<Item> {
    Shift(delayed, epoch) + Shift(overflow, epoch + M)
  }

  /** What is left of a list of wake times once time `now` has been processed. */
  function After(w: seq<Item>, now: nat): seq<Item> { w[Reach(Values(w), now)..] }

  function DueNow(w: seq<Item>, now: nat): seq<Item> { w[..Reach(Values(w), now)] }

  ghost predicate SchedOk(s: Sched) {
    ListsOk(s) && PendingOk(s) && NextOk(s) && Above(s.delayed, s.tick)
  }

  /** A consistent state at absolute time `now`: the tick count and the overflow count show it. */
  ghost predicate At(s: Sched, now: nat) { SchedOk(s) && s.tick == now % M && s.overflows == now / M }

  /** The absolute time a state shows. */
  function Clock(s: Sched): nat { s.overflows * M + s.tick }

  lemma ClockShows(s: Sched)
    requires SchedOk(s)
    ensures At(s, Clock(s))
  {
    DivModUnique(s.overflows, s.tick);
  }

  // ----- entering a delay -----

  /** The timed half of `prvAddCurrentTaskToDelayedList`. */
  function Sleep(s: Sched, t: Task, ticks: nat): Sched
    requires t in s.tcb
  {
    var wake := Plus(s.tick, ticks);
    var s1 := s.(tcb := s.tcb[t := s.tcb[t].(state := Delayed)]);
    if wake < s.tick then
      s1.(overflow := InsertSorted(s.overflow, Item(t, wake)))
    else
      s1.(delayed := InsertSorted(s.delayed, Item(t, wake)),
          nextUnblock := if wake < s.nextUnblock then wake else s.nextUnblock)
  }

  lemma ShiftValues(s: seq<Item>, base: nat, v: nat)
    ensures Reach(Values(Shift(s, base)), v + base) == Reach(Values(s), v)
  {
    ReachIs(Values(Shift(s, base)), v + base, Reach(Values(s), v));
  }

  lemma ShiftSpliced(s: seq<Item>, p: nat, x: Item, base: nat)
    requires p <= |s|
    ensures Shift(s[..p] + [x] + s[p..], base) == Shift(s, base)[..p] + [Item(x.owner, x.value + base)] + Shift(s, base)[p..]
  {
  }

  /** Where an insertion into a concatenation happens when one half is out of reach. */
  lemma ReachFirst(a: seq<Item>, b: seq<Item>, v: nat)
    requires forall i :: 0 <= i < |b| ==> b[i].value > v
    ensures Reach(Values(a + b), v) == Reach(Values(a), v)
  {
    ReachIs(Values(a + b), v, Reach(Values(a), v));
  }

  lemma ReachSecond(a: seq<Item>, b: seq<Item>, v: nat)
    requires forall i :: 0 <= i < |a| ==> a[i].value <= v
    ensures Reach(Values(a + b), v) == |a| + Reach(Values(b), v)
  {
    ReachIs(Values(a + b), v, |a| + Reach(Values(b), v));
  }

  lemma SpliceFirst<T>(a: seq<T>, b: seq<T>, p: nat, x: T)
    requires p <= |a|
    ensures (a + b)[..p] + [x] + (a + b)[p..] == (a[..p] + [x] + a[p..]) + b
  {
  }

  lemma SpliceSecond<T>(a: seq<T>, b: seq<T>, p: nat, x: T)
    requires p <= |b|
    ensures (a + b)[..|a| + p] + [x] + (a + b)[|a| + p..] == a + (b[..p] + [x] + b[p..])
  {
  }

  /** Insertion into the first of two shifted lists is insertion into their concatenation. */
  lemma InsertFirst(d: seq<Item>, o: seq<Item>, x: Item, e: nat)
    requires x.value < M
    ensures Shift(InsertSorted(d, x), e) + Shift(o, e + M)
         == InsertSorted(Shift(d, e) + Shift(o, e + M), Item(x.owner, x.value + e))
  {
    var p := Reach(Values(d), x.value);
    var a, b := Shift(d, e), Shift(o, e + M);
    ReachFirst(a, b, x.value + e);
    hide Values, Reach, Shift;
    ShiftValues(d, e, x.value);
    ShiftSpliced(d, p, x, e);
    SpliceFirst(a, b, p, Item(x.owner, x.value + e));
  }

  lemma ShiftBelow(d: seq<Item>, e: nat)
    requires Below(d, M)
    ensures forall i :: 0 <= i < |d| ==> Shift(d, e)[i].value <= e + M
  {
  }

  lemma InsertSecond(d: seq<Item>, o: seq<Item>, x: Item, e: nat)
    requires Below(d, M)
    ensures Shift(d, e) + Shift(InsertSorted(o, x), e + M)
         == InsertSorted(Shift(d, e) + Shift(o, e + M), Item(x.owner, x.value + e + M))
  {
    hide Values, Reach, Shift, Below;
    var p := Reach(Values(o), x.value);
    var a, b := Shift(d, e), Shift(o, e + M);
    ShiftBelow(d, e);
    ReachSecond(a, b, x.value + e + M);
    ShiftValues(o, e + M, x.value);
    ShiftSpliced(o, p, x, e + M);
    SpliceSecond(a, b, p, Item(x.owner, x.value + e + M));
  }

  /** Entering a delay inserts the absolute wake time, behind equal ones. */
  lemma SleepInserts(s: Sched, t: Task, ticks: nat, now: nat)
    requires Below(s.delayed, M) && s.tick == now % M && t in s.tcb && ticks < M
    ensures Wakes(Sleep(s, t, ticks), now) == InsertSorted(Wakes(s, now), Item(t, now + ticks))
  {
    hide InsertSorted, Shift;
    Advance(now, ticks);
    var x := Item(t, Plus(s.tick, ticks));
    if x.value < s.tick {
      InsertSecond(s.delayed, s.overflow, x, EpochStart(now));
    } else {
      InsertFirst(s.delayed, s.overflow, x, EpochStart(now));
    }
  }

  /** The cache of the next unblock time follows a new head of the delayed list, and nothing else. */
  lemma SleepCachesNext(s: Sched, t: Task, ticks: nat)
    requires t in s.tcb && NextOk(s)
    ensures var r := Sleep(s, t, ticks);
            r.nextUnblock == if HeadOrMax(r.delayed) < s.nextUnblock then HeadOrMax(r.delayed) else s.nextUnblock
  {
    var wake := Plus(s.tick, ticks);
    assert wake <= MAX_DELAY;
    hide Plus;
    if wake >= s.tick && s.delayed != [] {
      assert Values(s.delayed)[0] == s.delayed[0].value;
    }
  }

  lemma SleepKeeps(s: Sched, t: Task, ticks: nat)
    requires SchedOk(s) && t in s.tcb && s.tcb[t].state == Nowhere && 1 <= ticks < M
    ensures SchedOk(Sleep(s, t, ticks))
  {
    hide ReadyOk, SuspendedOk, DelaysOk, InsertSorted, Plus, NextOk, Above;
    var r, x := Sleep(s, t, ticks), s.tcb[t].(state := Delayed);
    ReadyFrame(s, r, t, x);
    SuspendedFrame(s, r, t, x);
    SleepDelays(s, t, ticks);
  }

  lemma OwnersSpliced(s: seq<Item>, p: nat, x: Item)
    requires p <= |s|
    ensures Owners(s[..p] + [x] + s[p..]) == Owners(s)[..p] + [x.owner] + Owners(s)[p..]
  {
  }

  /** A new sleeper at place `q` among the sleepers. */
  lemma SleepersGrow(s: Sched, r: Sched, t: Task, q: nat)
    requires DelaysOk(s) && t in s.tcb && s.tcb[t].state == Nowhere && q <= |Sleepers(s)|
    requires Sleepers(r) == Sleepers(s)[..q] + [t] + Sleepers(s)[q..]
    requires r.tcb == s.tcb[t := s.tcb[t].(state := Delayed)]
    ensures NoDup(Sleepers(r))
    ensures forall u :: u in Sleepers(r) <==> u in r.tcb && r.tcb[u].state == Delayed
  {
    NoDupInsert(Sleepers(s), q, t);
    assert Sleepers(s) == Sleepers(s)[..q] + Sleepers(s)[q..];
  }

  lemma InsertBounds(s: seq<Item>, x: Item, lo: nat, hi: nat)
    ensures Below(s, hi) && x.value < hi ==> Below(InsertSorted(s, x), hi)
    ensures Above(s, lo) && x.value > lo ==> Above(InsertSorted(s, x), lo)
    ensures InsertSorted(s, x)[0] == x || (s != [] && InsertSorted(s, x)[0] == s[0] && s[0].value <= x.value)
  {
  }

  lemma SleepDelays(s: Sched, t: Task, ticks: nat)
    requires SchedOk(s) && t in s.tcb && s.tcb[t].state == Nowhere && 1 <= ticks < M
    ensures DelaysOk(Sleep(s, t, ticks)) && Above(Sleep(s, t, ticks).delayed, s.tick) && NextOk(Sleep(s, t, ticks))
  {
    hide ReadyOk;
    hide SuspendedOk;
    hide PendingOk;
    hide TasksOk;
    Advance(s.tick, ticks);
    DivModUnique(0, s.tick);
    var x := Item(t, Plus(s.tick, ticks));
    if x.value < s.tick {
      SleepOverflow(s, t, ticks, x);
    } else {
      SleepCurrent(s, t, ticks, x);
    }
  }

  lemma SleepOverflow(s: Sched, t: Task, ticks: nat, x: Item)
    requires DelaysOk(s) && t in s.tcb && s.tcb[t].state == Nowhere
    requires x == Item(t, Plus(s.tick, ticks)) && x.value < s.tick
    ensures DelaysOk(Sleep(s, t, ticks))
  {
    hide Reach, Values, Plus, Owners, Sorted, NoDup, Below;
    var p, r := Reach(Values(s.overflow), x.value), Sleep(s, t, ticks);
    OwnersSpliced(s.overflow, p, x);
    SpliceSecond(Owners(s.delayed), Owners(s.overflow), p, t);
    SleepersGrow(s, r, t, |s.delayed| + p);
    InsertSortedStable(s.overflow, x);
    InsertBounds(s.overflow, x, 0, M);
  }

  lemma SleepCurrent(s: Sched, t: Task, ticks: nat, x: Item)
    requires DelaysOk(s) && t in s.tcb && s.tcb[t].state == Nowhere && Above(s.delayed, s.tick) && NextOk(s)
    requires x == Item(t, Plus(s.tick, ticks)) && s.tick < x.value < M
    ensures DelaysOk(Sleep(s, t, ticks)) && Above(Sleep(s, t, ticks).delayed, s.tick) && NextOk(Sleep(s, t, ticks))
  {
    hide Reach, Values, Plus, Owners, Sorted, NoDup, Below;
    var p, r := Reach(Values(s.delayed), x.value), Sleep(s, t, ticks);
    OwnersSpliced(s.delayed, p, x);
    SpliceFirst(Owners(s.delayed), Owners(s.overflow), p, t);
    SleepersGrow(s, r, t, p);
    InsertSortedStable(s.delayed, x);
    InsertBounds(s.delayed, x, s.tick, M);
  }

  // ----- a processed tick -----

  /** `taskSWITCH_DELAYED_LISTS`. */
  function Switch(s: Sched): Sched {
    s.(delayed := s.overflow, overflow := s.delayed, overflows := s.overflows + 1, nextUnblock := HeadOrMax(s.overflow))
  }

  ghost predicate HeadDue(s: Sched) { s.delayed != [] && s.delayed[0].value <= s.tick }

  /** The loop of `xTaskIncrementTick`: wake the head of the delayed list while it is due. */
  function Drain(s: Sched): (r: Sched)
    requires ListsOk(s)
    decreases |s.delayed|
  {
    if s.delayed == [] || s.delayed[0].value > s.tick then s.(nextUnblock := HeadOrMax(s.delayed))
    else
      HeadWakes(s);
      Drain(Wake(s, s.delayed[0].owner))
  }

  function Tick(s: Sched): Sched
    requires ListsOk(s)
  {
    if s.depth > 0 then s.(pendedTicks := Plus(s.pendedTicks, 1))
    else
      TurnKeeps(s);
      var s1 := Turn(s);
      if s1.tick >= s1.nextUnblock then Drain(s1) else s1
  }

  /** The new tick value, and the list switch if it is zero. */
  function Turn(s: Sched): Sched {
    var s1 := s.(tick := Plus(s.tick, 1));
    if s1.tick == 0 then Switch(s1) else s1
  }

  lemma TurnKeeps(s: Sched)
    requires ListsOk(s)
    ensures ListsOk(Turn(s))
  {
    hide ReadyOk, DelaysOk;
    TurnReady(s);
    TurnDelays(s);
  }

  lemma TurnReady(s: Sched)
    requires ReadyOk(s)
    ensures ReadyOk(Turn(s))
  {
    var r := Turn(s);
    forall u | u in r.tcb && r.tcb[u].state.Ready? ensures InReadyList(r, u) {
      assert InReadyList(s, u);
    }
  }

  lemma TurnDelays(s: Sched)
    requires DelaysOk(s)
    ensures DelaysOk(Turn(s))
  {
    var r := Turn(s);
    assert r.tick < M;
    if r.tick == 0 {
      assert Sleepers(s) == Owners(s.delayed) + Owners(s.overflow);
      assert Sleepers(r) == Sleepers(s)[|s.delayed|..] + Sleepers(s)[..|s.delayed|];
      NoDupRotate(Sleepers(s), |s.delayed|);
      assert Sleepers(s) == Sleepers(s)[..|s.delayed|] + Sleepers(s)[|s.delayed|..];
    }
  }

  lemma WithoutHead(s: seq<Item>, t: Task)
    requires s != [] && s[0].owner == t && t !in Owners(s[1..])
    ensures WithoutOwner(s, t) == s[1..]
  {
    SameAbsent(s[1..], t);
  }

  /** Waking the head takes it off the delayed list and leaves the overflow list alone. */
  lemma HeadWakes(s: Sched)
    requires ListsOk(s) && s.delayed != []
    ensures var t := s.delayed[0].owner;
            && t in s.tcb && s.tcb[t].state == Delayed
            && ListsOk(Wake(s, t))
            && Wake(s, t).delayed == s.delayed[1..] && Wake(s, t).overflow == s.overflow
            && Wake(s, t).tick == s.tick
  {
    var t := s.delayed[0].owner;
    HeadAlone(s);
    WakeKeeps(s, t);
    WithoutHead(s.delayed, t);
    SameAbsent(s.overflow, t);
  }

  lemma HeadAlone(s: Sched)
    requires DelaysOk(s) && s.delayed != []
    ensures var t := s.delayed[0].owner;
            t in s.tcb && s.tcb[t].state == Delayed && t !in Owners(s.delayed[1..]) && t !in Owners(s.overflow)
  {
    var t, all := s.delayed[0].owner, Sleepers(s);
    assert all[0] == t;
    NoDupRemove(all, 0);
    assert all[1..] == Owners(s.delayed[1..]) + Owners(s.overflow);
  }

  /** Exactly the tasks of `who` have been moved to their ready lists. */
  ghost predicate WokeExactly(s: Sched, r: Sched, who: seq<Task>) {
    && r.tcb.Keys == s.tcb.Keys
    && forall t :: t in s.tcb ==> r.tcb[t] == if t in who then Woken(s.tcb[t]) else s.tcb[t]
  }

  ghost predicate DrainedTo(s: Sched, r: Sched) {
    && ListsOk(r) && PendingOk(r) && SameClock(s, r)
    && r.delayed == After(s.delayed, s.tick) && r.overflow == s.overflow
    && r.nextUnblock == HeadOrMax(r.delayed)
    && WokeExactly(s, r, Owners(DueNow(s.delayed, s.tick)))
  }

  /** The drain loop wakes the due prefix of the delayed list, and only that. */
  lemma {:induction false} DrainWakesDue(s: Sched)
    requires ListsOk(s) && PendingOk(s)
    ensures DrainedTo(s, Drain(s))
    decreases |s.delayed|
  {
    hide ListsOk, PendingOk, Wake, DrainedTo;
    if s.delayed == [] || s.delayed[0].value > s.tick {
      DrainStops(s);
    } else {
      HeadWakes(s);
      var s1 := Wake(s, s.delayed[0].owner);
      WakePending(s, s.delayed[0].owner);
      DrainWakesDue(s1);
      DrainGoesOn(s, Drain(s1));
    }
  }

  lemma DrainStops(s: Sched)
    requires ListsOk(s) && PendingOk(s) && (s.delayed == [] || s.delayed[0].value > s.tick)
    ensures DrainedTo(s, s.(nextUnblock := HeadOrMax(s.delayed)))
  {
    var r := s.(nextUnblock := HeadOrMax(s.delayed));
    RetagKeeps(s, r, s.current, s.tcb[s.current]);
  }

  lemma DrainGoesOn(s: Sched, r: Sched)
    requires ListsOk(s) && HeadDue(s) && s.delayed[0].owner in s.tcb
    requires DrainedTo(Wake(s, s.delayed[0].owner), r)
    ensures DrainedTo(s, r)
  {
    hide ListsOk, PendingOk, Wake, Unlist, After, DueNow, Owners;
    var t := s.delayed[0].owner;
    HeadWakes(s);
    WakeKeeps(s, t);
    DueHead(s.delayed, s.tick);
  }

  lemma DueHead(w: seq<Item>, now: nat)
    requires w != [] && w[0].value <= now
    ensures After(w, now) == After(w[1..], now)
    ensures Owners(DueNow(w, now)) == [w[0].owner] + Owners(DueNow(w[1..], now))
  {
    assert Values(w)[1..] == Values(w[1..]);
  }

  /** At a list switch the delayed list is empty: everything on it was due earlier. */
  lemma SwitchedListIsEmpty(s: Sched, now: nat)
    requires At(s, now) && Plus(s.tick, 1) == 0
    ensures s.delayed == []
  {
    Advance(now, 1);
    hide ReadyOk, SuspendedOk, TasksOk, Sorted, NoDup;
    Squeezed(s.delayed, s.tick);
  }

  lemma Squeezed(w: seq<Item>, v: nat)
    requires Above(w, v) && Below(w, v + 1)
    ensures w == []
  {
    assert w != [] ==> HeadOrMax(w) > v;
  }

  /** Turning the clock and switching the lists does not change what the lists stand for. */
  lemma TurnIsSilent(s: Sched, now: nat)
    requires At(s, now)
    ensures Turn(s).tick == (now + 1) % M && Turn(s).overflows == (now + 1) / M
        && Wakes(Turn(s), now + 1) == Wakes(s, now)
  {
    hide ListsOk, PendingOk, WakesFrom, EpochStart;
    Advance(now, 1);
    if Plus(s.tick, 1) == 0 {
      SwitchedListIsEmpty(s, now);
      NextEpoch(s.overflow, EpochStart(now));
    } else {
      assert Turn(s) == s.(tick := Plus(s.tick, 1));
    }
  }

  lemma TurnOk(s: Sched)
    requires ListsOk(s) && SchedOk(s)
    ensures var r := Turn(s);
            && ListsOk(r) && PendingOk(r) && NextOk(r) && r.tcb == s.tcb && SameButTime(s, r)
                && r.yieldPending == s.yieldPending
  {
    hide ListsOk, PendingOk;
    TurnKeeps(s);
    TurnPending(s);
    if Turn(s).tick == 0 {
      TurnNext(s);
    }
  }

  lemma TurnPending(s: Sched)
    requires PendingOk(s)
    ensures PendingOk(Turn(s))
  {
  }

  lemma NextEpoch(overflow: seq<Item>, e: nat)
    ensures WakesFrom([], overflow, e) == WakesFrom(overflow, [], e + M)
  {
  }

  lemma TurnNext(s: Sched)
    requires ListsOk(s) && Turn(s).tick == 0
    ensures NextOk(Turn(s))
  {
    if s.overflow != [] {
      assert s.overflow[0].value < M;
    }
  }

  /** The tasks due in the modular list are those due in the list of absolute times. */
  lemma DueAgrees(d: seq<Item>, o: seq<Item>, tick: nat, e: nat)
    requires tick < M
    ensures Owners(DueNow(WakesFrom(d, o, e), e + tick)) == Owners(DueNow(d, tick))
    ensures After(WakesFrom(d, o, e), e + tick) == WakesFrom(After(d, tick), o, e)
  {
    var a, b := Shift(d, e), Shift(o, e + M);
    ReachFirst(a, b, e + tick);
    ShiftValues(d, e, tick);
    var k := Reach(Values(d), tick);
    hide Reach, Values;
    SplitFirst(a, b, k);
    assert a[k..] == Shift(d[k..], e);
  }

  lemma SplitFirst<T>(a: seq<T>, b: seq<T>, k: nat)
    requires k <= |a|
    ensures (a + b)[..k] == a[..k] && (a + b)[k..] == a[k..] + b
  {
  }

  /** What is left of the delayed list lies ahead of the clock. */
  lemma AfterAhead(w: seq<Item>, now: nat)
    requires Sorted(w)
    ensures Above(After(w, now), now)
  {
    var k := Reach(Values(w), now);
    forall i | k <= i < |w| ensures w[i].value > now {
      assert w[k].value == Values(w)[k] > now;
    }
  }

  /** With a cached unblock time that is never stale-high, skipping the loop skips nothing. */
  lemma GateSkipsNothing(s: Sched)
    requires ListsOk(s) && PendingOk(s) && NextOk(s) && s.tick < s.nextUnblock
    ensures After(s.delayed, s.tick) == s.delayed && DueNow(s.delayed, s.tick) == []
    ensures WokeExactly(s, s, Owners(DueNow(s.delayed, s.tick)))
  {
    hide ListsOk, PendingOk;
  }

  lemma TickLists(s: Sched)
    requires ListsOk(s) && SchedOk(s) && s.depth == 0
    ensures var r, s1 := Tick(s), Turn(s);
            && ListsOk(s1) && r.delayed == After(s1.delayed, s1.tick) && r.overflow == s1.overflow
            && ListsOk(r) && PendingOk(r) && NextOk(r) && SameClock(s1, r)
            && WokeExactly(s1, r, Owners(DueNow(s1.delayed, s1.tick)))
  {
    var s1 := Turn(s);
    TurnOk(s);
    if s1.tick >= s1.nextUnblock {
      DrainWakesDue(s1);
      HeadBelow(Drain(s1));
    } else {
      GateSkipsNothing(s1);
    }
  }

  lemma HeadBelow(s: Sched)
    requires ListsOk(s) && s.nextUnblock == HeadOrMax(s.delayed)
    ensures NextOk(s)
  {
    if s.delayed != [] {
      assert s.delayed[0].value < M;
    }
  }

  /**
   A processed tick, in absolute time: the list of wake times loses exactly what is due, and
   exactly those tasks become ready; they are due now, not earlier.
   */
  lemma TickWakesDue(s: Sched, now: nat)
    requires At(s, now) && s.depth == 0
    ensures At(Tick(s), now + 1)
    ensures Wakes(Tick(s), now + 1) == After(Wakes(s, now), now + 1)
    ensures WokeExactly(s, Tick(s), Owners(DueNow(Wakes(s, now), now + 1)))
    ensures SameButTime(s, Tick(s))
  {
    hide ListsOk, PendingOk, NextOk, After, DueNow, Turn, Tick, WakesFrom;
    var s1, r := Turn(s), Tick(s);
    TurnIsSilent(s, now);
    TurnOk(s);
    TickLists(s);
    DueAgrees(s1.delayed, s1.overflow, s1.tick, EpochStart(now + 1));
    AfterSorted(s1);
  }

  lemma AfterSorted(s: Sched)
    requires ListsOk(s)
    ensures Above(After(s.delayed, s.tick), s.tick)
  {
    AfterAhead(s.delayed, s.tick);
  }

  ghost predicate SameButTime(s: Sched, r: Sched) {
    r.depth == s.depth && r.pendedTicks == s.pendedTicks && r.current == s.current
  }

  /** Nobody sleeps past its time: every listed wake time lies ahead. */
  lemma WakesAhead(s: Sched, now: nat)
    requires At(s, now)
    ensures forall i :: 0 <= i < |Wakes(s, now)| ==> Wakes(s, now)[i].value > now
  {
  }

  lemma TickKeeps(s: Sched)
    requires ListsOk(s) && SchedOk(s) && s.depth == 0
    ensures SchedOk(Tick(s)) && Tick(s).depth == 0 && SameButTime(s, Tick(s)) && Tick(s).tcb.Keys == s.tcb.Keys
    ensures Tick(s).yieldPending == s.yieldPending
  {
    hide ListsOk, PendingOk, NextOk, After, DueNow, Tick;
    TurnOk(s);
    TickLists(s);
    AfterSorted(Turn(s));
    hide Turn;
  }
}
