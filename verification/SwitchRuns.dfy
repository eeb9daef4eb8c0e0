/**
 Runs of the scheduler, from the state in which it is started, to states in which the running task
 is outranked and nothing brings about a switch.  Every switch asked for on the way is made at once.
 */
module SwitchRuns {
  import opened Rings
  import opened Ticks
  import opened Priorities
  import opened Scheduler
  import opened SchedulerTime
  import opened SchedulerSteps
  import opened SchedulerMoves
  import opened SchedulerRuns
  import opened SchedulerSwitches

  // ----- what there is to see of a state -----

  datatype Face = Face(current: Task, tcb: map<Task, Tcb>)

  /** The scheduler is not suspended, no switch is pending, and these are the tasks. */
  ghost predicate Shows(s: Sched, f: Face) {
    && ListsOk(s) && SchedOk(s) && s.depth == 0 && !s.yieldPending
    && s.current == f.current && s.tcb == f.tcb && f.current in f.tcb
  }

  /** The steps used here, and when they can be taken. */
  predicate Possible(f: Face, st: Step) {
    && f.current in f.tcb
    && match st
       case BlockCurrent(ticks, _, _) =>
         1 <= ticks < M && f.tcb[f.current].state.Ready? && f.tcb[f.current].event == NoEvent
       case ParkTask(t) => t in f.tcb
       case UnparkTask(t) => t in f.tcb
       case SetPriority(t, _) => t in f.tcb
       case InheritBy(h) => h in f.tcb
       case GiveMutex(h, waiting) =>
         && h == f.current && f.tcb[h].prio.held > 0
         && (waiting != [] ==> waiting[0] in f.tcb && f.tcb[waiting[0]].event == Waiting && waiting[0] != h)
       case MutexTaken => true
       case Create(t, p) => t !in f.tcb && p < MAX_PRIORITIES
       case _ => false
  }

  function Changed(f: Face, t: Task, x: Tcb): Face { f.(tcb := f.tcb[t := x]) }

  function Ahead(f: Face, st: Step): Face
    requires Possible(f, st)
  {
    var c := f.tcb[f.current];
    match st
    case BlockCurrent(ticks, onEvent, indefinitely) =>
      Changed(f, f.current, Blocked(if onEvent then c.(event := Waiting) else c, ticks, indefinitely))
    case ParkTask(t) => Changed(f, t, f.tcb[t].(state := Suspended, event := NoEvent))
    case UnparkTask(t) =>
      if t != f.current && f.tcb[t].state == Suspended && f.tcb[t].event == NoEvent then Changed(f, t, Woken(f.tcb[t]))
      else f
    case SetPriority(t, p) => Changed(f, t, Reprioritised(f.tcb[t], SetBase(f.tcb[t].prio, Capped(p))))
    case InheritBy(h) => Changed(f, h, Reprioritised(f.tcb[h], Inherit(f.tcb[h].prio, c.prio.current)))
    case GiveMutex(h, waiting) =>
      var g := Changed(f, h, Reprioritised(c, Disinherit(c.prio)));
      if waiting == [] then g else Changed(g, waiting[0], Woken(g.tcb[waiting[0]]))
    case MutexTaken => Changed(f, f.current, c.(prio := c.prio.(held := c.prio.held + 1)))
    case Create(t, p) => Changed(f, t, Tcb(Prio(p, p, 0, EventValue(p)), Ready(p), NoEvent, false))
    case _ => f
  }

  /** Nothing but the tasks differs in what there is to see. */
  ghost predicate Same(s: Sched, r: Sched) {
    r.depth == s.depth && r.yieldPending == s.yieldPending && r.current == s.current
  }

  lemma PriorityAhead(s: Sched, f: Face, st: Step)
    requires Shows(s, f) && Possible(f, st) && (st.SetPriority? || st.InheritBy?) && Enabled(s, st)
    ensures Same(s, Apply(s, st)) && Apply(s, st).tcb == Ahead(f, st).tcb
  {
    hide SchedOk, SetPrio;
    var t := st.task;
    TasksBounded(s, t);
    TasksBounded(s, s.current);
    StateIsOwnReady(s, t);
    hide ListsOk;
    var x := s.tcb[t].prio;
    if st.SetPriority? && x.base != Capped(st.priority) {
      SetPrioKeeps(s, t, SetBase(x, Capped(st.priority)));
    } else if st.InheritBy? && x.current < s.tcb[s.current].prio.current {
      SetPrioKeeps(s, t, Inherit(x, s.tcb[s.current].prio.current));
    } else {
      assert Reprioritised(s.tcb[t], x) == s.tcb[t];
    }
  }

  lemma GiveAhead(s: Sched, f: Face, st: Step)
    requires Shows(s, f) && Possible(f, st) && st.GiveMutex? && Enabled(s, st)
    requires st.waiting == [] || !GiveAsks(s, st.task, st.waiting)
    ensures Same(s, Apply(s, st)) && Apply(s, st).tcb == Ahead(f, st).tcb
  {
    hide ListsOk, SchedOk, PriorityDisinherit, Disinherit, EventWake, Touched, GiveAsks;
    GivenShape(s, st.task, st.waiting);
    DisinheritKeeps(s, st.task);
    if st.waiting != [] {
      StillDisinherit(s, Clock(s), st, st.task);
      EventWakeOk(PriorityDisinherit(s, st.task), st.waiting[0], Clock(s));
    }
  }

  lemma BlockAhead(s: Sched, f: Face, st: Step)
    requires Shows(s, f) && Possible(f, st) && st.BlockCurrent? && Enabled(s, st)
    ensures Same(s, Apply(s, st)) && Apply(s, st).tcb == Ahead(f, st).tcb
  {
    hide ListsOk, SchedOk, Block, Wakes, BlockedWakes;
    ClockShows(s);
    var m := if st.onEvent then Awaiting(s) else s;
    AwaitingOk(s, Clock(s));
    BlockWakes(m, st.ticks, st.indefinitely, Clock(s));
  }

  lemma MoveAhead(s: Sched, f: Face, st: Step)
    requires Shows(s, f) && Possible(f, st) && (st.ParkTask? || st.UnparkTask? || st.Create? || st.MutexTaken?)
        && Enabled(s, st)
    ensures Same(s, Apply(s, st)) && Apply(s, st).tcb == Ahead(f, st).tcb
  {
    hide ListsOk, SchedOk, Touched, SuspendTask, ResumeTask, AddReady;
    match st
    case ParkTask(t) => SuspendTaskOk(s, t, 0);
    case UnparkTask(t) => ResumeTaskOk(s, t, 0);
    case Create(t, p) =>
      NewTaskKeeps(s, t, p);
      AddReadyKeeps(Registered(s, t, p), t);
      AddReadySame(Registered(s, t, p), t);
    case MutexTaken =>
  }

  lemma GoesAhead(s: Sched, f: Face, st: Step)
    requires Shows(s, f) && Possible(f, st)
    requires st.GiveMutex? ==> st.waiting == [] || !GiveAsks(s, st.task, st.waiting)
    ensures ListsOk(s) && SchedOk(s) && Enabled(s, st) && Shows(Next(s, st), Ahead(f, st))
  {
    hide ListsOk, SchedOk, Apply, GiveAsks;
    if st.SetPriority? || st.InheritBy? {
      PriorityAhead(s, f, st);
    } else if st.GiveMutex? {
      GiveAhead(s, f, st);
    } else if st.BlockCurrent? {
      BlockAhead(s, f, st);
    } else {
      MoveAhead(s, f, st);
    }
    CurrentIsKnown(Next(s, st));
  }

  // ----- putting steps together -----

  /** Whenever a step asks for a switch, the next step is one. */
  ghost predicate Heeded(s: Sched, steps: seq<Step>)
    requires ListsOk(s) && SchedOk(s) && Runnable(s, steps)
    decreases |steps|
  {
    steps == [] || ((Asks(s, steps[0]) ==> |steps| > 1 && steps[1].SwitchContext?) && Heeded(Next(s, steps[0]), steps[1..]))
  }

  ghost predicate Goes(s: Sched, steps: seq<Step>, r: Sched) {
    ListsOk(s) && SchedOk(s) && Runnable(s, steps) && Run(s, steps) == r && Heeded(s, steps)
  }

  /** The first step of a run, and the rest. */
  lemma GoesFirst(s: Sched, st: Step, rest: seq<Step>, r: Sched)
    requires ListsOk(s) && SchedOk(s) && Enabled(s, st) && Goes(Next(s, st), rest, r)
    requires Asks(s, st) ==> rest != [] && rest[0].SwitchContext?
    ensures Goes(s, [st] + rest, r)
  {
    hide ListsOk, SchedOk, Next, Enabled, Asks;
    RunFirst(s, st, rest);
    hide Run, Runnable;
    assert ([st] + rest)[1..] == rest;
  }

  lemma GoesRest(s: Sched, steps: seq<Step>, r: Sched)
    requires Goes(s, steps, r) && steps != []
    ensures ListsOk(s) && SchedOk(s) && Enabled(s, steps[0]) && Goes(Next(s, steps[0]), steps[1..], r)
    ensures Asks(s, steps[0]) ==> |steps| > 1 && steps[1].SwitchContext?
  {
    hide ListsOk, SchedOk, Next, Enabled, Asks;
  }

  lemma GoesNowhere(s: Sched)
    requires ListsOk(s) && SchedOk(s)
    ensures Goes(s, [], s)
  {
  }

  lemma NowhereIsHere(s: Sched, r: Sched)
    requires Goes(s, [], r)
    ensures r == s
  {
  }

  lemma {:induction false} GoesOn(s: Sched, a: seq<Step>, m: Sched, b: seq<Step>, r: Sched)
    requires Goes(s, a, m) && Goes(m, b, r)
    ensures Goes(s, a + b, r)
    decreases |a|
  {
    hide Goes, ListsOk, SchedOk, Next, Enabled, Asks;
    if a == [] {
      NowhereIsHere(s, m);
      assert a + b == b;
    } else {
      GoesRest(s, a, m);
      GoesOn(Next(s, a[0]), a[1..], m, b, r);
      GoesFirst(s, a[0], a[1..] + b, r);
      assert [a[0]] + (a[1..] + b) == a + b;
    }
  }

  lemma OneStep(s: Sched, st: Step)
    requires ListsOk(s) && SchedOk(s) && Enabled(s, st) && !Asks(s, st)
    ensures Goes(s, [st], Next(s, st))
  {
    hide Goes, ListsOk, SchedOk, Next, Enabled, Asks;
    GoesNowhere(Next(s, st));
    GoesFirst(s, st, [], Next(s, st));
    assert [st] + [] == [st];
  }

  lemma TwoSteps(s: Sched, st: Step)
    requires ListsOk(s) && SchedOk(s) && Enabled(s, st) && Enabled(Next(s, st), SwitchContext)
    ensures Goes(s, [st, SwitchContext], Next(Next(s, st), SwitchContext))
  {
    hide Goes, ListsOk, SchedOk, Next, Enabled;
    OneStep(Next(s, st), SwitchContext);
    GoesFirst(s, st, [SwitchContext], Next(Next(s, st), SwitchContext));
    assert [st] + [SwitchContext] == [st, SwitchContext];
  }

  /** The step asks for no switch. */
  lemma Quietly(s: Sched, f: Face, st: Step) returns (r: Sched)
    requires Shows(s, f) && Possible(f, st)
    requires ListsOk(s) && SchedOk(s) && Enabled(s, st) ==> !Asks(s, st)
    ensures Goes(s, [st], r) && Shows(r, Ahead(f, st))
    ensures ListsOk(s) && SchedOk(s) && Enabled(s, st) && r == Next(s, st)
  {
    assert st.GiveMutex? ==> !GiveAsks(s, st.task, st.waiting);
    hide ListsOk, SchedOk, Next, Enabled, Asks, Possible, Ahead, GiveAsks;
    GoesAhead(s, f, st);
    OneStep(s, st);
    r := Next(s, st);
  }

  /** `t` is ready, and every other ready task is below it. */
  ghost predicate Highest(f: Face, t: Task) {
    && t in f.tcb && f.tcb[t].state.Ready?
    && forall u :: u in f.tcb && u != t && f.tcb[u].state.Ready? ==> f.tcb[u].prio.current < f.tcb[t].prio.current
  }

  lemma SwitchesTo(s: Sched, f: Face, t: Task)
    requires Shows(s, f) && Highest(f, t)
    ensures ListsOk(s) && SchedOk(s) && Enabled(s, SwitchContext) && Shows(Next(s, SwitchContext), Face(t, f.tcb))
  {
    hide SchedOk;
    SomethingReady(s, t);
    SelectPicksHighest(s);
    hide ListsOk, SomeReady;
  }

  lemma SomethingReady(s: Sched, t: Task)
    requires ListsOk(s) && t in s.tcb && s.tcb[t].state.Ready?
    ensures SomeReady(s)
  {
    assert InReadyList(s, t);
  }

  /** The step is followed by a switch to `t`. */
  lemma ThenSwitches(s: Sched, f: Face, st: Step, t: Task) returns (r: Sched)
    requires Shows(s, f) && Possible(f, st) && !st.GiveMutex? && Highest(Ahead(f, st), t)
    ensures Goes(s, [st, SwitchContext], r) && Shows(r, Face(t, Ahead(f, st).tcb))
    ensures ListsOk(s) && SchedOk(s) && Enabled(s, st) && Enabled(Next(s, st), SwitchContext)
    ensures r == Next(Next(s, st), SwitchContext)
  {
    hide ListsOk, SchedOk, Next, Enabled, Possible, Ahead, Highest, Shows;
    GoesAhead(s, f, st);
    SwitchesTo(Next(s, st), Ahead(f, st), t);
    TwoSteps(s, st);
    r := Next(Next(s, st), SwitchContext);
  }

  // ----- a request that is dropped -----

  /** A task as far as these runs look at it. */
  predicate Has(f: Face, t: Task, current: nat, base: nat, held: nat, state: Place, event: EventPlace) {
    && t in f.tcb && f.tcb[t].prio.current == current && f.tcb[t].prio.base == base && f.tcb[t].prio.held == held
    && f.tcb[t].state == state && f.tcb[t].event == event
  }

  lemma BootShows()
    ensures Shows(Boot(0), Face(0, Boot(0).tcb)) && Boot(0).tcb.Keys == {0}
    ensures Has(Face(0, Boot(0).tcb), 0, 0, 0, 0, Ready(0), NoEvent)
  {
    BootOk(0);
    hide ListsOk, SchedOk;
  }

  /** Tasks 1 and 2 are created; task 2 takes two mutexes and suspends itself. */
  lemma TakesTwo() returns (steps: seq<Step>, r: Sched, f: Face)
    requires MAX_PRIORITIES >= 4
    ensures Goes(Boot(0), steps, r) && Shows(r, f) && f.current == 1 && f.tcb.Keys == {0, 1, 2}
    ensures Has(f, 0, 0, 0, 0, Ready(0), NoEvent) && Has(f, 1, 1, 1, 0, Ready(1), NoEvent)
    ensures Has(f, 2, 2, 2, 2, Suspended, NoEvent)
  {
    hide Goes, ListsOk, SchedOk, Boot, Next, Enabled, Shows;
    BootShows();
    var f0 := Face(0, Boot(0).tcb);
    var s1 := ThenSwitches(Boot(0), f0, Create(1, 1), 1);
    var f1 := Face(1, Ahead(f0, Create(1, 1)).tcb);
    var s2 := ThenSwitches(s1, f1, Create(2, 2), 2);
    var f2 := Face(2, Ahead(f1, Create(2, 2)).tcb);
    var s3 := Quietly(s2, f2, MutexTaken);
    var f3 := Ahead(f2, MutexTaken);
    var s4 := Quietly(s3, f3, MutexTaken);
    var f4 := Ahead(f3, MutexTaken);
    r := ThenSwitches(s4, f4, ParkTask(2), 1);
    f := Face(1, Ahead(f4, ParkTask(2)).tcb);
    GoesOn(s3, [MutexTaken], s4, [ParkTask(2), SwitchContext], r);
    GoesOn(s2, [MutexTaken], s3, [MutexTaken] + [ParkTask(2), SwitchContext], r);
    steps := [MutexTaken] + ([MutexTaken] + [ParkTask(2), SwitchContext]);
    GoesOn(s1, [Create(2, 2), SwitchContext], s2, steps, r);
    steps := [Create(2, 2), SwitchContext] + steps;
    GoesOn(Boot(0), [Create(1, 1), SwitchContext], s1, steps, r);
    steps := [Create(1, 1), SwitchContext] + steps;
  }

  /** Task 1 blocks for one of the mutexes, and task 2 comes back. */
  lemma FirstWaits(s: Sched, f: Face) returns (steps: seq<Step>, r: Sched, g: Face)
    requires MAX_PRIORITIES >= 4
    requires Shows(s, f) && f.current == 1 && f.tcb.Keys == {0, 1, 2}
    requires Has(f, 0, 0, 0, 0, Ready(0), NoEvent) && Has(f, 1, 1, 1, 0, Ready(1), NoEvent)
    requires Has(f, 2, 2, 2, 2, Suspended, NoEvent)
    ensures Goes(s, steps, r) && Shows(r, g) && g.current == 2 && g.tcb.Keys == {0, 1, 2}
    ensures Has(g, 0, 0, 0, 0, Ready(0), NoEvent) && Has(g, 1, 1, 1, 0, Suspended, Waiting)
    ensures Has(g, 2, 2, 2, 2, Ready(2), NoEvent)
  {
    hide Goes, ListsOk, SchedOk, Next, Enabled, Shows;
    var wait := BlockCurrent(MAX_DELAY, true, true);
    var s1 := Quietly(s, f, InheritBy(2));
    var f1 := Ahead(f, InheritBy(2));
    var s2 := ThenSwitches(s1, f1, wait, 0);
    var f2 := Face(0, Ahead(f1, wait).tcb);
    r := ThenSwitches(s2, f2, UnparkTask(2), 2);
    g := Face(2, Ahead(f2, UnparkTask(2)).tcb);
    GoesOn(s1, [wait, SwitchContext], s2, [UnparkTask(2), SwitchContext], r);
    steps := [wait, SwitchContext] + [UnparkTask(2), SwitchContext];
    GoesOn(s, [InheritBy(2)], s1, steps, r);
    steps := [InheritBy(2)] + steps;
  }

  /** Task 3 is created, lends its priority to task 2 and blocks for the other mutex. */
  lemma SecondWaits(s: Sched, f: Face) returns (steps: seq<Step>, r: Sched, g: Face)
    requires MAX_PRIORITIES >= 4
    requires Shows(s, f) && f.current == 2 && f.tcb.Keys == {0, 1, 2}
    requires Has(f, 0, 0, 0, 0, Ready(0), NoEvent) && Has(f, 1, 1, 1, 0, Suspended, Waiting)
    requires Has(f, 2, 2, 2, 2, Ready(2), NoEvent)
    ensures Goes(s, steps, r) && Shows(r, g) && g.current == 2 && g.tcb.Keys == {0, 1, 2, 3}
    ensures Has(g, 0, 0, 0, 0, Ready(0), NoEvent) && Has(g, 1, 1, 1, 0, Suspended, Waiting)
    ensures Has(g, 2, 3, 2, 2, Ready(3), NoEvent) && Has(g, 3, 3, 3, 0, Suspended, Waiting)
  {
    hide Goes, ListsOk, SchedOk, Next, Enabled, Shows;
    var wait := BlockCurrent(MAX_DELAY, true, true);
    var s1 := ThenSwitches(s, f, Create(3, 3), 3);
    var f1 := Face(3, Ahead(f, Create(3, 3)).tcb);
    var s2 := Quietly(s1, f1, InheritBy(2));
    var f2 := Ahead(f1, InheritBy(2));
    r := ThenSwitches(s2, f2, wait, 2);
    g := Face(2, Ahead(f2, wait).tcb);
    GoesOn(s1, [InheritBy(2)], s2, [wait, SwitchContext], r);
    steps := [InheritBy(2)] + [wait, SwitchContext];
    GoesOn(s, [Create(3, 3), SwitchContext], s1, steps, r);
    steps := [Create(3, 3), SwitchContext] + steps;
  }

  /** Task 2 gives the mutex back that task 3 waits for. */
  lemma SecondIsServed(s: Sched, f: Face) returns (r: Sched, g: Face)
    requires MAX_PRIORITIES >= 4
    requires Shows(s, f) && f.current == 2 && f.tcb.Keys == {0, 1, 2, 3}
    requires Has(f, 0, 0, 0, 0, Ready(0), NoEvent) && Has(f, 1, 1, 1, 0, Suspended, Waiting)
    requires Has(f, 2, 3, 2, 2, Ready(3), NoEvent) && Has(f, 3, 3, 3, 0, Suspended, Waiting)
    ensures Goes(s, [GiveMutex(2, [3])], r) && Shows(r, g) && g.current == 2 && g.tcb.Keys == {0, 1, 2, 3}
    ensures Has(g, 0, 0, 0, 0, Ready(0), NoEvent) && Has(g, 1, 1, 1, 0, Suspended, Waiting)
    ensures Has(g, 2, 3, 2, 1, Ready(3), NoEvent) && Has(g, 3, 3, 3, 0, Ready(3), NoEvent)
  {
    hide Goes, ListsOk, SchedOk, Next, Enabled, Shows;
    NoRequest(s, f, [3]);
    r := Quietly(s, f, GiveMutex(2, [3]));
    g := Ahead(f, GiveMutex(2, [3]));
  }

  lemma NoRequest(s: Sched, f: Face, waiting: seq<Task>)
    requires Shows(s, f) && 2 in f.tcb && f.tcb[2].prio.held > 0 && waiting != [] && waiting[0] in f.tcb
    requires f.tcb[waiting[0]].prio.current <= Disinherit(f.tcb[2].prio).current
    ensures ListsOk(s) && SchedOk(s) && Enabled(s, GiveMutex(2, waiting)) ==> !Asks(s, GiveMutex(2, waiting))
  {
    hide ListsOk, SchedOk;
  }

  /** With nobody asleep and nobody of the running task's priority, a tick asks for no switch. */
  lemma TickAsksNothing(s: Sched, f: Face)
    requires Shows(s, f) && forall t :: t in f.tcb ==> f.tcb[t].state != Delayed
    requires forall t :: t in f.tcb && t != f.current ==> f.tcb[t].state != Ready(f.tcb[f.current].prio.current)
    ensures ListsOk(s) && SchedOk(s) && !TickAsks(s)
  {
    hide Tick, Turn, DueNow, After;
    var r, p := Tick(s), s.tcb[s.current].prio.current;
    TickKeeps(s);
    TickLists(s);
    TickShape(s);
    TurnOk(s);
    var due := Owners(DueNow(Turn(s).delayed, Turn(s).tick));
    forall t | t in due ensures false {
      DueSleeps(Turn(s), t);
    }
    assert r.tcb == s.tcb;
    OnlyCurrent(r, p);
  }

  lemma OnlyCurrent(r: Sched, p: nat)
    requires ListsOk(r) && p < MAX_PRIORITIES && forall t :: t in r.tcb && t != r.current ==> r.tcb[t].state != Ready(p)
    ensures |r.ready[p].items| <= 1
  {
    var w := r.ready[p].items;
    assert r.ready[p].Valid();
    if |w| > 1 {
      assert w[0] in w && w[1] in w;
      assert r.tcb[w[0]].state == Ready(p) && r.tcb[w[1]].state == Ready(p);
      Differ(w, 0, 1);
    }
  }

  /**
   Task 2 gives back a mutex that task 3 waits for, keeping the inherited priority as it holds
   another, and then that one, with task 1 waiting.  Task 3, which is ready, then outranks it, no
   switch is asked for, and the next tick does not ask for one either.
   */
  lemma GiveIsSilent() returns (steps: seq<Step>, m: Sched, r: Sched)
    requires MAX_PRIORITIES >= 4
    ensures ListsOk(Boot(0)) && SchedOk(Boot(0)) && Goes(Boot(0), steps, m)
    ensures ListsOk(m) && SchedOk(m) && TopRuns(m) && !m.yieldPending
    ensures Enabled(m, GiveMutex(2, [1])) && !Asks(m, GiveMutex(2, [1])) && r == Next(m, GiveMutex(2, [1]))
    ensures ListsOk(r) && SchedOk(r) && !Served(r) && !TickAsks(r)
  {
    hide Goes, ListsOk, SchedOk, Boot, Next, Enabled;
    BootOk(0);
    var steps1, s1, f1 := TakesTwo();
    var steps2, s2, f2 := FirstWaits(s1, f1);
    var steps3, s3, f3 := SecondWaits(s2, f2);
    var f4;
    m, f4 := SecondIsServed(s3, f3);
    steps := [GiveMutex(2, [3])];
    GoesOn(s2, steps3, s3, steps, m);
    GoesOn(s1, steps2, s2, steps3 + steps, m);
    GoesOn(Boot(0), steps1, s1, steps2 + (steps3 + steps), m);
    steps := steps1 + (steps2 + (steps3 + steps));
    r := GivesSilently(m, f4);
  }

  lemma GivesSilently(m: Sched, f: Face) returns (r: Sched)
    requires MAX_PRIORITIES >= 4
    requires Shows(m, f) && f.current == 2 && f.tcb.Keys == {0, 1, 2, 3}
    requires Has(f, 0, 0, 0, 0, Ready(0), NoEvent) && Has(f, 1, 1, 1, 0, Suspended, Waiting)
    requires Has(f, 2, 3, 2, 1, Ready(3), NoEvent) && Has(f, 3, 3, 3, 0, Ready(3), NoEvent)
    ensures ListsOk(m) && SchedOk(m) && TopRuns(m) && !m.yieldPending
    ensures Enabled(m, GiveMutex(2, [1])) && !Asks(m, GiveMutex(2, [1])) && r == Next(m, GiveMutex(2, [1]))
    ensures ListsOk(r) && SchedOk(r) && !Served(r) && !TickAsks(r)
  {
    hide ListsOk, SchedOk, Next, Enabled, Asks, TickAsks;
    var g := Ahead(f, GiveMutex(2, [1]));
    NoRequest(m, f, [1]);
    GoesAhead(m, f, GiveMutex(2, [1]));
    r := Next(m, GiveMutex(2, [1]));
    assert g.tcb[3].prio.current > g.tcb[2].prio.current;
    TickAsksNothing(r, g);
  }

  // ----- an adjustment that raises a holder -----

  /** The chosen task is the first in its visiting order. */
  lemma SelectsFirst(s: Sched)
    requires ListsOk(s) && SomeReady(s)
    ensures var r := Select(s);
            && r.topReady < MAX_PRIORITIES && |s.ready| == MAX_PRIORITIES && s.ready[r.topReady].Valid()
            && s.ready[r.topReady].items != [] && r.current == s.ready[r.topReady].Order()[0]
            && r.current in s.tcb && s.tcb[r.current].state == Ready(r.topReady)
  {
    ReadyBelowTop(s);
    TopIsHighest(s, s.topReady);
    var p := TopReady(s, s.topReady);
    StepRotates(s.ready[p]);
    assert s.ready[p].Next() in s.ready[p].items;
  }

  /** Two tasks of the highest priority take turns: after one of them the other is chosen. */
  lemma TakeTurns(s: Sched, a: Task, b: Task, p: nat)
    requires ListsOk(s) && a != b && a in s.tcb && b in s.tcb && s.tcb[a].state == Ready(p)
        && s.tcb[b].state == Ready(p)
    requires forall t :: t in s.tcb && t != a && t != b && s.tcb[t].state.Ready? ==> s.tcb[t].prio.current < p
    ensures SomeReady(s) && ListsOk(Select(s)) && SomeReady(Select(s))
    ensures Select(s).current == a || Select(s).current == b
    ensures Select(Select(s)).current == if Select(s).current == a then b else a
  {
    SomethingReady(s, a);
    AtPriority(s, a, p);
    AtPriority(s, b, p);
    SelectPicksHighest(s);
    SelectsFirst(s);
    StateIsOwnReady(s, Select(s).current);
    SelectRotates(s, p);
    SelectKeepsLists(s);
    var r := Select(s);
    SomethingReady(r, a);
    SelectPicksHighest(r);
    SelectsFirst(r);
    StateIsOwnReady(r, Select(r).current);
    AtPriority(r, a, p);
    AtPriority(r, b, p);
    hide ListsOk, Select;
    LastIsNotFirst(r.ready[p], r.current, a, b);
  }

  lemma AtPriority(s: Sched, t: Task, p: nat)
    requires ListsOk(s) && t in s.tcb && s.tcb[t].state == Ready(p)
    ensures p < |s.ready| && t in s.ready[p].items && s.tcb[t].prio.current == p && s.ready[p].Valid()
  {
    assert InReadyList(s, t);
  }

  lemma SelectKeepsLists(s: Sched)
    requires ListsOk(s) && SomeReady(s)
    ensures ListsOk(Select(s)) && Select(s).tcb == s.tcb
  {
    var r := Select(s);
    ReadyBelowTop(s);
    TopIsHighest(s, s.topReady);
    SelectPicksHighest(s);
    var p := TopReady(s, s.topReady);
    StepRotates(s.ready[p]);
    SelectLists(s, r, p);
  }

  lemma LastIsNotFirst(r: Ring<Task>, last: Task, a: Task, b: Task)
    requires r.Valid() && a in r.items && b in r.items && a != b
    requires r.Order() != [] && r.Order()[|r.Order()| - 1] == last
    ensures r.Order()[0] != last
  {
    NoDupRotate(r.items, r.cursor);
    var i :| 0 <= i < |r.items| && r.items[i] == a;
    var j :| 0 <= j < |r.items| && r.items[j] == b;
    assert i != j;
    Differ(r.Order(), 0, |r.Order()| - 1);
  }

  /** Task 1 takes a mutex, and task 2 is about to block for it, having lent its priority. */
  lemma LendsPriority() returns (steps: seq<Step>, r: Sched, f: Face)
    requires MAX_PRIORITIES >= 4
    ensures Goes(Boot(0), steps, r) && Shows(r, f) && f.current == 2 && f.tcb.Keys == {0, 1, 2}
    ensures Has(f, 0, 0, 0, 0, Ready(0), NoEvent) && Has(f, 1, 2, 1, 1, Ready(2), NoEvent)
    ensures Has(f, 2, 2, 2, 0, Ready(2), NoEvent)
  {
    hide Goes, ListsOk, SchedOk, Boot, Next, Enabled, Shows;
    BootShows();
    var f0 := Face(0, Boot(0).tcb);
    var s1 := ThenSwitches(Boot(0), f0, Create(1, 1), 1);
    var f1 := Face(1, Ahead(f0, Create(1, 1)).tcb);
    var s2 := Quietly(s1, f1, MutexTaken);
    var f2 := Ahead(f1, MutexTaken);
    var s3 := ThenSwitches(s2, f2, Create(2, 2), 2);
    var f3 := Face(2, Ahead(f2, Create(2, 2)).tcb);
    r := Quietly(s3, f3, InheritBy(1));
    f := Ahead(f3, InheritBy(1));
    GoesOn(s2, [Create(2, 2), SwitchContext], s3, [InheritBy(1)], r);
    steps := [Create(2, 2), SwitchContext] + [InheritBy(1)];
    GoesOn(s1, [MutexTaken], s2, steps, r);
    steps := [MutexTaken] + steps;
    GoesOn(Boot(0), [Create(1, 1), SwitchContext], s1, steps, r);
    steps := [Create(1, 1), SwitchContext] + steps;
  }

  lemma SleepGoesOn(s: Sched, now: nat, st: Step, t: Task, w: nat)
    requires ListsOk(s) && SchedOk(s) && At(s, now) && Enabled(s, st) && SleepsUntil(s, now, t, w)
    requires !Disturbs(s, st, t) && Elapse(s, st) == 0
    ensures At(Next(s, st), now) && SleepsUntil(Next(s, st), now, t, w)
  {
    hide ListsOk, SchedOk, At, SleepsUntil, Next, Enabled, Disturbs;
    NextMoves(s, now, st);
    SleepersAhead(s, now);
  }

  /** Task 2 blocks for one tick, and task 1, which runs on its priority, sets its own base priority above it. */
  lemma SetsBase(s: Sched, f: Face) returns (steps: seq<Step>, r: Sched, g: Face, now: nat)
    requires MAX_PRIORITIES >= 4
    requires Shows(s, f) && f.current == 2 && f.tcb.Keys == {0, 1, 2}
    requires Has(f, 0, 0, 0, 0, Ready(0), NoEvent) && Has(f, 1, 2, 1, 1, Ready(2), NoEvent)
    requires Has(f, 2, 2, 2, 0, Ready(2), NoEvent)
    ensures Goes(s, steps, r) && Shows(r, g) && g.current == 1 && g.tcb.Keys == {0, 1, 2}
    ensures Has(g, 0, 0, 0, 0, Ready(0), NoEvent) && Has(g, 1, 2, 3, 1, Ready(2), NoEvent)
    ensures Has(g, 2, 2, 2, 0, Delayed, Waiting) && At(r, now) && SleepsUntil(r, now, 2, now + 1)
  {
    hide Goes, ListsOk, SchedOk, Next, Enabled, Shows, SleepsUntil, At;
    var wait := BlockCurrent(1, true, false);
    now := Clock(s);
    ShowsOk(s, f);
    ClockShows(s);
    var s1 := ThenSwitches(s, f, wait, 1);
    var f1 := Face(1, Ahead(f, wait).tcb);
    BlockSleeps(s, now, wait);
    ShownAfter(s, f, wait);
    SleepGoesOn(Next(s, wait), now, SwitchContext, 2, now + 1);
    ShowsOk(s1, f1);
    r := Quietly(s1, f1, SetPriority(1, 3));
    g := Ahead(f1, SetPriority(1, 3));
    SleepGoesOn(s1, now, SetPriority(1, 3), 2, now + 1);
    GoesOn(s, [wait, SwitchContext], s1, [SetPriority(1, 3)], r);
    steps := [wait, SwitchContext] + [SetPriority(1, 3)];
  }

  lemma ShowsOk(s: Sched, f: Face)
    requires Shows(s, f)
    ensures ListsOk(s) && SchedOk(s) && s.depth == 0 && s.current == f.current && s.tcb == f.tcb && !s.yieldPending
  {
  }

  lemma ShownAfter(s: Sched, f: Face, st: Step)
    requires Shows(s, f) && Possible(f, st) && !st.GiveMutex?
    ensures ListsOk(s) && SchedOk(s) && Enabled(s, st) && Next(s, st).depth == 0
  {
    hide ListsOk, SchedOk, Next, Enabled;
    GoesAhead(s, f, st);
  }

  /** What a processed tick leaves as it was, and that the task due is ready. */
  lemma TickReadies(s: Sched, f: Face, now: nat, t: Task)
    requires Shows(s, f) && At(s, now) && t in f.tcb && SleepsUntil(s, now, t, now + 1)
    ensures ListsOk(s) && SchedOk(s) && Enabled(s, TickInterrupt)
    ensures var r := Next(s, TickInterrupt);
            && r.depth == 0 && !r.yieldPending && r.current == s.current && r.tcb.Keys == s.tcb.Keys
            && (forall u :: u in s.tcb ==> r.tcb[u].prio == s.tcb[u].prio)
            && (forall u :: u in s.tcb && s.tcb[u].state == Ready(s.tcb[u].prio.current) ==> r.tcb[u].state == s.tcb[u].state)
            && r.tcb[t].state == Ready(s.tcb[t].prio.current)
  {
    hide ListsOk, SchedOk, Tick, Wakes, DueNow, After;
    TickWakesDue(s, now);
    TickKeeps(s);
    NextMoves(s, now, TickInterrupt);
  }

  /** The tick ends the wait of task 2, which is chosen at the first switch or the one after it. */
  lemma WaitEnds(s: Sched, f: Face, now: nat) returns (steps: seq<Step>, r: Sched)
    requires MAX_PRIORITIES >= 4
    requires Shows(s, f) && f.current == 1 && f.tcb.Keys == {0, 1, 2}
    requires Has(f, 0, 0, 0, 0, Ready(0), NoEvent) && Has(f, 1, 2, 3, 1, Ready(2), NoEvent)
    requires Has(f, 2, 2, 2, 0, Delayed, Waiting) && At(s, now) && SleepsUntil(s, now, 2, now + 1)
    ensures Goes(s, steps, r) && ListsOk(r) && r.current == 2 && !r.yieldPending && r.tcb.Keys == {0, 1, 2}
    ensures r.tcb[0].prio.current == 0 && r.tcb[1].prio.current == 2 && r.tcb[2].prio.current == 2
    ensures r.tcb[1].prio.base == 3 && r.tcb[1].prio.held == 1 && r.tcb[1].state.Ready?
  {
    hide Goes, ListsOk, SchedOk, At, SleepsUntil, TickAsks;
    TickReadies(s, f, now, 2);
    var m := Next(s, TickInterrupt);
    TakeTurns(m, 1, 2, 2);
    SelectKeepsLists(m);
    SelectKeepsLists(Select(m));
    CurrentIsKnown(m);
    TwoSteps(s, TickInterrupt);
    var m1 := Next(m, SwitchContext);
    CurrentIsKnown(m1);
    steps, r := [TickInterrupt, SwitchContext], m1;
    if m1.current != 2 {
      OneStep(m1, SwitchContext);
      r := Next(m1, SwitchContext);
      GoesOn(s, steps, m1, [SwitchContext], r);
      steps := steps + [SwitchContext];
    }
  }

  /**
   A waiter whose wait is over adjusts the priority of the holder, which has set its base priority
   while it ran on the one it was lent: the holder ends above the waiter that runs, and no switch is
   asked for.
   */
  lemma TimeoutIsSilent() returns (steps: seq<Step>, m: Sched, r: Sched)
    requires MAX_PRIORITIES >= 4
    ensures ListsOk(Boot(0)) && SchedOk(Boot(0)) && Goes(Boot(0), steps, m)
    ensures ListsOk(m) && SchedOk(m) && TopRuns(m) && !m.yieldPending && Enabled(m, DisinheritTimeout(1, 0))
    ensures !Asks(m, DisinheritTimeout(1, 0)) && r == Next(m, DisinheritTimeout(1, 0)) && !Served(r)
  {
    hide Goes, ListsOk, SchedOk, Boot, Next;
    BootOk(0);
    var steps1, s1, f1 := LendsPriority();
    var steps2, s2, f2, now := SetsBase(s1, f1);
    var steps3;
    steps3, m := WaitEnds(s2, f2, now);
    GoesOn(s1, steps2, s2, steps3, m);
    GoesOn(Boot(0), steps1, s1, steps2 + steps3, m);
    steps := steps1 + (steps2 + steps3);
    GoesOk(s2, steps3, m);
    r := RaisesSilently(m);
  }

  lemma RaisesSilently(m: Sched) returns (r: Sched)
    requires MAX_PRIORITIES >= 4
    requires ListsOk(m) && SchedOk(m) && m.current == 2 && !m.yieldPending && m.tcb.Keys == {0, 1, 2}
    requires m.tcb[0].prio.current == 0 && m.tcb[1].prio.current == 2 && m.tcb[2].prio.current == 2
    requires m.tcb[1].prio.base == 3 && m.tcb[1].prio.held == 1 && m.tcb[1].state.Ready?
    ensures TopRuns(m) && Enabled(m, DisinheritTimeout(1, 0))
    ensures !Asks(m, DisinheritTimeout(1, 0)) && r == Next(m, DisinheritTimeout(1, 0)) && !Served(r)
  {
    hide ListsOk, SchedOk, Next, PriorityAfterTimeout;
    TimeoutServesExactly(m, 1, 0);
    r := Next(m, DisinheritTimeout(1, 0));
    ApplyTimeout(m, 1, 0);
  }

  lemma GoesOk(s: Sched, steps: seq<Step>, r: Sched)
    requires Goes(s, steps, r)
    ensures ListsOk(r) && SchedOk(r)
  {
    hide ListsOk, SchedOk;
  }

  lemma ApplyTimeout(s: Sched, h: Task, highest: nat)
    requires ListsOk(s) && SchedOk(s) && Enabled(s, DisinheritTimeout(h, highest))
    ensures Next(s, DisinheritTimeout(h, highest)) == PriorityAfterTimeout(s, h, highest)
  {
    hide ListsOk, SchedOk, PriorityAfterTimeout;
  }
}
