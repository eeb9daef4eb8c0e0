/**
 Whole runs of the scheduler: any sequence of the operations of `tasks.c`, tick interrupts
 included, from any consistent state.
 */
module SchedulerRuns {
  import opened Rings
  import opened Ticks
  import opened Priorities
  import opened Scheduler
  import opened SchedulerTime
  import opened SchedulerSteps
  import opened SchedulerMoves

  datatype Step =
    | TickInterrupt
    | BlockCurrent(ticks: nat, onEvent: bool, indefinitely: bool)
    | EventReady(task: Task)
    | UnorderedReady(task: Task)
    | Abort(task: Task)
    | ParkTask(task: Task)
    | UnparkTask(task: Task)
    | UnparkFromIsr(task: Task)
    | SuspendScheduler
    | ResumeScheduler
    | CatchUp(ticks: nat)
    | SetPriority(task: Task, priority: nat)
    | InheritBy(task: Task)
    | GiveMutex(task: Task, waiting: seq<Task>)
    | DisinheritTimeout(task: Task, highest: nat)
    | MutexTaken
    | SwitchContext
    | Create(task: Task, priority: nat)

  /** What the kernel asks of the caller of each operation. */
  ghost predicate Enabled(s: Sched, st: Step) {
    && s.current in s.tcb
    && match st
       case TickInterrupt => true
       case BlockCurrent(ticks, _, _) => 1 <= ticks < M && s.tcb[s.current].state.Ready? && s.tcb[s.current].event == NoEvent
       case EventReady(t) => t in s.tcb && s.tcb[t].event == Waiting
       case UnorderedReady(t) => t in s.tcb && s.tcb[t].event == Waiting && s.depth > 0
       case Abort(t) => t in s.tcb && s.depth > 0
       case ParkTask(t) => t in s.tcb
       case UnparkTask(t) => t in s.tcb
       case UnparkFromIsr(t) => t in s.tcb
       case SuspendScheduler => true
       case ResumeScheduler => s.depth > 0
       case CatchUp(n) => s.depth > 0
       case SetPriority(t, _) => t in s.tcb
       case InheritBy(h) => h in s.tcb
       case GiveMutex(h, waiting) =>
         && h == s.current && s.tcb[h].prio.held > 0
         && (waiting != [] ==> waiting[0] in s.tcb && s.tcb[waiting[0]].event == Waiting)
       case DisinheritTimeout(h, p) => h in s.tcb && p < MAX_PRIORITIES
       case MutexTaken => true
       case SwitchContext => s.depth == 0 ==> SomeReady(s)
       case Create(t, p) => t !in s.tcb && p < MAX_PRIORITIES
  }

  /** `prvAddNewTaskToReadyList` for a task created while the scheduler runs. */
  function NewTask(s: Sched, t: Task, p: nat): Sched
    requires ListsOk(s) && t !in s.tcb && p < MAX_PRIORITIES
  {
    NewTaskKeeps(s, t, p);
    AddReady(Registered(s, t, p), t)
  }

  function Registered(s: Sched, t: Task, p: nat): Sched {
    s.(tcb := s.tcb[t := Tcb(Prio(p, p, 0, EventValue(p)), Nowhere, NoEvent, false)])
  }

  lemma NewTaskKeeps(s: Sched, t: Task, p: nat)
    requires ListsOk(s) && t !in s.tcb && p < MAX_PRIORITIES
    ensures ListsOk(Registered(s, t, p))
  {
    var r := Registered(s, t, p);
    forall u | u in r.tcb && r.tcb[u].state.Ready? ensures InReadyList(r, u) {
      assert InReadyList(s, u);
    }
    assert Sleepers(r) == Sleepers(s);
  }

  function Apply(s: Sched, st: Step): Sched
    requires SchedOk(s) && Enabled(s, st)
  {
    hide ReadyOk, DelaysOk;
    match st
    case TickInterrupt => Tick(s)
    case BlockCurrent(ticks, onEvent, indefinitely) => Block(if onEvent then Awaiting(s) else s, ticks, indefinitely)
    case EventReady(t) => EventWake(s, t)
    case UnorderedReady(t) => UnorderedWake(s, t)
    case Abort(t) => AbortDelay(s, t)
    case ParkTask(t) => SuspendTask(s, t)
    case UnparkTask(t) => ResumeTask(s, t)
    case UnparkFromIsr(t) => ResumeFromIsr(s, t)
    case SuspendScheduler => s.(depth := s.depth + 1)
    case ResumeScheduler => Resume(s)
    case CatchUp(n) => s.(pendedTicks := Plus(s.pendedTicks, n))
    case SetPriority(t, p) => PrioritySet(s, t, p)
    case InheritBy(h) => PriorityInherit(s, h)
    case GiveMutex(h, waiting) => MutexGiven(s, h, waiting)
    case DisinheritTimeout(h, p) => PriorityAfterTimeout(s, h, p)
    case MutexTaken => TakeMutex(s)
    case SwitchContext => if s.depth > 0 then s.(yieldPending := true) else Select(s)
    case Create(t, p) => NewTask(s, t, p)
  }

  /** How far a step moves the processed time. */
  function Elapse(s: Sched, st: Step): nat {
    match st
    case TickInterrupt => if s.depth == 0 then 1 else 0
    case ResumeScheduler => if s.depth == 1 then s.pendedTicks else 0
    case _ => 0
  }

  /** The step may take `t` out of its delay: it wakes, aborts, parks or blocks that very task. */
  predicate Disturbs(s: Sched, st: Step, t: Task) {
    match st
    case BlockCurrent(_, _, _) => t == s.current
    case EventReady(u) => t == u
    case UnorderedReady(u) => t == u
    case Abort(u) => t == u
    case ParkTask(u) => t == u
    case UnparkTask(u) => t == u
    case UnparkFromIsr(u) => t == u
    case GiveMutex(_, waiting) => waiting != [] && t == waiting[0]
    case _ => false
  }

  /** A task sleeping until `w`, not yet picked for an early wake-up. */
  ghost predicate SleepsUntil(s: Sched, now: nat, t: Task, w: nat) {
    Item(t, w) in Wakes(s, now) && t in s.tcb && s.tcb[t].event != PendingReady
  }

  ghost predicate IsReady(s: Sched, t: Task) {
    t in s.tcb && s.tcb[t].state == Ready(s.tcb[t].prio.current)
  }

  /** Ready tasks other than those excepted stay ready. */
  ghost predicate StayReady(s: Sched, r: Sched, excepted: set<Task>) {
    forall t {:trigger IsReady(s, t)} :: IsReady(s, t) && t !in excepted ==> IsReady(r, t)
  }

  /** Sleepers and ready tasks other than `u` are as they were. */
  ghost predicate OthersSleep(s: Sched, now: nat, r: Sched, u: Task) {
    && StayReady(s, r, {u})
    &&
    forall t, w: nat {:trigger SleepsUntil(s, now, t, w)} :: SleepsUntil(s, now, t, w) && t != u ==>
        SleepsUntil(r, now, t, w)
  }

  lemma TouchedOthers(s: Sched, now: nat, u: Task, r: Sched)
    requires Touched(s, now, u, r)
    ensures OthersSleep(s, now, r, u)
  {
    WithoutOwnerFacts(Wakes(s, now), u);
    hide SchedOk, Wakes;
  }

  lemma BlockOthers(s: Sched, ticks: nat, indefinitely: bool, now: nat)
    requires ListsOk(s) && SchedOk(s) && At(s, now) && 1 <= ticks < M
    ensures OthersSleep(s, now, Block(s, ticks, indefinitely), s.current)
    ensures !(ticks == MAX_DELAY && indefinitely) && s.tcb[s.current].event != PendingReady ==>
              SleepsUntil(Block(s, ticks, indefinitely), now, s.current, now + ticks)
    ensures At(Block(s, ticks, indefinitely), now) && SameClock(s, Block(s, ticks, indefinitely))
  {
    hide ListsOk, SchedOk, Block, Wakes, WithoutOwner, InsertSorted;
    BlockWakes(s, ticks, indefinitely, now);
    WithoutOwnerFacts(Wakes(s, now), s.current);
    InsertSortedMembers(WithoutOwner(Wakes(s, now), s.current), Item(s.current, now + ticks));
  }

  /** Every step but the processing of ticks leaves the clock and the undisturbed sleepers alone. */
  ghost predicate Still(s: Sched, now: nat, st: Step, r: Sched) {
    && SchedOk(r) && r.tick == s.tick && r.overflows == s.overflows
        && (r.pendedTicks == s.pendedTicks || st.TickInterrupt? || st.CatchUp?)
    && (forall t {:trigger IsReady(s, t)} :: IsReady(s, t) && !Disturbs(s, st, t) ==> IsReady(r, t))
    && forall t, w: nat {:trigger SleepsUntil(s, now, t, w)} :: SleepsUntil(s, now, t, w) && !Disturbs(s, st, t) ==>
        SleepsUntil(r, now, t, w)
  }

  lemma StillFromTouched(s: Sched, now: nat, st: Step, u: Task, r: Sched)
    requires Touched(s, now, u, r) && Disturbs(s, st, u)
    requires forall t :: t != u ==> !Disturbs(s, st, t)
    ensures Still(s, now, st, r)
  {
    TouchedOthers(s, now, u, r);
    hide SchedOk, SleepsUntil;
  }

  /** Nothing about sleepers changes but priorities, flags or the ready lists. */
  lemma StillFromSame(s: Sched, now: nat, st: Step, r: Sched)
    requires SchedOk(r) && r.tick == s.tick && r.overflows == s.overflows
        && (r.pendedTicks == s.pendedTicks || st.TickInterrupt? || st.CatchUp?)
    requires Wakes(r, now) == Wakes(s, now) && s.tcb.Keys <= r.tcb.Keys
    requires forall t :: t in s.tcb ==> r.tcb[t].event == s.tcb[t].event
    requires StayReady(s, r, {})
    ensures Still(s, now, st, r)
  {
    hide SchedOk, Wakes;
  }

  lemma StillWake(s: Sched, now: nat, st: Step)
    requires ListsOk(s) && SchedOk(s) && Enabled(s, st)
    requires st.EventReady? || st.UnorderedReady? || st.Abort? || st.ParkTask? || st.UnparkTask? || st.UnparkFromIsr?
    ensures Still(s, now, st, Apply(s, st))
  {
    hide ListsOk, SchedOk, Touched, Still;
    match st
    case EventReady(t) =>
      EventWakeOk(s, t, now);
      StillFromTouched(s, now, st, t, EventWake(s, t));
    case UnorderedReady(t) =>
      UnorderedWakeOk(s, t, now);
      StillFromTouched(s, now, st, t, UnorderedWake(s, t));
    case Abort(t) =>
      AbortDelayOk(s, t, now);
      StillFromTouched(s, now, st, t, AbortDelay(s, t));
    case ParkTask(t) =>
      SuspendTaskOk(s, t, now);
      StillFromTouched(s, now, st, t, SuspendTask(s, t));
    case UnparkTask(t) =>
      ResumeTaskOk(s, t, now);
      StillFromTouched(s, now, st, t, ResumeTask(s, t));
    case UnparkFromIsr(t) =>
      ResumeFromIsrOk(s, t, now);
      StillFromTouched(s, now, st, t, ResumeFromIsr(s, t));
  }

  lemma RetuneOk(s: Sched, t: Task, x: Prio, now: nat)
    requires ListsOk(s) && SchedOk(s) && t in s.tcb && x.current == s.tcb[t].prio.current
        && x.base == s.tcb[t].prio.base
    ensures SchedOk(Retune(s, t, x)) && Wakes(Retune(s, t, x), now) == Wakes(s, now)
  {
    hide ListsOk, PendingOk, Above, WakesFrom;
    TasksBounded(s, t);
    RetuneKeeps(s, t, x);
    PendingFrame(s, Retune(s, t, x));
  }

  lemma TasksBounded(s: Sched, t: Task)
    requires ListsOk(s) && t in s.tcb
    ensures s.tcb[t].prio.current < MAX_PRIORITIES && s.tcb[t].prio.base < MAX_PRIORITIES && s.current in s.tcb
  {
  }

  lemma SetPrioSame(s: Sched, t: Task, x: Prio, now: nat, st: Step)
    requires ListsOk(s) && SchedOk(s) && t in s.tcb && x.current < MAX_PRIORITIES && x.base < MAX_PRIORITIES
    ensures Still(s, now, st, SetPrio(s, t, x))
  {
    hide ListsOk, SchedOk, SetPrio, Wakes;
    SetPrioOk(s, t, x, now);
    SetPrioKeeps(s, t, x);
    StillFromSame(s, now, st, SetPrio(s, t, x));
  }

  lemma StillPriority(s: Sched, now: nat, st: Step)
    requires ListsOk(s) && SchedOk(s) && Enabled(s, st)
    requires st.SetPriority? || st.InheritBy? || st.DisinheritTimeout? || st.MutexTaken?
    ensures Still(s, now, st, Apply(s, st))
  {
    hide ListsOk, SchedOk, Still, SetPrio, Wakes;
    var h := if st.MutexTaken? then s.current else st.task;
    TasksBounded(s, h);
    TasksBounded(s, s.current);
    StillFromSame(s, now, st, s);
    var x := s.tcb[h].prio;
    match st
    case SetPriority(t, p) =>
      SetPrioSame(s, h, SetBase(x, Capped(p)), now, st);
    case InheritBy(t) =>
      SetPrioSame(s, h, Inherit(x, s.tcb[s.current].prio.current), now, st);
    case DisinheritTimeout(t, p) =>
      SetPrioSame(s, h, DisinheritAfterTimeout(x, p), now, st);
    case MutexTaken =>
      RetuneOk(s, h, x.(held := x.held + 1), now);
      StillFromSame(s, now, st, TakeMutex(s));
  }

  lemma StillDisinherit(s: Sched, now: nat, st: Step, h: Task)
    requires ListsOk(s) && SchedOk(s) && h in s.tcb && s.tcb[h].prio.held > 0
    ensures Still(s, now, st, PriorityDisinherit(s, h))
  {
    hide ListsOk, SchedOk, Still, SetPrio, Wakes;
    TasksBounded(s, h);
    var y := Disinherit(s.tcb[h].prio);
    if y.current != s.tcb[h].prio.current {
      SetPrioSame(s, h, y, now, st);
    } else {
      RetuneOk(s, h, y, now);
      StillFromSame(s, now, st, Retune(s, h, y));
    }
  }

  /** First nothing happens to anybody, then only to a task the step may disturb. */
  lemma StillThenTouched(s: Sched, now: nat, st: Step, m: Sched, u: Task, r: Sched)
    requires Still(s, now, st, m) && Touched(m, now, u, r) && Disturbs(s, st, u)
    requires forall t :: t != u ==> !Disturbs(s, st, t)
    ensures Still(s, now, st, r)
  {
    TouchedOthers(m, now, u, r);
    hide SchedOk, SleepsUntil, IsReady;
  }

  lemma StillGive(s: Sched, now: nat, st: Step)
    requires ListsOk(s) && SchedOk(s) && Enabled(s, st) && st.GiveMutex?
    ensures Still(s, now, st, Apply(s, st))
  {
    hide ListsOk, Touched, PriorityDisinherit, EventWake, Disinherit;
    var m := PriorityDisinherit(s, st.task);
    DisinheritKeeps(s, st.task);
    StillDisinherit(s, now, st, st.task);
    assert SchedOk(m);
    hide SchedOk, Still;
    if st.waiting != [] {
      EventWakeOk(m, st.waiting[0], now);
      StillThenTouched(s, now, st, m, st.waiting[0], EventWake(m, st.waiting[0]));
    }
  }

  lemma StillFlags(s: Sched, now: nat, st: Step)
    requires ListsOk(s) && SchedOk(s) && Enabled(s, st)
    requires st.SuspendScheduler? || st.CatchUp? || st.SwitchContext? || (st.ResumeScheduler? && s.depth > 1)
             || (st.TickInterrupt? && s.depth > 0)
    ensures Still(s, now, st, Apply(s, st))
  {
    hide ListsOk, WakesFrom;
    var r := Apply(s, st);
    if st.SwitchContext? && s.depth == 0 {
      SelectOk(s, now);
    } else {
      RetagKeeps(s, r, s.current, s.tcb[s.current]);
    }
    hide ListsOk, Wakes;
    StillFromSame(s, now, st, r);
  }

  lemma StillCreate(s: Sched, now: nat, st: Step)
    requires ListsOk(s) && SchedOk(s) && Enabled(s, st) && st.Create?
    ensures Still(s, now, st, Apply(s, st))
  {
    hide ListsOk, SchedOk, AddReady, WakesFrom;
    var m := Registered(s, st.task, st.priority);
    NewTaskKeeps(s, st.task, st.priority);
    RegisteredPending(s, st.task, st.priority);
    AddReadyKeeps(m, st.task);
    AddReadySame(m, st.task);
    PendingFrame(m, AddReady(m, st.task));
    FromParts(s, AddReady(m, st.task));
    StillFromSame(s, now, st, Apply(s, st));
  }

  lemma RegisteredPending(s: Sched, t: Task, p: nat)
    requires SchedOk(s) && t !in s.tcb
    ensures PendingOk(Registered(s, t, p))
  {
  }

  lemma FromParts(s: Sched, r: Sched)
    requires SchedOk(s) && ListsOk(r) && PendingOk(r)
    requires r.delayed == s.delayed && r.nextUnblock == s.nextUnblock && r.tick == s.tick
    ensures SchedOk(r)
  {
    hide ListsOk, PendingOk;
  }

  lemma StillBlock(s: Sched, now: nat, st: Step)
    requires ListsOk(s) && SchedOk(s) && Enabled(s, st) && st.BlockCurrent? && At(s, now)
    ensures Still(s, now, st, Apply(s, st))
    ensures !(st.ticks == MAX_DELAY && st.indefinitely) ==> SleepsUntil(Apply(s, st), now, s.current, now + st.ticks)
  {
    hide ListsOk, SchedOk, Block, Wakes, At;
    var m := if st.onEvent then Awaiting(s) else s;
    AwaitingOk(s, now);
    BlockOthers(m, st.ticks, st.indefinitely, now);
    BlockStill(s, now, st, m, Apply(s, st));
  }

  lemma BlockStill(s: Sched, now: nat, st: Step, m: Sched, r: Sched)
    requires st.BlockCurrent? && s.current in s.tcb && s.current in m.tcb && m.current == s.current
    requires m.tcb == s.tcb[s.current := m.tcb[s.current]] && Wakes(m, now) == Wakes(s, now)
    requires SameTime(s, m) && SameTime(m, r) && At(r, now) && OthersSleep(m, now, r, s.current)
    ensures Still(s, now, st, r)
  {
    hide SchedOk, Wakes;
    assert forall t, w: nat {:trigger SleepsUntil(s, now, t, w)} :: SleepsUntil(s, now, t, w) && t != s.current ==>
        SleepsUntil(m, now, t, w);
    assert forall t {:trigger IsReady(s, t)} :: IsReady(s, t) && t != s.current ==> IsReady(m, t);
  }

  lemma AwaitingOk(s: Sched, now: nat)
    requires ListsOk(s) && SchedOk(s) && At(s, now) && s.current in s.tcb && s.tcb[s.current].event != PendingReady
    ensures var r := Awaiting(s);
            && ListsOk(r) && At(r, now) && SchedOk(r) && Wakes(r, now) == Wakes(s, now) && SameTime(s, r)
                && r.current == s.current
            && r.tcb == s.tcb[s.current := s.tcb[s.current].(event := Waiting)]
  {
    hide ListsOk;
    RetagOk(s, s.current, s.tcb[s.current].(event := Waiting));
  }

  // ----- steps that process ticks -----

  /** After time has moved on to `later`: who is due is ready, who is not still sleeps. */
  ghost predicate Moved(s: Sched, now: nat, later: nat, r: Sched) {
    && At(r, later) && StayReady(s, r, {})
    && (forall t, w: nat {:trigger SleepsUntil(s, now, t, w)} :: SleepsUntil(s, now, t, w) && w > later ==> SleepsUntil(r, later, t, w))
    && (forall t, w: nat {:trigger SleepsUntil(s, now, t, w)} :: SleepsUntil(s, now, t, w) && w <= later ==> IsReady(r, t))
  }

  /** A wake time is either dropped as due or kept as ahead. */
  lemma DueOrAhead(w: seq<Item>, now: nat, e: Item)
    requires e in w && forall i :: 0 <= i < |After(w, now)| ==> After(w, now)[i].value > now
    ensures e.value > now ==> e in After(w, now)
    ensures e.value <= now ==> e.owner in Owners(DueNow(w, now))
  {
    var k := Reach(Values(w), now);
    assert w == w[..k] + w[k..];
    assert forall i :: 0 <= i < k ==> w[i].value == Values(w)[i] <= now;
    if e.value <= now {
      assert e !in After(w, now);
      var i :| 0 <= i < k && w[i] == e;
      assert Owners(w[..k])[i] == e.owner;
    }
  }

  lemma MovedBy(s: Sched, now: nat, early: seq<Task>, w: seq<Item>, later: nat, r: Sched)
    requires At(r, later) && Wakes(r, later) == After(w, later)
    requires forall e :: e in Wakes(s, now) && e.owner !in early ==> e in w
    requires forall t :: t in early ==> t in s.tcb && s.tcb[t].event == PendingReady
    requires WokeExactly(s, r, early + Owners(DueNow(w, later)))
    ensures Moved(s, now, later, r)
  {
    hide At, After, DueNow, Owners, Wakes, SleepsUntil, IsReady, WokeExactly, StayReady;
    WakesAhead(r, later);
    WokeStayReady(s, r, early + Owners(DueNow(w, later)));
    forall t, x: nat | SleepsUntil(s, now, t, x)
      ensures x > later ==> SleepsUntil(r, later, t, x)
      ensures x <= later ==> IsReady(r, t)
    {
      MovedOne(s, now, early, w, later, r, t, x);
    }
  }

  lemma WokeStayReady(s: Sched, r: Sched, who: seq<Task>)
    requires WokeExactly(s, r, who)
    ensures StayReady(s, r, {})
  {
  }

  lemma MovedOne(s: Sched, now: nat, early: seq<Task>, w: seq<Item>, later: nat, r: Sched, t: Task, x: nat)
    requires SleepsUntil(s, now, t, x)
    requires Wakes(r, later) == After(w, later) && forall i :: 0 <= i < |After(w, later)| ==>
        After(w, later)[i].value > later
    requires forall e :: e in Wakes(s, now) && e.owner !in early ==> e in w
    requires forall t :: t in early ==> t in s.tcb && s.tcb[t].event == PendingReady
    requires WokeExactly(s, r, early + Owners(DueNow(w, later)))
    ensures x > later ==> SleepsUntil(r, later, t, x)
    ensures x <= later ==> IsReady(r, t)
  {
    hide After, DueNow, Owners, Wakes;
    DueOrAhead(w, later, Item(t, x));
    if x > later {
      NotDueTwice(s, now, early, w, later, r, t, x);
    }
  }

  lemma NotDueTwice(s: Sched, now: nat, early: seq<Task>, w: seq<Item>, later: nat, r: Sched, t: Task, x: nat)
    requires SleepsUntil(s, now, t, x) && x > later && t !in early
    requires Item(t, x) in After(w, later) && Wakes(r, later) == After(w, later)
    requires WokeExactly(s, r, early + Owners(DueNow(w, later)))
    ensures SleepsUntil(r, later, t, x)
  {
    hide After, DueNow, Owners, Wakes;
  }

  lemma TickMoves(s: Sched, now: nat)
    requires ListsOk(s) && At(s, now) && s.depth == 0
    ensures Moved(s, now, now + 1, Tick(s))
  {
    hide ListsOk, At, Tick, Wakes, Owners, Moved, DueNow, After;
    TickWakesDue(s, now);
    var due := Owners(DueNow(Wakes(s, now), now + 1));
    assert [] + due == due;
    MovedBy(s, now, [], Wakes(s, now), now + 1, Tick(s));
  }

  lemma {:induction false} WithoutOwnersKeeps(w: seq<Item>, ts: seq<Task>)
    ensures forall e :: e in w && e.owner !in ts ==> e in WithoutOwners(w, ts)
    decreases |ts|
  {
    if ts != [] {
      WithoutOwnerFacts(w, ts[0]);
      WithoutOwnersKeeps(WithoutOwner(w, ts[0]), ts[1..]);
    }
  }

  lemma ResumeMoves(s: Sched, now: nat)
    requires SchedOk(s) && At(s, now) && s.depth == 1
    ensures Moved(s, now, now + s.pendedTicks, Resume(s))
  {
    hide SchedOk, At, Resume, Wakes, WithoutOwners, Owners, DueNow, After, WokeExactly, Moved;
    ResumeIsOneShot(s, now);
    AllPending(s);
    WithoutOwnersKeeps(Wakes(s, now), s.pending);
    MovedBy(s, now, s.pending, WithoutOwners(Wakes(s, now), s.pending), now + s.pendedTicks, Resume(s));
  }

  lemma AllPending(s: Sched)
    requires SchedOk(s)
    ensures forall t :: t in s.pending ==> t in s.tcb && s.tcb[t].event == PendingReady
  {
  }

  /** The state in which the scheduler is started, with the idle task ready. */
  function Boot(idle: Task): Sched {
    Sched(0, 0, [], [], [], seq(MAX_PRIORITIES, p => if p == 0 then Ring([idle], 0) else Ring([], 0)), [], MAX_DELAY, 0, 0, 0, false,
          idle, map[idle := Tcb(Prio(0, 0, 0, EventValue(0)), Ready(0), NoEvent, false)])
  }

  lemma BootOk(idle: Task)
    ensures ListsOk(Boot(idle)) && SchedOk(Boot(idle)) && At(Boot(idle), 0) && IsReady(Boot(idle), idle)
  {
    hide ReadyOk;
    BootReady(idle);
    assert 0 % M == 0 && 0 / M == 0;
  }

  lemma BootReady(idle: Task)
    ensures ReadyOk(Boot(idle))
  {
    var s := Boot(idle);
    assert s.ready[0].items == [idle];
    assert forall p :: 0 < p < MAX_PRIORITIES ==> s.ready[p].items == [];
  }

  // ----- one step -----

  /** What one step does to the clock, the invariant and the sleepers it does not disturb. */
  ghost predicate StepMoves(s: Sched, now: nat, st: Step, r: Sched) {
    && At(r, now + Elapse(s, st))
    && (forall t {:trigger IsReady(s, t)} :: IsReady(s, t) && !Disturbs(s, st, t) ==> IsReady(r, t))
    && forall t, w: nat {:trigger SleepsUntil(s, now, t, w)} ::
         SleepsUntil(s, now, t, w) && !Disturbs(s, st, t) ==>
           if w > now + Elapse(s, st) then SleepsUntil(r, now + Elapse(s, st), t, w) else IsReady(r, t)
  }

  lemma StillMoves(s: Sched, now: nat, st: Step, r: Sched)
    requires At(s, now) && Still(s, now, st, r) && Elapse(s, st) == 0
    ensures StepMoves(s, now, st, r)
  {
    SleepersAhead(s, now);
    hide SchedOk, SleepsUntil, Disturbs;
  }

  lemma SleepersAhead(s: Sched, now: nat)
    requires At(s, now)
    ensures forall t, w: nat {:trigger SleepsUntil(s, now, t, w)} :: SleepsUntil(s, now, t, w) ==> w > now
  {
    WakesAhead(s, now);
    hide At, Wakes;
  }

  /** The step makes up for lost time or processes a tick. */
  predicate ProcessesTicks(s: Sched, st: Step) {
    (st.TickInterrupt? && s.depth == 0) || (st.ResumeScheduler? && s.depth == 1)
  }

  lemma StillStep(s: Sched, now: nat, st: Step)
    requires ListsOk(s) && SchedOk(s) && At(s, now) && Enabled(s, st) && !ProcessesTicks(s, st)
    ensures Still(s, now, st, Apply(s, st))
  {
    hide ListsOk, SchedOk, At, Still, Apply;
    if st.BlockCurrent? {
      StillBlock(s, now, st);
    } else if st.Create? {
      StillCreate(s, now, st);
    } else if st.GiveMutex? {
      StillGive(s, now, st);
    } else if st.SetPriority? || st.InheritBy? || st.DisinheritTimeout? || st.MutexTaken? {
      StillPriority(s, now, st);
    } else if st.SuspendScheduler? || st.CatchUp? || st.SwitchContext? || st.ResumeScheduler? || st.TickInterrupt? {
      StillFlags(s, now, st);
    } else {
      StillWake(s, now, st);
    }
  }

  lemma StepOk(s: Sched, now: nat, st: Step)
    requires ListsOk(s) && SchedOk(s) && At(s, now) && Enabled(s, st)
    ensures StepMoves(s, now, st, Apply(s, st))
  {
    hide ListsOk, SchedOk, At, Still, Moved, StepMoves, Tick, Resume;
    if st.TickInterrupt? && s.depth == 0 {
      TickMoves(s, now);
      MovedSteps(s, now, st, Apply(s, st));
    } else if st.ResumeScheduler? && s.depth == 1 {
      ResumeMoves(s, now);
      MovedSteps(s, now, st, Apply(s, st));
    } else {
      StillStep(s, now, st);
      StillMoves(s, now, st, Apply(s, st));
    }
  }

  lemma MovedSteps(s: Sched, now: nat, st: Step, r: Sched)
    requires Moved(s, now, now + Elapse(s, st), r)
    ensures StepMoves(s, now, st, r)
  {
    hide At, SleepsUntil;
  }

  // ----- runs -----

  /** A step from a consistent state leads to a consistent state: the callers' duties suffice. */
  function Next(s: Sched, st: Step): (r: Sched)
    requires ListsOk(s) && SchedOk(s) && Enabled(s, st)
    ensures ListsOk(r) && SchedOk(r)
  {
    ClockShows(s);
    StepOk(s, Clock(s), st);
    Apply(s, st)
  }

  ghost predicate Runnable(s: Sched, steps: seq<Step>)
    requires ListsOk(s) && SchedOk(s)
    decreases |steps|
  {
    steps == [] || (Enabled(s, steps[0]) && Runnable(Next(s, steps[0]), steps[1..]))
  }

  function Run(s: Sched, steps: seq<Step>): (r: Sched)
    requires ListsOk(s) && SchedOk(s) && Runnable(s, steps)
    ensures ListsOk(r) && SchedOk(r)
    decreases |steps|
  {
    if steps == [] then s else Run(Next(s, steps[0]), steps[1..])
  }

  /** The ticks processed during a run. */
  function Duration(s: Sched, steps: seq<Step>): nat
    requires ListsOk(s) && SchedOk(s) && Runnable(s, steps)
    decreases |steps|
  {
    if steps == [] then 0 else Elapse(s, steps[0]) + Duration(Next(s, steps[0]), steps[1..])
  }

  predicate Undisturbed(s: Sched, steps: seq<Step>, t: Task)
    requires ListsOk(s) && SchedOk(s) && Runnable(s, steps)
    decreases |steps|
  {
    steps == [] || (!Disturbs(s, steps[0], t) && Undisturbed(Next(s, steps[0]), steps[1..], t))
  }

  lemma NextMoves(s: Sched, now: nat, st: Step)
    requires ListsOk(s) && SchedOk(s) && At(s, now) && Enabled(s, st)
    ensures StepMoves(s, now, st, Next(s, st))
  {
    hide ListsOk, SchedOk, At, StepMoves, Apply;
    StepOk(s, now, st);
  }

  /** In every run the clock shows the absolute time modulo `M` and the lists are consistent. */
  lemma {:induction false} RunKeeps(s: Sched, now: nat, steps: seq<Step>)
    requires ListsOk(s) && SchedOk(s) && At(s, now) && Runnable(s, steps)
    ensures At(Run(s, steps), now + Duration(s, steps))
    decreases |steps|
  {
    hide ListsOk, SchedOk, At, Next, Enabled, Elapse;
    if steps != [] {
      NextMoves(s, now, steps[0]);
      RunKeeps(Next(s, steps[0]), now + Elapse(s, steps[0]), steps[1..]);
    }
  }

  /**
   Delays are exact across wraps: in any run that does not disturb it, a task sleeping until
   `w` sleeps as long as the processed time is before `w`.
   */
  lemma {:induction false} SleepsTillThen(s: Sched, now: nat, steps: seq<Step>, t: Task, w: nat)
    requires ListsOk(s) && SchedOk(s) && At(s, now) && Runnable(s, steps) && Undisturbed(s, steps, t)
    requires SleepsUntil(s, now, t, w) && now + Duration(s, steps) < w
    ensures SleepsUntil(Run(s, steps), now + Duration(s, steps), t, w)
    decreases |steps|
  {
    hide ListsOk, SchedOk, At, Next, Enabled, Elapse, SleepsUntil, Disturbs;
    if steps != [] {
      NextMoves(s, now, steps[0]);
      SleepsTillThen(Next(s, steps[0]), now + Elapse(s, steps[0]), steps[1..], t, w);
    }
  }

  /** ... and the step that takes the time to `w` or beyond makes it ready. */
  lemma WakesThen(s: Sched, now: nat, steps: seq<Step>, last: Step, t: Task, w: nat)
    requires ListsOk(s) && SchedOk(s) && At(s, now) && Runnable(s, steps) && Undisturbed(s, steps, t)
    requires SleepsUntil(s, now, t, w) && now + Duration(s, steps) < w
    requires Enabled(Run(s, steps), last) && !Disturbs(Run(s, steps), last, t)
    requires w <= now + Duration(s, steps) + Elapse(Run(s, steps), last)
    ensures IsReady(Next(Run(s, steps), last), t)
  {
    hide ListsOk, SchedOk, At, Next, Enabled, Elapse, SleepsUntil, IsReady, Disturbs, Run, Runnable, Duration,
        Undisturbed;
    SleepsTillThen(s, now, steps, t, w);
    RunKeeps(s, now, steps);
    NextMoves(Run(s, steps), now + Duration(s, steps), last);
  }

  /** A task that blocks for `ticks` ticks, at any tick value, sleeps through every shorter undisturbed run. */
  lemma DelayIsKept(s: Sched, now: nat, block: Step, steps: seq<Step>)
    requires ListsOk(s) && SchedOk(s) && At(s, now) && Enabled(s, block)
    requires block.BlockCurrent? && !(block.ticks == MAX_DELAY && block.indefinitely) && Runnable(Next(s, block), steps)
    requires Undisturbed(Next(s, block), steps, s.current) && Duration(Next(s, block), steps) < block.ticks
    ensures SleepsUntil(Run(Next(s, block), steps), now + Duration(Next(s, block), steps), s.current, now + block.ticks)
  {
    hide ListsOk, SchedOk, At, Next, Enabled, Elapse, SleepsUntil, Disturbs, Run, Runnable, Duration, Undisturbed;
    BlockSleeps(s, now, block);
    SleepsTillThen(Next(s, block), now, steps, s.current, now + block.ticks);
  }

  /** It is ready after the step that processes the last of those ticks. */
  lemma DelayIsExact(s: Sched, now: nat, block: Step, steps: seq<Step>, last: Step)
    requires ListsOk(s) && SchedOk(s) && At(s, now) && Enabled(s, block)
    requires block.BlockCurrent? && !(block.ticks == MAX_DELAY && block.indefinitely) && Runnable(Next(s, block), steps)
    requires Undisturbed(Next(s, block), steps, s.current) && Duration(Next(s, block), steps) < block.ticks
    requires var r := Run(Next(s, block), steps);
             && Enabled(r, last) && !Disturbs(r, last, s.current)
             && Duration(Next(s, block), steps) + Elapse(r, last) >= block.ticks
    ensures IsReady(Next(Run(Next(s, block), steps), last), s.current)
  {
    hide ListsOk, SchedOk, At, Next, Enabled, Elapse, SleepsUntil, IsReady, Disturbs, Run, Runnable, Duration,
        Undisturbed;
    BlockSleeps(s, now, block);
    WakesThen(Next(s, block), now, steps, last, s.current, now + block.ticks);
  }

  lemma BlockSleeps(s: Sched, now: nat, block: Step)
    requires ListsOk(s) && SchedOk(s) && At(s, now) && block.BlockCurrent? && Enabled(s, block)
    requires !(block.ticks == MAX_DELAY && block.indefinitely)
    ensures At(Next(s, block), now) && SleepsUntil(Next(s, block), now, s.current, now + block.ticks)
    ensures Next(s, block).pendedTicks == s.pendedTicks
  {
    hide ListsOk, SchedOk, At, SleepsUntil, Block;
    StillBlock(s, now, block);
    NextMoves(s, now, block);
  }

  /** A ready task stays ready through every run that does not disturb it. */
  lemma {:induction false} ReadyStays(s: Sched, now: nat, steps: seq<Step>, t: Task)
    requires ListsOk(s) && SchedOk(s) && At(s, now) && Runnable(s, steps) && Undisturbed(s, steps, t) && IsReady(s, t)
    ensures IsReady(Run(s, steps), t)
    decreases |steps|
  {
    hide ListsOk, SchedOk, At, Next, Enabled, Elapse, IsReady, Disturbs;
    if steps != [] {
      NextMoves(s, now, steps[0]);
      ReadyStays(Next(s, steps[0]), now + Elapse(s, steps[0]), steps[1..], t);
    }
  }

  /**
   As long as nothing disturbs the idle task, a context switch is always possible, and it
   chooses a ready task that no other ready task outranks.
   */
  lemma SwitchAlwaysFinds(s: Sched, now: nat, steps: seq<Step>, idle: Task)
    requires ListsOk(s) && SchedOk(s) && At(s, now) && Runnable(s, steps) && Undisturbed(s, steps, idle)
        && IsReady(s, idle)
    ensures var r := Run(s, steps);
            && SomeReady(r)
            && IsReady(Select(r), Select(r).current)
            && forall t :: t in r.tcb && r.tcb[t].state.Ready? ==>
                r.tcb[t].prio.current <= r.tcb[Select(r).current].prio.current
  {
    var r := Run(s, steps);
    hide Run, Runnable, Undisturbed, At;
    ReadyStays(s, now, steps, idle);
    IdleIsFound(r, idle);
  }

  lemma IdleIsFound(r: Sched, idle: Task)
    requires ListsOk(r) && IsReady(r, idle)
    ensures SomeReady(r) && IsReady(Select(r), Select(r).current)
    ensures forall t :: t in r.tcb && r.tcb[t].state.Ready? ==>
        r.tcb[t].prio.current <= r.tcb[Select(r).current].prio.current
  {
    assert InReadyList(r, idle);
    assert r.ready[r.tcb[idle].prio.current].items != [];
    SelectPicksHighest(r);
    StateIsOwnReady(r, Select(r).current);
  }

  // ----- one call undoes another -----

  /** With nothing held back, resuming undoes suspending, at every nesting depth. */
  lemma ResumeUndoesSuspend(s: Sched)
    requires ListsOk(s) && SchedOk(s) && s.current in s.tcb && (s.depth == 0 ==> s.pendedTicks == 0)
    ensures var held := Next(s, SuspendScheduler);
            ListsOk(held) && SchedOk(held) && Enabled(held, ResumeScheduler) && Next(held, ResumeScheduler) == s
  {
    hide ListsOk, SchedOk;
    NothingPends(s);
    CurrentIsKnown(s);
    var held := Next(s, SuspendScheduler);
    if s.depth == 0 {
      ResumesEmpty(held);
    }
  }

  lemma NothingPends(s: Sched)
    requires SchedOk(s)
    ensures s.depth == 0 ==> s.pending == []
  {
  }

  lemma ResumesEmpty(s: Sched)
    requires SchedOk(s) && s.depth == 1 && s.pending == [] && s.pendedTicks == 0
    ensures Resume(s) == s.(depth := 0)
  {
    hide SchedOk;
    RefreshKeeps(s, false);
  }

  /** A switch asked for while the scheduler is suspended is left pending, changes nothing else, and is still pending after the resume. */
  lemma SwitchIsHeld(s: Sched)
    requires ListsOk(s) && SchedOk(s) && s.current in s.tcb && s.depth > 0
    ensures Enabled(s, SwitchContext) && Next(s, SwitchContext) == s.(yieldPending := true)
    ensures Enabled(Next(s, SwitchContext), ResumeScheduler)
    ensures Next(Next(s, SwitchContext), ResumeScheduler).yieldPending
  {
    hide ListsOk, SchedOk, Flush, PendedTicks;
    var held := Next(s, SwitchContext);
    CurrentIsKnown(held);
    if held.depth == 1 {
      FlushKeeps(held);
      FlushKeepsYield(held);
      RefreshKeeps(Flush(held), held.pending != []);
      PendedTicksKeepYield(Refresh(Flush(held), held.pending != []), held.pendedTicks);
    }
  }

  lemma {:induction false} FlushKeepsYield(s: Sched)
    requires SchedOk(s) && s.yieldPending
    ensures Flush(s).yieldPending
    decreases |s.pending|
  {
    if s.pending != [] {
      FlushOneKeeps(s);
      assert FlushOne(s).yieldPending;
      hide SchedOk, FlushOne;
      FlushKeepsYield(FlushOne(s));
    }
  }

  lemma {:induction false} PendedTicksKeepYield(s: Sched, k: nat)
    requires SchedOk(s) && s.depth == 0 && s.yieldPending
    ensures PendedTicks(s, k).yieldPending
    decreases k
  {
    hide SchedOk, PendedTick;
    if k > 0 {
      PendedTickKeepsYield(s);
      PendedTicksKeepYield(PendedTick(s), k - 1);
    }
  }

  lemma PendedTickKeepsYield(s: Sched)
    requires SchedOk(s) && s.depth == 0 && s.yieldPending
    ensures SchedOk(PendedTick(s)) && PendedTick(s).depth == 0 && PendedTick(s).yieldPending
  {
    hide Tick, ListsOk;
    TickKeeps(s);
    YieldKeeps(Tick(s), PendedTick(s).yieldPending);
  }

  // ----- conservation of time -----

  /** Tick interrupts and caught-up ticks that arrive. */
  function Arrival(st: Step): nat {
    match st
    case TickInterrupt => 1
    case CatchUp(n) => n
    case _ => 0
  }

  function Arrivals(steps: seq<Step>): nat {
    if steps == [] then 0 else Arrival(steps[0]) + Arrivals(steps[1..])
  }

  lemma PlusAgain(x: nat, y: nat, z: nat)
    ensures Plus(Plus(x, y), z) == Plus(x, y + z)
  {
    var a := x + y;
    Div(a);
    ModShift(a % M + z, a / M);
  }

  /** Modulo the tick range, processed and pended ticks together count what has arrived. */
  lemma StepConservesTicks(s: Sched, now: nat, st: Step)
    requires ListsOk(s) && SchedOk(s) && At(s, now) && Enabled(s, st)
    ensures var r := Next(s, st); Plus(r.tick, r.pendedTicks) == Plus(Plus(s.tick, s.pendedTicks), Arrival(st))
  {
    hide ListsOk, SchedOk, SleepsUntil, IsReady, Wakes, Tick, Resume, Plus;
    var r, k := Next(s, st), Arrival(st);
    PlusAgain(s.tick, s.pendedTicks, k);
    if st.TickInterrupt? && s.depth == 0 {
      TickWakesDue(s, now);
      Advance(now, 1);
      PlusAgain(s.tick, 1, s.pendedTicks);
    } else if st.ResumeScheduler? && s.depth == 1 {
      ResumeIsOneShot(s, now);
      PlusShift(now, s.pendedTicks);
    } else {
      StillStep(s, now, st);
      if st.TickInterrupt? || st.CatchUp? {
        PendedClock(s, st);
      }
      PlusAgain(s.pendedTicks, k, s.tick);
      PlusCommutes(s, r, k);
    }
  }

  lemma PendedClock(s: Sched, st: Step)
    requires ListsOk(s) && SchedOk(s) && Enabled(s, st)
    requires (st.TickInterrupt? && s.depth > 0) || st.CatchUp?
    ensures Apply(s, st).pendedTicks == Plus(s.pendedTicks, if st.CatchUp? then st.ticks else 1)
  {
  }

  lemma PlusCommutes(s: Sched, r: Sched, k: nat)
    ensures Plus(s.pendedTicks, k + s.tick) == Plus(s.tick, s.pendedTicks + k)
    ensures Plus(Plus(s.pendedTicks, k), s.tick) == Plus(s.tick, Plus(s.pendedTicks, k))
  {
  }

  lemma PlusShift(now: nat, k: nat)
    ensures Plus((now + k) % M, 0) == Plus(now % M, k)
  {
    Div(now);
    ModShift(now % M + k, now / M);
    DivModUnique(0, (now + k) % M);
  }

  /** Over a whole run, `xTickCount + xPendedTicks` counts every tick that arrived, modulo `M`. */
  lemma {:induction false} RunConservesTicks(s: Sched, now: nat, steps: seq<Step>)
    requires ListsOk(s) && SchedOk(s) && At(s, now) && Runnable(s, steps)
    ensures var r := Run(s, steps); Plus(r.tick, r.pendedTicks) == Plus(Plus(s.tick, s.pendedTicks), Arrivals(steps))
    decreases |steps|
  {
    hide ListsOk, SchedOk, At, Next, Enabled, Elapse, Plus;
    if steps == [] {
      PlusAgain(s.tick, s.pendedTicks, 0);
    } else {
      NextMoves(s, now, steps[0]);
      StepConservesTicks(s, now, steps[0]);
      var r := Next(s, steps[0]);
      RunConservesTicks(r, now + Elapse(s, steps[0]), steps[1..]);
      PlusAgain(s.tick, s.pendedTicks, Arrival(steps[0]));
      PlusAgain(s.tick, s.pendedTicks + Arrival(steps[0]), Arrivals(steps[1..]));
      PlusAgain(s.tick, s.pendedTicks, Arrivals(steps));
    }
  }

  /** The step processes the tick that arrives, or the count of pended ticks does not wrap. */
  predicate KeepsTicks(s: Sched, st: Step) {
    (st.TickInterrupt? && s.depth == 0) || s.pendedTicks + Arrival(st) < M
  }

  /** No step processes or holds back more ticks than arrive, and it loses some exactly if the count wraps. */
  lemma StepCountsTicks(s: Sched, now: nat, st: Step)
    requires ListsOk(s) && SchedOk(s) && At(s, now) && Enabled(s, st) && s.pendedTicks < M
    ensures Next(s, st).pendedTicks < M && Elapse(s, st) + Next(s, st).pendedTicks <= s.pendedTicks + Arrival(st)
    ensures Elapse(s, st) + Next(s, st).pendedTicks == s.pendedTicks + Arrival(st) <==> KeepsTicks(s, st)
  {
    hide ListsOk, SchedOk, SleepsUntil, IsReady, Wakes, Tick, Resume, Plus;
    if st.TickInterrupt? && s.depth == 0 {
      TickWakesDue(s, now);
    } else if st.ResumeScheduler? && s.depth == 1 {
      ResumeIsOneShot(s, now);
    } else {
      StillStep(s, now, st);
      if st.TickInterrupt? || st.CatchUp? {
        PendedClock(s, st);
        PlusLoses(s.pendedTicks, Arrival(st));
      }
    }
  }

  lemma PlusLoses(x: nat, y: nat)
    ensures Plus(x, y) < M && Plus(x, y) <= x + y && (Plus(x, y) == x + y <==> x + y < M)
  {
    Div(x + y);
    MultipleGrows((x + y) / M, M);
    if x + y < M {
      DivModUnique(0, x + y);
    }
  }

  predicate KeepsAllTicks(s: Sched, steps: seq<Step>)
    requires ListsOk(s) && SchedOk(s) && Runnable(s, steps)
    decreases |steps|
  {
    steps == [] || (KeepsTicks(s, steps[0]) && KeepsAllTicks(Next(s, steps[0]), steps[1..]))
  }

  /** Over a run the ticks processed and those still held back are those that arrived, if no step loses any. */
  lemma {:induction false} RunCountsTicks(s: Sched, now: nat, steps: seq<Step>)
    requires ListsOk(s) && SchedOk(s) && At(s, now) && Runnable(s, steps) && s.pendedTicks < M
    ensures var r := Run(s, steps);
            && r.pendedTicks < M && Duration(s, steps) + r.pendedTicks <= s.pendedTicks + Arrivals(steps)
            && (Duration(s, steps) + r.pendedTicks == s.pendedTicks + Arrivals(steps) <==> KeepsAllTicks(s, steps))
    decreases |steps|
  {
    hide ListsOk, SchedOk, At, Next, Enabled, Elapse, KeepsTicks, Arrival;
    if steps != [] {
      NextMoves(s, now, steps[0]);
      StepCountsTicks(s, now, steps[0]);
      RunCountsTicks(Next(s, steps[0]), now + Elapse(s, steps[0]), steps[1..]);
    }
  }

  /** Fewer ticks than the tick range are never lost, however long they are held back. */
  lemma {:induction false} FewTicksAreKept(s: Sched, now: nat, steps: seq<Step>)
    requires ListsOk(s) && SchedOk(s) && At(s, now) && Runnable(s, steps) && s.pendedTicks + Arrivals(steps) < M
    ensures KeepsAllTicks(s, steps)
    decreases |steps|
  {
    hide ListsOk, SchedOk, At, Next, Enabled, Elapse, Arrival;
    if steps != [] {
      NextMoves(s, now, steps[0]);
      StepCountsTicks(s, now, steps[0]);
      FewTicksAreKept(Next(s, steps[0]), now + Elapse(s, steps[0]), steps[1..]);
    }
  }

  /** At the end of an undisturbed run a sleeper sleeps or is ready, by the ticks processed alone. */
  lemma {:induction false} SleepsOrIsReady(s: Sched, now: nat, steps: seq<Step>, t: Task, w: nat)
    requires ListsOk(s) && SchedOk(s) && At(s, now) && Runnable(s, steps) && Undisturbed(s, steps, t)
        && SleepsUntil(s, now, t, w)
    ensures if now + Duration(s, steps) < w then SleepsUntil(Run(s, steps), now + Duration(s, steps), t, w)
            else IsReady(Run(s, steps), t)
    decreases |steps|
  {
    hide ListsOk, SchedOk, At, Next, Enabled, Elapse, SleepsUntil, IsReady, Disturbs;
    if steps == [] {
      SleepersAhead(s, now);
    } else {
      var r, later := Next(s, steps[0]), now + Elapse(s, steps[0]);
      NextMoves(s, now, steps[0]);
      if w > later {
        SleepsOrIsReady(r, later, steps[1..], t, w);
      } else {
        ReadyStays(r, later, steps[1..], t);
      }
    }
  }

  lemma SleeperIsNotReady(s: Sched, now: nat, t: Task, w: nat)
    requires At(s, now) && SleepsUntil(s, now, t, w)
    ensures !IsReady(s, t)
  {
    OwnersOfWakes(s, now);
    var i :| 0 <= i < |Wakes(s, now)| && Wakes(s, now)[i] == Item(t, w);
    assert Owners(Wakes(s, now))[i] == t;
    hide Wakes;
  }

  /**
   A delay counts the ticks that arrive.  A task that blocks for `ticks` ticks is never ready before
   that many have arrived, held-back ones included; and if no step loses a tick, it is ready at the
   end of an undisturbed run exactly if that many have arrived and are not held back any more.
   */
  lemma DelayCountsArrivals(s: Sched, now: nat, block: Step, steps: seq<Step>)
    requires ListsOk(s) && SchedOk(s) && At(s, now) && Enabled(s, block) && s.pendedTicks < M
    requires block.BlockCurrent? && !(block.ticks == MAX_DELAY && block.indefinitely) && Runnable(Next(s, block), steps)
    requires Undisturbed(Next(s, block), steps, s.current)
    ensures var r := Run(Next(s, block), steps);
            && (IsReady(r, s.current) ==> block.ticks + r.pendedTicks <= s.pendedTicks + Arrivals(steps))
            && (KeepsAllTicks(Next(s, block), steps) ==>
                  (IsReady(r, s.current) <==> block.ticks + r.pendedTicks <= s.pendedTicks + Arrivals(steps)))
  {
    hide ListsOk, SchedOk, At, Next, Enabled, Elapse, SleepsUntil, IsReady, Disturbs, Run, Runnable, Duration,
        Undisturbed, KeepsAllTicks, Arrivals;
    var m := Next(s, block);
    var r, d, w := Run(m, steps), Duration(m, steps), now + block.ticks;
    BlockSleeps(s, now, block);
    RunCountsTicks(m, now, steps);
    RunKeeps(m, now, steps);
    SleepsOrIsReady(m, now, steps, s.current, w);
    if now + d < w {
      SleeperIsNotReady(r, now + d, s.current, w);
    }
  }

  /**
   The theorems on delays apply: the task that runs when the scheduler starts blocks for one tick, and a tick
   comes.
   */
  lemma DelayFromBoot(idle: Task)
    ensures var s, block := Boot(idle), BlockCurrent(1, false, false);
            && ListsOk(s) && SchedOk(s) && At(s, 0) && Enabled(s, block)
            && var m := Next(s, block);
               && At(m, 0) && SleepsUntil(m, 0, idle, 1)
               && Runnable(m, []) && Undisturbed(m, [], idle) && Duration(m, []) == 0
               && Enabled(m, TickInterrupt) && !Disturbs(m, TickInterrupt, idle) && Elapse(m, TickInterrupt) == 1
               && IsReady(Next(m, TickInterrupt), idle)
  {
    hide ListsOk, SchedOk, Next, SleepsUntil, IsReady, Boot;
    var s, block := Boot(idle), BlockCurrent(1, false, false);
    BootOk(idle);
    BootRuns(idle);
    BlockSleeps(s, 0, block);
    BlockRunsOn(s, block);
    WakesThen(Next(s, block), 0, [], TickInterrupt, idle, 1);
  }

  lemma BootRuns(idle: Task)
    ensures Boot(idle).tcb == map[idle := Tcb(Prio(0, 0, 0, MAX_PRIORITIES), Ready(0), NoEvent, false)]
    ensures !Boot(idle).yieldPending
    ensures var s := Boot(idle);
            s.current == idle && s.depth == 0 && s.pendedTicks == 0 && idle in s.tcb && s.tcb[idle].state.Ready?
                && s.tcb[idle].event == NoEvent
  {
  }

  lemma BlockRunsOn(s: Sched, block: Step)
    requires ListsOk(s) && SchedOk(s) && Enabled(s, block) && block.BlockCurrent? && !block.onEvent
    ensures Next(s, block).depth == s.depth && s.current in Next(s, block).tcb && Next(s, block).current == s.current
  {
    hide ListsOk, SchedOk, Block;
    ClockShows(s);
    BlockOthers(s, block.ticks, block.indefinitely, Clock(s));
    CurrentIsKnown(Next(s, block));
  }

  lemma CurrentIsKnown(s: Sched)
    requires ListsOk(s)
    ensures s.current in s.tcb
  {
  }

  /** With the scheduler suspended a whole turn of ticks is lost: `M` arrive, none is processed or held back. */
  lemma TurnIsLost(idle: Task) returns (steps: seq<Step>)
    ensures var s := Boot(idle);
            && ListsOk(s) && SchedOk(s) && At(s, 0) && Runnable(s, steps) && !KeepsAllTicks(s, steps)
            && Arrivals(steps) == M && Duration(s, steps) == 0 && Run(s, steps).pendedTicks == s.pendedTicks == 0
  {
    hide ListsOk, SchedOk, Next, At, Enabled, Boot, Runnable, Run, Duration, KeepsAllTicks, Arrivals;
    var s := Boot(idle);
    BootOk(idle);
    BootRuns(idle);
    HeldBack(s, SuspendScheduler);
    var s1 := Next(s, SuspendScheduler);
    HeldBack(s1, CatchUp(M - 1));
    var s2 := Next(s1, CatchUp(M - 1));
    HeldBack(s2, TickInterrupt);
    var s3 := Next(s2, TickInterrupt);
    DivModUnique(0, M - 1);
    DivModUnique(1, 0);
    assert [CatchUp(M - 1)] + [TickInterrupt] == [CatchUp(M - 1), TickInterrupt]
        && [TickInterrupt] + [] == [TickInterrupt];
    NoSteps(s3);
    RunFirst(s2, TickInterrupt, []);
    RunFirst(s1, CatchUp(M - 1), [TickInterrupt]);
    RunFirst(s, SuspendScheduler, [CatchUp(M - 1), TickInterrupt]);
    steps := [SuspendScheduler] + [CatchUp(M - 1), TickInterrupt];
  }

  lemma HeldBack(s: Sched, st: Step)
    requires ListsOk(s) && SchedOk(s) && (st.SuspendScheduler? || (s.depth > 0 && (st.TickInterrupt? || st.CatchUp?)))
    ensures Enabled(s, st) && Elapse(s, st) == 0
    ensures Next(s, st).depth == if st.SuspendScheduler? then s.depth + 1 else s.depth
    ensures Next(s, st).pendedTicks == if st.SuspendScheduler? then s.pendedTicks else Plus(s.pendedTicks, Arrival(st))
  {
    hide ListsOk, SchedOk;
    CurrentIsKnown(s);
  }

  lemma NoSteps(s: Sched)
    requires ListsOk(s) && SchedOk(s)
    ensures Runnable(s, []) && Run(s, []) == s && Duration(s, []) == 0 && Arrivals([]) == 0
  {
  }

  lemma RunFirst(s: Sched, st: Step, rest: seq<Step>)
    requires ListsOk(s) && SchedOk(s) && Enabled(s, st) && Runnable(Next(s, st), rest)
    ensures var m, steps := Next(s, st), [st] + rest;
            && Runnable(s, steps) && Run(s, steps) == Run(m, rest)
                && Duration(s, steps) == Elapse(s, st) + Duration(m, rest)
            && (KeepsAllTicks(s, steps) <==> KeepsTicks(s, st) && KeepsAllTicks(m, rest))
            && Arrivals(steps) == Arrival(st) + Arrivals(rest)
  {
    hide ListsOk, SchedOk, Next, Enabled, KeepsTicks, Elapse, Arrival;
    assert ([st] + rest)[1..] == rest;
  }
}
