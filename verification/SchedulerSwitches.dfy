/**
 Preemption: whenever a ready task outranks the running one, a context switch is pending or
 the operation that caused it has asked for one.
 */
module SchedulerSwitches {
  import opened Rings
  import opened Priorities
  import opened Scheduler
  import opened SchedulerTime
  import opened SchedulerSteps
  import opened SchedulerMoves
  import opened SchedulerRuns

  ghost predicate Served(s: Sched) { TopRuns(s) || s.yieldPending }

  /** The operation itself returns or performs a request for a switch. */
  ghost predicate Asks(s: Sched, st: Step)
    requires ListsOk(s) && SchedOk(s) && Enabled(s, st)
  {
    match st
    case TickInterrupt => TickAsks(s)
    case BlockCurrent(_, _, _) => true
    case ParkTask(t) => t == s.current
    case UnparkTask(t) => ResumeAsks(s, t)
    case SetPriority(t, p) => SetNeedsSwitch(s, t, p)
    case GiveMutex(h, waiting) => GiveAsks(s, h, waiting)
    case Create(t, p) => s.tcb[s.current].prio.current < p
    case _ => false
  }

  predicate TickAsks(s: Sched)
    requires ListsOk(s) && SchedOk(s)
  {
    s.depth == 0 && (TickKeeps(s); TickShape(s); SwitchRequired(s, Tick(s)))
  }

  lemma TickShape(s: Sched)
    requires ListsOk(s) && SchedOk(s) && s.depth == 0
    ensures s.current in s.tcb && s.tcb[s.current].prio.current < |Tick(s).ready| && Tick(s).tcb.Keys == s.tcb.Keys
  {
    TickKeeps(s);
  }

  /** An adjustment after a time-out, or a give that drops its request, leaves nobody outranking the running task. */
  ghost predicate LowersSafely(s: Sched, st: Step)
    requires Enabled(s, st)
  {
    match st
    case DisinheritTimeout(h, highest) => StaysServed(s, h, highest)
    case GiveMutex(h, waiting) => GiveStays(s, h, waiting)
    case _ => true
  }

  /**
   Nobody waits, so that a drop of the giver's priority is followed by a request; or there is no
   drop; or the woken task brings about the switch; or no other ready task is left above the giver.
   */
  ghost predicate GiveStays(s: Sched, h: Task, waiting: seq<Task>)
    requires h in s.tcb && s.tcb[h].prio.held > 0 && (waiting != [] ==> waiting[0] in s.tcb)
  {
    var p := Disinherit(s.tcb[h].prio).current;
    || waiting == [] || p == s.tcb[h].prio.current
    || (waiting[0] != h && s.tcb[waiting[0]].prio.current > p)
    || forall t :: t in s.tcb && t != h && s.tcb[t].state.Ready? ==> s.tcb[t].prio.current <= p
  }

  /**
   The holder keeps its priority, or it is not the running task and does not end above it while
   ready, or it is the running task and does not end below another ready one.
   */
  ghost predicate StaysServed(s: Sched, h: Task, highest: nat)
    requires h in s.tcb && s.current in s.tcb
  {
    var p := Max(s.tcb[h].prio.base, highest);
    || s.tcb[h].prio.held != 1
    || (if h != s.current then s.tcb[h].state.Ready? ==> p <= s.tcb[s.current].prio.current
        else forall t :: t in s.tcb && t != h && s.tcb[t].state.Ready? ==> s.tcb[t].prio.current <= p)
  }

  /** One task changed; it does not outrank the running one, which is the same. */
  lemma OneTask(s: Sched, r: Sched, t: Task)
    requires TopRuns(s) && r.current == s.current && r.tcb.Keys == s.tcb.Keys
    requires t in s.tcb && forall u :: u in s.tcb && u != t ==> r.tcb[u] == s.tcb[u]
    requires r.tcb[s.current].prio.current >= s.tcb[s.current].prio.current
    requires r.tcb[t].state.Ready? ==> r.tcb[t].prio.current <= r.tcb[s.current].prio.current
    ensures TopRuns(r)
  {
  }

  /** A task was woken, and a switch is pending if it outranks the running one. */
  lemma WokenServes(s: Sched, r: Sched, t: Task)
    requires t in s.tcb && s.current in s.tcb && Served(s)
    requires r.current == s.current && r.tcb == s.tcb[t := Woken(s.tcb[t])]
    requires s.yieldPending || Outranks(s, t) ==> r.yieldPending
    ensures Served(r)
  {
    if !r.yieldPending {
      OneTask(s, r, t);
    }
  }

  lemma WakeServes(s: Sched, t: Task, y: bool)
    requires ListsOk(s) && t in s.tcb && Served(s) && (Outranks(s, t) ==> y) && (s.yieldPending ==> y)
    requires s.current in s.tcb
    ensures Served(Wake(s, t).(yieldPending := y))
  {
    hide ListsOk, Wake, Served;
    WakeKeeps(s, t);
    WokenServes(s, Wake(s, t).(yieldPending := y), t);
  }

  // ----- ticks -----

  /** A tick that outranks the running task asks for a switch. */
  lemma TickServes(s: Sched)
    requires ListsOk(s) && SchedOk(s) && Served(s) && s.depth == 0
    ensures Served(Tick(s)) || TickAsks(s)
  {
    TickKeeps(s);
    TickLists(s);
    TurnOk(s);
    var s1, r := Turn(s), Tick(s);
    var due := Owners(DueNow(s1.delayed, s1.tick));
    hide Tick, Turn;
    if TopRuns(s) && !TickAsks(s) {
      forall u | u in r.tcb && r.tcb[u].state.Ready? ensures r.tcb[u].prio.current <= r.tcb[r.current].prio.current {
        if u in due {
          DueSleeps(s1, u);
        }
      }
    }
  }

  /**
   A processed tick asks for a switch exactly if a yield was pending, or it readied a sleeper of at
   least the running task's priority, or another task of that priority is ready to share the
   processor.  A tick that is held back asks for none.
   */
  lemma TickAsksExactly(s: Sched)
    requires ListsOk(s) && SchedOk(s)
    ensures s.depth > 0 ==> !TickAsks(s)
    ensures s.depth == 0 ==>
              && s.current in s.tcb && Tick(s).tcb.Keys == s.tcb.Keys
              && var r, p := Tick(s), s.tcb[s.current].prio.current;
                 TickAsks(s) <==>
                   || s.yieldPending
                   || (exists t :: t in s.tcb && s.tcb[t].state == Delayed && r.tcb[t].state.Ready? && s.tcb[t].prio.current >= p)
                   || (exists t, u :: t in s.tcb && u in s.tcb && t != u
                         && r.tcb[t].state == Ready(p) && r.tcb[u].state == Ready(p))
  {
    if s.depth == 0 {
      TickShape(s);
      TickKeeps(s);
      hide SchedOk, Tick;
      CurrentBounded(s);
      SwitchRequiredExactly(s, Tick(s));
      hide ListsOk, SwitchRequired;
    }
  }

  /**
   A resume leaves a switch pending exactly if one was, or a task it moved from the pending-ready list
   has at least the running task's priority, or, with ticks to process, these readied such a sleeper
   or two tasks of that priority are ready.
   */
  lemma ResumeAsksExactly(s: Sched)
    requires ListsOk(s) && SchedOk(s) && s.depth == 1
    ensures s.current in s.tcb && Resume(s).tcb.Keys == s.tcb.Keys && forall t :: t in s.pending ==> t in s.tcb
    ensures var r, p := Resume(s), s.tcb[s.current].prio.current;
            r.yieldPending <==>
              || s.yieldPending
              || (exists t :: t in s.pending && s.tcb[t].prio.current >= p)
              || (s.pendedTicks > 0
                  && (|| (exists t :: t in s.tcb && s.tcb[t].state == Delayed && r.tcb[t].state.Ready? && s.tcb[t].prio.current >= p)
                      || (exists t, u :: t in s.tcb && u in s.tcb && t != u
                            && r.tcb[t].state == Ready(p) && r.tcb[u].state == Ready(p))))
  {
    hide ListsOk, SchedOk, Flush, PendedTicks, CallsForSwitch, WokenOrSame, WokeExactly;
    var f, any := Flush(s), s.pending != [];
    var g := Refresh(f, any);
    FlushKeeps(s);
    FlushAsksExactly(s);
    RefreshKeeps(f, any);
    CurrentBounded(s);
    ListsIn(g);
    SameWoken(s, f, g, s.pending);
    if s.pendedTicks > 0 {
      PendedTicksAskExactly(g, s.pendedTicks);
    } else {
      NoPendedTicks(g);
    }
    AsksInAll(s, g, PendedTicks(g, s.pendedTicks));
  }

  lemma SameWoken(s: Sched, f: Sched, g: Sched, who: seq<Task>)
    requires WokeExactly(s, f, who) && g.tcb == f.tcb
    ensures WokeExactly(s, g, who)
  {
  }

  lemma NoPendedTicks(g: Sched)
    requires SchedOk(g) && g.depth == 0
    ensures PendedTicks(g, 0) == g && WokenOrSame(g, g)
  {
  }

  /** Emptying the pending-ready list leaves a switch pending exactly for a task of at least the running priority. */
  lemma {:induction false} FlushAsksExactly(s: Sched)
    requires ListsOk(s) && SchedOk(s)
    ensures s.current in s.tcb && forall t :: t in s.pending ==> t in s.tcb
    ensures var f, p := Flush(s), s.tcb[s.current].prio.current;
            && f.current == s.current && WokeExactly(s, f, s.pending)
            && (f.yieldPending <==> s.yieldPending || exists t :: t in s.pending && s.tcb[t].prio.current >= p)
    decreases |s.pending|
  {
    hide ListsOk, SchedOk, FlushOne;
    CurrentBounded(s);
    if s.pending != [] {
      FlushOneKeeps(s);
      FlushOneAsks(s);
      var m := FlushOne(s);
      ListsIn(m);
      FlushAsksExactly(m);
      AsksFirst(s, m, Flush(s));
    }
  }

  lemma ListsIn(s: Sched)
    requires SchedOk(s)
    ensures ListsOk(s)
  {
  }

  lemma AsksFirst(s: Sched, m: Sched, f: Sched)
    requires s.pending != [] && s.pending[0] in s.tcb && s.current in s.tcb && m.current == s.current
        && m.pending == s.pending[1..]
    requires m.tcb == s.tcb[s.pending[0] := Woken(s.tcb[s.pending[0]])] && (forall t :: t in m.pending ==> t in m.tcb)
    requires m.yieldPending == (s.yieldPending || s.tcb[s.pending[0]].prio.current >= s.tcb[s.current].prio.current)
    requires var p := m.tcb[m.current].prio.current;
             f.yieldPending <==> m.yieldPending || exists t :: t in m.pending && m.tcb[t].prio.current >= p
    requires WokeExactly(m, f, m.pending)
    ensures (forall t :: t in s.pending ==> t in s.tcb) && WokeExactly(s, f, s.pending)
    ensures var p := s.tcb[s.current].prio.current;
            f.yieldPending <==> s.yieldPending || exists t :: t in s.pending && s.tcb[t].prio.current >= p
  {
    WokeFirst(s, m, f, s.pending);
    hide WokeExactly;
    assert s.pending == [s.pending[0]] + m.pending;
    assert forall t :: t in s.tcb ==> m.tcb[t].prio == s.tcb[t].prio;
  }

  /** First the pending tasks, then the sleepers: which of them ask. */
  lemma AsksInAll(s: Sched, g: Sched, h: Sched)
    requires s.current in s.tcb && (forall t :: t in s.pending ==> t in s.tcb) && WokeExactly(s, g, s.pending)
    requires g.current == s.current && WokenOrSame(g, h)
    requires var p := s.tcb[s.current].prio.current;
             g.yieldPending <==> s.yieldPending || exists t :: t in s.pending && s.tcb[t].prio.current >= p
    requires h.yieldPending <==> if s.pendedTicks > 0 then CallsForSwitch(g, h) else g.yieldPending
    ensures h.tcb.Keys == s.tcb.Keys
    ensures var p := s.tcb[s.current].prio.current;
            h.yieldPending <==>
              || s.yieldPending
              || (exists t :: t in s.pending && s.tcb[t].prio.current >= p)
              || (s.pendedTicks > 0
                  && (|| (exists t :: t in s.tcb && s.tcb[t].state == Delayed && h.tcb[t].state.Ready? && s.tcb[t].prio.current >= p)
                      || (exists t, u :: t in s.tcb && u in s.tcb && t != u
                            && h.tcb[t].state == Ready(p) && h.tcb[u].state == Ready(p))))
  {
    var p := s.tcb[s.current].prio.current;
    assert g.tcb[g.current].prio.current == p;
    SleepersAsk(s, g, h, p);
    SharedHere(s, h, p);
    hide WokenOrSame, WokeExactly, WokeAtLeast, Shared;
  }

  lemma SharedHere(s: Sched, h: Sched, p: nat)
    requires h.tcb.Keys == s.tcb.Keys
    ensures Shared(h, p) <==>
        exists t, u :: t in s.tcb && u in s.tcb && t != u && h.tcb[t].state == Ready(p) && h.tcb[u].state == Ready(p)
  {
  }

  lemma SleepersAsk(s: Sched, g: Sched, h: Sched, p: nat)
    requires WokeExactly(s, g, s.pending) && WokenOrSame(g, h) && forall t :: t in s.pending ==> t in s.tcb
    ensures h.tcb.Keys == s.tcb.Keys
    ensures WokeAtLeast(g, h, p)
            ==> exists t :: t in s.tcb && s.tcb[t].state == Delayed && h.tcb[t].state.Ready? && s.tcb[t].prio.current >= p
    ensures (exists t :: t in s.tcb && s.tcb[t].state == Delayed && h.tcb[t].state.Ready? && s.tcb[t].prio.current >= p)
            ==> WokeAtLeast(g, h, p) || exists t :: t in s.pending && s.tcb[t].prio.current >= p
  {
    if WokeAtLeast(g, h, p) {
      var t :| t in g.tcb && t in h.tcb && g.tcb[t].state == Delayed && h.tcb[t].state.Ready?
          && g.tcb[t].prio.current >= p;
      assert s.tcb[t].state == Delayed && s.tcb[t].prio == g.tcb[t].prio;
    }
    if t :| t in s.tcb && s.tcb[t].state == Delayed && h.tcb[t].state.Ready? && s.tcb[t].prio.current >= p {
      assert t in s.pending || (g.tcb[t].state == Delayed && g.tcb[t].prio == s.tcb[t].prio);
    }
  }

  lemma PendedTickServes(s: Sched)
    requires ListsOk(s) && SchedOk(s) && Served(s) && s.depth == 0
    ensures Served(PendedTick(s))
  {
    TickServes(s);
    TickKeeps(s);
    hide ListsOk, SchedOk, Tick;
  }

  lemma {:induction false} PendedTicksServe(s: Sched, k: nat)
    requires SchedOk(s) && Served(s) && s.depth == 0
    ensures Served(PendedTicks(s, k))
    decreases k
  {
    hide SchedOk, Served, PendedTick;
    if k > 0 {
      PendedTickOk(s);
      PendedTicksServe(PendedTick(s), k - 1);
    }
  }

  lemma PendedTickOk(s: Sched)
    requires SchedOk(s) && Served(s) && s.depth == 0
    ensures SchedOk(PendedTick(s)) && Served(PendedTick(s)) && PendedTick(s).depth == 0
  {
    hide Tick, Served, ListsOk;
    PendedTickServes(s);
    TickKeeps(s);
    YieldKeeps(Tick(s), PendedTick(s).yieldPending);
  }

  // ----- waking and resuming -----

  lemma FlushOneServes(s: Sched)
    requires ListsOk(s) && SchedOk(s) && Served(s) && s.pending != []
    ensures Served(FlushOne(s))
  {
    hide ListsOk, SchedOk, FlushOne, Served;
    FlushOneKeeps(s);
    FlushOneAsks(s);
    WokenServes(s, FlushOne(s), s.pending[0]);
  }

  lemma FlushOneAsks(s: Sched)
    requires ListsOk(s) && SchedOk(s) && s.pending != []
    ensures s.pending[0] in s.tcb && s.current in s.tcb
    ensures FlushOne(s).yieldPending == (s.yieldPending || s.tcb[s.pending[0]].prio.current >= s.tcb[s.current].prio.current)
  {
    FlushOneKeeps(s);
  }

  lemma {:induction false} FlushServes(s: Sched)
    requires SchedOk(s) && Served(s)
    ensures Served(Flush(s))
    decreases |s.pending|
  {
    if s.pending != [] {
      FlushOneKeeps(s);
      FlushOneServes(s);
      hide SchedOk, Served, FlushOne;
      FlushServes(FlushOne(s));
    }
  }

  /** Resuming the scheduler leaves a switch pending if a task moved or a tick processed calls for one. */
  lemma ResumeServes(s: Sched)
    requires SchedOk(s) && Served(s) && s.depth > 0
    ensures Served(Resume(s))
  {
    if s.depth == 1 {
      FlushKeeps(s);
      FlushServes(s);
      RefreshKeeps(Flush(s), s.pending != []);
      var g := Refresh(Flush(s), s.pending != []);
      assert Served(g);
      hide SchedOk, Flush, Refresh;
      PendedTicksServe(g, s.pendedTicks);
      hide PendedTicks;
    }
  }

  lemma PendServes(s: Sched, t: Task)
    requires t in s.tcb && Served(s)
    ensures Served(Pend(s, t))
  {
  }

  lemma EventServes(s: Sched, st: Step)
    requires ListsOk(s) && SchedOk(s) && Enabled(s, st) && Served(s)
    requires st.EventReady? || st.UnorderedReady?
    ensures Served(Apply(s, st))
  {
    var t := st.task;
    hide ListsOk, SchedOk, Wake, Pend, Served;
    if st.EventReady? && s.depth > 0 {
      PendServes(s, t);
      LaterYield(Pend(s, t), s.yieldPending || Outranks(s, t));
    } else {
      WakeServes(s, t, s.yieldPending || Outranks(s, t));
    }
  }

  lemma LaterYield(s: Sched, y: bool)
    requires Served(s) && (s.yieldPending ==> y)
    ensures Served(s.(yieldPending := y))
  {
  }

  lemma AbortServes(s: Sched, t: Task)
    requires ListsOk(s) && SchedOk(s) && t in s.tcb && s.current in s.tcb && Served(s)
    ensures Served(AbortDelay(s, t))
  {
    hide SchedOk, Wake, ListsOk;
    if IsBlocked(s, t) {
      var x := s.tcb[t].(delayAborted := s.tcb[t].delayAborted || s.tcb[t].event != NoEvent);
      var s1 := s.(tcb := s.tcb[t := x]);
      RetagKeeps(s, s1, t, x);
      WakeServes(s1, t, s.yieldPending || Outranks(s, t));
    }
  }

  lemma UnparkServes(s: Sched, st: Step)
    requires ListsOk(s) && SchedOk(s) && Enabled(s, st) && Served(s)
    requires st.UnparkTask? || st.UnparkFromIsr?
    ensures Served(Apply(s, st)) || Asks(s, st)
  {
    var t := st.task;
    hide ListsOk, SchedOk, Wake, Pend, Served;
    if IsSuspended(s, t) {
      if st.UnparkTask? {
        WakeKeeps(s, t);
        if t != s.current && !ResumeAsks(s, t) {
          WakeServes(s, t, s.yieldPending);
          assert Wake(s, t).(yieldPending := s.yieldPending) == Wake(s, t);
        }
      } else if s.depth == 0 {
        WakeServes(s, t, s.yieldPending || s.tcb[t].prio.current >= s.tcb[s.current].prio.current);
      } else {
        PendServes(s, t);
      }
    }
  }

  // ----- priorities -----

  lemma RetunedServes(s: Sched, t: Task, x: Prio)
    requires ListsOk(s) && t in s.tcb && x.current < MAX_PRIORITIES && x.base < MAX_PRIORITIES && Served(s)
        && s.current in s.tcb
    requires if t == s.current then x.current >= s.tcb[t].prio.current
             else s.tcb[t].state.Ready? ==> x.current <= s.tcb[s.current].prio.current
    ensures Served(SetPrio(s, t, x))
  {
    SetPrioKeeps(s, t, x);
    hide ListsOk, SetPrio;
    if TopRuns(s) {
      OneTask(s, SetPrio(s, t, x), t);
    }
  }

  lemma InheritServes(s: Sched, st: Step)
    requires ListsOk(s) && SchedOk(s) && Enabled(s, st) && Served(s) && st.InheritBy?
    ensures Served(Apply(s, st))
  {
    var h := st.task;
    TasksBounded(s, h);
    TasksBounded(s, s.current);
    hide ListsOk, SchedOk, SetPrio;
    var x := s.tcb[h].prio;
    if x.current < s.tcb[s.current].prio.current {
      RetunedServes(s, h, Inherit(x, s.tcb[s.current].prio.current));
    }
  }

  /** What a give leaves, by tasks and flags, and when it asks for a switch. */
  lemma GivenShape(s: Sched, h: Task, waiting: seq<Task>)
    requires ListsOk(s) && SchedOk(s) && Enabled(s, GiveMutex(h, waiting))
    ensures var r, p := MutexGiven(s, h, waiting), Disinherit(s.tcb[h].prio).current;
            && r.current == h && r.tcb.Keys == s.tcb.Keys && r.tcb[h].prio.current == p
            && (forall t :: t in s.tcb ==> t != h ==> r.tcb[t].prio == s.tcb[t].prio)
            && (forall t :: t in s.tcb && (waiting == [] || t != waiting[0]) ==> (r.tcb[t].state.Ready? <==> s.tcb[t].state.Ready?))
            && (waiting != [] && s.tcb[waiting[0]].state.Ready? ==> r.tcb[waiting[0]].state.Ready?)
            && r.yieldPending == (s.yieldPending || (waiting != [] && GiveAsks(s, h, waiting)))
    ensures var r, x := MutexGiven(s, h, waiting), s.tcb[h].prio;
            && r.tcb[h].prio.current == (if x.held == 1 then x.base else x.current)
            && r.tcb[h].prio.held == x.held - 1 && r.tcb[h].prio.base == x.base
            && (GiveAsks(s, h, waiting) <==>
                  if waiting == [] then r.tcb[h].prio.current != x.current
                  else waiting[0] != h && s.tcb[waiting[0]].prio.current > r.tcb[h].prio.current)
  {
    hide ListsOk, SchedOk, PriorityDisinherit, Disinherit, EventWake, Touched;
    DisinheritKeeps(s, h);
    DisinheritExactly(s, h);
    if waiting != [] {
      StillDisinherit(s, Clock(s), GiveMutex(h, waiting), h);
      EventWakeOk(PriorityDisinherit(s, h), waiting[0], Clock(s));
    }
  }

  /** After a give the running task is outranked, and no switch on the way, exactly if the condition fails. */
  lemma GiveServesExactly(s: Sched, h: Task, waiting: seq<Task>)
    requires ListsOk(s) && SchedOk(s) && Enabled(s, GiveMutex(h, waiting)) && TopRuns(s) && !s.yieldPending
    ensures Served(MutexGiven(s, h, waiting)) || GiveAsks(s, h, waiting) <==> GiveStays(s, h, waiting)
  {
    hide ListsOk, SchedOk, MutexGiven, Disinherit, TopRuns;
    GivenShape(s, h, waiting);
    GivenServes(s, MutexGiven(s, h, waiting), h, waiting, Disinherit(s.tcb[h].prio).current);
  }

  lemma GivenServes(s: Sched, r: Sched, h: Task, waiting: seq<Task>, p: nat)
    requires TopRuns(s) && !s.yieldPending && h == s.current == r.current && r.tcb.Keys == s.tcb.Keys
        && s.tcb[h].prio.held > 0
    requires waiting != [] ==> waiting[0] in s.tcb
    requires p == Disinherit(s.tcb[h].prio).current && r.tcb[h].prio.current == p
    requires forall t :: t in s.tcb && t != h ==> r.tcb[t].prio == s.tcb[t].prio
    requires forall t :: t in s.tcb && (waiting == [] || t != waiting[0]) ==>
        (r.tcb[t].state.Ready? <==> s.tcb[t].state.Ready?)
    requires waiting != [] && s.tcb[waiting[0]].state.Ready? ==> r.tcb[waiting[0]].state.Ready?
    requires r.yieldPending == (waiting != [] && GiveAsks(s, h, waiting))
    ensures Served(r) || GiveAsks(s, h, waiting) <==> GiveStays(s, h, waiting)
  {
    hide Disinherit;
    if p != s.tcb[h].prio.current && waiting != [] && !GiveAsks(s, h, waiting) {
      if t :| t in s.tcb && t != h && s.tcb[t].state.Ready? && s.tcb[t].prio.current > p {
        assert r.tcb[t].state.Ready? && r.tcb[t].prio.current > p;
      }
    }
  }

  lemma GiveServes(s: Sched, st: Step)
    requires ListsOk(s) && SchedOk(s) && Enabled(s, st) && st.GiveMutex? && Served(s)
        && GiveStays(s, st.task, st.waiting)
    ensures Served(Apply(s, st)) || Asks(s, st)
  {
    hide ListsOk, SchedOk, MutexGiven, GiveStays, GiveAsks;
    GivenShape(s, st.task, st.waiting);
    if !s.yieldPending {
      GiveServesExactly(s, st.task, st.waiting);
    }
  }

  lemma TimeoutServes(s: Sched, h: Task, highest: nat)
    requires ListsOk(s) && h in s.tcb && s.current in s.tcb && highest < MAX_PRIORITIES && Served(s)
    requires StaysServed(s, h, highest)
    ensures Served(PriorityAfterTimeout(s, h, highest))
  {
    hide ListsOk, SetPrio;
    var x := DisinheritAfterTimeout(s.tcb[h].prio, highest);
    TasksBounded(s, h);
    if x.current != s.tcb[h].prio.current {
      SetPrioKeeps(s, h, x);
    }
  }

  /**
   The adjustment after a time-out asks for no switch.  With nothing pending before, that is right
   exactly if the holder stays below the running task, or, when it is the running task itself, not
   below another ready one.
   */
  lemma TimeoutServesExactly(s: Sched, h: Task, highest: nat)
    requires ListsOk(s) && h in s.tcb && s.current in s.tcb && highest < MAX_PRIORITIES
    requires TopRuns(s) && !s.yieldPending
    ensures Served(PriorityAfterTimeout(s, h, highest)) <==> StaysServed(s, h, highest)
  {
    hide ListsOk, SetPrio;
    var x := DisinheritAfterTimeout(s.tcb[h].prio, highest);
    TasksBounded(s, h);
    if x.current != s.tcb[h].prio.current {
      SetPrioKeeps(s, h, x);
      AdjustedServes(s, PriorityAfterTimeout(s, h, highest), h, x.current);
    }
  }

  /** `h` was given the priority `p`; that nobody is outranked is a matter of the tasks around it. */
  lemma AdjustedServes(s: Sched, r: Sched, h: Task, p: nat)
    requires TopRuns(s) && h in s.tcb && r.tcb.Keys == s.tcb.Keys && r.current == s.current && !r.yieldPending
    requires r.tcb[h].prio.current == p && (r.tcb[h].state.Ready? <==> s.tcb[h].state.Ready?)
    requires forall t :: t in s.tcb && t != h ==> r.tcb[t] == s.tcb[t]
    ensures h != s.current ==> (Served(r) <==> (s.tcb[h].state.Ready? ==> p <= s.tcb[s.current].prio.current))
    ensures h == s.current ==>
              (Served(r) <==> forall t :: t in s.tcb && t != h && s.tcb[t].state.Ready? ==> s.tcb[t].prio.current <= p)
  {
    if h == s.current {
      assert forall t :: t in s.tcb && t != h && s.tcb[t].state.Ready? ==> r.tcb[t].state.Ready?;
    }
  }

  lemma SetServes(s: Sched, t: Task, p: nat)
    requires ListsOk(s) && SchedOk(s) && t in s.tcb && s.current in s.tcb && Served(s)
    ensures Served(PrioritySet(s, t, p)) || SetNeedsSwitch(s, t, p)
  {
    if TopRuns(s) && !SetNeedsSwitch(s, t, p) {
      SetSwitchesEnough(s, t, p);
    } else if s.tcb[t].prio.base != Capped(p) {
      TasksBounded(s, t);
      hide ListsOk, SchedOk, SetPrio;
      SetPrioKeeps(s, t, SetBase(s.tcb[t].prio, Capped(p)));
    }
  }

  // ----- every step -----

  lemma RetuneServes(s: Sched, t: Task, x: Prio)
    requires t in s.tcb && x.current == s.tcb[t].prio.current && Served(s)
    ensures Served(Retune(s, t, x))
  {
  }

  lemma SwitchServes(s: Sched)
    requires ListsOk(s) && SomeReady(s)
    ensures TopRuns(Select(s))
  {
    SelectPicksHighest(s);
    hide ListsOk, TopReady;
  }

  lemma CreateServes(s: Sched, t: Task, p: nat)
    requires ListsOk(s) && SchedOk(s) && t !in s.tcb && p < MAX_PRIORITIES && s.current in s.tcb && Served(s)
    ensures Served(NewTask(s, t, p)) || s.tcb[s.current].prio.current < p
  {
    NewTaskKeeps(s, t, p);
    AddReadyKeeps(Registered(s, t, p), t);
    AddReadySame(Registered(s, t, p), t);
    hide ListsOk, SchedOk;
  }

  /**
   If no ready task outranks the running one, or a switch is pending, then after any operation
   that is still so, or the operation has asked for a switch; and a switch always restores it.
   */
  lemma StepServes(s: Sched, st: Step)
    requires ListsOk(s) && SchedOk(s) && Enabled(s, st) && Served(s) && LowersSafely(s, st)
    ensures Served(Apply(s, st)) || Asks(s, st)
    ensures st.SwitchContext? && s.depth == 0 ==> TopRuns(Apply(s, st))
  {
    hide ListsOk, SchedOk, Served, TopRuns, Tick, Resume, Select, SomeReady, NewTask, AbortDelay, PrioritySet;
    match st
    case TickInterrupt =>
      if s.depth == 0 {
        TickServes(s);
      } else {
        HeldTickServes(s);
      }
    case BlockCurrent(_, _, _) =>
    case EventReady(_) => EventServes(s, st);
    case UnorderedReady(_) => EventServes(s, st);
    case Abort(t) => AbortServes(s, t);
    case ParkTask(t) => ParkServes(s, t);
    case UnparkTask(_) => UnparkServes(s, st);
    case UnparkFromIsr(_) => UnparkServes(s, st);
    case SuspendScheduler => FieldsServe(s, Apply(s, st));
    case ResumeScheduler => ResumeServes(s);
    case CatchUp(_) => FieldsServe(s, Apply(s, st));
    case SetPriority(t, p) => SetServes(s, t, p);
    case InheritBy(_) => InheritServes(s, st);
    case GiveMutex(_, _) => GiveServes(s, st);
    case DisinheritTimeout(h, highest) => TimeoutServes(s, h, highest);
    case MutexTaken => RetuneServes(s, s.current, s.tcb[s.current].prio.(held := s.tcb[s.current].prio.held + 1));
    case SwitchContext =>
      if s.depth == 0 {
        SwitchServes(s);
        TopServes(Select(s));
      } else {
        YieldServes(s);
      }
    case Create(t, p) => CreateServes(s, t, p);
  }

  lemma FieldsServe(s: Sched, r: Sched)
    requires Served(s) && r.tcb == s.tcb && r.current == s.current && r.yieldPending == s.yieldPending
    ensures Served(r)
  {
  }

  lemma HeldTickServes(s: Sched)
    requires ListsOk(s) && Served(s) && s.depth > 0
    ensures Served(Tick(s))
  {
    hide ListsOk, Served;
    FieldsServe(s, Tick(s));
  }

  lemma TopServes(s: Sched)
    requires TopRuns(s)
    ensures Served(s)
  {
  }

  lemma YieldServes(s: Sched)
    ensures Served(s.(yieldPending := true))
  {
  }

  lemma ParkServes(s: Sched, t: Task)
    requires ListsOk(s) && SchedOk(s) && t in s.tcb && s.current in s.tcb && Served(s)
    ensures Served(SuspendTask(s, t)) || t == s.current
  {
    hide ListsOk, SchedOk, Unlist, Served;
    UnlistSame(s, t);
    UnlistKeeps(s, t);
    if t != s.current {
      ParkedServes(s, SuspendTask(s, t), t);
    }
  }

  lemma ParkedServes(s: Sched, r: Sched, t: Task)
    requires t in s.tcb && t != s.current && Served(s) && t in r.tcb && r.tcb == s.tcb[t := r.tcb[t]]
    requires r.current == s.current && r.yieldPending == s.yieldPending && r.tcb[t].state == Suspended
    ensures Served(r)
  {
    if TopRuns(s) {
      OneTask(s, r, t);
    }
  }
}
