/**
 Mutexes with priority inheritance as a system of tasks: one step for each critical section
 of taking, blocking, giving up and giving back, in any interleaving.
 */
module Mutexes {
  import opened Rings
  import opened Priorities
  import Scheduler

  type Task = Scheduler.Task
  type Id = nat

  /**
   Where a task is: in ordinary code; at the top of the loop, about to try for a mutex again; having
   found it taken, about to lock the queue and check its time-out; on the waiting list; or timed out
   and about to withdraw the priority it lent.
   `lent` is the flag that remembers whether blocking made the holder inherit.  `expired` says that
   the wait is over, so that no time to wait is left.
   */
  datatype Phase =
    | Idle
    | Trying(id: Id, lent: bool, expired: bool)
    | Pausing(id: Id, lent: bool)
    | Blocked(id: Id, lent: bool)
    | GivingUp(id: Id)

  /** `away` is a task that is blocked on something else, or suspended. */
  datatype Actor = Actor(prio: Prio, phase: Phase, away: bool)

  datatype Holder = Nobody | By(task: Task)

  /** A mutex is a queue of length one whose items have no size; the list holds the waiting tasks. */
  datatype Mutex = Mutex(holder: Holder, count: nat, waiters: seq<Task>)

  datatype Sys = Sys(task: map<Task, Actor>, mutex: map<Id, Mutex>)

  predicate IsReady(s: Sys, t: Task) { t in s.task && !s.task[t].away && !s.task[t].phase.Blocked? }

  function Current(s: Sys, t: Task): nat
    requires t in s.task
  {
    s.task[t].prio.current
  }

  // ----- the steps -----

  datatype Step =
    | Begin(t: Task, id: Id, wait: bool)
    | Retry(t: Task)
    | Block(t: Task)
    | Expire(t: Task, aborted: bool)
    | Withdraw(t: Task)
    | Give(t: Task, id: Id)
    | Timeout(t: Task)
    | Leave(t: Task)
    | Return(t: Task)
    | SetPriority(t: Task, priority: nat)

  predicate Enabled(s: Sys, st: Step) {
    && st.t in s.task
    && match st
       case Begin(t, id, _) => IsReady(s, t) && s.task[t].phase == Idle && id in s.mutex
       case Retry(t) => IsReady(s, t) && s.task[t].phase.Trying?
       case Block(t) => IsReady(s, t) && s.task[t].phase.Pausing?
       case Expire(t, _) => IsReady(s, t) && s.task[t].phase.Pausing?
       case Withdraw(t) => IsReady(s, t) && s.task[t].phase.GivingUp?
       case Give(t, id) => IsReady(s, t) && s.task[t].phase == Idle && id in s.mutex && s.mutex[id].holder == By(t)
       case Timeout(t) => s.task[t].phase.Blocked?
       case Leave(t) => !s.task[t].away
       case Return(t) => s.task[t].away
       case SetPriority(_, _) => true
  }

  function SetTask(s: Sys, t: Task, a: Actor): Sys { s.(task := s.task[t := a]) }

  function SetPhase(s: Sys, t: Task, p: Phase): Sys
    requires t in s.task
  {
    SetTask(s, t, s.task[t].(phase := p))
  }

  function Retune(s: Sys, t: Task, p: Prio): Sys
    requires t in s.task
  {
    SetTask(s, t, s.task[t].(prio := p))
  }

  /** The count is positive: it drops to zero and the caller is recorded as the holder. */
  function Take(s: Sys, t: Task, id: Id): Sys
    requires t in s.task && id in s.mutex && s.mutex[id].count > 0
  {
    var a := s.task[t];
    Sys(s.task[t := a.(prio := a.prio.(held := a.prio.held + 1), phase := Idle)],
        s.mutex[id := s.mutex[id].(holder := By(t), count := s.mutex[id].count - 1)])
  }

  function Keys(s: Sys, w: seq<Task>): (k: seq<int>)
    requires forall t :: t in w ==> t in s.task
    ensures |k| == |w| && forall i :: 0 <= i < |w| ==> k[i] == s.task[w[i]].prio.eventValue
  {
    seq(|w|, i requires 0 <= i < |w| => s.task[w[i]].prio.eventValue)
  }

  /** Where the event list item value puts a task among those already waiting. */
  function Spot(s: Sys, w: seq<Task>, t: Task): (p: nat)
    requires t in s.task && forall u :: u in w ==> u in s.task
    ensures p <= |w|
  {
    Reach(Keys(s, w), s.task[t].prio.eventValue)
  }

  /** The tasks a mutex refers to exist, with priorities in range. */
  ghost predicate Known(s: Sys, id: Id)
    requires id in s.mutex
  {
    && (s.mutex[id].holder.By? ==> s.mutex[id].holder.task in s.task)
    && (forall u :: u in s.mutex[id].waiters ==> u in s.task && InRange(s.task[u].prio))
  }

  predicate InRange(p: Prio) {
    p.current < MAX_PRIORITIES && p.base < MAX_PRIORITIES && 1 <= p.eventValue <= MAX_PRIORITIES
  }

  function Enqueue(s: Sys, t: Task, id: Id): Sys
    requires t in s.task && id in s.mutex && forall u :: u in s.mutex[id].waiters ==> u in s.task
  {
    var w := s.mutex[id].waiters;
    var p := Spot(s, w, t);
    SetList(s, id, w[..p] + [t] + w[p..])
  }

  function SetList(s: Sys, id: Id, w: seq<Task>): Sys
    requires id in s.mutex
  {
    s.(mutex := s.mutex[id := s.mutex[id].(waiters := w)])
  }

  /** The count is zero: the holder inherits, and the caller joins the waiting list. */
  function BlockOn(s: Sys, t: Task, id: Id): Sys
    requires t in s.task && id in s.mutex && Known(s, id)
  {
    match s.mutex[id].holder
    case By(h) =>
      var s1 := Retune(s, h, Inherit(s.task[h].prio, Current(s, t)));
      SetPhase(Enqueue(s1, t, id), t, Blocked(id, Inherited(s.task[h].prio, Current(s, t))))
    case Nobody => SetPhase(Enqueue(s, t, id), t, Blocked(id, false))
  }

  /** Take a waiting task off its list; it will try again. */
  function Unwait(s: Sys, t: Task): Sys
    requires t in s.task && s.task[t].phase.Blocked? && s.task[t].phase.id in s.mutex
  {
    var ph := s.task[t].phase;
    SetPhase(SetList(s, ph.id, Without(s.mutex[ph.id].waiters, t)), t, Trying(ph.id, ph.lent, false))
  }

  /** The highest priority that still waits, as read off the head of the list. */
  function HighestWaiting(s: Sys, id: Id): nat
    requires id in s.mutex && Known(s, id)
  {
    var w := s.mutex[id].waiters;
    if w == [] then 0 else MAX_PRIORITIES - s.task[w[0]].prio.eventValue
  }

  function WithdrawFrom(s: Sys, t: Task, id: Id): Sys
    requires t in s.task && id in s.mutex && Known(s, id)
  {
    match s.mutex[id].holder
    case By(h) =>
      SetPhase(Retune(s, h, DisinheritAfterTimeout(s.task[h].prio, HighestWaiting(s, id))), t, Idle)
    case Nobody => SetPhase(s, t, Idle)
  }

  function Release(s: Sys, t: Task, id: Id): Sys
    requires t in s.task && id in s.mutex && s.task[t].prio.held > 0
  {
    Retune(s, t, Disinherit(s.task[t].prio)).(mutex := s.mutex[id := s.mutex[id].(holder := Nobody, count := s.mutex[id].count + 1)])
  }

  /** The holder gives the mutex back, and the head of the waiting list is woken. */
  function GiveBack(s: Sys, t: Task, id: Id): Sys
    requires t in s.task && id in s.mutex && s.task[t].prio.held > 0
    requires forall u :: u in s.mutex[id].waiters ==> u in s.task && BlockedOn(s, u, id)
  {
    var s1 := Release(s, t, id);
    if s.mutex[id].waiters == [] then s1
    else
      var head := s.mutex[id].waiters[0];
      assert BlockedOn(s, head, id);
      Unwait(s1, head)
  }

  /**
   The wait is over.  If the mutex is free the task tries once more; only a wait that was aborted
   rather than timed out leaves it time to wait again.  Otherwise it gives up, by way of
   withdrawing the priority it lent.
   */
  function Expired(ph: Phase, free: bool, aborted: bool): Phase
    requires ph.Pausing?
  {
    if free then Trying(ph.id, ph.lent, !aborted)
    else if ph.lent then GivingUp(ph.id)
    else Idle
  }

  function Apply(s: Sys, st: Step): Sys
    requires Accounted(s) && Enabled(s, st)
  {
    match st
    case Begin(t, id, wait) =>
      if s.mutex[id].count > 0 then Take(s, t, id)
      else if wait then SetPhase(s, t, Pausing(id, false))
      else s
    case Retry(t) =>
      var ph := s.task[t].phase;
      if s.mutex[ph.id].count > 0 then Take(s, t, ph.id)
      else SetPhase(s, t, if ph.expired then Idle else Pausing(ph.id, ph.lent))
    case Block(t) =>
      var ph := s.task[t].phase;
      if s.mutex[ph.id].count == 0 then BlockOn(s, t, ph.id) else SetPhase(s, t, Trying(ph.id, ph.lent, false))
    case Expire(t, aborted) =>
      var ph := s.task[t].phase;
      SetPhase(s, t, Expired(ph, s.mutex[ph.id].count > 0, aborted))
    case Withdraw(t) => WithdrawFrom(s, t, s.task[t].phase.id)
    case Give(t, id) =>
      HolderHolds(s, t, id);
      GiveBack(s, t, id)
    case Timeout(t) => Unwait(s, t)
    case Leave(t) =>
      var s1 := if s.task[t].phase.Blocked? then Unwait(s, t) else s;
      SetTask(s1, t, s1.task[t].(away := true))
    case Return(t) => SetTask(s, t, s.task[t].(away := false))
    case SetPriority(t, p) => Retune(s, t, SetBase(s.task[t].prio, Capped(p)))
  }

  // ----- accounting -----

  ghost function HeldBy(s: Sys, t: Task): set<Id> { set id | id in s.mutex && s.mutex[id].holder == By(t) }

  /** The count is zero exactly if there is a holder. */
  ghost predicate CountsOk(s: Sys) {
    forall id :: id in s.mutex ==>
                   && (if s.mutex[id].holder == Nobody then s.mutex[id].count == 1 else s.mutex[id].count == 0)
                   && (s.mutex[id].holder.By? ==> s.mutex[id].holder.task in s.task)
  }

  /** `uxMutexesHeld` is the number of mutexes that name the task as their holder. */
  ghost predicate HeldOk(s: Sys) { forall t :: t in s.task ==> s.task[t].prio.held == |HeldBy(s, t)| }

  /** A task that holds no mutex runs at its base priority. */
  ghost predicate AtBase(s: Sys) {
    forall t :: t in s.task && s.task[t].prio.held == 0 ==> s.task[t].prio.current == s.task[t].prio.base
  }

  /** A mutex's waiting list holds exactly the tasks that are blocked on it. */
  ghost predicate WaitersOk(s: Sys) {
    && (forall id :: id in s.mutex ==> NoDup(s.mutex[id].waiters))
    && (forall id, t :: id in s.mutex && t in s.mutex[id].waiters ==> t in s.task && BlockedOn(s, t, id))
    && (forall t :: t in s.task ==> PhaseOk(s, t))
  }

  predicate BlockedOn(s: Sys, t: Task, id: Id)
    requires t in s.task
  {
    s.task[t].phase.Blocked? && s.task[t].phase.id == id
  }

  ghost predicate PhaseOk(s: Sys, t: Task)
    requires t in s.task
  {
    && (!s.task[t].phase.Idle? ==> s.task[t].phase.id in s.mutex)
    && (s.task[t].phase.Blocked? ==> t in s.mutex[s.task[t].phase.id].waiters)
  }

  ghost predicate RangesOk(s: Sys) { forall t :: t in s.task ==> InRange(s.task[t].prio) }

  ghost predicate Accounted(s: Sys) { CountsOk(s) && HeldOk(s) && AtBase(s) && RangesOk(s) && WaitersOk(s) }

  lemma HolderHolds(s: Sys, t: Task, id: Id)
    requires Accounted(s) && t in s.task && id in s.mutex && s.mutex[id].holder == By(t)
    ensures s.task[t].prio.held > 0
  {
    assert id in HeldBy(s, t);
  }

  lemma OnlyOneHeld(s: Sys, t: Task, id: Id, other: Id)
    requires Accounted(s) && t in s.task && s.task[t].prio.held == 1
    requires id in s.mutex && s.mutex[id].holder == By(t) && other in s.mutex && s.mutex[other].holder == By(t)
    ensures other == id
  {
    var h := HeldBy(s, t);
    assert id in h && other in h;
    assert |h - {id}| == 0;
  }

  // ----- what the elementary changes keep -----

  /** No holder changes and no task's held count does: the books are as they were. */
  lemma BooksKeep(s: Sys, r: Sys)
    requires CountsOk(s) && HeldOk(s) && r.task.Keys == s.task.Keys && r.mutex.Keys == s.mutex.Keys
    requires forall id :: id in s.mutex ==>
        r.mutex[id].holder == s.mutex[id].holder && r.mutex[id].count == s.mutex[id].count
    requires forall t :: t in s.task ==> r.task[t].prio.held == s.task[t].prio.held
    ensures CountsOk(r) && HeldOk(r)
  {
    assert forall u :: HeldBy(r, u) == HeldBy(s, u);
  }

  /** The waiting lists are as they were, and so is who is blocked. */
  lemma ListsKeep(s: Sys, r: Sys)
    requires WaitersOk(s) && r.task.Keys == s.task.Keys && r.mutex.Keys == s.mutex.Keys
    requires forall id :: id in s.mutex ==> r.mutex[id].waiters == s.mutex[id].waiters
    requires forall t :: t in s.task ==>
                           || r.task[t].phase == s.task[t].phase
                           || (!s.task[t].phase.Blocked? && !r.task[t].phase.Blocked? && PhaseOk(r, t))
    ensures WaitersOk(r)
  {
    hide NoDup;
    forall t | t in r.task ensures PhaseOk(r, t) {
      assert t in s.task && PhaseOk(s, t);
    }
    forall id, t | id in r.mutex && t in r.mutex[id].waiters ensures t in r.task && BlockedOn(r, t, id) {
      assert id in s.mutex && t in s.mutex[id].waiters;
    }
  }

  /** Priorities stay in range and inherited ones are backed by a mutex. */
  lemma PriosKeep(s: Sys, r: Sys, t: Task)
    requires AtBase(s) && RangesOk(s) && t in s.task && r.task.Keys == s.task.Keys
    requires forall u :: u in s.task && u != t ==> r.task[u].prio == s.task[u].prio
    requires InRange(r.task[t].prio) && (r.task[t].prio.held == 0 ==> r.task[t].prio.current == r.task[t].prio.base)
    ensures AtBase(r) && RangesOk(r)
  {
  }

  /** A change of phase or readiness of a task that stays off the waiting lists. */
  lemma PhaseKeeps(s: Sys, t: Task, a: Actor)
    requires Accounted(s) && t in s.task && a.prio == s.task[t].prio
    requires a.phase == s.task[t].phase || (!s.task[t].phase.Blocked? && !a.phase.Blocked?)
    requires !a.phase.Idle? ==> a.phase.id in s.mutex
    ensures Accounted(SetTask(s, t, a))
  {
    hide CountsOk, HeldOk, WaitersOk, HeldBy;
    BooksKeep(s, SetTask(s, t, a));
    ListsKeep(s, SetTask(s, t, a));
    PriosKeep(s, SetTask(s, t, a), t);
  }

  lemma RetuneKeeps(s: Sys, t: Task, p: Prio)
    requires Accounted(s) && t in s.task && p.held == s.task[t].prio.held && InRange(p)
    requires p.held == 0 ==> p.current == p.base
    ensures Accounted(Retune(s, t, p))
  {
    hide CountsOk, HeldOk, WaitersOk, AtBase, RangesOk, HeldBy;
    BooksKeep(s, Retune(s, t, p));
    ListsKeep(s, Retune(s, t, p));
    PriosKeep(s, Retune(s, t, p), t);
  }

  /** The books after one mutex changes hands between nobody and `t`. */
  lemma HandOverBooks(s: Sys, r: Sys, t: Task, id: Id)
    requires CountsOk(s) && HeldOk(s) && t in s.task && id in s.mutex
    requires r.task.Keys == s.task.Keys && forall u :: u in s.task && u != t ==>
        r.task[u].prio.held == s.task[u].prio.held
    requires id in r.mutex && r.mutex == s.mutex[id := r.mutex[id]]
    requires if s.mutex[id].holder == Nobody
             then r.mutex[id].holder == By(t) && r.mutex[id].count == 0
                 && r.task[t].prio.held == s.task[t].prio.held + 1
             else s.mutex[id].holder == By(t) && r.mutex[id].holder == Nobody && r.mutex[id].count == 1
                  && r.task[t].prio.held == s.task[t].prio.held - 1
    ensures CountsOk(r) && HeldOk(r)
  {
    forall u | u in r.task ensures r.task[u].prio.held == |HeldBy(r, u)| {
      if u != t {
        assert HeldBy(r, u) == HeldBy(s, u);
      } else if s.mutex[id].holder == Nobody {
        assert HeldBy(r, t) == HeldBy(s, t) + {id};
      } else {
        assert HeldBy(r, t) == HeldBy(s, t) - {id};
      }
    }
  }

  lemma TakeKeeps(s: Sys, t: Task, id: Id)
    requires Accounted(s) && t in s.task && id in s.mutex && s.mutex[id].count > 0 && !s.task[t].phase.Blocked?
    ensures Accounted(Take(s, t, id))
  {
    hide CountsOk, HeldOk, WaitersOk, AtBase, RangesOk;
    FreeIsHeldByNobody(s, id);
    HandOverBooks(s, Take(s, t, id), t, id);
    ListsKeep(s, Take(s, t, id));
    TakerInRange(s, t);
    PriosKeep(s, Take(s, t, id), t);
  }

  lemma ReleaseKeeps(s: Sys, t: Task, id: Id)
    requires Accounted(s) && t in s.task && id in s.mutex && s.mutex[id].holder == By(t) && s.task[t].prio.held > 0
    ensures Accounted(Release(s, t, id))
  {
    hide CountsOk, HeldOk, WaitersOk, AtBase, RangesOk;
    HeldIsTaken(s, id);
    HandOverBooks(s, Release(s, t, id), t, id);
    ListsKeep(s, Release(s, t, id));
    TakerInRange(s, t);
    PriosKeep(s, Release(s, t, id), t);
  }

  lemma FreeIsHeldByNobody(s: Sys, id: Id)
    requires CountsOk(s) && id in s.mutex && s.mutex[id].count > 0
    ensures s.mutex[id].holder == Nobody && s.mutex[id].count == 1
  {
  }

  lemma TakerInRange(s: Sys, t: Task)
    requires RangesOk(s) && AtBase(s) && t in s.task
    ensures InRange(s.task[t].prio) && (s.task[t].prio.held == 0 ==> s.task[t].prio.current == s.task[t].prio.base)
  {
  }

  lemma HeldIsTaken(s: Sys, id: Id)
    requires CountsOk(s) && id in s.mutex && s.mutex[id].holder.By?
    ensures s.mutex[id].count == 0
  {
  }

  /** A change to one waiting list that leaves the holders alone. */
  lemma ListKeeps(s: Sys, id: Id, w: seq<Task>, t: Task, ph: Phase)
    requires Accounted(s) && id in s.mutex && t in s.task && NoDup(w)
    requires forall u :: u != t ==> (u in w <==> u in s.mutex[id].waiters)
    requires if ph.Blocked? then ph.id == id && t in w && !s.task[t].phase.Blocked?
             else BlockedOn(s, t, id) && t !in w && (!ph.Idle? ==> ph.id in s.mutex)
    ensures Accounted(SetPhase(SetList(s, id, w), t, ph))
  {
    hide CountsOk, HeldOk, AtBase, RangesOk, WaitersOk;
    var r := SetPhase(SetList(s, id, w), t, ph);
    BooksKeep(s, r);
    OneListKeeps(s, id, w, t, ph);
    TakerInRange(s, t);
    PriosKeep(s, r, t);
  }

  lemma OneListKeeps(s: Sys, id: Id, w: seq<Task>, t: Task, ph: Phase)
    requires WaitersOk(s) && id in s.mutex && t in s.task && NoDup(w)
    requires forall u :: u != t ==> (u in w <==> u in s.mutex[id].waiters)
    requires if ph.Blocked? then ph.id == id && t in w && !s.task[t].phase.Blocked?
             else BlockedOn(s, t, id) && t !in w && (!ph.Idle? ==> ph.id in s.mutex)
    ensures WaitersOk(SetPhase(SetList(s, id, w), t, ph))
  {
    hide NoDup;
  }

  lemma UnwaitKeeps(s: Sys, t: Task)
    requires Accounted(s) && t in s.task && s.task[t].phase.Blocked?
    ensures s.task[t].phase.id in s.mutex && Accounted(Unwait(s, t))
  {
    hide CountsOk, HeldOk, AtBase, RangesOk, NoDup;
    var ph := s.task[t].phase;
    NoDupWithout(s.mutex[ph.id].waiters, t);
    ListKeeps(s, ph.id, Without(s.mutex[ph.id].waiters, t), t, Trying(ph.id, ph.lent, false));
  }

  lemma SplicedMembers<T>(w: seq<T>, p: nat, x: T)
    requires p <= |w|
    ensures forall u :: u in w[..p] + [x] + w[p..] <==> u in w || u == x
  {
    assert w == w[..p] + w[p..];
  }

  lemma EnqueueKeeps(s: Sys, t: Task, id: Id, ph: Phase)
    requires Accounted(s) && t in s.task && id in s.mutex && !s.task[t].phase.Blocked?
    requires ph.Blocked? && ph.id == id
    ensures Known(s, id) && Accounted(SetPhase(Enqueue(s, t, id), t, ph))
  {
    var w := s.mutex[id].waiters;
    assert Known(s, id) && t !in w && NoDup(w);
    hide Accounted, NoDup;
    var p := Spot(s, w, t);
    NoDupInsert(w, p, t);
    SplicedMembers(w, p, t);
    ListKeeps(s, id, w[..p] + [t] + w[p..], t, ph);
  }

  lemma BlockKeeps(s: Sys, t: Task, id: Id)
    requires Accounted(s) && t in s.task && id in s.mutex && !s.task[t].phase.Blocked? && s.mutex[id].count == 0
    ensures Known(s, id) && Accounted(BlockOn(s, t, id))
  {
    assert s.mutex[id].holder.By?;
    var h := s.mutex[id].holder.task;
    assert InRange(s.task[t].prio) && InRange(s.task[h].prio) && Known(s, id);
    HolderHolds(s, h, id);
    hide Accounted;
    var p := Inherit(s.task[h].prio, Current(s, t));
    RetuneKeeps(s, h, p);
    EnqueueKeeps(Retune(s, h, p), t, id, Blocked(id, Inherited(s.task[h].prio, Current(s, t))));
  }

  lemma WithdrawKeeps(s: Sys, t: Task, id: Id)
    requires Accounted(s) && t in s.task && id in s.mutex && !s.task[t].phase.Blocked?
    ensures Known(s, id) && Accounted(WithdrawFrom(s, t, id))
  {
    assert Known(s, id);
    if s.mutex[id].holder.By? {
      var h := s.mutex[id].holder.task;
      assert InRange(s.task[h].prio);
      HolderHolds(s, h, id);
      hide Accounted;
      var p := DisinheritAfterTimeout(s.task[h].prio, HighestWaiting(s, id));
      RetuneKeeps(s, h, p);
      PhaseKeeps(Retune(s, h, p), t, Retune(s, h, p).task[t].(phase := Idle));
    } else {
      PhaseKeeps(s, t, s.task[t].(phase := Idle));
    }
  }

  lemma GiveKeeps(s: Sys, t: Task, id: Id)
    requires Accounted(s) && t in s.task && id in s.mutex && s.mutex[id].holder == By(t)
    ensures s.task[t].prio.held > 0
    ensures forall u :: u in s.mutex[id].waiters ==> u in s.task && BlockedOn(s, u, id)
    ensures Accounted(GiveBack(s, t, id))
  {
    HolderHolds(s, t, id);
    ReleaseKeeps(s, t, id);
    assert forall u :: u in s.mutex[id].waiters ==> u in s.task && BlockedOn(s, u, id);
    hide Accounted;
    if s.mutex[id].waiters != [] {
      assert s.mutex[id].waiters[0] in s.mutex[id].waiters;
      UnwaitKeeps(Release(s, t, id), s.mutex[id].waiters[0]);
    }
  }

  lemma PhaseFacts(s: Sys, t: Task)
    requires Accounted(s) && t in s.task
    ensures !s.task[t].phase.Idle? ==> s.task[t].phase.id in s.mutex
    ensures forall id :: id in s.mutex ==> Known(s, id)
  {
    assert PhaseOk(s, t);
  }

  lemma LeaveKeeps(s: Sys, t: Task)
    requires Accounted(s) && t in s.task && !s.task[t].away
    ensures Accounted(Apply(s, Leave(t)))
  {
    hide Accounted;
    PhaseFacts(s, t);
    if s.task[t].phase.Blocked? {
      UnwaitKeeps(s, t);
      PhaseFacts(Unwait(s, t), t);
      PhaseKeeps(Unwait(s, t), t, Unwait(s, t).task[t].(away := true));
    } else {
      PhaseKeeps(s, t, s.task[t].(away := true));
    }
  }

  lemma SetPriorityKeeps(s: Sys, t: Task, p: nat)
    requires Accounted(s) && t in s.task
    ensures Accounted(Apply(s, SetPriority(t, p)))
  {
    assert InRange(s.task[t].prio);
    assert s.task[t].prio.held == 0 ==> s.task[t].prio.current == s.task[t].prio.base;
    hide Accounted;
    RetuneKeeps(s, t, SetBase(s.task[t].prio, Capped(p)));
  }

  /** The books balance after every step, `vTaskPrioritySet` included. */
  lemma StepAccounts(s: Sys, st: Step)
    requires Accounted(s) && Enabled(s, st)
    ensures Accounted(Apply(s, st))
  {
    hide Accounted, Take, BlockOn, WithdrawFrom, GiveBack, Unwait;
    var a := s.task[st.t];
    PhaseFacts(s, st.t);
    match st
    case Begin(t, id, wait) =>
      if s.mutex[id].count > 0 {
        TakeKeeps(s, t, id);
      } else {
        PhaseKeeps(s, t, a.(phase := Pausing(id, false)));
      }
    case Retry(t) =>
      if s.mutex[a.phase.id].count > 0 {
        TakeKeeps(s, t, a.phase.id);
      } else {
        PhaseKeeps(s, t, a.(phase := if a.phase.expired then Idle else Pausing(a.phase.id, a.phase.lent)));
      }
    case Block(t) =>
      if s.mutex[a.phase.id].count == 0 {
        BlockKeeps(s, t, a.phase.id);
      } else {
        PhaseKeeps(s, t, a.(phase := Trying(a.phase.id, a.phase.lent, false)));
      }
    case Expire(t, aborted) => PhaseKeeps(s, t, a.(phase := Expired(a.phase, s.mutex[a.phase.id].count > 0, aborted)));
    case Withdraw(t) => WithdrawKeeps(s, t, a.phase.id);
    case Give(t, id) => GiveKeeps(s, t, id);
    case Timeout(t) => UnwaitKeeps(s, t);
    case Leave(t) => LeaveKeeps(s, t);
    case Return(t) => PhaseKeeps(s, t, a.(away := false));
    case SetPriority(t, p) => SetPriorityKeeps(s, t, p);
  }

  // ----- bounded inversion -----

  /** No task that is ready to run has a higher priority than `t`. */
  ghost predicate Outranks(s: Sys, t: Task)
    requires t in s.task
  {
    forall u :: u in s.task && IsReady(s, u) ==> Current(s, u) <= Current(s, t)
  }

  /** The priority of `t` is at least that of every task of `w`. */
  ghost predicate Tops(s: Sys, t: Task, w: seq<Task>) {
    t in s.task && forall u :: u in w ==> u in s.task && Current(s, u) <= Current(s, t)
  }

  ghost predicate Rising(k: seq<int>) { forall i, j :: 0 <= i < j < |k| ==> k[i] <= k[j] }

  /** A task that was woken for the mutex, or has just asked for it, and will try to take it. */
  ghost predicate InFlight(s: Sys, t: Task, id: Id)
    requires id in s.mutex
  {
    && t in s.task && !s.task[t].away && s.task[t].phase.Trying? && s.task[t].phase.id == id && s.task[t].prio.held == 0
    && Tops(s, t, s.mutex[id].waiters)
  }

  /**
   The holder's priority is at least that of every waiting task.  While nobody holds the mutex,
   somebody with such a priority is on the way to take it.
   */
  ghost predicate MutexCalm(s: Sys, id: Id)
    requires id in s.mutex
  {
    var m := s.mutex[id];
    && Known(s, id) && Rising(Keys(s, m.waiters))
    && (m.holder.By? ==> Tops(s, m.holder.task, m.waiters))
    && (m.holder == Nobody && m.waiters != [] ==> exists t :: InFlight(s, t, id))
  }

  /** The task has lent its priority, or is where it may do so. */
  predicate Lending(ph: Phase) {
    match ph
    case Idle => false
    case Trying(_, lent, _) => lent
    case Pausing(_, lent) => lent
    case Blocked(_, _) => true
    case GivingUp(_) => true
  }

  /**
   Event item values follow priorities, a task that waits or has lent its priority holds no mutex,
   and one that waits, waits for nothing else.
   */
  ghost predicate TasksCalm(s: Sys) {
    forall t :: t in s.task ==>
                  && s.task[t].prio.eventValue == EventValue(Current(s, t))
                  && (Lending(s.task[t].phase) ==> s.task[t].prio.held == 0)
                  && (s.task[t].phase.Blocked? ==> !s.task[t].away)
  }

  ghost predicate Calm(s: Sys) { TasksCalm(s) && forall id :: id in s.mutex ==> MutexCalm(s, id) }

  /**
   The discipline: priorities are not set, a task does not block on one mutex while it holds
   another, it takes a mutex only when no ready task outranks it, and it is not suspended when it
   is about to try for a mutex that nobody holds.
   */
  ghost predicate Disciplined(s: Sys, st: Step)
    requires Accounted(s) && Enabled(s, st)
  {
    PhaseFacts(s, st.t);
    match st
    case Begin(t, id, _) => s.mutex[id].count > 0 ==> Outranks(s, t)
    case Retry(t) => s.mutex[s.task[t].phase.id].count > 0 ==> Outranks(s, t)
    case Block(t) => s.task[t].prio.held == 0
    case Leave(t) => s.task[t].phase.Trying? ==> s.mutex[s.task[t].phase.id].holder.By?
    case SetPriority(_, _) => false
    case _ => true
  }

  /** A mutex that is itself untouched stays calm. */
  lemma MutexFrame(s: Sys, r: Sys, id: Id)
    requires id in s.mutex && id in r.mutex && MutexCalm(s, id) && r.mutex[id] == s.mutex[id]
    requires forall u :: u in s.mutex[id].waiters ==> u in r.task && r.task[u].prio == s.task[u].prio
    requires s.mutex[id].holder.By? ==> Tops(r, s.mutex[id].holder.task, s.mutex[id].waiters)
    requires s.mutex[id].holder == Nobody ==> forall t :: InFlight(s, t, id) ==> InFlight(r, t, id)
    ensures MutexCalm(r, id)
  {
    assert Keys(r, r.mutex[id].waiters) == Keys(s, s.mutex[id].waiters);
  }

  /** What one task does with one mutex does not disturb another. */
  lemma OtherMutex(s: Sys, r: Sys, t: Task, id: Id, other: Id)
    requires Accounted(s) && t in s.task && id in s.mutex && other in s.mutex && other != id && MutexCalm(s, other)
    requires id in r.mutex && r.mutex == s.mutex[id := r.mutex[id]] && t in r.task && r.task == s.task[t := r.task[t]]
    requires !BlockedOn(s, t, other) && (s.task[t].phase.Trying? ==> s.task[t].phase.id == id)
    requires s.mutex[other].holder == By(t) ==> Current(r, t) >= Current(s, t)
    ensures MutexCalm(r, other)
  {
    assert t !in s.mutex[other].waiters;
    hide Accounted;
    MutexFrame(s, r, other);
  }

  /** A holder's priority may change as long as it stays on top of those it keeps waiting. */
  lemma CalmRetune(s: Sys, h: Task, p: Prio)
    requires Accounted(s) && Calm(s) && h in s.task && s.task[h].prio.held > 0 && p.held == s.task[h].prio.held
        && InRange(p)
    requires p.eventValue == EventValue(p.current)
    requires forall id :: id in s.mutex && s.mutex[id].holder == By(h) ==> Tops(Retune(s, h, p), h, s.mutex[id].waiters)
    ensures Calm(Retune(s, h, p))
  {
    var r := Retune(s, h, p);
    forall id | id in r.mutex ensures MutexCalm(r, id) {
      assert MutexCalm(s, id);
      MutexFrame(s, r, id);
    }
  }

  /** A task off the waiting lists may do as it likes unless a free mutex relies on it. */
  lemma CalmPhase(s: Sys, t: Task, a: Actor)
    requires Accounted(s) && Calm(s) && t in s.task && a.prio == s.task[t].prio
    requires !s.task[t].phase.Blocked? && !a.phase.Blocked?
    requires (s.task[t].phase.Trying? && s.task[t].phase.id in s.mutex
              && s.mutex[s.task[t].phase.id].holder == Nobody) ==>
               a.phase == s.task[t].phase && (!a.away || s.task[t].away)
    requires Lending(a.phase) ==> Lending(s.task[t].phase)
    ensures Calm(SetTask(s, t, a))
  {
    hide Accounted, MutexCalm;
    forall id | id in s.mutex ensures MutexCalm(SetTask(s, t, a), id) {
      PhaseIsCalm(s, t, a, id);
    }
  }

  lemma PhaseIsCalm(s: Sys, t: Task, a: Actor, id: Id)
    requires id in s.mutex && MutexCalm(s, id) && t in s.task && a.prio == s.task[t].prio && !a.phase.Blocked?
    requires s.task[t].phase.Trying? && s.task[t].phase.id == id && s.mutex[id].holder == Nobody ==>
               a.phase == s.task[t].phase && (!a.away || s.task[t].away)
    ensures MutexCalm(SetTask(s, t, a), id)
  {
    MutexFrame(s, SetTask(s, t, a), id);
  }

  /** A task that outranks the ready ones also outranks the waiting ones, through the task in flight. */
  lemma TakerTops(s: Sys, t: Task, id: Id)
    requires Accounted(s) && Calm(s) && t in s.task && Outranks(s, t) && id in s.mutex && s.mutex[id].holder == Nobody
    ensures Tops(s, t, s.mutex[id].waiters)
  {
    assert MutexCalm(s, id);
    if s.mutex[id].waiters != [] {
      var u :| InFlight(s, u, id);
      assert IsReady(s, u);
    }
  }

  lemma NotBlockedNotWaiting(s: Sys, t: Task, id: Id)
    requires Accounted(s) && t in s.task && !s.task[t].phase.Blocked? && id in s.mutex
    ensures t !in s.mutex[id].waiters && (s.mutex[id].count > 0 ==> s.mutex[id].holder == Nobody)
  {
  }

  lemma TakenIsCalm(s: Sys, t: Task, id: Id)
    requires t in s.task && id in s.mutex && MutexCalm(s, id) && t !in s.mutex[id].waiters && s.mutex[id].count > 0
    requires Tops(s, t, s.mutex[id].waiters)
    ensures MutexCalm(Take(s, t, id), id)
  {
    SameKeys(s, Take(s, t, id), s.mutex[id].waiters);
  }

  lemma CalmTake(s: Sys, t: Task, id: Id)
    requires Accounted(s) && Calm(s) && t in s.task && !s.task[t].phase.Blocked? && id in s.mutex
        && s.mutex[id].count > 0
    requires s.task[t].phase.Trying? ==> s.task[t].phase.id == id
    requires Outranks(s, t)
    ensures Calm(Take(s, t, id))
  {
    hide Accounted, MutexCalm, Tops;
    NotBlockedNotWaiting(s, t, id);
    TakerTops(s, t, id);
    TakenIsCalm(s, t, id);
    var r := Take(s, t, id);
    forall other | other in r.mutex && other != id ensures MutexCalm(r, other) {
      OtherMutex(s, r, t, id, other);
    }
  }

  lemma SplicedRises(k: seq<int>, x: int)
    requires Rising(k)
    ensures var p := Reach(k, x); Rising(k[..p] + [x] + k[p..])
  {
  }

  lemma CutRises(k: seq<int>, p: nat)
    requires Rising(k) && p < |k|
    ensures Rising(k[..p] + k[p + 1..])
  {
  }

  /** The list stays sorted by event item value when a task joins it. */
  lemma EnqueuedRises(s: Sys, w: seq<Task>, t: Task)
    requires t in s.task && (forall u :: u in w ==> u in s.task) && Rising(Keys(s, w))
    ensures var p := Spot(s, w, t);
            var v := w[..p] + [t] + w[p..];
            (forall u :: u in v <==> u in w || u == t) && Rising(Keys(s, v))
  {
    hide Rising, Reach;
    var p, x := Spot(s, w, t), s.task[t].prio.eventValue;
    SplicedMembers(w, p, t);
    SplicedRises(Keys(s, w), x);
    assert Keys(s, w[..p] + [t] + w[p..]) == Keys(s, w)[..p] + [x] + Keys(s, w)[p..];
  }

  lemma WithoutRises(s: Sys, w: seq<Task>, t: Task)
    requires NoDup(w) && t in w && (forall u :: u in w ==> u in s.task) && Rising(Keys(s, w))
    ensures (forall u :: u in Without(w, t) <==> u in w && u != t) && Rising(Keys(s, Without(w, t)))
  {
    hide Rising, NoDup, Without;
    NoDupWithout(w, t);
    var k :| 0 <= k < |w| && w[k] == t;
    WithoutAt(w, k);
    CutRises(Keys(s, w), k);
    assert Keys(s, w[..k] + w[k + 1..]) == Keys(s, w)[..k] + Keys(s, w)[k + 1..];
  }

  lemma SameKeys(s: Sys, r: Sys, w: seq<Task>)
    requires forall u :: u in w ==> u in s.task && u in r.task && r.task[u].prio == s.task[u].prio
    ensures Keys(r, w) == Keys(s, w)
  {
  }

  /** Joining the list of a mutex whose holder has at least one's own priority. */
  lemma CalmEnqueue(s: Sys, t: Task, id: Id, lent: bool)
    requires Accounted(s) && Calm(s) && t in s.task && s.task[t].phase.Pausing? && s.task[t].phase.id == id
        && id in s.mutex
    requires s.task[t].prio.held == 0 && !s.task[t].away
    requires s.mutex[id].holder.By? && s.mutex[id].holder.task in s.task
        && Current(s, t) <= Current(s, s.mutex[id].holder.task)
    requires forall u :: u in s.mutex[id].waiters ==> u in s.task
    ensures Calm(SetPhase(Enqueue(s, t, id), t, Blocked(id, lent)))
  {
    hide Accounted, NoDup;
    var r := SetPhase(Enqueue(s, t, id), t, Blocked(id, lent));
    assert MutexCalm(s, id);
    PrioInRange(s, t);
    EnqueuedIsCalm(s, r, t, id);
    forall other | other in r.mutex && other != id ensures MutexCalm(r, other) {
      assert MutexCalm(s, other);
      OtherMutex(s, r, t, id, other);
    }
  }

  lemma PrioInRange(s: Sys, t: Task)
    requires Accounted(s) && t in s.task
    ensures InRange(s.task[t].prio)
  {
  }

  lemma EnqueuedIsCalm(s: Sys, r: Sys, t: Task, id: Id)
    requires TasksCalm(s) && t in s.task && id in s.mutex && MutexCalm(s, id)
    requires s.mutex[id].holder.By? && s.mutex[id].holder.task in s.task
        && Current(s, t) <= Current(s, s.mutex[id].holder.task)
    requires InRange(s.task[t].prio)
    requires r.mutex == Enqueue(s, t, id).mutex && t in r.task && r.task == s.task[t := r.task[t]]
        && r.task[t].prio == s.task[t].prio
    ensures MutexCalm(r, id)
  {
    EnqueuedRises(s, s.mutex[id].waiters, t);
    hide NoDup, TasksCalm, Spot, Rising;
    SameKeys(s, r, r.mutex[id].waiters);
  }

  lemma CalmBlock(s: Sys, t: Task, id: Id)
    requires Accounted(s) && Calm(s) && t in s.task && s.task[t].phase.Pausing? && s.task[t].phase.id == id
        && id in s.mutex
    requires s.task[t].prio.held == 0 && !s.task[t].away && s.mutex[id].count == 0
    ensures Known(s, id) && Calm(BlockOn(s, t, id))
  {
    PhaseFacts(s, t);
    assert s.mutex[id].holder.By?;
    var h := s.mutex[id].holder.task;
    HolderHolds(s, h, id);
    var p := Inherit(s.task[h].prio, Current(s, t));
    assert InRange(p) && p.eventValue == EventValue(p.current) && InRange(s.task[t].prio);
    var s1 := Retune(s, h, p);
    forall other | other in s.mutex && s.mutex[other].holder == By(h) ensures Tops(s1, h, s1.mutex[other].waiters) {
      assert MutexCalm(s, other);
    }
    assert p.held > 0;
    hide Accounted, Calm;
    RetuneKeeps(s, h, p);
    CalmRetune(s, h, p);
    PhaseFacts(s1, t);
    CalmEnqueue(s1, t, id, Inherited(s.task[h].prio, Current(s, t)));
  }

  /** Taking a waiting task off its list. */
  lemma CalmUnlist(s: Sys, r: Sys, t: Task)
    requires Accounted(s) && Calm(s) && t in s.task && s.task[t].phase.Blocked? && s.task[t].phase.id in s.mutex
    requires r.mutex == Unwait(s, t).mutex
    requires t in r.task && r.task == s.task[t := r.task[t]] && r.task[t].prio == s.task[t].prio
        && !r.task[t].phase.Blocked?
    ensures Calm(r)
  {
    hide Accounted, MutexCalm;
    var id := s.task[t].phase.id;
    BlockedWaits(s, t);
    UnwaitedIsCalm(s, r, t, id);
    forall other | other in r.mutex && other != id ensures MutexCalm(r, other) {
      assert MutexCalm(s, other);
      OtherMutex(s, r, t, id, other);
    }
  }

  lemma BlockedWaits(s: Sys, t: Task)
    requires Accounted(s) && t in s.task && s.task[t].phase.Blocked?
    ensures var id := s.task[t].phase.id; id in s.mutex && t in s.mutex[id].waiters && NoDup(s.mutex[id].waiters)
  {
    assert PhaseOk(s, t);
    hide NoDup;
  }

  lemma UnwaitedIsCalm(s: Sys, r: Sys, t: Task, id: Id)
    requires t in s.task && id in s.mutex && MutexCalm(s, id) && NoDup(s.mutex[id].waiters) && t in s.mutex[id].waiters
    requires !s.task[t].phase.Trying?
    requires r.mutex == SetList(s, id, Without(s.mutex[id].waiters, t)).mutex
    requires t in r.task && r.task == s.task[t := r.task[t]] && r.task[t].prio == s.task[t].prio
    ensures MutexCalm(r, id)
  {
    hide NoDup, Rising, Without;
    WithoutRises(s, s.mutex[id].waiters, t);
    SameKeys(s, r, r.mutex[id].waiters);
    if s.mutex[id].holder == Nobody {
      var u :| InFlight(s, u, id);
      assert InFlight(r, u, id);
    }
  }

  /** Giving back lowers the giver's priority only if nobody else waits for it. */
  lemma GiverKeeps(s: Sys, t: Task, id: Id, other: Id)
    requires Accounted(s) && t in s.task && id in s.mutex && s.mutex[id].holder == By(t) && s.task[t].prio.held > 0
    requires other in s.mutex && other != id && s.mutex[other].holder == By(t)
    ensures Disinherit(s.task[t].prio).current == Current(s, t)
  {
    if s.task[t].prio.held == 1 {
      OnlyOneHeld(s, t, id, other);
    }
  }

  /** The head of a list has the highest priority of those on it. */
  lemma HeadTops(s: Sys, w: seq<Task>)
    requires TasksCalm(s) && w != [] && (forall u :: u in w ==> u in s.task) && Rising(Keys(s, w))
    ensures Tops(s, w[0], w)
  {
    forall u | u in w ensures Current(s, u) <= Current(s, w[0]) {
      var i :| 0 <= i < |w| && w[i] == u;
      assert Keys(s, w)[0] <= Keys(s, w)[i];
      assert w[0] in w;
    }
  }

  /** Handing over: the head of the list, which has the highest priority of those waiting, is in flight. */
  lemma HeadInFlight(s: Sys, r: Sys, t: Task, id: Id)
    requires TasksCalm(s) && id in s.mutex && MutexCalm(s, id) && NoDup(s.mutex[id].waiters)
        && s.mutex[id].waiters != []
    requires t == s.mutex[id].waiters[0] && s.task[t].phase.Blocked?
    requires id in r.mutex && r.mutex[id] == Mutex(Nobody, 1, Without(s.mutex[id].waiters, t))
    requires t in r.task && r.task[t] == s.task[t].(phase := r.task[t].phase) && r.task[t].phase.Trying?
        && r.task[t].phase.id == id
    requires forall u :: u in s.mutex[id].waiters && u != t ==> u in r.task && r.task[u] == s.task[u]
    ensures MutexCalm(r, id)
  {
    var w := s.mutex[id].waiters;
    hide NoDup, Without;
    WithoutRises(s, w, t);
    HeadTops(s, w);
    hide Rising, TasksCalm;
    SameKeys(s, r, r.mutex[id].waiters);
    assert InFlight(r, t, id);
  }

  lemma CalmGive(s: Sys, t: Task, id: Id)
    requires Accounted(s) && Calm(s) && t in s.task && s.task[t].phase == Idle && id in s.mutex
        && s.mutex[id].holder == By(t)
    ensures s.task[t].prio.held > 0
    ensures forall u :: u in s.mutex[id].waiters ==> u in s.task && BlockedOn(s, u, id)
    ensures Calm(GiveBack(s, t, id))
  {
    GiveKeeps(s, t, id);
    HeldIsTaken(s, id);
    PrioInRange(s, t);
    var w, r := s.mutex[id].waiters, GiveBack(s, t, id);
    assert NoDup(w) && MutexCalm(s, id) && t !in w;
    GiveTasksCalm(s, t, id);
    hide Accounted, NoDup, TasksCalm;
    if w != [] {
      HeadInFlight(s, r, w[0], id);
    }
    forall other | other in r.mutex && other != id ensures MutexCalm(r, other) {
      assert MutexCalm(s, other);
      GiveElsewhere(s, t, id, other);
    }
  }

  lemma GiveTasksCalm(s: Sys, t: Task, id: Id)
    requires TasksCalm(s) && t in s.task && s.task[t].phase == Idle && id in s.mutex && s.task[t].prio.held > 0
    requires forall u :: u in s.mutex[id].waiters ==> u in s.task && BlockedOn(s, u, id)
    ensures TasksCalm(GiveBack(s, t, id))
  {
    var w := s.mutex[id].waiters;
    assert w != [] ==> w[0] in w;
  }

  lemma GiveElsewhere(s: Sys, t: Task, id: Id, other: Id)
    requires Accounted(s) && t in s.task && s.task[t].phase == Idle && id in s.mutex && s.mutex[id].holder == By(t)
    requires other in s.mutex && other != id && MutexCalm(s, other) && s.task[t].prio.held > 0
    requires forall u :: u in s.mutex[id].waiters ==> u in s.task && BlockedOn(s, u, id)
    ensures MutexCalm(GiveBack(s, t, id), other)
  {
    var w, s1, r := s.mutex[id].waiters, Release(s, t, id), GiveBack(s, t, id);
    hide Accounted, MutexCalm;
    ReleaseKeeps(s, t, id);
    if s.mutex[other].holder == By(t) {
      GiverKeeps(s, t, id, other);
    }
    OtherMutex(s, s1, t, id, other);
    if w != [] {
      assert w[0] in w && w[0] != t;
      OtherMutex(s1, r, w[0], id, other);
    }
  }

  /** Withdrawing a lent priority leaves the holder with at least what still waits. */
  lemma CalmWithdraw(s: Sys, t: Task, id: Id)
    requires Accounted(s) && Calm(s) && t in s.task && id in s.mutex && s.task[t].phase == GivingUp(id)
    ensures Known(s, id) && Calm(WithdrawFrom(s, t, id))
  {
    PhaseFacts(s, t);
    if s.mutex[id].holder.By? {
      var h := s.mutex[id].holder.task;
      HolderHolds(s, h, id);
      PrioInRange(s, h);
      var p := DisinheritAfterTimeout(s.task[h].prio, HighestWaiting(s, id));
      var s1 := Retune(s, h, p);
      forall other | other in s.mutex && s.mutex[other].holder == By(h) ensures Tops(s1, h, s1.mutex[other].waiters) {
        WithdrawnTops(s, h, id, other);
      }
      assert s.task[h].prio.eventValue == EventValue(Current(s, h));
      hide Accounted, Calm;
      RetuneKeeps(s, h, p);
      CalmRetune(s, h, p);
      CalmPhase(s1, t, s1.task[t].(phase := Idle));
    } else {
      CalmPhase(s, t, s.task[t].(phase := Idle));
    }
  }

  lemma WithdrawnTops(s: Sys, h: Task, id: Id, other: Id)
    requires Accounted(s) && Calm(s) && h in s.task && id in s.mutex && s.mutex[id].holder == By(h) && Known(s, id)
    requires other in s.mutex && s.mutex[other].holder == By(h)
    ensures Tops(Retune(s, h, DisinheritAfterTimeout(s.task[h].prio, HighestWaiting(s, id))), h, s.mutex[other].waiters)
  {
    assert MutexCalm(s, id) && MutexCalm(s, other);
    HolderHolds(s, h, id);
    if s.task[h].prio.held == 1 {
      OnlyOneHeld(s, h, id, other);
      var w := s.mutex[id].waiters;
      hide Accounted;
      if w != [] {
        assert w[0] in w;
        HeadTops(s, w);
        assert HighestWaiting(s, id) == Current(s, w[0]);
      }
    }
  }

  /** Every disciplined step bounds inversion. */
  lemma StepCalms(s: Sys, st: Step)
    requires Accounted(s) && Calm(s) && Enabled(s, st) && Disciplined(s, st)
    ensures Calm(Apply(s, st))
  {
    hide Accounted, Calm, Take, BlockOn, WithdrawFrom, GiveBack;
    var a := s.task[st.t];
    PhaseFacts(s, st.t);
    match st
    case Begin(t, id, wait) =>
      if s.mutex[id].count > 0 {
        CalmTake(s, t, id);
      } else {
        CalmPhase(s, t, a.(phase := Pausing(id, false)));
      }
    case Retry(t) =>
      if s.mutex[a.phase.id].count > 0 {
        CalmTake(s, t, a.phase.id);
      } else {
        TakenIsHeld(s, a.phase.id);
        CalmPhase(s, t, a.(phase := if a.phase.expired then Idle else Pausing(a.phase.id, a.phase.lent)));
      }
    case Block(t) =>
      if s.mutex[a.phase.id].count == 0 {
        CalmBlock(s, t, a.phase.id);
      } else {
        CalmPhase(s, t, a.(phase := Trying(a.phase.id, a.phase.lent, false)));
      }
    case Expire(t, aborted) => CalmPhase(s, t, a.(phase := Expired(a.phase, s.mutex[a.phase.id].count > 0, aborted)));
    case Withdraw(t) => CalmWithdraw(s, t, a.phase.id);
    case Give(t, id) => CalmGive(s, t, id);
    case Timeout(t) => CalmUnlist(s, Unwait(s, t), t);
    case Leave(t) => CalmLeave(s, t);
    case Return(t) => CalmReturn(s, t);
    case SetPriority(t, p) =>
  }

  lemma TakenIsHeld(s: Sys, id: Id)
    requires Accounted(s) && id in s.mutex && s.mutex[id].count == 0
    ensures s.mutex[id].holder.By?
  {
  }

  lemma CalmLeave(s: Sys, t: Task)
    requires Accounted(s) && Calm(s) && t in s.task && !s.task[t].away
    requires s.task[t].phase.Trying? && s.task[t].phase.id in s.mutex ==> s.mutex[s.task[t].phase.id].holder.By?
    ensures Calm(Apply(s, Leave(t)))
  {
    hide Accounted, Calm;
    PhaseFacts(s, t);
    if s.task[t].phase.Blocked? {
      CalmUnlist(s, Apply(s, Leave(t)), t);
    } else {
      CalmPhase(s, t, s.task[t].(away := true));
    }
  }

  lemma CalmReturn(s: Sys, t: Task)
    requires Accounted(s) && Calm(s) && t in s.task && s.task[t].away
    ensures Calm(Apply(s, Return(t)))
  {
    assert !s.task[t].phase.Blocked?;
    hide Accounted, Calm;
    CalmPhase(s, t, s.task[t].(away := false));
  }

  // ----- runs -----

  ghost predicate Runnable(s: Sys, sts: seq<Step>)
    requires Accounted(s)
    decreases |sts|
  {
    sts == [] || (Enabled(s, sts[0]) && (StepAccounts(s, sts[0]); Runnable(Apply(s, sts[0]), sts[1..])))
  }

  ghost function Run(s: Sys, sts: seq<Step>): Sys
    requires Accounted(s) && Runnable(s, sts)
    decreases |sts|
  {
    if sts == [] then s
    else
      StepAccounts(s, sts[0]);
      Run(Apply(s, sts[0]), sts[1..])
  }

  ghost predicate AllDisciplined(s: Sys, sts: seq<Step>)
    requires Accounted(s) && Runnable(s, sts)
    decreases |sts|
  {
    sts == [] || (Disciplined(s, sts[0]) && (StepAccounts(s, sts[0]); AllDisciplined(Apply(s, sts[0]), sts[1..])))
  }

  /** Whatever the tasks do, held counts, holders, counts and base priorities agree. */
  lemma {:induction false} RunAccounts(s: Sys, sts: seq<Step>)
    requires Accounted(s) && Runnable(s, sts)
    ensures var r := Run(s, sts);
            && (forall t :: t in r.task ==> r.task[t].prio.held == |HeldBy(r, t)|)
            && (forall id :: id in r.mutex ==> (r.mutex[id].count == 0 <==> r.mutex[id].holder.By?))
            && (forall t :: t in r.task && r.task[t].prio.held == 0 ==> r.task[t].prio.current == r.task[t].prio.base)
    ensures Accounted(Run(s, sts))
    decreases |sts|
  {
    if sts != [] {
      StepAccounts(s, sts[0]);
      hide Accounted, Apply;
      RunAccounts(Apply(s, sts[0]), sts[1..]);
    }
  }

  lemma {:induction false} RunCalms(s: Sys, sts: seq<Step>)
    requires Accounted(s) && Calm(s) && Runnable(s, sts) && AllDisciplined(s, sts)
    ensures Accounted(Run(s, sts)) && Calm(Run(s, sts))
    decreases |sts|
  {
    hide Accounted, Calm, Apply, Disciplined;
    if sts != [] {
      StepAccounts(s, sts[0]);
      StepCalms(s, sts[0]);
      RunCalms(Apply(s, sts[0]), sts[1..]);
    }
  }

  /** Tasks at their base priorities, and mutexes nobody has taken yet. */
  ghost predicate Start(s: Sys) {
    && (forall t :: t in s.task ==>
                      && s.task[t].phase == Idle && InRange(s.task[t].prio) && s.task[t].prio.held == 0
                      && s.task[t].prio.current == s.task[t].prio.base
                      && s.task[t].prio.eventValue == EventValue(s.task[t].prio.base))
    && (forall id :: id in s.mutex ==> s.mutex[id] == Mutex(Nobody, 1, []))
  }

  lemma StartOk(s: Sys)
    requires Start(s)
    ensures Accounted(s) && Calm(s)
  {
    assert forall t :: HeldBy(s, t) == {};
  }

  /**
   Bounded inversion: in every state a disciplined run reaches, time-outs and hand-overs
   included, a holder's priority is at least that of every task waiting for its mutex.
   */
  lemma InversionIsBounded(s: Sys, sts: seq<Step>, id: Id, h: Task, w: Task)
    requires Start(s) && Accounted(s) && Runnable(s, sts) && AllDisciplined(s, sts)
    requires var r := Run(s, sts); id in r.mutex && r.mutex[id].holder == By(h) && w in r.mutex[id].waiters
    ensures var r := Run(s, sts); h in r.task && w in r.task && Current(r, h) >= Current(r, w)
  {
    StartOk(s);
    RunCalms(s, sts);
    assert MutexCalm(Run(s, sts), id);
  }

  /**
   Taking a free mutex bounds inversion exactly if the taker is not outranked by the first waiting
   task, whether or not anybody is on the way to take it.
   */
  lemma TakeBoundsExactly(s: Sys, t: Task, id: Id)
    requires TasksCalm(s) && t in s.task && (s.task[t].phase == Idle || s.task[t].phase.Trying?)
    requires id in s.mutex && s.mutex[id].count > 0 && s.mutex[id].waiters != []
    requires Known(s, id) && Rising(Keys(s, s.mutex[id].waiters))
    ensures s.mutex[id].waiters[0] in s.task
    ensures Tops(Take(s, t, id), t, s.mutex[id].waiters) <==> Current(s, t) >= Current(s, s.mutex[id].waiters[0])
  {
    var w := s.mutex[id].waiters;
    assert w[0] in w;
    HeadTops(s, w);
  }

  // ----- assertions of the source -----

  /** `pxTCB != pxCurrentTCB` in the adjustment after a time-out: it fails when `t` withdraws now. */
  predicate WithdrawsFromItself(s: Sys, t: Task)
    requires t in s.task && s.task[t].phase.GivingUp?
    requires s.task[t].phase.id in s.mutex && Known(s, s.task[t].phase.id)
  {
    var id := s.task[t].phase.id;
    && s.mutex[id].holder == By(t) && s.task[t].prio.held == 1
    && Current(s, t) != Max(s.task[t].prio.base, HighestWaiting(s, id))
  }

  /**
   The assertion fails exactly for a task that gave up on the only mutex it holds itself, while
   its priority is not the one its base and those still waiting account for.
   */
  lemma WithdrawAssertionExactly(s: Sys, t: Task)
    requires Accounted(s) && Enabled(s, Withdraw(t))
    ensures s.task[t].phase.id in s.mutex && Known(s, s.task[t].phase.id)
    ensures WithdrawsFromItself(s, t) <==>
            (HeldBy(s, t) == {s.task[t].phase.id}
             && Current(s, t) != Max(s.task[t].prio.base, HighestWaiting(s, s.task[t].phase.id)))
  {
    PhaseFacts(s, t);
    var id := s.task[t].phase.id;
    if s.mutex[id].holder == By(t) && s.task[t].prio.held == 1 {
      forall other | other in HeldBy(s, t) ensures other == id {
        OnlyOneHeld(s, t, id, other);
      }
      assert id in HeldBy(s, t);
    }
    if HeldBy(s, t) == {id} {
      assert id in HeldBy(s, t);
    }
  }

  /** It never fails in a disciplined run: a task that gives up holds no mutex. */
  lemma NeverWithdrawsFromItself(s: Sys, sts: seq<Step>, t: Task)
    requires Start(s) && Accounted(s) && Runnable(s, sts) && AllDisciplined(s, sts)
    requires Enabled(Run(s, sts), Withdraw(t))
    ensures var r := Run(s, sts);
            r.task[t].phase.id in r.mutex && Known(r, r.task[t].phase.id) && !WithdrawsFromItself(r, t)
  {
    StartOk(s);
    RunCalms(s, sts);
    var r := Run(s, sts);
    hide Run, Runnable, AllDisciplined, Start;
    PhaseFacts(r, t);
    if r.mutex[r.task[t].phase.id].holder == By(t) {
      HolderHolds(r, t, r.task[t].phase.id);
    }
  }

  /**
   Whether a give asks for a context switch: for the task it wakes if that outranks the giver, or,
   only if nobody waits, because the giver's priority has dropped.
   */
  predicate GiveAsks(s: Sys, t: Task, id: Id)
    requires t in s.task && s.task[t].prio.held > 0 && id in s.mutex && forall u :: u in s.mutex[id].waiters ==>
        u in s.task
  {
    var p, w := Disinherit(s.task[t].prio).current, s.mutex[id].waiters;
    if w != [] then Current(s, w[0]) > p else p != Current(s, t)
  }

  /** `xInheritanceOccurred == pdFALSE` where a take finds nothing and has no time left. */
  predicate NothingLent(s: Sys, t: Task)
    requires t in s.task && s.task[t].phase.Trying? && s.task[t].phase.id in s.mutex
  {
    s.mutex[s.task[t].phase.id].count == 0 && s.task[t].phase.expired ==> !s.task[t].phase.lent
  }

  lemma OthersLeavePhase(s: Sys, st: Step, t: Task)
    requires Accounted(s) && Enabled(s, st) && st.t != t && t in s.task && !s.task[t].phase.Blocked?
    ensures var r := Apply(s, st); t in r.task && r.task[t].phase == s.task[t].phase && r.mutex.Keys == s.mutex.Keys
  {
    hide CountsOk, HeldOk, AtBase, RangesOk, NoDup;
    PhaseFacts(s, st.t);
    if st.Give? {
      GiveKeeps(s, st.t, st.id);
      assert s.mutex[st.id].waiters != [] ==> s.mutex[st.id].waiters[0] in s.mutex[st.id].waiters;
    }
  }

  lemma {:induction false} OthersRun(s: Sys, sts: seq<Step>, t: Task)
    requires Accounted(s) && Runnable(s, sts) && t in s.task && !s.task[t].phase.Blocked?
    requires forall i :: 0 <= i < |sts| ==> sts[i].t != t
    ensures var r := Run(s, sts); t in r.task && r.task[t].phase == s.task[t].phase && r.mutex.Keys == s.mutex.Keys
    decreases |sts|
  {
    hide Accounted, Apply, Enabled;
    if sts != [] {
      StepAccounts(s, sts[0]);
      OthersLeavePhase(s, sts[0], t);
      assert forall i :: 0 <= i < |sts| - 1 ==> sts[1..][i] == sts[i + 1];
      OthersRun(Apply(s, sts[0]), sts[1..], t);
    }
  }

  /**
   A task times out, sees its mutex free and tries once more after any steps of others.  The
   assertion holds then exactly if the task had lent nothing or nobody has taken the mutex since.
   */
  lemma LastTryAssertionExactly(s: Sys, t: Task, sts: seq<Step>)
    requires Accounted(s) && Enabled(s, Expire(t, false)) && s.task[t].phase.id in s.mutex
    requires s.mutex[s.task[t].phase.id].count > 0
    requires var s1 := Apply(s, Expire(t, false));
             Accounted(s1) && Runnable(s1, sts) && forall i :: 0 <= i < |sts| ==> sts[i].t != t
    ensures var ph, r := s.task[t].phase, Run(Apply(s, Expire(t, false)), sts);
            && t in r.task && r.task[t].phase == Trying(ph.id, ph.lent, true) && ph.id in r.mutex
            && (NothingLent(r, t) <==> !ph.lent || r.mutex[ph.id].count > 0)
  {
    hide Accounted, Run, Runnable;
    OthersRun(Apply(s, Expire(t, false)), sts, t);
  }
}
