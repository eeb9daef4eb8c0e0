/**
 The task lists of `tasks.c` as a value: two delayed lists over modular time, the ready
 rotations, the suspended and pending-ready lists, and the cached next unblock time.
 Every task records, as its list items do, which list its state item and its event item are on.
 */
module Scheduler {
  import opened Rings
  import opened Ticks
  import opened Priorities

  type Task = nat

  datatype Place = Nowhere | Ready(priority: nat) | Delayed | Suspended

  datatype EventPlace = NoEvent | Waiting | PendingReady

  datatype Tcb = Tcb(prio: Prio, state: Place, event: EventPlace, delayAborted: bool)

  datatype Sched = Sched(
    tick: nat,
    overflows: nat,
    delayed: seq<Item>,
    overflow: seq<Item>,
    suspended: seq<Task>,
    ready: seq<Ring<Task>>,
    pending: seq<Task>,
    nextUnblock: nat,
    pendedTicks: nat,
    depth: nat,
    topReady: nat,
    yieldPending: bool,
    current: Task,
    tcb: map<Task, Tcb>)

  function Owners(s: seq<Item>): (r: seq<Task>)
    ensures |r| == |s| && forall i :: 0 <= i < |s| ==> r[i] == s[i].owner
  {
    seq(|s|, i requires 0 <= i < |s| => s[i].owner)
  }

  function Sleepers(s: Sched): seq<Task> { Owners(s.delayed) + Owners(s.overflow) }

  // ----- the invariant -----

  ghost predicate TasksOk(s: Sched) {
    && s.current in s.tcb
    && forall t :: t in s.tcb ==> s.tcb[t].prio.current < MAX_PRIORITIES && s.tcb[t].prio.base < MAX_PRIORITIES
  }

  /** A task is in ready list `p` exactly if its state item says so, and then its priority is `p`. */
  ghost predicate ReadyOk(s: Sched) {
    && |s.ready| == MAX_PRIORITIES && s.topReady < MAX_PRIORITIES
    && (forall p :: 0 <= p < MAX_PRIORITIES ==> s.ready[p].Valid())
    && (forall p, t :: 0 <= p < MAX_PRIORITIES && t in s.ready[p].items ==> t in s.tcb && s.tcb[t].state == Ready(p))
    && (forall t :: t in s.tcb && s.tcb[t].state.Ready? ==> InReadyList(s, t))
    && (forall p :: s.topReady < p < MAX_PRIORITIES ==> s.ready[p].items == [])
  }

  ghost predicate InReadyList(s: Sched, t: Task)
    requires t in s.tcb && s.tcb[t].state.Ready? && |s.ready| == MAX_PRIORITIES
  {
    var p := s.tcb[t].prio.current;
    s.tcb[t].state.priority == p && p < MAX_PRIORITIES && t in s.ready[p].items
  }

  ghost predicate DelaysOk(s: Sched) {
    && s.tick < M
    && Sorted(s.delayed) && Sorted(s.overflow)
    && NoDup(Sleepers(s))
    && (forall t :: t in Sleepers(s) ==> t in s.tcb && s.tcb[t].state == Delayed)
    && (forall t :: t in s.tcb && s.tcb[t].state == Delayed ==> t in Sleepers(s))
    && Below(s.delayed, M) && Below(s.overflow, M)
  }

  ghost predicate Below(s: seq<Item>, v: nat) { forall i :: 0 <= i < |s| ==> s[i].value < v }

  ghost predicate Above(s: seq<Item>, v: nat) { forall i :: 0 <= i < |s| ==> s[i].value > v }

  ghost predicate SuspendedOk(s: Sched) {
    && NoDup(s.suspended)
    && (forall t :: t in s.suspended <==> t in s.tcb && s.tcb[t].state == Suspended)
  }

  ghost predicate PendingOk(s: Sched) {
    && NoDup(s.pending)
    && (forall t :: t in s.pending <==> t in s.tcb && s.tcb[t].event == PendingReady)
    && (s.depth == 0 ==> s.pending == [])
  }

  /** The cached unblock time may be stale-low, never stale-high. */
  ghost predicate NextOk(s: Sched) {
    s.nextUnblock < M && (s.delayed != [] ==> s.nextUnblock <= s.delayed[0].value)
  }

  ghost predicate ListsOk(s: Sched) {
    TasksOk(s) && ReadyOk(s) && DelaysOk(s) && SuspendedOk(s)
  }

  // ----- moving one task -----

  function WithoutOwner(s: seq<Item>, t: Task): seq<Item> {
    if s == [] then []
    else if s[0].owner == t then WithoutOwner(s[1..], t)
    else [s[0]] + WithoutOwner(s[1..], t)
  }

  function HeadOrMax(s: seq<Item>): nat { if s == [] then MAX_DELAY else s[0].value }

  /** Take the state item of `t` off the list it is on. */
  function Unlist(s: Sched, t: Task): Sched
    requires ListsOk(s) && t in s.tcb
  {
    var s1 := s.(tcb := s.tcb[t := s.tcb[t].(state := Nowhere)]);
    match s.tcb[t].state
    case Nowhere => s
    case Ready(p) => s1.(ready := s.ready[p := s.ready[p].Remove(t)])
    case Delayed => s1.(delayed := WithoutOwner(s.delayed, t), overflow := WithoutOwner(s.overflow, t))
    case Suspended => s1.(suspended := Without(s.suspended, t))
  }

  /** `prvAddTaskToReadyList`. */
  function AddReady(s: Sched, t: Task): Sched
    requires ListsOk(s) && t in s.tcb
  {
    var p := s.tcb[t].prio.current;
    s.(topReady := Max(s.topReady, p),
       ready := s.ready[p := s.ready[p].InsertEnd(t)],
       tcb := s.tcb[t := s.tcb[t].(state := Ready(p))])
  }

  lemma {:induction false} WithoutOwnerFacts(s: seq<Item>, t: Task)
    ensures Owners(WithoutOwner(s, t)) == Without(Owners(s), t)
    ensures forall e :: e in WithoutOwner(s, t) <==> e in s && e.owner != t
  {
    if s != [] {
      assert Owners(s)[1..] == Owners(s[1..]);
      assert Owners(s)[0] == s[0].owner;
      WithoutOwnerFacts(s[1..], t);
      assert s == [s[0]] + s[1..];
      if s[0].owner != t {
        assert Owners([s[0]] + WithoutOwner(s[1..], t)) == [s[0].owner] + Owners(WithoutOwner(s[1..], t));
      }
    }
  }

  lemma {:induction false} WithoutOwnerSorted(s: seq<Item>, t: Task)
    requires Sorted(s)
    ensures Sorted(WithoutOwner(s, t))
    ensures s != [] && WithoutOwner(s, t) != [] ==> s[0].value <= WithoutOwner(s, t)[0].value
  {
    if s != [] {
      assert Sorted(s[1..]);
      WithoutOwnerSorted(s[1..], t);
      WithoutOwnerFacts(s[1..], t);
      if s[0].owner != t {
        var r := WithoutOwner(s[1..], t);
        forall i | 0 <= i < |r| ensures s[0].value <= r[i].value {
          assert r[i] in s[1..];
        }
      } else if WithoutOwner(s[1..], t) != [] {
        assert s[0].value <= s[1].value;
      }
    }
  }

  lemma SameAbsent(s: seq<Item>, t: Task)
    requires t !in Owners(s)
    ensures WithoutOwner(s, t) == s
  {
    if s != [] {
      assert Owners(s)[0] == s[0].owner;
      assert Owners(s)[1..] == Owners(s[1..]);
      SameAbsent(s[1..], t);
    }
  }

  // ----- framing: a list is not affected by a task that is on another one -----

  lemma ReadyFrame(s: Sched, r: Sched, t: Task, x: Tcb)
    requires ReadyOk(s) && t in s.tcb && r.tcb == s.tcb[t := x]
    requires r.ready == s.ready && r.topReady == s.topReady
    requires !s.tcb[t].state.Ready? && !x.state.Ready?
    ensures ReadyOk(r)
  {
    forall u | u in r.tcb && r.tcb[u].state.Ready? ensures InReadyList(r, u) {
      assert InReadyList(s, u);
    }
  }

  lemma DelaysFrame(s: Sched, r: Sched, t: Task, x: Tcb)
    requires DelaysOk(s) && t in s.tcb && r.tcb == s.tcb[t := x]
    requires r.delayed == s.delayed && r.overflow == s.overflow && r.tick == s.tick
    requires s.tcb[t].state == Delayed <==> x.state == Delayed
    ensures DelaysOk(r)
  {
    assert Sleepers(r) == Sleepers(s);
  }

  lemma SuspendedFrame(s: Sched, r: Sched, t: Task, x: Tcb)
    requires SuspendedOk(s) && t in s.tcb && r.tcb == s.tcb[t := x] && r.suspended == s.suspended
    requires s.tcb[t].state == Suspended <==> x.state == Suspended
    ensures SuspendedOk(r)
  {
  }

  lemma UnlistReady(s: Sched, t: Task)
    requires ListsOk(s) && t in s.tcb && s.tcb[t].state.Ready?
    ensures ReadyOk(Unlist(s, t))
  {
    hide NoDup, DelaysOk, SuspendedOk;
    var r := Unlist(s, t);
    var p := s.tcb[t].state.priority;
    assert InReadyList(s, t);
    RemoveItem(s.ready[p], t);
    forall u | u in r.tcb && r.tcb[u].state.Ready? ensures InReadyList(r, u) {
      assert InReadyList(s, u);
    }
  }

  lemma UnlistDelayed(s: Sched, t: Task)
    requires ListsOk(s) && t in s.tcb && s.tcb[t].state == Delayed
    ensures var r := Unlist(s, t);
            DelaysOk(r) && Sleepers(r) == Without(Sleepers(s), t)
  {
    hide NoDup, Sorted, Below, Owners, Without, WithoutOwner, ReadyOk, SuspendedOk, TasksOk;
    UnlistSleepers(s.delayed, s.overflow, t);
    WithoutOwnerSorted(s.delayed, t);
    WithoutOwnerSorted(s.overflow, t);
    WithoutOwnerBounds(s.delayed, t, 0, M);
    WithoutOwnerBounds(s.overflow, t, 0, M);
  }

  lemma UnlistSleepers(d: seq<Item>, o: seq<Item>, t: Task)
    requires NoDup(Owners(d) + Owners(o))
    ensures var all := Owners(WithoutOwner(d, t)) + Owners(WithoutOwner(o, t));
            && all == Without(Owners(d) + Owners(o), t) && NoDup(all)
            && forall u :: u in all <==> u in Owners(d) + Owners(o) && u != t
  {
    hide NoDup;
    WithoutOwnerFacts(d, t);
    WithoutOwnerFacts(o, t);
    WithoutConcat(Owners(d), Owners(o), t);
    NoDupWithout(Owners(d) + Owners(o), t);
  }

  lemma WithoutOwnerBounds(s: seq<Item>, t: Task, lo: nat, hi: nat)
    ensures Below(s, hi) ==> Below(WithoutOwner(s, t), hi)
    ensures Above(s, lo) ==> Above(WithoutOwner(s, t), lo)
  {
    WithoutOwnerFacts(s, t);
    var r := WithoutOwner(s, t);
    forall i | 0 <= i < |r| ensures r[i] in s {
    }
  }

  lemma UnlistSuspended(s: Sched, t: Task)
    requires ListsOk(s) && t in s.tcb && s.tcb[t].state == Suspended
    ensures SuspendedOk(Unlist(s, t))
  {
    NoDupWithout(s.suspended, t);
  }

  /** What unlisting changes, list by list. */
  lemma UnlistKeeps(s: Sched, t: Task)
    requires ListsOk(s) && t in s.tcb
    ensures var r := Unlist(s, t);
            ListsOk(r) && r.tcb == s.tcb[t := s.tcb[t].(state := Nowhere)]
    ensures NextOk(s) ==> NextOk(Unlist(s, t))
    ensures Above(s.delayed, s.tick) ==> Above(Unlist(s, t).delayed, s.tick)
  {
    var r, x := Unlist(s, t), s.tcb[t].(state := Nowhere);
    if s.tcb[t].state.Ready? {
      UnlistReady(s, t);
    } else {
      ReadyFrame(s, r, t, x);
    }
    if s.tcb[t].state.Delayed? {
      UnlistDelayed(s, t);
      WithoutOwnerSorted(s.delayed, t);
      WithoutOwnerBounds(s.delayed, t, s.tick, 0);
    } else {
      DelaysFrame(s, r, t, x);
    }
    if s.tcb[t].state.Suspended? {
      UnlistSuspended(s, t);
    } else {
      SuspendedFrame(s, r, t, x);
    }
  }

  /** Adding an unlisted task to its ready list keeps the lists consistent. */
  lemma AddReadyKeeps(s: Sched, t: Task)
    requires ListsOk(s) && t in s.tcb && s.tcb[t].state == Nowhere
    ensures var r := AddReady(s, t);
            ListsOk(r) && r.tcb == s.tcb[t := s.tcb[t].(state := Ready(s.tcb[t].prio.current))]
  {
    var p := s.tcb[t].prio.current;
    var r, x := AddReady(s, t), s.tcb[t].(state := Ready(p));
    assert t !in s.ready[p].items;
    InsertEndOrder(s.ready[p], t);
    AddReadyLists(s, r, t);
    DelaysFrame(s, r, t, x);
    SuspendedFrame(s, r, t, x);
  }

  /** A task joins the ready list of its priority behind all others but the one the cursor is on. */
  lemma AddReadyOrder(s: Sched, t: Task)
    requires ListsOk(s) && t in s.tcb && s.tcb[t].state == Nowhere
    ensures var r, p := AddReady(s, t), s.tcb[t].prio.current;
            && |r.ready| == MAX_PRIORITIES && p < MAX_PRIORITIES && JoinsBack(s.ready[p], r.ready[p], t)
            && forall q :: 0 <= q < MAX_PRIORITIES && q != p ==> r.ready[q] == s.ready[q]
  {
    var p := s.tcb[t].prio.current;
    assert t !in s.ready[p].items;
    InsertEndOrder(s.ready[p], t);
  }

  ghost predicate JoinsBack(a: Ring<Task>, b: Ring<Task>, t: Task) {
    && a.Valid() && b.Valid()
    && var o := a.Order();
       b.Order() == if a.cursor == 0 then o + [t] else o[..|o| - 1] + [t] + [o[|o| - 1]]
  }

  /** The others take their turns as before when a task leaves its ready list. */
  lemma UnlistOrder(s: Sched, t: Task)
    requires ListsOk(s) && t in s.tcb
    ensures var r := Unlist(s, t);
            && |r.ready| == MAX_PRIORITIES
            && forall q :: 0 <= q < MAX_PRIORITIES ==>
                 s.ready[q].Valid() && r.ready[q].Valid() && r.ready[q].Order() == Without(s.ready[q].Order(), t)
  {
    var r := Unlist(s, t);
    if s.tcb[t].state.Ready? {
      assert InReadyList(s, t);
    }
    forall q | 0 <= q < MAX_PRIORITIES
      ensures s.ready[q].Valid() && r.ready[q].Valid() && r.ready[q].Order() == Without(s.ready[q].Order(), t)
    {
      assert s.ready[q].Valid();
      assert t in s.ready[q].items ==> s.tcb[t].state == Ready(q);
      RemovedOrder(s.ready[q], t);
    }
  }

  lemma RemovedOrder(g: Ring<Task>, t: Task)
    requires g.Valid()
    ensures t in g.items ==> g.Remove(t).Valid() && g.Remove(t).Order() == Without(g.Order(), t)
    ensures t !in g.items ==> Without(g.Order(), t) == g.Order()
  {
    if t in g.items {
      RemoveOrder(g, IndexOf(g.items, t));
    } else {
      WithoutMembers(g.Order(), t);
    }
  }

  lemma AddReadyLists(s: Sched, r: Sched, t: Task)
    requires ReadyOk(s) && TasksOk(s) && t in s.tcb && s.tcb[t].state == Nowhere
    requires var p := s.tcb[t].prio.current;
             && r.tcb == s.tcb[t := s.tcb[t].(state := Ready(p))]
             && r.topReady == Max(s.topReady, p)
             && exists q: Ring<Task> :: r.ready == s.ready[p := q] && q.Valid()
                       && forall y :: y in q.items <==> y == t || y in s.ready[p].items
    ensures ReadyOk(r)
  {
    forall u | u in r.tcb && r.tcb[u].state.Ready? ensures InReadyList(r, u) {
      assert u != t ==> InReadyList(s, u);
    }
  }

  /** A task that has been moved to its ready list. */
  function Woken(x: Tcb): Tcb { x.(state := Ready(x.prio.current), event := NoEvent) }

  /** Move `t` from whatever list it is on to its ready list; it waits for no event any more. */
  function Wake(s: Sched, t: Task): Sched
    requires ListsOk(s) && t in s.tcb
  {
    UnlistKeeps(s, t);
    var s1 := Unlist(s, t);
    UneventKeeps(s1, t);
    AddReady(Unevent(s1, t), t)
  }

  /** Take the event item of `t` off the list it is on. */
  function Unevent(s: Sched, t: Task): Sched
    requires t in s.tcb
  {
    s.(pending := if s.tcb[t].event == PendingReady then Without(s.pending, t) else s.pending,
       tcb := s.tcb[t := s.tcb[t].(event := NoEvent)])
  }

  lemma UneventKeeps(s: Sched, t: Task)
    requires t in s.tcb
    ensures ListsOk(s) ==> ListsOk(Unevent(s, t))
    ensures PendingOk(s) ==> PendingOk(Unevent(s, t))
  {
    var r, x := Unevent(s, t), s.tcb[t].(event := NoEvent);
    if ListsOk(s) {
      RetagKeeps(s, r, t, x);
    }
    if PendingOk(s) {
      NoDupWithout(s.pending, t);
    }
  }

  /** Only fields that no list depends on change. */
  lemma RetagKeeps(s: Sched, r: Sched, t: Task, x: Tcb)
    requires ListsOk(s) && t in s.tcb && r.tcb == s.tcb[t := x]
    requires x.state == s.tcb[t].state && x.prio == s.tcb[t].prio
    requires r.ready == s.ready && r.topReady == s.topReady && r.delayed == s.delayed && r.overflow == s.overflow
    requires r.tick == s.tick && r.suspended == s.suspended && r.current == s.current
    ensures ListsOk(r)
  {
    forall u | u in r.tcb && r.tcb[u].state.Ready? ensures InReadyList(r, u) {
      assert InReadyList(s, u);
    }
    DelaysFrame(s, r, t, x);
    SuspendedFrame(s, r, t, x);
  }

  /** Nothing but the lists of sleeping and ready tasks differs. */
  ghost predicate SameClock(s: Sched, r: Sched) {
    && r.tick == s.tick && r.overflows == s.overflows && r.depth == s.depth && r.pendedTicks == s.pendedTicks
    && r.current == s.current && r.yieldPending == s.yieldPending
  }

  lemma WakeKeeps(s: Sched, t: Task)
    requires ListsOk(s) && t in s.tcb
    ensures ListsOk(Wake(s, t))
    ensures Wake(s, t).tcb == s.tcb[t := Woken(s.tcb[t])]
    ensures Wake(s, t).delayed == Unlist(s, t).delayed && SameClock(s, Wake(s, t))
    ensures NextOk(s) ==> NextOk(Wake(s, t))
    ensures Above(s.delayed, s.tick) ==> Above(Wake(s, t).delayed, s.tick)
  {
    hide ListsOk;
    UnlistKeeps(s, t);
    var s1 := Unlist(s, t);
    UneventKeeps(s1, t);
    AddReadyKeeps(Unevent(s1, t), t);
  }

  lemma WakePending(s: Sched, t: Task)
    requires ListsOk(s) && t in s.tcb && PendingOk(s)
    ensures PendingOk(Wake(s, t))
  {
    UnlistKeeps(s, t);
    UneventKeeps(Unlist(s, t), t);
    NoDupWithout(s.pending, t);
  }
}
