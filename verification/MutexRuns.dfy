/**
 Runs of the mutex system that show what its conditions are for: each leads from a start state,
 step by step, to a state in which a bound or an assertion fails.
 */
module MutexRuns {
  import opened Rings
  import opened Priorities
  import opened Mutexes
  import opened MutexSteps

  // ----- putting steps together -----

  /** One step, after which the books still balance. */
  ghost predicate Leads(s: Sys, st: Step, r: Sys) { Accounted(s) && Enabled(s, st) && Apply(s, st) == r && Accounted(r) }

  /** A run, and whether every step of it is disciplined. */
  ghost predicate Reaches(s: Sys, sts: seq<Step>, r: Sys, disciplined: bool) {
    && Accounted(s) && Runnable(s, sts) && Run(s, sts) == r && Accounted(r)
    && (disciplined ==> AllDisciplined(s, sts))
  }

  lemma Stays(s: Sys, disciplined: bool)
    requires Accounted(s)
    ensures Reaches(s, [], s, disciplined)
  {
  }

  lemma Extends(s: Sys, st: Step, m: Sys, sts: seq<Step>, r: Sys, disciplined: bool)
    requires Leads(s, st, m) && Reaches(m, sts, r, disciplined)
    requires Accounted(s) && Enabled(s, st) && (disciplined ==> Disciplined(s, st))
    ensures Reaches(s, [st] + sts, r, disciplined)
  {
    hide Accounted, Apply, Enabled, Disciplined;
    assert ([st] + sts)[1..] == sts;
  }

  // ----- single steps -----

  lemma Takes(s: Sys, t: Task, id: Id)
    requires Accounted(s) && Enabled(s, Begin(t, id, true)) && s.mutex[id].count > 0
    ensures Leads(s, Begin(t, id, true), Take(s, t, id))
  {
    hide Accounted;
    StepAccounts(s, Begin(t, id, true));
  }

  lemma Pauses(s: Sys, t: Task, id: Id)
    requires Accounted(s) && Enabled(s, Begin(t, id, true)) && s.mutex[id].count == 0
    ensures Leads(s, Begin(t, id, true), SetPhase(s, t, Pausing(id, false)))
  {
    hide Accounted;
    StepAccounts(s, Begin(t, id, true));
  }

  /** Trying again and finding the mutex still taken, with time left. */
  lemma PausesAgain(s: Sys, t: Task)
    requires Accounted(s) && Enabled(s, Retry(t)) && !s.task[t].phase.expired
    requires s.task[t].phase.id in s.mutex && s.mutex[s.task[t].phase.id].count == 0
    ensures Leads(s, Retry(t), SetPhase(s, t, Pausing(s.task[t].phase.id, s.task[t].phase.lent)))
  {
    hide Accounted;
    StepAccounts(s, Retry(t));
  }

  lemma Expires(s: Sys, t: Task)
    requires Accounted(s) && Enabled(s, Expire(t, false)) && s.task[t].phase.id in s.mutex
    ensures Leads(s, Expire(t, false), SetPhase(s, t, Expired(s.task[t].phase, s.mutex[s.task[t].phase.id].count > 0, false)))
  {
    hide Accounted;
    StepAccounts(s, Expire(t, false));
  }

  lemma Returns(s: Sys, t: Task)
    requires Accounted(s) && Enabled(s, Return(t))
    ensures Leads(s, Return(t), SetTask(s, t, s.task[t].(away := false)))
  {
    hide Accounted;
    StepAccounts(s, Return(t));
  }

  lemma Leaves(s: Sys, t: Task)
    requires Accounted(s) && Enabled(s, Leave(t)) && !s.task[t].phase.Blocked?
    ensures Leads(s, Leave(t), SetTask(s, t, s.task[t].(away := true)))
  {
    hide Accounted;
    StepAccounts(s, Leave(t));
  }

  /** Taking the first waiting task, or the only one, off the list. */
  lemma TimesOut(s: Sys, t: Task, rest: seq<Task>)
    requires Accounted(s) && Enabled(s, Timeout(t)) && s.task[t].phase.id in s.mutex && t !in rest
    requires s.mutex[s.task[t].phase.id].waiters == [t] + rest
    ensures var ph := s.task[t].phase;
            Leads(s, Timeout(t), SetPhase(SetList(s, ph.id, rest), t, Trying(ph.id, ph.lent, false)))
  {
    hide Accounted, Without;
    WithoutFirst(t, rest);
    StepAccounts(s, Timeout(t));
  }

  lemma GivesBack(s: Sys, t: Task, id: Id)
    requires Accounted(s) && Enabled(s, Give(t, id)) && s.task[t].prio.held > 0 && s.mutex[id].waiters == []
    ensures Leads(s, Give(t, id), Release(s, t, id))
  {
    StepAccounts(s, Give(t, id));
    hide Accounted;
  }

  lemma WakesFirst(s: Sys, t: Task, id: Id, head: Task, rest: seq<Task>)
    requires Accounted(s) && Enabled(s, Give(t, id)) && s.task[t].prio.held > 0
    requires s.mutex[id].waiters == [head] + rest && head !in rest && head != t && head in s.task
        && BlockedOn(s, head, id)
    ensures Leads(s, Give(t, id), SetPhase(SetList(Release(s, t, id), id, rest), head, Trying(id, s.task[head].phase.lent, false)))
  {
    GiveKeeps(s, t, id);
    StepAccounts(s, Give(t, id));
    hide Accounted, Without;
    WithoutFirst(head, rest);
  }

  /** Blocking behind everybody else, or before everybody else. */
  lemma BlocksAt(s: Sys, t: Task, h: Task, first: bool)
    requires Accounted(s) && Enabled(s, Block(t)) && s.task[t].phase.id in s.mutex
        && s.mutex[s.task[t].phase.id].holder == By(h)
    requires h in s.task && (t == h || h !in s.mutex[s.task[t].phase.id].waiters)
    requires t == h ==> Inherit(s.task[h].prio, Current(s, t)) == s.task[h].prio
    requires var w := s.mutex[s.task[t].phase.id].waiters;
             && (forall u :: u in w ==> u in s.task)
             && (first ==> w != [] && w[0] in w && s.task[w[0]].prio.eventValue > s.task[t].prio.eventValue)
             && (!first ==> forall u :: u in w ==> s.task[u].prio.eventValue <= s.task[t].prio.eventValue)
    ensures var id, lent := s.task[t].phase.id, Inherited(s.task[h].prio, Current(s, t));
            var s1 := Retune(s, h, Inherit(s.task[h].prio, Current(s, t)));
            var w := s.mutex[id].waiters;
            Leads(s, Block(t), SetPhase(SetList(s1, id, if first then [t] + w else w + [t]), t, Blocked(id, lent)))
  {
    HeldIsTaken(s, s.task[t].phase.id);
    StepAccounts(s, Block(t));
    PhaseFacts(s, t);
    hide Accounted, Spot;
    var s1 := Retune(s, h, Inherit(s.task[h].prio, Current(s, t)));
    var w := s.mutex[s.task[t].phase.id].waiters;
    if first {
      JoinsFirst(s1, w, t);
    } else {
      JoinsLast(s1, w, t);
    }
  }

  lemma JoinsLast(s: Sys, w: seq<Task>, t: Task)
    requires t in s.task && forall u :: u in w ==> u in s.task
    requires forall u :: u in w ==> s.task[u].prio.eventValue <= s.task[t].prio.eventValue
    ensures var p := Spot(s, w, t); w[..p] + [t] + w[p..] == w + [t]
  {
    assert forall i :: 0 <= i < |w| ==> w[i] in w;
    ReachIs(Keys(s, w), s.task[t].prio.eventValue, |w|);
  }

  lemma JoinsFirst(s: Sys, w: seq<Task>, t: Task)
    requires t in s.task && forall u :: u in w ==> u in s.task
    requires w != [] && w[0] in w && s.task[w[0]].prio.eventValue > s.task[t].prio.eventValue
    ensures var p := Spot(s, w, t); w[..p] + [t] + w[p..] == [t] + w
  {
    ReachIs(Keys(s, w), s.task[t].prio.eventValue, 0);
  }

  lemma WithoutFirst(a: Task, rest: seq<Task>)
    requires a !in rest
    ensures Without([a] + rest, a) == rest
  {
    assert ([a] + rest)[1..] == rest;
    WithoutMembers(rest, a);
  }

  // ----- the runs -----

  /** A task at its base priority; all but task 0 are away at first. */
  function Resting(p: nat, away: bool): Actor { Actor(Prio(p, p, 0, EventValue(p)), Idle, away) }

  function Acting(p: nat, b: nat, held: nat, phase: Phase): Actor {
    Actor(Prio(p, b, held, EventValue(p)), phase, false)
  }

  /** What there is to see of a state with three tasks and one mutex. */
  ghost predicate Shows(s: Sys, a: Actor, b: Actor, c: Actor, m: Mutex) {
    && s.task.Keys == {0, 1, 2} && s.task[0] == a && s.task[1] == b && s.task[2] == c
    && s.mutex.Keys == {0} && s.mutex[0] == m
  }

  /** Tasks 0, 1 and 2 with priorities 0, `p` and `q`, and one mutex. */
  function Opening(p: nat, q: nat): Sys {
    Sys(map[0 := Resting(0, false), 1 := Resting(p, true), 2 := Resting(q, true)], map[0 := Mutex(Nobody, 1, [])])
  }

  lemma OpeningOk(p: nat, q: nat)
    requires p < MAX_PRIORITIES && q < MAX_PRIORITIES
    ensures Start(Opening(p, q)) && Accounted(Opening(p, q))
  {
    StartOk(Opening(p, q));
  }

  /** Task 0 has taken the mutex, and task 1 has come back and blocked on it, lending its priority. */
  function FirstBlocked(p: nat, q: nat): Sys {
    var s1 := SetTask(Take(Opening(p, q), 0, 0), 1, Resting(p, false));
    var s2 := SetPhase(s1, 1, Pausing(0, false));
    var s3 := Retune(s2, 0, Inherit(s2.task[0].prio, p));
    SetPhase(SetList(s3, 0, [] + [1]), 1, Blocked(0, true))
  }

  const OPENING_STEPS: seq<Step> := [Begin(0, 0, true)] + ([Return(1)] + ([Begin(1, 0, true)] + [Block(1)]))

  lemma FirstBlockedOk(p: nat, q: nat)
    requires 1 <= p < MAX_PRIORITIES && q < MAX_PRIORITIES
    ensures Accounted(FirstBlocked(p, q))
    ensures Shows(FirstBlocked(p, q), Acting(p, 0, 1, Idle), Acting(p, p, 0, Blocked(0, true)), Resting(q, true),
                  Mutex(By(0), 0, [1]))
    ensures Reaches(Opening(p, q), OPENING_STEPS, FirstBlocked(p, q), true)
  {
    hide Leads, Reaches, Accounted, Start;
    var s0 := Opening(p, q);
    OpeningOk(p, q);
    Takes(s0, 0, 0);
    var s1 := Take(s0, 0, 0);
    LeadsOn(s0, Begin(0, 0, true), s1);
    Returns(s1, 1);
    var s2 := SetTask(s1, 1, s1.task[1].(away := false));
    LeadsOn(s1, Return(1), s2);
    Pauses(s2, 1, 0);
    var s3 := SetPhase(s2, 1, Pausing(0, false));
    LeadsOn(s2, Begin(1, 0, true), s3);
    BlocksAt(s3, 1, 0, false);
    LeadsOn(s3, Block(1), FirstBlocked(p, q));
    Stays(FirstBlocked(p, q), true);
    Extends(s3, Block(1), FirstBlocked(p, q), [], FirstBlocked(p, q), true);
    assert [Block(1)] + [] == [Block(1)];
    Extends(s2, Begin(1, 0, true), s3, [Block(1)], FirstBlocked(p, q), true);
    Extends(s1, Return(1), s2, [Begin(1, 0, true)] + [Block(1)], FirstBlocked(p, q), true);
    Extends(s0, Begin(0, 0, true), s1, [Return(1)] + ([Begin(1, 0, true)] + [Block(1)]), FirstBlocked(p, q), true);
  }

  lemma LeadsOn(s: Sys, st: Step, r: Sys)
    requires Leads(s, st, r)
    ensures Accounted(s) && Enabled(s, st) && Accounted(r)
  {
  }

  lemma {:induction false} ReachesTwice(s: Sys, a: seq<Step>, m: Sys, b: seq<Step>, r: Sys, disciplined: bool)
    requires Reaches(s, a, m, disciplined) && Reaches(m, b, r, disciplined)
    ensures Reaches(s, a + b, r, disciplined)
    decreases |a|
  {
    if a == [] {
      assert a + b == b;
    } else {
      hide Accounted, Apply, Enabled, Disciplined;
      StepAccounts(s, a[0]);
      ReachesTwice(Apply(s, a[0]), a[1..], m, b, r, disciplined);
      assert (a + b)[1..] == a[1..] + b;
    }
  }

  lemma BlocksOnItself(s: Sys) returns (sts: seq<Step>, r: Sys)
    requires Accounted(s) && MAX_PRIORITIES >= 2
    requires Shows(s, Acting(1, 0, 1, Idle), Acting(1, 1, 0, Blocked(0, true)), Resting(0, true), Mutex(By(0), 0, [1]))
    ensures Accounted(r) && Reaches(s, sts, r, false)
    ensures Shows(r, Acting(1, 0, 1, Blocked(0, true)), Acting(1, 1, 0, Blocked(0, true)), Resting(0, true),
                  Mutex(By(0), 0, [1, 0]))
  {
    hide Leads, Reaches, Accounted;
    Pauses(s, 0, 0);
    var m := SetPhase(s, 0, Pausing(0, false));
    LeadsOn(s, Begin(0, 0, true), m);
    assert s.mutex[0].waiters == [1];
    BlocksAt(m, 0, 0, false);
    r := SetPhase(SetList(Retune(m, 0, Inherit(m.task[0].prio, 1)), 0, [1] + [0]), 0, Blocked(0, true));
    LeadsOn(m, Block(0), r);
    Stays(r, false);
    Extends(m, Block(0), r, [], r, false);
    Extends(s, Begin(0, 0, true), m, [Block(0)] + [], r, false);
    sts := [Begin(0, 0, true)] + ([Block(0)] + []);
  }

  lemma BothTimeOut(s: Sys) returns (sts: seq<Step>, r: Sys)
    requires Accounted(s) && MAX_PRIORITIES >= 2
    requires Shows(s, Acting(1, 0, 1, Blocked(0, true)), Acting(1, 1, 0, Blocked(0, true)), Resting(0, true),
                   Mutex(By(0), 0, [1, 0]))
    ensures Accounted(r) && Reaches(s, sts, r, false)
    ensures Shows(r, Acting(1, 0, 1, Trying(0, true, false)), Acting(1, 1, 0, Trying(0, true, false)), Resting(0, true),
                  Mutex(By(0), 0, []))
  {
    hide Leads, Reaches, Accounted;
    assert [1, 0] == [1] + [0] && [0] == [0] + [];
    TimesOut(s, 1, [0]);
    var m := SetPhase(SetList(s, 0, [0]), 1, Trying(0, true, false));
    LeadsOn(s, Timeout(1), m);
    TimesOut(m, 0, []);
    r := SetPhase(SetList(m, 0, []), 0, Trying(0, true, false));
    LeadsOn(m, Timeout(0), r);
    Stays(r, false);
    Extends(m, Timeout(0), r, [], r, false);
    Extends(s, Timeout(1), m, [Timeout(0)] + [], r, false);
    sts := [Timeout(1)] + ([Timeout(0)] + []);
  }

  lemma HolderGivesUp(s: Sys) returns (sts: seq<Step>, r: Sys)
    requires Accounted(s) && MAX_PRIORITIES >= 2
    requires Shows(s, Acting(1, 0, 1, Trying(0, true, false)), Acting(1, 1, 0, Trying(0, true, false)), Resting(0, true),
                   Mutex(By(0), 0, []))
    ensures Accounted(r) && Reaches(s, sts, r, false)
    ensures Shows(r, Acting(1, 0, 1, GivingUp(0)), Acting(1, 1, 0, Trying(0, true, false)), Resting(0, true),
                  Mutex(By(0), 0, []))
  {
    hide Leads, Reaches, Accounted;
    PausesAgain(s, 0);
    var m := SetPhase(s, 0, Pausing(0, true));
    LeadsOn(s, Retry(0), m);
    Expires(m, 0);
    r := SetPhase(m, 0, GivingUp(0));
    LeadsOn(m, Expire(0, false), r);
    Stays(r, false);
    Extends(m, Expire(0, false), r, [], r, false);
    Extends(s, Retry(0), m, [Expire(0, false)] + [], r, false);
    sts := [Retry(0)] + ([Expire(0, false)] + []);
  }

  /**
   A task blocks on the mutex it already holds, at a priority another waiter has lent it; both
   time out, and it is about to withdraw that priority from itself.
   */
  lemma SelfWithdrawal() returns (s: Sys, sts: seq<Step>, r: Sys)
    requires MAX_PRIORITIES >= 2
    ensures Start(s) && Reaches(s, sts, r, false)
    ensures Enabled(r, Withdraw(0)) && r.task[0].phase == GivingUp(0) && 0 in r.mutex && Known(r, 0)
    ensures WithdrawsFromItself(r, 0)
  {
    hide Leads, Reaches, Accounted, Start, FirstBlocked, Opening;
    OpeningOk(1, 0);
    FirstBlockedOk(1, 0);
    s := Opening(1, 0);
    var m1, m2, sts1, sts2, sts3;
    sts1, m1 := BlocksOnItself(FirstBlocked(1, 0));
    sts2, m2 := BothTimeOut(m1);
    sts3, r := HolderGivesUp(m2);
    Undisciplined(s, OPENING_STEPS, FirstBlocked(1, 0));
    ReachesTwice(m1, sts2, m2, sts3, r, false);
    ReachesTwice(FirstBlocked(1, 0), sts1, m1, sts2 + sts3, r, false);
    ReachesTwice(s, OPENING_STEPS, FirstBlocked(1, 0), sts1 + (sts2 + sts3), r, false);
    sts := OPENING_STEPS + (sts1 + (sts2 + sts3));
  }

  lemma Undisciplined(s: Sys, sts: seq<Step>, r: Sys)
    requires Reaches(s, sts, r, true)
    ensures Reaches(s, sts, r, false)
  {
  }

  lemma WaiterTimesOut(s: Sys) returns (sts: seq<Step>, r: Sys)
    requires Accounted(s) && MAX_PRIORITIES >= 2
    requires Shows(s, Acting(1, 0, 1, Idle), Acting(1, 1, 0, Blocked(0, true)), Resting(1, true), Mutex(By(0), 0, [1]))
    ensures Accounted(r) && Reaches(s, sts, r, true)
    ensures Shows(r, Acting(0, 0, 0, Idle), Acting(1, 1, 0, Pausing(0, true)), Resting(1, true), Mutex(Nobody, 1, []))
  {
    hide Leads, Reaches, Accounted;
    assert [1] == [1] + [];
    TimesOut(s, 1, []);
    var m := SetPhase(SetList(s, 0, []), 1, Trying(0, true, false));
    LeadsOn(s, Timeout(1), m);
    PausesAgain(m, 1);
    var n := SetPhase(m, 1, Pausing(0, true));
    LeadsOn(m, Retry(1), n);
    GivesBack(n, 0, 0);
    r := Release(n, 0, 0);
    LeadsOn(n, Give(0, 0), r);
    Stays(r, true);
    Extends(n, Give(0, 0), r, [], r, true);
    Extends(m, Retry(1), n, [Give(0, 0)] + [], r, true);
    Extends(s, Timeout(1), m, [Retry(1)] + ([Give(0, 0)] + []), r, true);
    sts := [Timeout(1)] + ([Retry(1)] + ([Give(0, 0)] + []));
  }

  lemma OtherTakesFirst(s: Sys) returns (sts: seq<Step>, r: Sys)
    requires Accounted(s) && MAX_PRIORITIES >= 2
    requires Shows(s, Acting(0, 0, 0, Idle), Acting(1, 1, 0, Pausing(0, true)), Resting(1, true), Mutex(Nobody, 1, []))
    ensures Accounted(r) && Reaches(s, sts, r, true)
    ensures Shows(r, Acting(0, 0, 0, Idle), Acting(1, 1, 0, Trying(0, true, true)), Acting(1, 1, 1, Idle), Mutex(By(2), 0, []))
  {
    hide Leads, Reaches, Accounted;
    Expires(s, 1);
    var m := SetPhase(s, 1, Trying(0, true, true));
    LeadsOn(s, Expire(1, false), m);
    Returns(m, 2);
    var n := SetTask(m, 2, m.task[2].(away := false));
    LeadsOn(m, Return(2), n);
    Takes(n, 2, 0);
    r := Take(n, 2, 0);
    LeadsOn(n, Begin(2, 0, true), r);
    Stays(r, true);
    Extends(n, Begin(2, 0, true), r, [], r, true);
    Extends(m, Return(2), n, [Begin(2, 0, true)] + [], r, true);
    Extends(s, Expire(1, false), m, [Return(2)] + ([Begin(2, 0, true)] + []), r, true);
    sts := [Expire(1, false)] + ([Return(2)] + ([Begin(2, 0, true)] + []));
  }

  /**
   In a disciplined run a task times out, sees the mutex free, loses it to another task, and finds
   itself without time to wait although it has lent its priority.
   */
  lemma LastTryLost() returns (s: Sys, sts: seq<Step>, r: Sys)
    requires MAX_PRIORITIES >= 2
    ensures Start(s) && Reaches(s, sts, r, true)
    ensures Enabled(r, Retry(1)) && r.task[1].phase.id in r.mutex && !NothingLent(r, 1)
  {
    hide Leads, Reaches, Accounted, Start, FirstBlocked, Opening;
    OpeningOk(1, 1);
    FirstBlockedOk(1, 1);
    s := Opening(1, 1);
    var m, sts1, sts2;
    sts1, m := WaiterTimesOut(FirstBlocked(1, 1));
    sts2, r := OtherTakesFirst(m);
    ReachesTwice(FirstBlocked(1, 1), sts1, m, sts2, r, true);
    ReachesTwice(s, OPENING_STEPS, FirstBlocked(1, 1), sts1 + sts2, r, true);
    sts := OPENING_STEPS + (sts1 + sts2);
  }

  lemma SecondBlocks(s: Sys) returns (sts: seq<Step>, r: Sys)
    requires Accounted(s) && MAX_PRIORITIES >= 3
    requires Shows(s, Acting(1, 0, 1, Idle), Acting(1, 1, 0, Blocked(0, true)), Resting(2, true), Mutex(By(0), 0, [1]))
    ensures Accounted(r) && Reaches(s, sts, r, true)
    ensures Shows(r, Acting(2, 0, 1, Idle), Acting(1, 1, 0, Blocked(0, true)), Acting(2, 2, 0, Blocked(0, true)),
                  Mutex(By(0), 0, [2, 1]))
  {
    hide Leads, Reaches, Accounted;
    Returns(s, 2);
    var m := SetTask(s, 2, s.task[2].(away := false));
    LeadsOn(s, Return(2), m);
    Pauses(m, 2, 0);
    var n := SetPhase(m, 2, Pausing(0, false));
    LeadsOn(m, Begin(2, 0, true), n);
    BlocksAt(n, 2, 0, true);
    r := SetPhase(SetList(Retune(n, 0, Inherit(n.task[0].prio, 2)), 0, [2] + [1]), 2, Blocked(0, true));
    LeadsOn(n, Block(2), r);
    Stays(r, true);
    Extends(n, Block(2), r, [], r, true);
    Extends(m, Begin(2, 0, true), n, [Block(2)] + [], r, true);
    Extends(s, Return(2), m, [Begin(2, 0, true)] + ([Block(2)] + []), r, true);
    sts := [Return(2)] + ([Begin(2, 0, true)] + ([Block(2)] + []));
  }

  lemma HandsOver(s: Sys) returns (sts: seq<Step>, r: Sys)
    requires Accounted(s) && MAX_PRIORITIES >= 3
    requires Shows(s, Acting(2, 0, 1, Idle), Acting(1, 1, 0, Blocked(0, true)), Acting(2, 2, 0, Blocked(0, true)),
                   Mutex(By(0), 0, [2, 1]))
    ensures Accounted(r) && Reaches(s, sts, r, true)
    ensures Shows(r, Acting(0, 0, 0, Idle), Acting(1, 1, 0, Blocked(0, true)), Acting(2, 2, 0, Trying(0, true, false)),
                  Mutex(Nobody, 1, [1]))
  {
    hide Leads, Reaches, Accounted;
    assert [2, 1] == [2] + [1];
    WakesFirst(s, 0, 0, 2, [1]);
    r := SetPhase(SetList(Release(s, 0, 0), 0, [1]), 2, Trying(0, true, false));
    LeadsOn(s, Give(0, 0), r);
    Stays(r, true);
    Extends(s, Give(0, 0), r, [], r, true);
    sts := [Give(0, 0)] + [];
  }

  /**
   Why a task must not be suspended when it is about to try for a free mutex: it leaves, a lower
   task takes the mutex as the discipline allows, and is below a task that waits.
   */
  lemma LeftInFlight(m: Sys) returns (m1: Sys, r: Sys)
    requires Accounted(m) && MAX_PRIORITIES >= 3
    requires Shows(m, Acting(0, 0, 0, Idle), Acting(1, 1, 0, Blocked(0, true)), Acting(2, 2, 0, Trying(0, true, false)),
                   Mutex(Nobody, 1, [1]))
    ensures Leads(m, Leave(2), m1) && Leads(m1, Begin(0, 0, true), r)
    ensures Accounted(m1) && Enabled(m, Leave(2)) && Enabled(m1, Begin(0, 0, true))
    ensures !Disciplined(m, Leave(2)) && Disciplined(m1, Begin(0, 0, true))
    ensures 0 in r.mutex && r.mutex[0].holder == By(0) && 1 in r.mutex[0].waiters
    ensures 0 in r.task && 1 in r.task && Current(r, 0) < Current(r, 1)
  {
    hide Leads, Accounted;
    Leaves(m, 2);
    m1 := SetTask(m, 2, m.task[2].(away := true));
    LeadsOn(m, Leave(2), m1);
    Takes(m1, 0, 0);
    r := Take(m1, 0, 0);
    LeadsOn(m1, Begin(0, 0, true), r);
  }

  /** Such a state is reached by a disciplined run. */
  lemma SuspendedInFlight() returns (s: Sys, sts: seq<Step>, m: Sys, m1: Sys, r: Sys)
    requires MAX_PRIORITIES >= 3
    ensures Start(s) && Reaches(s, sts, m, true) && Accounted(m) && Accounted(m1)
    ensures Leads(m, Leave(2), m1) && Leads(m1, Begin(0, 0, true), r)
    ensures Enabled(m, Leave(2)) && !Disciplined(m, Leave(2)) && 0 in m.mutex && m.mutex[0].holder == Nobody
    ensures Enabled(m1, Begin(0, 0, true)) && Disciplined(m1, Begin(0, 0, true))
    ensures 0 in r.mutex && r.mutex[0].holder == By(0) && 1 in r.mutex[0].waiters
    ensures 0 in r.task && 1 in r.task && Current(r, 0) < Current(r, 1)
  {
    hide Leads, Reaches, Accounted, Start, FirstBlocked, Opening;
    OpeningOk(1, 2);
    FirstBlockedOk(1, 2);
    s := Opening(1, 2);
    var n, sts1, sts2;
    sts1, n := SecondBlocks(FirstBlocked(1, 2));
    sts2, m := HandsOver(n);
    ReachesTwice(FirstBlocked(1, 2), sts1, n, sts2, m, true);
    ReachesTwice(s, OPENING_STEPS, FirstBlocked(1, 2), sts1 + sts2, m, true);
    sts := OPENING_STEPS + (sts1 + sts2);
    m1, r := LeftInFlight(m);
  }

  // ----- a request that is dropped -----

  /** What there is to see of a state with three tasks and two mutexes. */
  ghost predicate ShowsBoth(s: Sys, a: Actor, b: Actor, c: Actor, m: Mutex, n: Mutex) {
    && s.task.Keys == {0, 1, 2} && s.task[0] == a && s.task[1] == b && s.task[2] == c
    && s.mutex.Keys == {0, 1} && s.mutex[0] == m && s.mutex[1] == n
  }

  /** Tasks 0, 1 and 2 with priorities 1, 0 and 2, and two mutexes. */
  function Pair(): Sys {
    Sys(map[0 := Resting(1, false), 1 := Resting(0, true), 2 := Resting(2, true)],
        map[0 := Mutex(Nobody, 1, []), 1 := Mutex(Nobody, 1, [])])
  }

  lemma PairOk()
    requires MAX_PRIORITIES >= 3
    ensures Start(Pair()) && Accounted(Pair())
  {
    StartOk(Pair());
  }

  /** Task 0 takes both mutexes and is away when task 1 comes back. */
  lemma TakesBoth() returns (sts: seq<Step>, r: Sys)
    requires MAX_PRIORITIES >= 3
    ensures Start(Pair()) && Accounted(r) && Reaches(Pair(), sts, r, true)
    ensures ShowsBoth(r, Acting(1, 1, 2, Idle).(away := true), Resting(0, false), Resting(2, true),
                      Mutex(By(0), 0, []), Mutex(By(0), 0, []))
  {
    hide Leads, Reaches, Accounted, Start;
    var s := Pair();
    PairOk();
    Takes(s, 0, 0);
    var s1 := Take(s, 0, 0);
    LeadsOn(s, Begin(0, 0, true), s1);
    Takes(s1, 0, 1);
    var s2 := Take(s1, 0, 1);
    LeadsOn(s1, Begin(0, 1, true), s2);
    Leaves(s2, 0);
    var s3 := SetTask(s2, 0, s2.task[0].(away := true));
    LeadsOn(s2, Leave(0), s3);
    Returns(s3, 1);
    r := SetTask(s3, 1, s3.task[1].(away := false));
    LeadsOn(s3, Return(1), r);
    Stays(r, true);
    Extends(s3, Return(1), r, [], r, true);
    Extends(s2, Leave(0), s3, [Return(1)] + [], r, true);
    Extends(s1, Begin(0, 1, true), s2, [Leave(0)] + ([Return(1)] + []), r, true);
    Extends(s, Begin(0, 0, true), s1, [Begin(0, 1, true)] + ([Leave(0)] + ([Return(1)] + [])), r, true);
    sts := [Begin(0, 0, true)] + ([Begin(0, 1, true)] + ([Leave(0)] + ([Return(1)] + [])));
  }

  /** Task `t`, which has just come back, blocks on the mutex `id` that task 0 holds. */
  lemma BlocksAlone(s: Sys, t: Task, id: Id) returns (sts: seq<Step>, r: Sys)
    requires Accounted(s) && IsReady(s, t) && s.task[t].phase == Idle && s.task[t].prio.held == 0 && t != 0
    requires 0 in s.task && id in s.mutex && s.mutex[id] == Mutex(By(0), 0, [])
    ensures Accounted(r) && Reaches(s, sts, r, true)
    ensures r.task == s.task[0 := s.task[0].(prio := Inherit(s.task[0].prio, Current(s, t)))]
                            [t := s.task[t].(phase := Blocked(id, Inherited(s.task[0].prio, Current(s, t))))]
    ensures r.mutex == s.mutex[id := Mutex(By(0), 0, [t])]
  {
    hide Leads, Reaches, Accounted;
    assert [] + [t] == [t];
    Pauses(s, t, id);
    var m := SetPhase(s, t, Pausing(id, false));
    LeadsOn(s, Begin(t, id, true), m);
    BlocksAt(m, t, 0, false);
    r := SetPhase(SetList(Retune(m, 0, Inherit(m.task[0].prio, Current(m, t))), id, [] + [t]), t,
                  Blocked(id, Inherited(m.task[0].prio, Current(m, t))));
    LeadsOn(m, Block(t), r);
    Stays(r, true);
    Extends(m, Block(t), r, [], r, true);
    Extends(s, Begin(t, id, true), m, [Block(t)] + [], r, true);
    sts := [Begin(t, id, true)] + ([Block(t)] + []);
  }

  lemma ComesBack(s: Sys, t: Task) returns (r: Sys)
    requires Accounted(s) && t in s.task && s.task[t].away
    ensures Accounted(r) && Reaches(s, [Return(t)], r, true) && r == SetTask(s, t, s.task[t].(away := false))
  {
    hide Leads, Reaches, Accounted;
    Returns(s, t);
    r := SetTask(s, t, s.task[t].(away := false));
    LeadsOn(s, Return(t), r);
    Stays(r, true);
    Extends(s, Return(t), r, [], r, true);
    assert [Return(t)] + [] == [Return(t)];
  }

  /** Both others wait, each for its mutex, and task 0 runs on the priority of task 2. */
  lemma BothWait() returns (sts: seq<Step>, r: Sys)
    requires MAX_PRIORITIES >= 3
    ensures Start(Pair()) && Accounted(r) && Reaches(Pair(), sts, r, true)
    ensures ShowsBoth(r, Acting(2, 1, 2, Idle), Acting(0, 0, 0, Blocked(1, false)), Acting(2, 2, 0, Blocked(0, true)),
                      Mutex(By(0), 0, [2]), Mutex(By(0), 0, [1]))
  {
    hide Reaches, Accounted, Start;
    var sts1, s1 := TakesBoth();
    var sts2, s2 := BlocksAlone(s1, 1, 1);
    var s3 := ComesBack(s2, 2);
    var sts4, s4 := BlocksAlone(s3, 2, 0);
    r := ComesBack(s4, 0);
    ReachesTwice(s3, sts4, s4, [Return(0)], r, true);
    ReachesTwice(s2, [Return(2)], s3, sts4 + [Return(0)], r, true);
    ReachesTwice(s1, sts2, s2, [Return(2)] + (sts4 + [Return(0)]), r, true);
    ReachesTwice(Pair(), sts1, s1, sts2 + ([Return(2)] + (sts4 + [Return(0)])), r, true);
    sts := sts1 + (sts2 + ([Return(2)] + (sts4 + [Return(0)])));
  }

  /**
   In a disciplined run, task 0 gives back the mutex of task 2, keeping its priority as it holds
   another, and then that one, with a task of low priority waiting: its own priority drops below that
   of task 2, which is ready, and no switch is asked for.  In between it runs on a priority that nobody
   lends it any more.
   */
  lemma DroppedRequest() returns (s: Sys, sts: seq<Step>, m: Sys, r: Sys)
    requires MAX_PRIORITIES >= 3
    ensures Start(s) && Reaches(s, sts, m, true) && Accounted(m) && Leads(m, Give(0, 1), r)
    ensures Enabled(m, Give(0, 1)) && Disciplined(m, Give(0, 1)) && m.task[0].prio.held > 0
    ensures (forall u :: u in m.mutex[1].waiters ==> u in m.task) && Outranks(m, 0) && !GiveAsks(m, 0, 1)
    ensures m.task[0].prio.held == 1 && Current(m, 0) > m.task[0].prio.base && forall u :: !Lends(m, u, 1)
    ensures 0 in r.task && 2 in r.task && IsReady(r, 2) && Current(r, 2) > Current(r, 0) && !Outranks(r, 0)
  {
    hide Leads, Reaches, Accounted, Start;
    var sts1, s1 := BothWait();
    s := Pair();
    assert [2] == [2] + [] && [1] == [1] + [];
    WakesFirst(s1, 0, 0, 2, []);
    m := SetPhase(SetList(Release(s1, 0, 0), 0, []), 2, Trying(0, true, false));
    LeadsOn(s1, Give(0, 0), m);
    Stays(m, true);
    Extends(s1, Give(0, 0), m, [], m, true);
    ReachesTwice(s, sts1, s1, [Give(0, 0)] + [], m, true);
    sts := sts1 + ([Give(0, 0)] + []);
    WakesFirst(m, 0, 1, 1, []);
    r := SetPhase(SetList(Release(m, 0, 1), 1, []), 1, Trying(1, false, false));
    LeadsOn(m, Give(0, 1), r);
    assert IsReady(r, 2);
  }
}
