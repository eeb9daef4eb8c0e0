/**
 What each step on a queue does to its messages, its waiting lists and the tasks that use it, and that
 no message is lost or made up over a run.
 */
module QueueSteps {
  import opened Rings
  import opened QueueWakeups

  /** One event on a side: its first waiting task, if any, is off the list and has not run yet. */
  ghost predicate WokeFirst(s: Side, r: Side, woken: set<Task>) {
    && r.lock == s.lock
    && (if s.waiting == [] then r.waiting == [] && r.woken == woken
        else r.waiting == s.waiting[1..] && r.woken == woken + {s.waiting[0]})
  }

  ghost predicate Unchanged(s: Side, r: Side, woken: set<Task>) { r.lock == s.lock && r.waiting == s.waiting && r.woken == woken }

  // ----- tasks -----

  /**
   An attempt.  It succeeds exactly if there is a message to read, a place to write, or it overwrites;
   then the count changes by one or not at all, one task on the other side is woken, or one more reader
   after a look, and the task is back in ordinary code.  Otherwise it prepares to wait, or returns.
   */
  lemma AttemptsExactly(q: Queue, t: Task, role: Role, wait: bool)
    requires Enabled(q, Attempt(t, role, wait))
    ensures var r := Apply(q, Attempt(t, role, wait));
            && r.length == q.length && r.section == q.section
            && match role
               case Receive =>
                 if q.count > 0 then
                   && r.count == q.count - 1 && r.phase == q.phase[t := Idle]
                   && WokeFirst(q.writers, r.writers, q.writers.woken - {t})
                   && Unchanged(q.readers, r.readers, q.readers.woken - {t})
                 else Failed(q, r, t, role, wait)
               case Peek =>
                 if q.count > 0 then
                   && r.count == q.count && r.phase == q.phase[t := Idle]
                   && WokeFirst(q.readers, r.readers, q.readers.woken - {t})
                   && Unchanged(q.writers, r.writers, q.writers.woken - {t})
                 else Failed(q, r, t, role, wait)
               case Send =>
                 if q.count < q.length then
                   && r.count == q.count + 1 && r.phase == q.phase[t := Idle]
                   && WokeFirst(q.readers, r.readers, q.readers.woken - {t})
                   && Unchanged(q.writers, r.writers, q.writers.woken - {t})
                 else Failed(q, r, t, role, wait)
               case Overwrite =>
                 && r.count == (if q.count == 0 then 1 else q.count) && r.phase == q.phase[t := Idle]
                 && WokeFirst(q.readers, r.readers, q.readers.woken - {t})
                 && Unchanged(q.writers, r.writers, q.writers.woken - {t})
  {
  }

  ghost predicate Failed(q: Queue, r: Queue, t: Task, role: Role, wait: bool) {
    && r.count == q.count && r.phase == q.phase[t := if wait then Pausing(role) else Idle]
    && Unchanged(q.readers, r.readers, q.readers.woken - {t}) && Unchanged(q.writers, r.writers, q.writers.woken - {t})
  }

  /** Entering the section locks both sides; the look under the lock decides between waiting, looping and returning. */
  lemma LooksExactly(q: Queue, t: Task, expired: bool)
    ensures Enabled(q, Enter(t)) ==>
              var r := Apply(q, Enter(t));
              && r.count == q.count && r.length == q.length && r.phase == q.phase && r.section == Checking(t)
              && r.readers.lock == (if q.readers.lock == -1 then 0 else q.readers.lock)
              && r.writers.lock == (if q.writers.lock == -1 then 0 else q.writers.lock)
              && r.readers.waiting == q.readers.waiting && r.readers.woken == q.readers.woken
              && r.writers.waiting == q.writers.waiting && r.writers.woken == q.writers.woken
    ensures Enabled(q, Check(expired)) ==>
              var r, u := Apply(q, Check(expired)), q.section.t;
              var role := q.phase[u].role;
              var empty := if role.Receive? || role.Peek? then q.count == 0 else q.count == q.length;
              && r.count == q.count && r.length == q.length && r.readers == q.readers && r.writers == q.writers
              && if !expired && empty then r.section == Confirmed(u) && r.phase == q.phase
                 else r.section == ReleasingTx(u)
                      && r.phase == q.phase[u := if expired && role.Send? then Idle else Looping(role)]
  {
  }

  /** A task that confirmed that there is nothing to do joins the list of its side, and no other. */
  lemma PlacesExactly(q: Queue, p: nat)
    requires Enabled(q, Place(p))
    ensures var r, u := Apply(q, Place(p)), q.section.t;
            var role := q.phase[u].role;
            && r.count == q.count && r.length == q.length && r.section == ReleasingTx(u)
                && r.phase == q.phase[u := Looping(role)]
            && if role.Receive? || role.Peek? then
                 && r.writers == q.writers && r.readers.lock == q.readers.lock && r.readers.woken == q.readers.woken
                 && r.readers.waiting == q.readers.waiting[..p] + [u] + q.readers.waiting[p..]
               else
                 && r.readers == q.readers && r.writers.lock == q.writers.lock && r.writers.woken == q.writers.woken
                 && r.writers.waiting == q.writers.waiting[..p] + [u] + q.writers.waiting[p..]
  {
  }

  /** A time-out takes its task off the list it is on and does nothing else. */
  lemma TimesOutExactly(q: Queue, t: Task)
    requires Inv(q) && Enabled(q, Timeout(t))
    ensures var r := Apply(q, Timeout(t));
            && r.count == q.count && r.length == q.length && r.section == q.section && r.phase == q.phase
            && r.readers.lock == q.readers.lock && r.writers.lock == q.writers.lock
            && r.readers.woken == q.readers.woken && r.writers.woken == q.writers.woken
            && !Blocked(r, t)
            && (forall u :: u != t ==> (u in r.readers.waiting <==> u in q.readers.waiting))
            && (forall u :: u != t ==> (u in r.writers.waiting <==> u in q.writers.waiting))
  {
    WithoutMembers(q.readers.waiting, t);
    WithoutMembers(q.writers.waiting, t);
  }

  // ----- unlocking -----

  lemma {:induction false} WakesExactly(s: Side, k: int)
    requires k >= 0
    ensures var r, n := WakeMany(s, k), if k < |s.waiting| then k else |s.waiting|;
            r.lock == s.lock && r.waiting == s.waiting[n..] && r.woken == s.woken + set t | t in s.waiting[..n]
    decreases |s.waiting|
  {
    if k > 0 && s.waiting != [] {
      var n := if k < |s.waiting| then k else |s.waiting|;
      WakesExactly(WakeOne(s), k - 1);
      assert s.waiting[..n] == [s.waiting[0]] + s.waiting[1..][..n - 1];
    }
  }

  /** Each half of an unlock wakes the first tasks of its side, as many as events were counted, and unlocks it. */
  lemma UnlocksExactly(q: Queue, tx: bool)
    requires Inv(q) && Enabled(q, if tx then UnlockTx else UnlockRx)
    ensures var r := Apply(q, if tx then UnlockTx else UnlockRx);
            var s, e := if tx then q.readers else q.writers, if tx then r.readers else r.writers;
            var n := if s.lock < |s.waiting| then s.lock else |s.waiting|;
            && s.lock >= 0 && e.lock == -1 && e.waiting == s.waiting[n..]
            && e.woken == s.woken + (set t | t in s.waiting[..n])
            && r.count == q.count && r.length == q.length && r.phase == q.phase
            && (tx ==> r.writers == q.writers && r.section == ReleasingRx(q.section.t))
            && (!tx ==> r.readers == q.readers && r.section == Open)
  {
    WakesExactly(if tx then q.readers else q.writers, (if tx then q.readers else q.writers).lock);
    hide PartOk, WakeMany;
  }

  // ----- interrupts -----

  /** An event from an interrupt wakes the first waiting task of an unlocked side, and is counted on a locked one. */
  ghost predicate Noticed(s: Side, r: Side) {
    if s.lock == -1 then WokeFirst(s, r, s.woken)
    else r.waiting == s.waiting && r.woken == s.woken && r.lock == (if s.lock == 127 then -128 else s.lock + 1)
  }

  lemma InterruptsExactly(q: Queue, overwrite: bool)
    requires overwrite ==> q.length == 1
    ensures var r := Apply(q, IsrSend(overwrite));
            if q.count < q.length || overwrite then
              && r.count == (if overwrite && q.count > 0 then q.count else q.count + 1)
              && Noticed(q.readers, r.readers) && r.writers == q.writers
              && r.length == q.length && r.phase == q.phase && r.section == q.section
            else r == q
    ensures var r := Apply(q, IsrReceive);
            if q.count > 0 then
              && r.count == q.count - 1 && Noticed(q.writers, r.writers) && r.readers == q.readers
              && r.length == q.length && r.phase == q.phase && r.section == q.section
            else r == q
  {
  }

  // ----- conservation -----

  /** Messages put in and taken out by a step; an overwrite of a message puts one in and takes one out. */
  function PutIn(q: Queue, st: Step): nat {
    match st
    case Attempt(_, role, _) => if role.Overwrite? || (role.Send? && q.count < q.length) then 1 else 0
    case IsrSend(overwrite) => if q.count < q.length || overwrite then 1 else 0
    case _ => 0
  }

  function TakenOut(q: Queue, st: Step): nat {
    match st
    case Attempt(_, role, _) => if (role.Receive? || role.Overwrite?) && q.count > 0 then 1 else 0
    case IsrSend(overwrite) => if overwrite && q.count > 0 then 1 else 0
    case IsrReceive => if q.count > 0 then 1 else 0
    case _ => 0
  }

  ghost function AllPutIn(q: Queue, sts: seq<Step>): nat
    requires Runnable(q, sts)
    decreases |sts|
  {
    if sts == [] then 0 else PutIn(q, sts[0]) + AllPutIn(Apply(q, sts[0]), sts[1..])
  }

  ghost function AllTakenOut(q: Queue, sts: seq<Step>): nat
    requires Runnable(q, sts)
    decreases |sts|
  {
    if sts == [] then 0 else TakenOut(q, sts[0]) + AllTakenOut(Apply(q, sts[0]), sts[1..])
  }

  /** Over every run, what is in a queue and what was taken out make up what was in it and what was put in. */
  lemma {:induction false} RunConserves(q: Queue, sts: seq<Step>)
    requires Runnable(q, sts)
    ensures Run(q, sts).count + AllTakenOut(q, sts) == q.count + AllPutIn(q, sts) && Run(q, sts).length == q.length
    decreases |sts|
  {
    hide Apply, Enabled, PutIn, TakenOut;
    if sts != [] {
      StepConserves(q, sts[0]);
      RunConserves(Apply(q, sts[0]), sts[1..]);
    }
  }

  lemma StepConserves(q: Queue, st: Step)
    requires Enabled(q, st)
    ensures Apply(q, st).count + TakenOut(q, st) == q.count + PutIn(q, st) && Apply(q, st).length == q.length
  {
    hide WakeOne, Unlock, Ran, Join, Leave, Notify;
  }

  // ----- the lock counters -----

  function Interrupts(sts: seq<Step>): nat {
    if sts == [] then 0 else (if sts[0].IsrSend? || sts[0].IsrReceive? then 1 else 0) + Interrupts(sts[1..])
  }

  /** A counter that starts at or below `c` cannot get to its limit in fewer than `127 - c` interrupts. */
  lemma {:induction false} FewInterruptsCount(q: Queue, sts: seq<Step>, c: nat)
    requires Runnable(q, sts) && -1 <= q.readers.lock <= c && -1 <= q.writers.lock <= c && c + Interrupts(sts) <= 127
    ensures AllCountable(q, sts)
    decreases |sts|
  {
    hide Apply, Enabled;
    if sts != [] {
      var d := if sts[0].IsrSend? || sts[0].IsrReceive? then c + 1 else c;
      CounterGrows(q, sts[0], c);
      FewInterruptsCount(Apply(q, sts[0]), sts[1..], d);
    }
  }

  lemma CounterGrows(q: Queue, st: Step, c: nat)
    requires Enabled(q, st) && -1 <= q.readers.lock <= c && -1 <= q.writers.lock <= c
    ensures st.IsrSend? || st.IsrReceive? ==> c < 127 ==>
              -1 <= Apply(q, st).readers.lock <= c + 1 && -1 <= Apply(q, st).writers.lock <= c + 1
    ensures !st.IsrSend? && !st.IsrReceive? ==>
              -1 <= Apply(q, st).readers.lock <= c && -1 <= Apply(q, st).writers.lock <= c
  {
    hide WakeMany;
  }

  /** In a run of a new queue with no more than 127 interrupts no wake-up is lost. */
  lemma FewInterruptsLoseNothing(length: nat, tasks: set<Task>, sts: seq<Step>)
    requires Runnable(Fresh(length, tasks), sts) && Interrupts(sts) <= 127
    ensures var q := Run(Fresh(length, tasks), sts);
            && (q.section == Open && q.readers.woken == {} && q.readers.waiting != [] ==> q.count == 0)
            && (q.section == Open && q.writers.woken == {} && q.writers.waiting != [] ==> q.count == length)
  {
    FewInterruptsCount(Fresh(length, tasks), sts, 0);
    QuietMeansNothingToDo(length, tasks, sts);
    RunConserves(Fresh(length, tasks), sts);
    hide Runnable, Run, AllCountable, Interrupts;
  }
}
