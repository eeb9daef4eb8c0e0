/**
 What each step of the mutex system does, field by field, and what follows for a task that holds
 one mutex at a time: it runs on its base priority or on that of a task that lends it.
 */
module MutexSteps {
  import opened Rings
  import opened Priorities
  import opened Mutexes

  /** Only the tasks of `changed` differ. */
  ghost predicate OthersSame(s: Sys, r: Sys, changed: set<Task>) {
    r.task.Keys == s.task.Keys && forall u :: u in s.task && u !in changed ==> r.task[u] == s.task[u]
  }

  /** Only where task `t` is has changed. */
  ghost predicate OnlyPhase(s: Sys, r: Sys, t: Task, phase: Phase)
    requires t in s.task
  {
    r.mutex == s.mutex && r.task == s.task[t := Actor(s.task[t].prio, phase, s.task[t].away)]
  }

  // ----- taking -----

  /** A free mutex is taken: the taker is its holder, its count is down, and nobody is asked to wait. */
  lemma TakesExactly(s: Sys, st: Step, id: Id)
    requires Accounted(s) && Enabled(s, st)
        && ((st.Begin? && st.id == id) || (st.Retry? && s.task[st.t].phase.id == id))
    requires id in s.mutex && s.mutex[id].count > 0
    ensures var t, r := st.t, Apply(s, st);
            && r.mutex == s.mutex[id := Mutex(By(t), s.mutex[id].count - 1, s.mutex[id].waiters)]
            && OthersSame(s, r, {t})
            && var x, y := s.task[t], r.task[t];
               && y.phase == Idle && y.away == x.away && y.prio.held == x.prio.held + 1
               && y.prio.current == x.prio.current && y.prio.base == x.prio.base
                   && y.prio.eventValue == x.prio.eventValue
  {
    hide Accounted;
  }

  /** A mutex that is taken: the task prepares to wait if it may and has time left, and else returns. */
  lemma FindsTakenExactly(s: Sys, st: Step)
    requires Accounted(s) && Enabled(s, st) && (st.Begin? || st.Retry?)
    requires var id := if st.Begin? then st.id else s.task[st.t].phase.id; id in s.mutex && s.mutex[id].count == 0
    ensures st.Begin? ==> OnlyPhase(s, Apply(s, st), st.t, if st.wait then Pausing(st.id, false) else Idle)
    ensures st.Retry? ==>
              var ph := s.task[st.t].phase;
              OnlyPhase(s, Apply(s, st), st.t, if ph.expired then Idle else Pausing(ph.id, ph.lent))
  {
    hide Accounted;
    if st.Begin? && !st.wait {
      assert s.task[st.t] == Actor(s.task[st.t].prio, Idle, s.task[st.t].away);
      assert s.task[st.t := s.task[st.t]] == s.task;
    }
  }

  // ----- waiting -----

  /** The task has joined a list behind all of at least its priority and before all others. */
  ghost predicate Joins(r: Sys, w: seq<Task>, v: seq<Task>, t: Task) {
    && t in r.task && (forall u :: u in w ==> u in r.task)
    && exists p :: 0 <= p <= |w| && v == w[..p] + [t] + w[p..]
         && (forall i :: 0 <= i < p ==> r.task[w[i]].prio.eventValue <= r.task[t].prio.eventValue)
         && (p < |w| ==> r.task[w[p]].prio.eventValue > r.task[t].prio.eventValue)
  }

  /** The holder is raised to the waiter's priority if it is below, and the waiter remembers whether it lends. */
  lemma BlocksExactly(s: Sys, t: Task)
    requires Accounted(s) && Enabled(s, Block(t)) && s.task[t].phase.id in s.mutex
    ensures var r, ph, m := Apply(s, Block(t)), s.task[t].phase, s.mutex[s.task[t].phase.id];
            && (m.count > 0 ==> OnlyPhase(s, r, t, Trying(ph.id, ph.lent, false)))
            && (m.count == 0 ==>
                  && m.holder.By? && m.holder.task in s.task && OthersSame(s, r, {t, m.holder.task})
                  && r.mutex == s.mutex[ph.id := Mutex(m.holder, 0, r.mutex[ph.id].waiters)]
                  && Joins(r, m.waiters, r.mutex[ph.id].waiters, t)
                  && var h, p := m.holder.task, Current(s, t);
                     && r.task[t].phase == Blocked(ph.id, p > Current(s, h) || p > s.task[h].prio.base)
                     && r.task[t].away == s.task[t].away && (t != h ==> r.task[t].prio == s.task[t].prio)
                     && (t != h ==> r.task[h].phase == s.task[h].phase && r.task[h].away == s.task[h].away)
                     && r.task[h].prio.base == s.task[h].prio.base && r.task[h].prio.held == s.task[h].prio.held
                     && Current(r, h) == (if p > Current(s, h) then p else Current(s, h))
                     && r.task[h].prio.eventValue == (if p > Current(s, h) then MAX_PRIORITIES - p else s.task[h].prio.eventValue))
  {
    hide Accounted, Known, BlockOn, Joins, OthersSame;
    PhaseFacts(s, t);
    var id := s.task[t].phase.id;
    if s.mutex[id].count == 0 {
      TakenIsHeld(s, id);
      HolderKnown(s, id);
      BlocksOnExactly(s, t, id, s.mutex[id].holder.task);
    }
  }

  lemma HolderKnown(s: Sys, id: Id)
    requires Accounted(s) && id in s.mutex && s.mutex[id].holder.By?
    ensures s.mutex[id].holder.task in s.task && (s.mutex[id].count == 0 || s.mutex[id].count == 1)
  {
    PhaseFacts(s, s.mutex[id].holder.task);
  }

  lemma BlocksOnExactly(s: Sys, t: Task, id: Id, h: Task)
    requires t in s.task && id in s.mutex && Known(s, id) && s.mutex[id].holder == By(h) && s.mutex[id].count == 0
    ensures var r, w := BlockOn(s, t, id), s.mutex[id].waiters;
            && h in s.task && OthersSame(s, r, {t, h}) && r.mutex == s.mutex[id := Mutex(By(h), 0, r.mutex[id].waiters)]
            && Joins(r, w, r.mutex[id].waiters, t)
            && var p := Current(s, t);
               && r.task[t].phase == Blocked(id, p > Current(s, h) || p > s.task[h].prio.base)
               && r.task[t].away == s.task[t].away && (t != h ==> r.task[t].prio == s.task[t].prio)
               && (t != h ==> r.task[h].phase == s.task[h].phase && r.task[h].away == s.task[h].away)
               && r.task[h].prio.base == s.task[h].prio.base && r.task[h].prio.held == s.task[h].prio.held
               && Current(r, h) == (if p > Current(s, h) then p else Current(s, h))
               && r.task[h].prio.eventValue == (if p > Current(s, h) then MAX_PRIORITIES - p else s.task[h].prio.eventValue)
  {
    hide Joins, Spot;
    var w := s.mutex[id].waiters;
    var s1, r := Retune(s, h, Inherit(s.task[h].prio, Current(s, t))), BlockOn(s, t, id);
    EnqueuedJoins(s1, w, t);
    JoinsFrame(s1, r, w, r.mutex[id].waiters, t);
  }

  lemma EnqueuedJoins(s: Sys, w: seq<Task>, t: Task)
    requires t in s.task && forall u :: u in w ==> u in s.task
    ensures var p := Spot(s, w, t); Joins(s, w, w[..p] + [t] + w[p..], t)
  {
    var p, k := Spot(s, w, t), Keys(s, w);
    assert forall i :: 0 <= i < p ==> k[i] <= s.task[t].prio.eventValue;
    assert p < |w| ==> k[p] > s.task[t].prio.eventValue;
  }

  lemma JoinsFrame(s: Sys, r: Sys, w: seq<Task>, v: seq<Task>, t: Task)
    requires Joins(s, w, v, t) && r.task.Keys == s.task.Keys && forall u :: u in s.task ==>
        r.task[u].prio == s.task[u].prio
    ensures Joins(r, w, v, t)
  {
    var p :| 0 <= p <= |w| && v == w[..p] + [t] + w[p..]
      && (forall i :: 0 <= i < p ==> s.task[w[i]].prio.eventValue <= s.task[t].prio.eventValue)
      && (p < |w| ==> s.task[w[p]].prio.eventValue > s.task[t].prio.eventValue);
    assert forall i :: 0 <= i < p ==> r.task[w[i]].prio.eventValue <= r.task[t].prio.eventValue;
    assert p < |w| ==> w[p] in w;
  }

  /** A wait that is over: another try if the mutex is free, and else a return, after withdrawing what was lent. */
  lemma ExpiresExactly(s: Sys, t: Task, aborted: bool)
    requires Accounted(s) && Enabled(s, Expire(t, aborted)) && s.task[t].phase.id in s.mutex
    ensures var ph, m := s.task[t].phase, s.mutex[s.task[t].phase.id];
            OnlyPhase(s, Apply(s, Expire(t, aborted)), t,
                      if m.count > 0 then Trying(ph.id, ph.lent, !aborted) else if ph.lent then GivingUp(ph.id) else Idle)
  {
    hide Accounted;
  }

  /** A time-out takes the task off the list; it is in the loop again. */
  lemma TimesOutExactly(s: Sys, t: Task)
    requires Accounted(s) && Enabled(s, Timeout(t)) && s.task[t].phase.id in s.mutex
    ensures var r, ph, m := Apply(s, Timeout(t)), s.task[t].phase, s.mutex[s.task[t].phase.id];
            && r.mutex == s.mutex[ph.id := Mutex(m.holder, m.count, Without(m.waiters, t))]
            && r.task == s.task[t := Actor(s.task[t].prio, Trying(ph.id, ph.lent, false), s.task[t].away)]
  {
    hide Accounted;
  }

  // ----- withdrawing and giving back -----

  /**
   A withdrawal.  A holder of this mutex alone ends at its base priority or at that of the first still
   waiting, whichever is larger; a holder of several is left alone, as is everybody else.
   */
  lemma WithdrawsExactly(s: Sys, t: Task)
    requires Accounted(s) && Enabled(s, Withdraw(t)) && s.task[t].phase.id in s.mutex
    ensures var r, m := Apply(s, Withdraw(t)), s.mutex[s.task[t].phase.id];
            && r.mutex == s.mutex && r.task.Keys == s.task.Keys && r.task[t].phase == Idle
            && (forall u :: u in s.task ==> r.task[u].away == s.task[u].away && (u != t ==> r.task[u].phase == s.task[u].phase))
            && (forall u :: u in s.task && m.holder != By(u) ==> r.task[u].prio == s.task[u].prio)
            && (m.holder.By? ==>
                  && m.holder.task in s.task && (m.waiters != [] ==> m.waiters[0] in s.task)
                  && var x, y := s.task[m.holder.task].prio, r.task[m.holder.task].prio;
                     && (x.held != 1 ==> y == x)
                     && (x.held == 1 ==>
                           && y.held == 1 && y.base == x.base
                           && var p := if m.waiters == [] then 0 else MAX_PRIORITIES - s.task[m.waiters[0]].prio.eventValue;
                              && y.current == (if p > x.base then p else x.base)
                              && y.eventValue == (if y.current == x.current then x.eventValue else MAX_PRIORITIES - y.current)))
  {
    hide Accounted, DisinheritAfterTimeout;
    PhaseFacts(s, t);
    var m := s.mutex[s.task[t].phase.id];
    assert m.waiters != [] ==> m.waiters[0] in m.waiters;
    if m.holder.By? {
      AfterTimeout(s.task[m.holder.task].prio, HighestWaiting(s, s.task[t].phase.id));
    }
  }

  lemma AfterTimeout(x: Prio, highest: nat)
    ensures var y, p := DisinheritAfterTimeout(x, highest), if highest > x.base then highest else x.base;
            && (x.held != 1 ==> y == x) && y.held == x.held && y.base == x.base && (x.held == 1 ==> y.current == p)
            && y.eventValue == if y.current == x.current then x.eventValue else MAX_PRIORITIES - y.current
  {
  }

  /** In calm states that is the highest priority in the whole waiting list. */
  lemma WithdrawsToHighest(s: Sys, t: Task)
    requires Accounted(s) && Calm(s) && Enabled(s, Withdraw(t)) && s.task[t].phase.id in s.mutex
    requires var m := s.mutex[s.task[t].phase.id];
             m.holder.By? && m.holder.task in s.task && s.task[m.holder.task].prio.held == 1
    ensures var r, m := Apply(s, Withdraw(t)), s.mutex[s.task[t].phase.id];
            && var h := m.holder.task;
               && h in r.task && (forall u :: u in m.waiters ==> u in s.task && Current(r, h) >= Current(s, u))
               && Current(r, h) >= s.task[h].prio.base
               && (Current(r, h) == s.task[h].prio.base || exists u :: u in m.waiters && Current(r, h) == Current(s, u))
  {
    WithdrawsExactly(s, t);
    var id := s.task[t].phase.id;
    var w := s.mutex[id].waiters;
    assert MutexCalm(s, id);
    if w != [] {
      HeadTops(s, w);
      assert w[0] in w && s.task[w[0]].prio.eventValue == EventValue(Current(s, w[0]));
    }
    hide Accounted, Calm, Apply;
  }

  /**
   A give: the mutex is free, the giver is back at its base if it was its last, and the first waiting task tries
   again.
   */
  lemma GivesExactly(s: Sys, t: Task, id: Id)
    requires Accounted(s) && Enabled(s, Give(t, id))
    ensures var r, m := Apply(s, Give(t, id)), s.mutex[id];
            && r.mutex == s.mutex[id := Mutex(Nobody, m.count + 1, if m.waiters == [] then [] else m.waiters[1..])]
            && OthersSame(s, r, if m.waiters == [] then {t} else {t, m.waiters[0]})
            && var x, y := s.task[t], r.task[t];
               && y.phase == x.phase && y.away == x.away && y.prio.base == x.prio.base && y.prio.held == x.prio.held - 1
               && y.prio.current == (if x.prio.held == 1 then x.prio.base else x.prio.current)
               && y.prio.eventValue == (if y.prio.current == x.prio.current then x.prio.eventValue else MAX_PRIORITIES - x.prio.base)
               && (m.waiters != [] ==>
                     var u := m.waiters[0];
                     && u in s.task && u != t && s.task[u].phase.Blocked?
                     && r.task[u] == Actor(s.task[u].prio, Trying(id, s.task[u].phase.lent, false), s.task[u].away))
  {
    hide Accounted, OthersSame, Disinherit;
    GiveKeeps(s, t, id);
    ListDistinct(s, id);
    Disinherits(s.task[t].prio);
    GivesBackExactly(s, t, id);
  }

  /**
   A give asks for a switch for the task it wakes, if that outranks the giver now, or, with nobody waiting, if
   the giver has dropped.
   */
  lemma GiveAsksExactly(s: Sys, t: Task, id: Id)
    requires Accounted(s) && Enabled(s, Give(t, id))
    ensures s.task[t].prio.held > 0 && forall u :: u in s.mutex[id].waiters ==> u in s.task
    ensures var r, w := Apply(s, Give(t, id)), s.mutex[id].waiters;
            t in r.task && (GiveAsks(s, t, id) <==> if w == [] then Current(r, t) != Current(s, t) else Current(s, w[0]) > Current(r, t))
  {
    HolderHolds(s, t, id);
    WaitersAreBlocked(s, id);
    GivesExactly(s, t, id);
    Disinherits(s.task[t].prio);
    hide Accounted, Apply, Disinherit;
  }

  lemma Disinherits(x: Prio)
    requires x.held > 0
    ensures var y := Disinherit(x);
            && y.base == x.base && y.held == x.held - 1 && y.current == (if x.held == 1 then x.base else x.current)
            && y.eventValue == if y.current == x.current then x.eventValue else MAX_PRIORITIES - x.base
  {
  }

  lemma GivesBackExactly(s: Sys, t: Task, id: Id)
    requires t in s.task && id in s.mutex && s.task[t].prio.held > 0 && !s.task[t].phase.Blocked?
        && NoDup(s.mutex[id].waiters)
    requires forall u :: u in s.mutex[id].waiters ==> u in s.task && BlockedOn(s, u, id)
    ensures var r, m := GiveBack(s, t, id), s.mutex[id];
            && r.mutex == s.mutex[id := Mutex(Nobody, m.count + 1, if m.waiters == [] then [] else m.waiters[1..])]
            && OthersSame(s, r, if m.waiters == [] then {t} else {t, m.waiters[0]})
            && r.task[t] == Actor(Disinherit(s.task[t].prio), s.task[t].phase, s.task[t].away)
            && (m.waiters != [] ==>
                  var u := m.waiters[0];
                  && u in s.task && u != t && s.task[u].phase.Blocked?
                  && r.task[u] == Actor(s.task[u].prio, Trying(id, s.task[u].phase.lent, false), s.task[u].away))
  {
    hide Disinherit, Without;
    var w := s.mutex[id].waiters;
    if w != [] {
      assert w[0] in w;
      WithoutAt(w, 0);
      assert w[..0] + w[1..] == w[1..];
    }
    hide NoDup;
  }

  lemma ListDistinct(s: Sys, id: Id)
    requires Accounted(s) && id in s.mutex
    ensures NoDup(s.mutex[id].waiters)
  {
    hide NoDup;
  }

  // ----- leaving, returning, setting a priority -----

  /** A task that is suspended leaves the list it waits on; one that returns goes on where it was. */
  lemma MovesExactly(s: Sys, t: Task)
    requires Accounted(s) && t in s.task
    ensures s.task[t].away ==>
              && Enabled(s, Return(t)) && Apply(s, Return(t)).mutex == s.mutex
              && Apply(s, Return(t)).task == s.task[t := Actor(s.task[t].prio, s.task[t].phase, false)]
    ensures !s.task[t].away ==>
              && Enabled(s, Leave(t)) && (s.task[t].phase.Blocked? ==> s.task[t].phase.id in s.mutex)
              && var r, ph := Apply(s, Leave(t)), s.task[t].phase;
                 if ph.Blocked? then
                   var m := s.mutex[ph.id];
                   && r.mutex == s.mutex[ph.id := Mutex(m.holder, m.count, Without(m.waiters, t))]
                   && r.task == s.task[t := Actor(s.task[t].prio, Trying(ph.id, ph.lent, false), true)]
                 else r.mutex == s.mutex && r.task == s.task[t := Actor(s.task[t].prio, ph, true)]
  {
    PhaseFacts(s, t);
    hide Accounted;
  }

  /** The base priority is set, and the task runs on it unless it runs on an inherited one. */
  lemma SetsExactly(s: Sys, t: Task, priority: nat)
    requires Accounted(s) && t in s.task
    ensures var r, p := Apply(s, SetPriority(t, priority)), if priority < MAX_PRIORITIES then priority else MAX_PRIORITIES - 1;
            && r.mutex == s.mutex && OthersSame(s, r, {t})
            && var x, y := s.task[t], r.task[t];
               && y.phase == x.phase && y.away == x.away && y.prio.held == x.prio.held && y.prio.base == p
               && y.prio.current == (if x.prio.current == x.prio.base then p else x.prio.current)
               && y.prio.eventValue == (if p == x.prio.base then x.prio.eventValue else MAX_PRIORITIES - p)
  {
    hide Accounted;
  }

  // ----- one mutex at a time -----

  /** The task has lent its priority to the holder of the mutex and is still in the call that did. */
  predicate Lends(s: Sys, u: Task, id: Id) {
    && u in s.task
    && match s.task[u].phase
       case Idle => false
       case Trying(i, lent, expired) => i == id && lent && !expired
       case Pausing(i, lent) => i == id && lent
       case Blocked(i, lent) => i == id && lent
       case GivingUp(i) => i == id
  }

  /**
   The holder runs on its base priority or on that of a task that lends it; and no waiting task that
   did not lend its priority is above the holder's base.
   */
  ghost predicate Justified(s: Sys, id: Id)
    requires id in s.mutex
  {
    var m := s.mutex[id];
    m.holder.By? ==>
      && m.holder.task in s.task
      && (Current(s, m.holder.task) == s.task[m.holder.task].prio.base
          || exists u :: Lends(s, u, id) && Current(s, u) == Current(s, m.holder.task))
      && forall u :: u in m.waiters && !Lends(s, u, id) ==>
          u in s.task && Current(s, u) <= s.task[m.holder.task].prio.base
  }

  ghost predicate AllJustified(s: Sys) {
    && (forall t :: t in s.task ==> s.task[t].prio.held <= 1 && Current(s, t) >= s.task[t].prio.base)
    && forall id :: id in s.mutex ==> Justified(s, id)
  }

  /** No task takes a mutex while it holds one. */
  predicate SingleHolding(s: Sys, st: Step)
    requires Enabled(s, st)
  {
    match st
    case Begin(t, id, _) => s.mutex[id].count > 0 ==> s.task[t].prio.held == 0
    case Retry(t) => s.task[t].prio.held == 0
    case _ => true
  }

  /** The holder stays and keeps its priority, and nobody stops lending or joins. */
  lemma JustifiedFrame(s: Sys, r: Sys, id: Id)
    requires id in s.mutex && id in r.mutex && Justified(s, id) && s.mutex[id].holder.By?
    requires r.mutex[id].holder == s.mutex[id].holder && forall u :: u in r.mutex[id].waiters ==>
        u in s.mutex[id].waiters
    requires var h := s.mutex[id].holder.task;
             && h in s.task && h in r.task && Current(r, h) == Current(s, h)
                 && r.task[h].prio.base == s.task[h].prio.base
    requires forall u :: Lends(s, u, id) ==> Lends(r, u, id) && Current(r, u) == Current(s, u)
    requires forall u :: u in r.mutex[id].waiters ==> u in s.task && u in r.task && Current(r, u) == Current(s, u)
    ensures Justified(r, id)
  {
    hide Lends;
  }

  lemma WaitersAreBlocked(s: Sys, id: Id)
    requires Accounted(s) && id in s.mutex
    ensures forall u :: u in s.mutex[id].waiters ==> u in s.task && BlockedOn(s, u, id)
    ensures s.mutex[id].holder.By? ==>
        s.mutex[id].holder.task in s.task && s.task[s.mutex[id].holder.task].prio.held > 0
  {
    if s.mutex[id].holder.By? {
      HolderKnown(s, id);
      HolderHolds(s, s.mutex[id].holder.task, id);
    }
  }

  /** A step that changes nothing but where one task is, and does not end its lending to a holder. */
  lemma PhaseJustifies(s: Sys, r: Sys, t: Task)
    requires Accounted(s) && AllJustified(s) && t in s.task && t in r.task && r.mutex == s.mutex
        && OthersSame(s, r, {t})
    requires r.task[t].prio == s.task[t].prio
    requires forall id :: id in s.mutex && s.mutex[id].holder.By? && Lends(s, t, id) ==> Lends(r, t, id)
    ensures AllJustified(r)
  {
    hide Accounted, Lends;
    forall id | id in r.mutex ensures Justified(r, id) {
      WaitersAreBlocked(s, id);
      if s.mutex[id].holder.By? {
        OthersLend(s, r, t, id);
        JustifiedFrame(s, r, id);
      }
    }
  }

  lemma OthersLend(s: Sys, r: Sys, t: Task, id: Id)
    requires OthersSame(s, r, {t})
    ensures forall u :: u != t && Lends(s, u, id) ==> Lends(r, u, id) && Current(r, u) == Current(s, u)
  {
  }

  lemma TakeJustifies(s: Sys, st: Step, id: Id)
    requires Accounted(s) && Calm(s) && AllJustified(s) && Enabled(s, st)
    requires (st.Begin? && st.id == id) || (st.Retry? && s.task[st.t].phase.id == id)
    requires id in s.mutex && s.mutex[id].count > 0 && Outranks(s, st.t) && s.task[st.t].prio.held == 0
    ensures AllJustified(Apply(s, st))
  {
    hide Calm, Apply, Accounted, Lends;
    var t, r := st.t, Apply(s, st);
    TakesExactly(s, st, id);
    NotBlockedNotWaiting(s, t, id);
    TakerTops(s, t, id);
    IdlesAtBase(s, t);
    hide Enabled;
    forall other | other in r.mutex ensures Justified(r, other) {
      WaitersAreBlocked(s, other);
      if other == id {
        TakenJustified(s, r, t, id);
      } else if s.mutex[other].holder.By? {
        LendsElsewhere(s, r, t, id, other);
        JustifiedFrame(s, r, other);
      }
    }
  }

  lemma TakenJustified(s: Sys, r: Sys, t: Task, id: Id)
    requires t in s.task && id in s.mutex && id in r.mutex && r.mutex[id].holder == By(t) && OthersSame(s, r, {t})
    requires Current(s, t) == s.task[t].prio.base == Current(r, t) == r.task[t].prio.base
    requires Tops(s, t, s.mutex[id].waiters) && r.mutex[id].waiters == s.mutex[id].waiters && t !in s.mutex[id].waiters
    ensures Justified(r, id)
  {
    hide Lends;
  }

  /** A task that is on its way with one mutex lends on no other, before and after. */
  lemma LendsElsewhere(s: Sys, r: Sys, t: Task, id: Id, other: Id)
    requires t in s.task && t in r.task && other != id && OthersSame(s, r, {t})
    requires s.task[t].phase == Idle || s.task[t].phase.id == id
    ensures forall u :: Lends(s, u, other) ==> u != t && Lends(r, u, other) && Current(r, u) == Current(s, u)
  {
  }

  lemma IdlesAtBase(s: Sys, t: Task)
    requires Accounted(s) && t in s.task && s.task[t].prio.held == 0
    ensures Current(s, t) == s.task[t].prio.base
  {
  }

  /** A task leaves the list it waits on and goes on lending, in the loop again. */
  lemma UnlistJustifies(s: Sys, r: Sys, t: Task, id: Id)
    requires Accounted(s) && AllJustified(s) && t in s.task && s.task[t].phase.Blocked?
        && s.task[t].phase.id == id && id in s.mutex
    requires r.mutex == s.mutex[id := Mutex(s.mutex[id].holder, s.mutex[id].count, Without(s.mutex[id].waiters, t))]
    requires t in r.task && OthersSame(s, r, {t}) && r.task[t].prio == s.task[t].prio
    requires r.task[t].phase == Trying(id, s.task[t].phase.lent, false)
    ensures AllJustified(r)
  {
    hide Accounted, Without, Lends;
    WithoutMembers(s.mutex[id].waiters, t);
    forall other | other in r.mutex ensures Justified(r, other) {
      WaitersAreBlocked(s, other);
      if s.mutex[other].holder.By? {
        OthersLend(s, r, t, other);
        GoesOnLending(s, r, t, id, other);
        JustifiedFrame(s, r, other);
      }
    }
  }

  lemma GoesOnLending(s: Sys, r: Sys, t: Task, id: Id, other: Id)
    requires t in s.task && t in r.task && s.task[t].phase.Blocked? && s.task[t].phase.id == id
    requires r.task[t].prio == s.task[t].prio && r.task[t].phase == Trying(id, s.task[t].phase.lent, false)
    ensures Lends(s, t, other) ==> Lends(r, t, other) && Current(r, t) == Current(s, t)
  {
  }

  lemma GiveJustifies(s: Sys, t: Task, id: Id)
    requires Accounted(s) && AllJustified(s) && Enabled(s, Give(t, id))
    ensures AllJustified(Apply(s, Give(t, id)))
  {
    hide Accounted, Lends, Apply;
    var r := Apply(s, Give(t, id));
    GivesExactly(s, t, id);
    HolderHolds(s, t, id);
    var w := s.mutex[id].waiters;
    WaitersAreBlocked(s, id);
    assert w != [] ==> w[0] in w;
    forall other | other in r.mutex ensures Justified(r, other) {
      WaitersAreBlocked(s, other);
      if other != id && s.mutex[other].holder.By? {
        HoldsNoOther(s, t, id, other);
        GivenElsewhere(s, r, t, id, other);
        JustifiedFrame(s, r, other);
      }
    }
  }

  lemma HoldsNoOther(s: Sys, t: Task, id: Id, other: Id)
    requires Accounted(s) && AllJustified(s) && t in s.task && id in s.mutex && s.mutex[id].holder == By(t)
    requires other in s.mutex && other != id
    ensures s.mutex[other].holder != By(t)
  {
    HolderHolds(s, t, id);
    if s.mutex[other].holder == By(t) {
      OnlyOneHeld(s, t, id, other);
    }
  }

  lemma GivenElsewhere(s: Sys, r: Sys, t: Task, id: Id, other: Id)
    requires t in s.task && s.task[t].phase == Idle && id in s.mutex && other != id
    requires var w := s.mutex[id].waiters;
             && OthersSame(s, r, if w == [] then {t} else {t, w[0]})
             && (w != [] ==> w[0] in s.task && BlockedOn(s, w[0], id))
    ensures forall u :: Lends(s, u, other) ==> Lends(r, u, other) && Current(r, u) == Current(s, u)
    ensures forall u :: u in s.task && BlockedOn(s, u, other) ==> u in r.task && Current(r, u) == Current(s, u)
  {
  }

  lemma BlockJustifies(s: Sys, t: Task, id: Id)
    requires Accounted(s) && TasksCalm(s) && AllJustified(s) && Enabled(s, Block(t)) && s.task[t].phase.id == id
        && id in s.mutex
    requires s.mutex[id].count == 0 && s.task[t].prio.held == 0
    ensures AllJustified(Apply(s, Block(t)))
  {
    hide Accounted, Lends, Apply, Joins, TasksCalm;
    var r := Apply(s, Block(t));
    BlocksExactly(s, t);
    var h := s.mutex[id].holder.task;
    HolderHolds(s, h, id);
    JoinedMembers(r, s.mutex[id].waiters, r.mutex[id].waiters, t);
    forall other | other in r.mutex ensures Justified(r, other) {
      WaitersAreBlocked(s, other);
      if other == id {
        BlockedJustified(s, r, t, id, h);
      } else if s.mutex[other].holder.By? {
        HoldsNoOther(s, h, id, other);
        BlockedElsewhere(s, r, t, id, h, other);
        JustifiedFrame(s, r, other);
      }
    }
  }

  lemma JoinedMembers(r: Sys, w: seq<Task>, v: seq<Task>, t: Task)
    requires Joins(r, w, v, t)
    ensures forall u :: u in v <==> u in w || u == t
  {
    var p :| 0 <= p <= |w| && v == w[..p] + [t] + w[p..];
    assert w == w[..p] + w[p..];
  }

  /** A holder lends to nobody, so raising it leaves the other mutexes as they were. */
  lemma BlockedElsewhere(s: Sys, r: Sys, t: Task, id: Id, h: Task, other: Id)
    requires TasksCalm(s) && t in s.task && h in s.task && s.task[h].prio.held > 0 && other != id
        && OthersSame(s, r, {t, h})
    requires s.task[t].phase.Pausing? && s.task[t].phase.id == id
    ensures forall u :: Lends(s, u, other) ==> Lends(r, u, other) && Current(r, u) == Current(s, u)
    ensures forall u :: u in s.task && BlockedOn(s, u, other) ==> u in r.task && Current(r, u) == Current(s, u)
  {
  }

  /**
   The holder is raised to a task that lends it, or keeps what another lends; a task that does not lend is not
   above its base.
   */
  lemma BlockedJustified(s: Sys, r: Sys, t: Task, id: Id, h: Task)
    requires TasksCalm(s) && t in s.task && id in s.mutex && s.mutex[id].holder == By(h) && h in s.task && h != t
    requires Justified(s, id) && s.task[h].prio.held > 0 && Current(s, h) >= s.task[h].prio.base
    requires OthersSame(s, r, {t, h}) && id in r.mutex && r.mutex[id].holder == By(h)
    requires s.task[t].phase.Pausing? && s.task[t].phase.id == id
    requires forall u :: u in s.mutex[id].waiters ==> u in s.task && BlockedOn(s, u, id)
    requires forall u :: u in r.mutex[id].waiters <==> u in s.mutex[id].waiters || u == t
    requires r.task[t].prio == s.task[t].prio && r.task[h].prio.base == s.task[h].prio.base
        && r.task[h].phase == s.task[h].phase
    requires var p := Current(s, t);
             && r.task[t].phase == Blocked(id, p > Current(s, h) || p > s.task[h].prio.base)
             && Current(r, h) == (if p > Current(s, h) then p else Current(s, h))
    ensures Justified(r, id)
  {
    assert s.task[h].phase == Idle || !Lends(s, h, id);
    if Current(r, h) != r.task[h].prio.base {
      if Current(s, t) > Current(s, h) || (Current(s, t) == Current(s, h) && Current(s, t) > s.task[h].prio.base) {
        assert Lends(r, t, id) && Current(r, t) == Current(r, h);
      } else {
        var u :| Lends(s, u, id) && Current(s, u) == Current(s, h);
        assert u != t && u != h;
        assert Lends(r, u, id) && Current(r, u) == Current(r, h);
      }
    }
    forall u | u in r.mutex[id].waiters && !Lends(r, u, id) ensures u in r.task && Current(r, u) <= r.task[h].prio.base {
      if u != t {
        assert u != h && r.task[u] == s.task[u];
        assert !Lends(s, u, id);
      }
    }
  }

  lemma WithdrawJustifies(s: Sys, t: Task, id: Id)
    requires Accounted(s) && Calm(s) && AllJustified(s) && Enabled(s, Withdraw(t)) && s.task[t].phase.id == id
        && id in s.mutex
    ensures AllJustified(Apply(s, Withdraw(t)))
  {
    hide Accounted, Lends, Apply, MutexCalm, TasksCalm;
    var r := Apply(s, Withdraw(t));
    WithdrawsExactly(s, t);
    var m := s.mutex[id];
    if m.holder.By? {
      HolderHolds(s, m.holder.task, id);
      WithdrawsToHighest(s, t);
    }
    forall other | other in r.mutex ensures Justified(r, other) {
      WaitersAreBlocked(s, other);
      if s.mutex[other].holder.By? {
        if other == id {
          WithdrawnJustified(s, r, t, id, m.holder.task);
        } else {
          if m.holder.By? {
            HoldsNoOther(s, m.holder.task, id, other);
          }
          WithdrawnElsewhere(s, r, t, id, other);
          JustifiedFrame(s, r, other);
        }
      }
    }
  }

  /** If anybody still waiting is above the holder's base, then a task that lends it. */
  lemma WithdrawnJustified(s: Sys, r: Sys, t: Task, id: Id, h: Task)
    requires TasksCalm(s) && id in s.mutex && Justified(s, id) && s.mutex[id].holder == By(h) && h in s.task
        && s.task[h].prio.held > 0
    requires t in s.task && s.task[t].phase == GivingUp(id) && r.mutex == s.mutex && r.task.Keys == s.task.Keys
    requires forall u :: u in s.mutex[id].waiters ==> u in s.task && BlockedOn(s, u, id)
    requires forall u :: u in s.task && u != t ==> r.task[u].phase == s.task[u].phase
    requires forall u :: u in s.task && u != h ==> r.task[u].prio == s.task[u].prio
    requires r.task[h].prio.base == s.task[h].prio.base && Current(r, h) >= s.task[h].prio.base
    requires Current(r, h) == s.task[h].prio.base || exists u :: u in s.mutex[id].waiters && Current(r, h) == Current(s, u)
    ensures Justified(r, id)
  {
    if Current(r, h) != s.task[h].prio.base {
      var u :| u in s.mutex[id].waiters && Current(r, h) == Current(s, u);
      assert Lends(s, u, id) && u != t;
      assert u != h;
      assert Lends(r, u, id) && Current(r, u) == Current(r, h);
    }
    forall u | u in r.mutex[id].waiters && !Lends(r, u, id) ensures u in r.task && Current(r, u) <= r.task[h].prio.base {
      assert u != t && !Lends(s, u, id);
      assert s.task[u].phase.Blocked? && !s.task[u].phase.lent;
    }
  }

  lemma WithdrawnElsewhere(s: Sys, r: Sys, t: Task, id: Id, other: Id)
    requires TasksCalm(s) && id in s.mutex && other != id && t in s.task && s.task[t].phase == GivingUp(id)
    requires r.task.Keys == s.task.Keys && forall u :: u in s.task && u != t ==> r.task[u].phase == s.task[u].phase
    requires forall u :: u in s.task && s.mutex[id].holder != By(u) ==> r.task[u].prio == s.task[u].prio
    requires s.mutex[id].holder.By? ==>
        s.mutex[id].holder.task in s.task && s.task[s.mutex[id].holder.task].prio.held > 0
    ensures forall u :: Lends(s, u, other) ==> Lends(r, u, other) && Current(r, u) == Current(s, u)
    ensures forall u :: u in s.task && BlockedOn(s, u, other) ==> u in r.task && Current(r, u) == Current(s, u)
  {
  }

  /** Every disciplined step with one mutex at a time keeps every holder's priority justified. */
  lemma StepJustifies(s: Sys, st: Step)
    requires Accounted(s) && Calm(s) && AllJustified(s) && Enabled(s, st) && Disciplined(s, st) && SingleHolding(s, st)
    ensures AllJustified(Apply(s, st))
  {
    hide Accounted, AllJustified, MutexCalm, TasksCalm, Known, Apply, Outranks;
    var t := st.t;
    var ph := s.task[t].phase;
    PhaseFacts(s, t);
    match st
    case Begin(_, id, wait) =>
      if s.mutex[id].count > 0 {
        TakeJustifies(s, st, id);
      } else {
        FindsTakenExactly(s, st);
        PhaseJustifies(s, Apply(s, st), t);
      }
    case Retry(_) =>
      if s.mutex[ph.id].count > 0 {
        TakeJustifies(s, st, ph.id);
      } else {
        FindsTakenExactly(s, st);
        PhaseJustifies(s, Apply(s, st), t);
      }
    case Block(_) =>
      if s.mutex[ph.id].count == 0 {
        BlockJustifies(s, t, ph.id);
      } else {
        BlocksExactly(s, t);
        PhaseJustifies(s, Apply(s, st), t);
      }
    case Expire(_, aborted) =>
      ExpiresExactly(s, t, aborted);
      NotBlockedNotWaiting(s, t, ph.id);
      PhaseJustifies(s, Apply(s, st), t);
    case Withdraw(_) => WithdrawJustifies(s, t, ph.id);
    case Give(_, id) => GiveJustifies(s, t, id);
    case Timeout(_) =>
      TimesOutExactly(s, t);
      UnlistJustifies(s, Apply(s, st), t, ph.id);
    case Leave(_) =>
      MovesExactly(s, t);
      if ph.Blocked? {
        UnlistJustifies(s, Apply(s, st), t, ph.id);
      } else {
        PhaseJustifies(s, Apply(s, st), t);
      }
    case Return(_) =>
      MovesExactly(s, t);
      PhaseJustifies(s, Apply(s, st), t);
    case SetPriority(_, _) =>
  }

  ghost predicate AllSingle(s: Sys, sts: seq<Step>)
    requires Accounted(s) && Runnable(s, sts)
    decreases |sts|
  {
    sts == [] || (SingleHolding(s, sts[0]) && (StepAccounts(s, sts[0]); AllSingle(Apply(s, sts[0]), sts[1..])))
  }

  lemma {:induction false} RunJustifies(s: Sys, sts: seq<Step>)
    requires Accounted(s) && Calm(s) && AllJustified(s) && Runnable(s, sts) && AllDisciplined(s, sts)
        && AllSingle(s, sts)
    ensures AllJustified(Run(s, sts)) && Accounted(Run(s, sts)) && Calm(Run(s, sts))
    decreases |sts|
  {
    hide Accounted, Calm, AllJustified, Apply, Disciplined, SingleHolding;
    if sts != [] {
      StepAccounts(s, sts[0]);
      StepCalms(s, sts[0]);
      StepJustifies(s, sts[0]);
      RunJustifies(Apply(s, sts[0]), sts[1..]);
    }
  }

  /**
   What is lent is given back.  In every state that a disciplined run reaches in which tasks hold one
   mutex at a time, a holder runs on its base priority or on that of a task that lends it, and on its
   base priority if nobody does.
   */
  lemma LentIsGivenBack(s: Sys, sts: seq<Step>, id: Id, h: Task)
    requires Start(s) && Accounted(s) && Runnable(s, sts) && AllDisciplined(s, sts) && AllSingle(s, sts)
    requires var r := Run(s, sts); id in r.mutex && r.mutex[id].holder == By(h)
    ensures var r := Run(s, sts);
            && h in r.task
            && (Current(r, h) == r.task[h].prio.base || exists u :: Lends(r, u, id) && Current(r, u) == Current(r, h))
            && ((forall u :: !Lends(r, u, id)) ==> Current(r, h) == r.task[h].prio.base)
  {
    StartOk(s);
    StartJustified(s);
    RunJustifies(s, sts);
    assert Justified(Run(s, sts), id);
    hide Run, Runnable, AllDisciplined, AllSingle, Calm, Accounted, Lends;
  }

  lemma StartJustified(s: Sys)
    requires Start(s)
    ensures AllJustified(s)
  {
  }
}
