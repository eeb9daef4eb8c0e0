/**
 What each command makes of a timer, and that its settings stay as they are until the next one.
 */
module TimerCommands {
  import opened Ticks
  import opened Rings
  import opened Timers

  // ----- settings -----

  /** The fields only commands set. */
  ghost predicate SameSettings(s: State, r: State, t: Id) {
    && t in s.timer && t in r.timer
    && r.timer[t].period == s.timer[t].period && r.timer[t].autoReload == s.timer[t].autoReload
    && r.timer[t].dynamic == s.timer[t].dynamic
  }

  lemma ExpiredSettings(s: State, u: Id, expired: nat, now: nat, t: Id)
    requires u in s.timer && expired < M && now < M && t in s.timer
    ensures SameSettings(s, Expired(s, u, expired, now), t)
  {
    ReloadKeepsTimer(s, u, expired, now);
    hide Reload;
  }

  lemma ExpireHeadSettings(s: State, now: nat, t: Id)
    requires HasHead(s) && now < M && t in s.timer
    ensures SameSettings(s, ExpireHead(s, now), t)
  {
    hide Expired;
    var head := s.lists.current[0];
    ExpiredSettings(s.(lists := s.lists.(current := s.lists.current[1..])), head.owner, head.value, now, t);
  }

  lemma {:induction false} DrainSettings(s: State, t: Id)
    requires Drainable(s) && t in s.timer
    ensures SameSettings(s, DrainCurrent(s), t)
    decreases |s.lists.current|
  {
    hide Drainable, ExpireHead, HasHead;
    if s.lists.current != [] {
      ExpireAtEnd(s);
      ExpireHeadSettings(s, M - 1, t);
      DrainSettings(ExpireHead(s, M - 1), t);
    }
  }

  lemma SampleSettings(s: State, now: nat, t: Id)
    requires Drainable(s) && t in s.timer
    ensures SameSettings(s, Sample(s, now), t)
  {
    hide Drainable, DrainCurrent;
    if now < s.last {
      DrainSettings(s, t);
    }
  }

  lemma PassSettings(s: State, before: nat, now: nat, t: Id)
    requires At(s, before, {}) && before <= now < before + M && t in s.timer
    ensures Drainable(s) && SameSettings(s, Pass(s, now % M), t)
  {
    SampleKeeps(s, before, now, {});
    hide Drainable, Good, Sample, ExpireHead;
    SampleSettings(s, now % M, t);
    if !(now % M < s.last) && s.lists.current != [] && NextExpiry(s) <= now % M {
      GoodHead(Sample(s, now % M), {});
      ExpireHeadSettings(Sample(s, now % M), now % M, t);
    }
  }

  /** A start does not change them, and no command changes those of another timer. */
  lemma HandleSettings(s: State, before: nat, c: Command, now: nat, t: Id)
    requires At(s, before, {}) && Enabled(s, before, Message(c, now)) && t in s.timer && (c.t != t || c.Start?)
    ensures SameSettings(s, Handle(s, Modular(c), now % M), t)
  {
    TakenGood(s, c.t);
    GoodDrainable(Taken(s, c.t), {c.t});
    hide Good, Drainable, Sample, Expired, Decide, Plus;
    var s2 := Sample(Taken(s, c.t), now % M);
    SampleSettings(Taken(s, c.t), now % M, t);
    SampleKeepsTimers(Taken(s, c.t), now % M);
    if c.Start? {
      StartedSettings(s2, c.t, c.at % M, now % M, t);
    }
  }

  lemma StartedSettings(s: State, u: Id, at: nat, now: nat, t: Id)
    requires u in s.timer && at < M && now < M && t in s.timer
    ensures SameSettings(s, Started(s, u, at, now), t)
  {
    hide Expired, Decide, Plus;
    PlusBelow(at, s.timer[u].period);
    ExpiredSettings(SetActive(s, u, true), u, Plus(at, s.timer[u].period), now, t);
  }

  /** No step changes the settings of a timer but a command on it other than a start. */
  lemma ApplySettings(s: State, before: nat, st: Step, t: Id)
    requires At(s, before, {}) && Enabled(s, before, st) && t in s.timer
        && (!Concerns(st, t) || (st.Message? && st.command.Start?))
    ensures SameSettings(s, Apply(s, before, st), t)
  {
    hide Good, Pass, Handle;
    match st
    case Daemon(now) => PassSettings(s, before, now, t);
    case Message(c, now) => HandleSettings(s, before, c, now, t);
    case SetReload(_, _) =>
    case Create(_, _, _, _) =>
  }

  lemma {:induction false} RunSettings(s: State, before: nat, sts: seq<Step>, t: Id)
    requires At(s, before, {}) && Runnable(s, before, sts) && t in s.timer
    requires forall i :: 0 <= i < |sts| ==> !Concerns(sts[i], t)
    ensures SameSettings(s, Run(s, before, sts).0, t)
    decreases |sts|
  {
    hide At, Apply, Enabled, Concerns;
    if sts != [] {
      ApplyKeeps(s, before, sts[0]);
      assert !Concerns(sts[0], t);
      ApplySettings(s, before, sts[0], t);
      assert forall i :: 0 <= i < |sts| - 1 ==> sts[1..][i] == sts[i + 1];
      RunSettings(Apply(s, before, sts[0]), TimeAfter(sts[0], before), sts[1..], t);
    }
  }

  // ----- what the commands do -----

  /** A changed timer is active with the new period, its other settings are kept, and no callback is made. */
  lemma ChangesPeriod(s: State, before: nat, t: Id, p: nat, now: nat)
    requires At(s, before, {}) && Enabled(s, before, Message(ChangePeriod(t, p), now))
    ensures t in s.timer && 0 < p < M
    ensures var r, x := Apply(s, before, Message(ChangePeriod(t, p), now)), s.timer[t];
            && t in r.timer && r.timer[t] == Timer(p, x.autoReload, true, x.dynamic, x.fired)
            && OnCourse(r, EpochStart(now), now, t, now, x.fired)
  {
    hide Good, OnCourse, Drainable, ChangeTo, Sample, EpochStart;
    TakenGood(s, t);
    GoodDrainable(Taken(s, t), {t});
    SampleKeeps(Taken(s, t), before, now, {t});
    SampleKeepsTimers(Taken(s, t), now % M);
    HeldNotFired(Taken(s, t), {t}, t, now % M);
    ChangedOnCourse(Sample(Taken(s, t), now % M), t, p, now);
    hide At;
    ChangedFields(Sample(Taken(s, t), now % M), t, p, now % M);
  }

  lemma ChangedFields(s: State, t: Id, p: Period, now: nat)
    requires t in s.timer && now < M
    ensures var x := s.timer[t];
            t in Changed(s, t, p, now).timer
                && Changed(s, t, p, now).timer[t] == Timer(p, x.autoReload, true, x.dynamic, x.fired)
  {
    hide Enter, Decide, Plus;
  }

  /**
   After a change of period to `p`, handled at time `changed`, an auto-reload timer that has made `n`
   callbacks is listed for `changed + (n + 1) * p`, in every state a later run reaches without a
   command on it, and no callback was early; a one-shot timer fires once.
   */
  lemma ChangedTimersKeepTime(s: State, before: nat, t: Id, p: nat, changed: nat, s1: State, sts: seq<Step>)
    requires At(s, before, {}) && Enabled(s, before, Message(ChangePeriod(t, p), changed))
    requires s1 == Apply(s, before, Message(ChangePeriod(t, p), changed))
    requires At(s1, changed, {}) && Runnable(s1, changed, sts) && forall i :: 0 <= i < |sts| ==> !Concerns(sts[i], t)
    ensures t in s.timer
    ensures var (r, now) := Run(s1, changed, sts); KeepsTime(r, now, t, changed, p, s.timer[t].autoReload, s.timer[t].fired)
  {
    hide At, Runnable, Run, Apply, OnCourse, Enabled, Concerns;
    ChangesPeriod(s, before, t, p, changed);
    RunOnCourse(s1, changed, sts, t, changed, s.timer[t].fired);
    RunSettings(s1, changed, sts, t);
    var (r, now) := Run(s1, changed, sts);
    KeepsTimeOnCourse(r, now, t, changed, s.timer[t].fired);
  }

  /** On course with the given period, from the given time and count of callbacks. */
  ghost predicate KeepsTime(r: State, now: nat, t: Id, from: nat, p: nat, autoReload: bool, fired: nat) {
    && t in r.timer && r.timer[t].period == p && r.timer[t].autoReload == autoReload && r.timer[t].fired >= fired
    && var n := r.timer[t].fired - fired;
       if autoReload then
         r.timer[t].active && On(r.lists, EpochStart(now), t, from + (n + 1) * p) && from + n * p <= now
       else
         || (n == 0 && r.timer[t].active && On(r.lists, EpochStart(now), t, from + p))
         || (n == 1 && !r.timer[t].active && from + p <= now)
  }

  lemma KeepsTimeOnCourse(r: State, now: nat, t: Id, from: nat, fired: nat)
    requires OnCourse(r, EpochStart(now), now, t, from, fired)
    ensures KeepsTime(r, now, t, from, r.timer[t].period, r.timer[t].autoReload, fired)
  {
    hide On, EpochStart;
    assert Times(1, r.timer[t].period) == r.timer[t].period;
  }

  /** The same after a start: the period counted with is the one the timer had. */
  lemma StartedTimersKeepTime(s: State, before: nat, t: Id, c: nat, handled: nat, s1: State, sts: seq<Step>)
    requires At(s, before, {}) && Enabled(s, before, Message(Start(t, c), handled))
    requires s1 == Apply(s, before, Message(Start(t, c), handled))
    requires At(s1, handled, {}) && Runnable(s1, handled, sts) && forall i :: 0 <= i < |sts| ==> !Concerns(sts[i], t)
    ensures t in s.timer
    ensures var (r, now) := Run(s1, handled, sts);
            KeepsTime(r, now, t, c, s.timer[t].period, s.timer[t].autoReload, s.timer[t].fired)
  {
    TimersKeepTime(s, before, t, c, handled, s1, sts);
    ApplySettings(s, before, Message(Start(t, c), handled), t);
    hide At, Runnable, Run, Apply, OnCourse, Enabled, Concerns;
    RunSettings(s1, handled, sts, t);
    var (r, now) := Run(s1, handled, sts);
    KeepsTimeOnCourse(r, now, t, c, s.timer[t].fired);
  }

  /** A stopped timer is dormant and on no list, and nothing else of it changes. */
  lemma StopsExactly(s: State, before: nat, t: Id, now: nat)
    requires At(s, before, {}) && Enabled(s, before, Message(Stop(t), now))
    ensures var r := Apply(s, before, Message(Stop(t), now));
            t in s.timer && t in r.timer && r.timer[t] == s.timer[t].(active := false) && !Listed(r.lists, t)
  {
    HandleKeeps(s, before, Stop(t), now);
    TakenGood(s, t);
    GoodDrainable(Taken(s, t), {t});
    HeldNotFired(Taken(s, t), {t}, t, now % M);
    hide Ordered, Listed, Drainable, Sample;
  }

  /** A deleted timer is gone, or dormant if its memory is not the kernel's; it is on no list. */
  lemma DeletesExactly(s: State, before: nat, t: Id, now: nat)
    requires At(s, before, {}) && Enabled(s, before, Message(Delete(t), now))
    ensures var r := Apply(s, before, Message(Delete(t), now));
            && t in s.timer && !Listed(r.lists, t)
            && if s.timer[t].dynamic then t !in r.timer else t in r.timer && r.timer[t] == s.timer[t].(active := false)
  {
    HandleKeeps(s, before, Delete(t), now);
    TakenGood(s, t);
    GoodDrainable(Taken(s, t), {t});
    HeldNotFired(Taken(s, t), {t}, t, now % M);
    hide Ordered, Listed, Drainable, Sample;
  }

  /** A new timer is dormant and has made no callback; setting the reload mode sets that alone. */
  lemma CreatesExactly(s: State, before: nat, t: Id, p: Period, autoReload: bool, dynamic: bool)
    requires At(s, before, {})
    ensures t !in s.timer ==>
              var r := Apply(s, before, Create(t, p, autoReload, dynamic));
              r.lists == s.lists && r.last == s.last && r.timer == s.timer[t := Timer(p, autoReload, false, dynamic, 0)]
    ensures t in s.timer ==>
              var r, x := Apply(s, before, SetReload(t, autoReload)), s.timer[t];
              r.lists == s.lists && r.last == s.last
              && r.timer == s.timer[t := Timer(x.period, autoReload, x.active, x.dynamic, x.fired)]
  {
    hide Good;
  }

  // ----- dormant timers -----

  lemma DormantHeld(s: State, held: set<Id>, t: Id)
    requires Good(s, held) && t in s.timer && t !in held && !s.timer[t].active
    ensures Good(s, held + {t})
  {
    hide Ordered, Listed;
  }

  lemma PassSkips(s: State, before: nat, now: nat, t: Id)
    requires At(s, before, {}) && before <= now < before + M && t in s.timer && !s.timer[t].active
    ensures Drainable(s) && t in Pass(s, now % M).timer && Pass(s, now % M).timer[t] == s.timer[t]
  {
    DormantHeld(s, {}, t);
    HeldNotFired(s, {} + {t}, t, now % M);
    SampleKeeps(s, before, now, {});
    hide Drainable, Good, Sample;
    var r := Sample(s, now % M);
    if !(now % M < s.last) && s.lists.current != [] && NextExpiry(s) <= now % M {
      GoodHead(r, {});
      HeadSkips(r, now % M, t);
    }
  }

  lemma HeadSkips(r: State, now: nat, t: Id)
    requires HasHead(r) && now < M && t in r.timer && r.lists.current[0].owner != t
    ensures t in ExpireHead(r, now).timer && ExpireHead(r, now).timer[t] == r.timer[t]
  {
    var head := r.lists.current[0];
    ReloadKeepsTimer(r.(lists := r.lists.(current := r.lists.current[1..])), head.owner, head.value, now);
    hide Reload;
  }

  lemma HandleSkips(s: State, before: nat, c: Command, now: nat, t: Id)
    requires At(s, before, {}) && Enabled(s, before, Message(c, now)) && t in s.timer && !s.timer[t].active && c.t != t
    ensures t in Handle(s, Modular(c), now % M).timer && Handle(s, Modular(c), now % M).timer[t] == s.timer[t]
  {
    TakenGood(s, c.t);
    DormantHeld(Taken(s, c.t), {c.t}, t);
    GoodDrainable(Taken(s, c.t), {c.t});
    HeldNotFired(Taken(s, c.t), {c.t} + {t}, t, now % M);
    SampleKeepsTimers(Taken(s, c.t), now % M);
    hide Good, Drainable, Sample, Expired, Decide, Plus;
    var s2 := Sample(Taken(s, c.t), now % M);
    if c.Start? {
      StartedSkips(s2, c.t, c.at % M, now % M, t);
    }
  }

  lemma StartedSkips(s: State, u: Id, at: nat, now: nat, t: Id)
    requires u in s.timer && at < M && now < M && t in s.timer && t != u
    ensures t in Started(s, u, at, now).timer && Started(s, u, at, now).timer[t] == s.timer[t]
  {
    hide Decide, Plus, Reload;
    PlusBelow(at, s.timer[u].period);
    ReloadKeepsTimer(SetActive(s, u, true), u, Plus(at, s.timer[u].period), now);
  }

  /** A dormant timer stays exactly as it is, and makes no callback, until a command on it. */
  lemma {:induction false} DormantStays(s: State, before: nat, sts: seq<Step>, t: Id)
    requires At(s, before, {}) && Runnable(s, before, sts) && t in s.timer && !s.timer[t].active
    requires forall i :: 0 <= i < |sts| ==> !Concerns(sts[i], t)
    ensures var r := Run(s, before, sts).0; t in r.timer && r.timer[t] == s.timer[t]
    decreases |sts|
  {
    hide At, Apply, Enabled, Concerns;
    if sts != [] {
      ApplyKeeps(s, before, sts[0]);
      assert !Concerns(sts[0], t);
      ApplySkips(s, before, sts[0], t);
      assert forall i :: 0 <= i < |sts| - 1 ==> sts[1..][i] == sts[i + 1];
      DormantStays(Apply(s, before, sts[0]), TimeAfter(sts[0], before), sts[1..], t);
    }
  }

  lemma ApplySkips(s: State, before: nat, st: Step, t: Id)
    requires At(s, before, {}) && Enabled(s, before, st) && t in s.timer && !s.timer[t].active && !Concerns(st, t)
    ensures t in Apply(s, before, st).timer && Apply(s, before, st).timer[t] == s.timer[t]
  {
    hide Good, Pass, Handle;
    match st
    case Daemon(now) => PassSkips(s, before, now, t);
    case Message(c, now) => HandleSkips(s, before, c, now, t);
    case SetReload(_, _) =>
    case Create(_, _, _, _) =>
  }

  // ----- catching up -----

  /** The number of listed timers of this epoch whose time has come. */
  function DueCount(s: State, now: nat): nat { Reach(Values(s.lists.current), now) }

  /** At the time last sampled, a pass expires the first timer that is due. */
  lemma PassExpiresHead(s: State, now: nat)
    requires At(s, now, {}) && !Blocks(s, now % M)
    ensures Drainable(s) && At(Pass(s, now % M), now, {}) && s.lists.current != []
    ensures var t, r := s.lists.current[0].owner, Pass(s, now % M);
            && t in s.timer && t in r.timer && r.timer[t].fired > s.timer[t].fired
            && (!s.timer[t].autoReload ==> !r.timer[t].active && r.timer[t].fired == s.timer[t].fired + 1)
            && DueCount(r, now % M) == DueCount(s, now % M) - 1
  {
    PassKeeps(s, now, now);
    GoodHead(s, {});
    var head, k := s.lists.current[0], now % M;
    var s1 := s.(lists := s.lists.(current := s.lists.current[1..]));
    var r := Pass(s, k);
    assert s.(last := k) == s;
    assert r == Expired(s1, head.owner, head.value, k);
    ReloadKeepsTimer(s1, head.owner, head.value, k);
    assert Sorted(s.lists.current) && Sorted(s1.lists.current);
    hide Good, Drainable, Pass, Reload, Blocks;
    OneLessDue(s.lists.current, k);
    ReloadNotDue(s1, head.owner, head.value, k);
  }

  lemma OneLessDue(w: seq<Item>, now: nat)
    requires w != [] && w[0].value <= now
    ensures Reach(Values(w), now) == 1 + Reach(Values(w[1..]), now)
  {
    assert Values(w)[1..] == Values(w[1..]);
  }

  /** A reload lists its timer behind everything that is due. */
  lemma {:induction false} ReloadNotDue(s: State, t: Id, expired: nat, now: nat)
    requires t in s.timer && expired < M && now < M && Sorted(s.lists.current)
    ensures DueCount(Reload(s, t, expired, now), now) == DueCount(s, now)
    decreases Minus(now, expired)
  {
    hide Reach, Values, Sorted, Plus;
    var p := s.timer[t].period;
    var next := Plus(expired, p);
    PlusBelow(expired, p);
    var v := Decide(next, now, expired, p);
    if v == Due {
      DueShrinks(expired, p, now);
      ReloadNotDue(Fire(s, t), t, next, now);
    } else if v == ToCurrent {
      LaterNotDue(s.lists.current, Item(t, next), now);
    }
  }

  lemma LaterNotDue(w: seq<Item>, x: Item, now: nat)
    requires Sorted(w) && x.value > now
    ensures Reach(Values(InsertSorted(w, x)), now) == Reach(Values(w), now)
  {
    var k, p := Reach(Values(w), now), Reach(Values(w), x.value);
    var r := InsertSorted(w, x);
    assert r == w[..p] + [x] + w[p..];
    assert p < |w| ==> Values(w)[p] > now;
    assert forall i :: 0 <= i < k ==> Values(r)[i] == Values(w)[i];
    assert k < |r| && Values(r)[k] > now;
    ReachIs(Values(r), now, k);
  }

  /** The passes the daemon makes at one time until it blocks. */
  ghost function Passes(s: State, now: nat): State
    requires At(s, now, {})
    decreases DueCount(s, now % M)
  {
    if Blocks(s, now % M) then s
    else
      PassExpiresHead(s, now);
      Passes(Pass(s, now % M), now)
  }

  /**
   The daemon catches up: at one time it makes as many passes as there are timers due, and then blocks.
   A timer on course has then made exactly the callbacks whose times have passed.
   */
  lemma {:induction false} DaemonCatchesUp(s: State, now: nat, t: Id, c: nat, f: nat)
    requires At(s, now, {}) && OnCourse(s, EpochStart(now), now, t, c, f)
    ensures var r := Passes(s, now);
            && At(r, now, {}) && Blocks(r, now % M) && t in r.timer && r.timer[t].fired >= f
            && var n, p := r.timer[t].fired - f, r.timer[t].period;
               if r.timer[t].autoReload then c + n * p <= now < c + (n + 1) * p
               else n <= 1 && (n == 1 <==> c + p <= now)
    decreases DueCount(s, now % M)
  {
    hide At, OnCourse, Pass, Blocks, EpochStart, DueCount;
    if Blocks(s, now % M) {
      CaughtUpAtBlock(s, now, t, c, f);
    } else {
      PassExpiresHead(s, now);
      FewerDue(s, now);
      PassOnCourse(s, now, now, t, c, f);
      DaemonCatchesUp(Pass(s, now % M), now, t, c, f);
    }
  }

  lemma FewerDue(s: State, now: nat)
    requires At(s, now, {}) && !Blocks(s, now % M)
    ensures Drainable(s) && DueCount(Pass(s, now % M), now % M) < DueCount(s, now % M)
  {
    PassExpiresHead(s, now);
    hide At, Pass, Blocks, Drainable;
  }

  lemma CaughtUpAtBlock(s: State, now: nat, t: Id, c: nat, f: nat)
    requires At(s, now, {}) && Blocks(s, now % M) && OnCourse(s, EpochStart(now), now, t, c, f)
    ensures t in s.timer && s.timer[t].fired >= f
    ensures var n, p := s.timer[t].fired - f, s.timer[t].period;
            if s.timer[t].autoReload then c + n * p <= now < c + (n + 1) * p else n <= 1 && (n == 1 <==> c + p <= now)
  {
    GoodDrainable(s, {});
    assert Pass(s, now % M) == s by {
      assert s.(last := now % M) == s;
    }
    var n, p := s.timer[t].fired - f, s.timer[t].period;
    assert Times(1, p) == p;
    hide At, Pass, Blocks, On, EpochStart, Drainable;
    if s.timer[t].autoReload {
      BlocksOnlyAhead(s, now, now, t, c + Times(n + 1, p));
    } else if n == 0 {
      BlocksOnlyAhead(s, now, now, t, c + Times(1, p));
    }
  }

  lemma OneStepRun(s: State, before: nat, st: Step)
    requires At(s, before, {}) && Enabled(s, before, st)
    ensures Runnable(s, before, [st]) && Run(s, before, [st]) == (Apply(s, before, st), TimeAfter(st, before))
  {
    ApplyKeeps(s, before, st);
    hide At, Apply, Enabled;
    assert [st][1..] == [];
  }

  /**
   Such a timer: created and started with period one at time zero, it has made one callback when the daemon
   passes at time one.
   */
  lemma TimerFires()
    ensures var s := Apply(Apply(Fresh(), 0, Create(0, 1, true, false)), 0, Message(Start(0, 0), 0));
            && At(s, 0, {}) && Enabled(s, 0, Daemon(1)) && !Concerns(Daemon(1), 0) && Runnable(s, 0, [Daemon(1)])
            && var r := Run(s, 0, [Daemon(1)]).0;
               0 in r.timer && r.timer[0].fired == 1 && r.timer[0].active
  {
    TimerFromFresh();
    ApplyKeeps(Fresh(), 0, Create(0, 1, true, false));
    var s0 := Apply(Fresh(), 0, Create(0, 1, true, false));
    DivModUnique(0, 0);
    FirstStart(s0);
    var s := Apply(s0, 0, Message(Start(0, 0), 0));
    OneStepRun(s, 0, Daemon(1));
    hide At;
    FiresOnce(s);
  }

  lemma FiresOnce(s: State)
    requires s == State(map[0 := Timer(1, true, true, false, 0)], Lists([Item(0, 1)], []), 0) && Drainable(s)
    ensures 0 in Pass(s, 1 % M).timer && Pass(s, 1 % M).timer[0].fired == 1 && Pass(s, 1 % M).timer[0].active
  {
    hide Drainable;
    DivModUnique(0, 1);
    DivModUnique(0, 0);
    var none: seq<Item> := [];
    assert s.lists.current[1..] == none;
    var s1 := State(s.timer, Lists(none, none), 1);
    assert Decide(Plus(1, 1), 1, 1, 1) != Due;
    assert Reload(s1, 0, 1, 1) == Insert(s1, 0, Plus(1, 1), Decide(Plus(1, 1), 1, 1, 1));
    assert Pass(s, 1) == ExpireHead(s.(last := 1), 1);
  }
}
