/**
 Software timers.  The daemon keeps two sorted lists of expiry times over modular ticks and
 switches them when it sees the tick count wrap.  All claims are about absolute time.
 */
module Timers {
  import opened Ticks
  import opened Rings
  import opened Scheduler
  import opened SchedulerTime

  type Id = nat

  type Period = p: nat | 0 < p < M witness 1

  /** `fired` counts the callbacks made so far; the other fields are those of the timer structure. */
  datatype Timer = Timer(period: Period, autoReload: bool, active: bool, dynamic: bool, fired: nat)

  /** The current and the overflow list. */
  datatype Lists = Lists(current: seq<Item>, overflow: seq<Item>)

  datatype State = State(timer: map<Id, Timer>, lists: Lists, last: nat)

  // ----- the lists -----

  ghost function Everyone(l: Lists): seq<Id> { Owners(l.current) + Owners(l.overflow) }

  ghost predicate Listed(l: Lists, t: Id) { t in Everyone(l) }

  ghost predicate Ordered(l: Lists) {
    Sorted(l.current) && Sorted(l.overflow) && Below(l.current, M) && Below(l.overflow, M) && NoDup(Everyone(l))
  }

  /** `t` is listed with absolute expiry time `x` when the current epoch starts at `e`. */
  ghost predicate On(l: Lists, e: nat, t: Id, x: nat) {
    (x >= e && Item(t, x - e) in l.current) || (x >= e + M && Item(t, x - e - M) in l.overflow)
  }

  /** The lists agree on every timer but `t`. */
  ghost predicate SameBut(l: Lists, r: Lists, t: Id) {
    && (forall y: Item :: y.owner != t ==> (y in l.current <==> y in r.current))
    && (forall y: Item :: y.owner != t ==> (y in l.overflow <==> y in r.overflow))
    && (forall u :: u != t ==> (Listed(l, u) <==> Listed(r, u)))
  }

  function PutCurrent(l: Lists, x: Item): Lists { l.(current := InsertSorted(l.current, x)) }

  function PutOverflow(l: Lists, x: Item): Lists { l.(overflow := InsertSorted(l.overflow, x)) }

  function TakeOut(l: Lists, t: Id): Lists { Lists(WithoutOwner(l.current, t), WithoutOwner(l.overflow, t)) }

  lemma Spliced(all: seq<Id>, p: nat, t: Id)
    requires NoDup(all) && p <= |all| && t !in all
    ensures var r := all[..p] + [t] + all[p..]; NoDup(r) && forall u :: u in r <==> u in all || u == t
  {
    NoDupInsert(all, p, t);
    assert all == all[..p] + all[p..];
  }

  lemma PutCurrentKeeps(l: Lists, x: Item)
    requires Ordered(l) && !Listed(l, x.owner) && x.value < M
    ensures var r := PutCurrent(l, x); Ordered(r) && SameBut(l, r, x.owner) && x in r.current && Listed(r, x.owner)
  {
    hide Sorted, NoDup, Below, Owners, Reach;
    var p := Reach(Values(l.current), x.value);
    OwnersSpliced(l.current, p, x);
    SpliceFirst(Owners(l.current), Owners(l.overflow), p, x.owner);
    Spliced(Everyone(l), p, x.owner);
    InsertSortedStable(l.current, x);
    InsertBounds(l.current, x, 0, M);
    InsertSortedMembers(l.current, x);
  }

  lemma PutOverflowKeeps(l: Lists, x: Item)
    requires Ordered(l) && !Listed(l, x.owner) && x.value < M
    ensures var r := PutOverflow(l, x); Ordered(r) && SameBut(l, r, x.owner) && x in r.overflow && Listed(r, x.owner)
  {
    hide Sorted, NoDup, Below, Owners, Reach;
    var p := Reach(Values(l.overflow), x.value);
    OwnersSpliced(l.overflow, p, x);
    SpliceSecond(Owners(l.current), Owners(l.overflow), p, x.owner);
    Spliced(Everyone(l), |l.current| + p, x.owner);
    InsertSortedStable(l.overflow, x);
    InsertBounds(l.overflow, x, 0, M);
    InsertSortedMembers(l.overflow, x);
  }

  lemma TakeOutKeeps(l: Lists, t: Id)
    requires Ordered(l)
    ensures var r := TakeOut(l, t); Ordered(r) && SameBut(l, r, t) && !Listed(r, t)
  {
    hide Sorted, NoDup, Below, Owners, Without;
    UnlistSleepers(l.current, l.overflow, t);
    ShorterList(l.current, t);
    ShorterList(l.overflow, t);
  }

  lemma ShorterList(s: seq<Item>, t: Id)
    requires Sorted(s) && Below(s, M)
    ensures var r := WithoutOwner(s, t);
            Sorted(r) && Below(r, M) && forall y: Item :: y.owner != t ==> (y in s <==> y in r)
  {
    WithoutOwnerSorted(s, t);
    WithoutOwnerBounds(s, t, 0, M);
    WithoutOwnerFacts(s, t);
  }

  /** Removing the head of the current list is taking its timer out. */
  lemma HeadOut(l: Lists)
    requires Ordered(l) && l.current != []
    ensures TakeOut(l, l.current[0].owner) == l.(current := l.current[1..]) && Listed(l, l.current[0].owner)
  {
    var t, all := l.current[0].owner, Everyone(l);
    assert all[0] == t;
    NoDupRemove(all, 0);
    assert all[1..] == Owners(l.current[1..]) + Owners(l.overflow);
    hide NoDup, Sorted, Below;
    WithoutHead(l.current, t);
    SameAbsent(l.overflow, t);
  }

  // ----- the decision -----

  /** What is done with a timer that expires next: it is due already, or goes on one of the lists. */
  datatype Verdict = Due | ToOverflow | ToCurrent

  /** The comparisons of `prvInsertTimerInActiveList`. */
  function Decide(next: nat, now: nat, command: nat, period: nat): Verdict {
    if next <= now then
      if Minus(now, command) >= period then Due else ToOverflow
    else if now < command && next >= command then Due
    else ToCurrent
  }

  /**
   In absolute time the decision is exact: due if and only if the expiry time has passed, and
   otherwise on the list of the epoch in which the timer expires.
   */
  lemma DecideExact(c: nat, period: nat, now: nat)
    requires 0 < period < M && c <= now < c + M
    ensures var d := Decide(Plus(c % M, period), now % M, c % M, period);
            && Plus(c % M, period) == (c + period) % M
            && (d == Due <==> c + period <= now)
            && (d == ToOverflow ==> EpochStart(c + period) == EpochStart(now) + M)
            && (d == ToCurrent ==> EpochStart(c + period) == EpochStart(now))
  {
    Advance(c, period);
    Advance(c, now - c);
    Elapsed(c, now);
  }

  /** Each further expiry that is due is nearer to now, so catching up ends. */
  lemma DueShrinks(expired: nat, period: nat, now: nat)
    requires 0 < period < M && expired < M && now < M && Decide(Plus(expired, period), now, expired, period) == Due
    ensures Minus(now, Plus(expired, period)) < Minus(now, expired)
  {
    Advance(expired, period);
    DivModUnique(0, expired);
    DivModUnique(0, now);
    var c := if expired <= now then now - expired else now - expired + M;
    MinusIs(now, expired);
    MinusIs(now, Plus(expired, period));
  }

  lemma MinusIs(x: nat, y: nat)
    requires x < M && y < M
    ensures Minus(x, y) == if y <= x then x - y else x - y + M
  {
    if y <= x {
      DivModUnique(0, x - y);
    } else {
      ModShift(x - y, 1);
      DivModUnique(0, x - y + M);
    }
  }

  // ----- the operations of the daemon -----

  /** A callback is made. */
  function Fire(s: State, t: Id): State
    requires t in s.timer
  {
    s.(timer := s.timer[t := s.timer[t].(fired := s.timer[t].fired + 1)])
  }

  function SetActive(s: State, t: Id, active: bool): State
    requires t in s.timer
  {
    s.(timer := s.timer[t := s.timer[t].(active := active)])
  }

  /** `prvInsertTimerInActiveList`, given its decision. */
  function Insert(s: State, t: Id, next: nat, v: Verdict): State {
    s.(lists := Enter(s.lists, Item(t, next), v))
  }

  function Enter(l: Lists, x: Item, v: Verdict): Lists {
    match v
    case Due => l
    case ToOverflow => PutOverflow(l, x)
    case ToCurrent => PutCurrent(l, x)
  }

  /** `prvReloadTimer`: while the next expiry has passed too, a callback is made and the expiry advanced. */
  function Reload(s: State, t: Id, expired: nat, now: nat): State
    requires t in s.timer && expired < M && now < M
    decreases Minus(now, expired)
  {
    var next := Plus(expired, s.timer[t].period);
    var v := Decide(next, now, expired, s.timer[t].period);
    if v == Due then
      DueShrinks(expired, s.timer[t].period, now);
      Reload(Fire(s, t), t, next, now)
    else Insert(s, t, next, v)
  }

  /** What is done with an expired timer that is on no list, its callback included. */
  function Expired(s: State, t: Id, expired: nat, now: nat): State
    requires t in s.timer && expired < M && now < M
  {
    ReloadKeepsTimer(s, t, expired, now);
    Fire(if s.timer[t].autoReload then Reload(s, t, expired, now) else SetActive(s, t, false), t)
  }

  lemma {:induction false} ReloadKeepsTimer(s: State, t: Id, expired: nat, now: nat)
    requires t in s.timer && expired < M && now < M
    ensures var r := Reload(s, t, expired, now);
            t in r.timer && r.timer == s.timer[t := s.timer[t].(fired := r.timer[t].fired)] && r.last == s.last
            && r.timer[t].fired >= s.timer[t].fired
    decreases Minus(now, expired)
  {
    var next := Plus(expired, s.timer[t].period);
    if Decide(next, now, expired, s.timer[t].period) == Due {
      DueShrinks(expired, s.timer[t].period, now);
      ReloadKeepsTimer(Fire(s, t), t, next, now);
    }
  }

  // ----- counting periods -----

  /** `n` periods. */
  function Times(n: nat, period: nat): nat { n * period }

  lemma TimesAdd(m: nat, n: nat, period: nat)
    ensures Times(m + n, period) == Times(m, period) + Times(n, period)
    ensures Times(0, period) == 0 && Times(1, period) == period
  {
  }

  /**
   Catching up: started for a timer that expired at absolute time `x`, the loop makes one
   callback for each later expiry that has passed and lists the timer for the first that has not.
   */
  ghost predicate CaughtUp(s: State, r: State, t: Id, e: nat, x: nat, now: nat)
    requires t in s.timer
  {
    && t in r.timer && r.timer[t].fired >= s.timer[t].fired
    && r.timer == s.timer[t := s.timer[t].(fired := r.timer[t].fired)] && r.last == s.last
    && var k, p := r.timer[t].fired - s.timer[t].fired, s.timer[t].period;
    && x + Times(k, p) <= now < x + Times(k + 1, p) && On(r.lists, e, t, x + Times(k + 1, p))
    && Ordered(r.lists) && SameBut(s.lists, r.lists, t) && Listed(r.lists, t)
  }

  lemma {:induction false} ReloadCatchesUp(s: State, t: Id, x: nat, now: nat)
    requires t in s.timer && Ordered(s.lists) && !Listed(s.lists, t) && x <= now < x + M
    ensures CaughtUp(s, Reload(s, t, x % M, now % M), t, EpochStart(now), x, now)
    decreases Minus(now % M, x % M)
  {
    hide Times, Ordered, SameBut, Listed, On, Plus, Minus, CaughtUp, Decide, EpochStart;
    var p := s.timer[t].period;
    DecideExact(x, p, now);
    var next := Plus(x % M, p);
    var v := Decide(next, now % M, x % M, p);
    if v == Due {
      DueShrinks(x % M, p, now % M);
      ReloadCatchesUp(Fire(s, t), t, x + p, now);
      OneMore(s, Reload(Fire(s, t), t, next, now % M), t, EpochStart(now), x, now);
    } else {
      ListedNext(s, t, x, now, v);
    }
  }

  lemma OneMore(s: State, r: State, t: Id, e: nat, x: nat, now: nat)
    requires t in s.timer && CaughtUp(Fire(s, t), r, t, e, x + s.timer[t].period, now)
    ensures CaughtUp(s, r, t, e, x, now)
  {
    var p := s.timer[t].period;
    var k := r.timer[t].fired - s.timer[t].fired;
    TimesAdd(1, k - 1, p);
    TimesAdd(1, k, p);
    hide Times, On, Ordered, SameBut;
  }

  /** The next expiry that has not passed is listed in the epoch it belongs to. */
  lemma ListedNext(s: State, t: Id, x: nat, now: nat, v: Verdict)
    requires t in s.timer && Ordered(s.lists) && !Listed(s.lists, t) && x <= now < x + M
    requires v == Decide(Plus(x % M, s.timer[t].period), now % M, x % M, s.timer[t].period) && v != Due
    ensures var p := s.timer[t].period;
            CaughtUp(s, Insert(s, t, Plus(x % M, p), v), t, EpochStart(now), x, now)
  {
    hide CaughtUp, Ordered, SameBut, Listed, On, Decide, Plus, EpochStart, PutOverflow, PutCurrent;
    var p := s.timer[t].period;
    DecideExact(x, p, now);
    InEpoch(x + p);
    PlacedOn(s.lists, t, x + p, (x + p) % M, EpochStart(now), v);
    NoneMissed(s, Insert(s, t, Plus(x % M, p), v), t, EpochStart(now), x, now);
  }

  lemma NoneMissed(s: State, r: State, t: Id, e: nat, x: nat, now: nat)
    requires t in s.timer && r.timer == s.timer && r.last == s.last && x <= now < x + s.timer[t].period
    requires Ordered(r.lists) && SameBut(s.lists, r.lists, t) && Listed(r.lists, t)
        && On(r.lists, e, t, x + s.timer[t].period)
    ensures CaughtUp(s, r, t, e, x, now)
  {
    hide Ordered, SameBut, Listed, On, Times;
    TimesAdd(0, 1, s.timer[t].period);
    assert r.timer == s.timer[t := s.timer[t].(fired := r.timer[t].fired)];
  }

  lemma InEpoch(y: nat)
    ensures EpochStart(y) >= 0 && y == EpochStart(y) + y % M && y % M < M
  {
  }

  /** A timer that goes on the current list expires in epoch `e`, one on the overflow list in the next. */
  lemma PlacedOn(l: Lists, t: Id, y: nat, v: nat, e: nat, w: Verdict)
    requires Ordered(l) && !Listed(l, t) && v < M && w != Due
    requires y == v + (if w == ToOverflow then e + M else e)
    ensures var r := if w == ToOverflow then PutOverflow(l, Item(t, v)) else PutCurrent(l, Item(t, v));
            Ordered(r) && SameBut(l, r, t) && Listed(r, t) && On(r, e, t, y)
  {
    hide Ordered, SameBut, Listed, PutOverflow, PutCurrent;
    if w == ToOverflow {
      PutOverflowKeeps(l, Item(t, v));
    } else {
      PutCurrentKeeps(l, Item(t, v));
    }
  }

  // ----- the invariant and the course of one timer -----

  /** Outside `held`, whose timers are on no list, a timer is active exactly if it is listed. */
  ghost predicate Good(s: State, held: set<Id>) {
    && Ordered(s.lists)
    && (forall t :: Listed(s.lists, t) ==> t in s.timer && t !in held)
    && (forall t :: t in s.timer && t !in held ==> (s.timer[t].active <==> Listed(s.lists, t)))
  }

  /**
   Timer `t`, started at absolute time `c` when it had made `f` callbacks, is on course: its
   listed expiry is the start time plus one period more than the number of callbacks made since,
   and none of them was early.  A one-shot timer makes one callback and is then dormant.
   */
  ghost predicate OnCourse(s: State, e: nat, now: nat, t: Id, c: nat, f: nat) {
    && t in s.timer && s.timer[t].fired >= f
    && var n, p := s.timer[t].fired - f, s.timer[t].period;
    if s.timer[t].autoReload then
      s.timer[t].active && On(s.lists, e, t, c + Times(n + 1, p)) && c + Times(n, p) <= now
    else
      || (n == 0 && s.timer[t].active && On(s.lists, e, t, c + Times(1, p)))
      || (n == 1 && !s.timer[t].active && c + Times(1, p) <= now)
  }

  /** Nothing but timer `t` has changed. */
  ghost predicate OthersSame(s: State, r: State, t: Id) {
    && SameBut(s.lists, r.lists, t) && r.last == s.last
    && (forall u :: u != t ==> (u in s.timer <==> u in r.timer))
    && (forall u :: u != t && u in s.timer ==> r.timer[u] == s.timer[u])
  }

  lemma OtherOnCourse(s: State, r: State, e: nat, now: nat, t: Id, u: Id, c: nat, f: nat)
    requires OthersSame(s, r, t) && u != t && OnCourse(s, e, now, u, c, f)
    ensures OnCourse(r, e, now, u, c, f)
  {
    hide Times, Listed;
  }

  lemma LaterOnCourse(s: State, e: nat, now: nat, later: nat, t: Id, c: nat, f: nat)
    requires now <= later && OnCourse(s, e, now, t, c, f)
    ensures OnCourse(s, e, later, t, c, f)
  {
    hide Times, On;
  }

  /** An expired timer that was taken off its list: what becomes of it, and of the others. */
  lemma ExpiredKeeps(s: State, t: Id, x: nat, now: nat, held: set<Id>)
    requires t !in held && Good(s, held + {t}) && t in s.timer && s.timer[t].active && x <= now < x + M
    ensures var r := Expired(s, t, x % M, now % M); Good(r, held) && OthersSame(s, r, t)
    ensures s.timer[t].autoReload ==> CaughtUp(s, Reload(s, t, x % M, now % M), t, EpochStart(now), x, now)
  {
    hide Ordered, On, Times, EpochStart, Reload;
    var r := Expired(s, t, x % M, now % M);
    assert t in held + {t};
    if s.timer[t].autoReload {
      ReloadCatchesUp(s, t, x, now);
      hide Listed;
      Relisted(s, r, t, held);
    } else {
      hide Listed;
      Unlisted(s, r, t, held);
    }
  }

  lemma Relisted(s: State, r: State, t: Id, held: set<Id>)
    requires t !in held && Good(s, held + {t}) && OthersSame(s, r, t) && Ordered(r.lists)
    requires t in r.timer && r.timer[t].active && Listed(r.lists, t)
    ensures Good(r, held)
  {
    hide Ordered, Listed;
  }

  lemma Unlisted(s: State, r: State, t: Id, held: set<Id>)
    requires t !in held && Good(s, held + {t}) && OthersSame(s, r, t) && r.lists == s.lists
    requires t in r.timer ==> !r.timer[t].active
    ensures Good(r, held)
  {
    hide Ordered, Listed;
    assert !Listed(s.lists, t);
  }

  lemma ExpiredOnCourse(s: State, t: Id, x: nat, now: nat, held: set<Id>, c: nat, f: nat)
    requires t !in held && Good(s, held + {t}) && t in s.timer && s.timer[t].active && x <= now < x + M
    requires s.timer[t].fired >= f && x == c + Times(s.timer[t].fired - f + 1, s.timer[t].period)
    requires !s.timer[t].autoReload ==> s.timer[t].fired == f
    ensures OnCourse(Expired(s, t, x % M, now % M), EpochStart(now), now, t, c, f)
  {
    hide Good, OthersSame, On, EpochStart, Reload, CaughtUp, Times;
    ExpiredKeeps(s, t, x, now, held);
    if s.timer[t].autoReload {
      hide OnCourse;
      CaughtUpOnCourse(s, Reload(s, t, x % M, now % M), t, EpochStart(now), x, now, c, f);
    }
  }

  lemma CaughtUpOnCourse(s: State, r: State, t: Id, e: nat, x: nat, now: nat, c: nat, f: nat)
    requires t in s.timer && s.timer[t].active && s.timer[t].autoReload && CaughtUp(s, r, t, e, x, now)
    requires s.timer[t].fired >= f && x == c + Times(s.timer[t].fired - f + 1, s.timer[t].period)
    ensures OnCourse(Fire(r, t), e, now, t, c, f)
  {
    hide On, Ordered, SameBut, Listed, Times;
    var n, p := s.timer[t].fired - f, s.timer[t].period;
    var k := r.timer[t].fired - s.timer[t].fired;
    TimesAdd(n + 1, k, p);
    TimesAdd(n + 1, k + 1, p);
  }

  // ----- expiry at the head of the current list -----

  ghost predicate HasHead(s: State) {
    && s.lists.current != [] && s.lists.current[0].owner in s.timer && s.lists.current[0].value < M
  }

  /** `prvProcessExpiredTimer`. */
  function ExpireHead(s: State, now: nat): State
    requires HasHead(s) && now < M
  {
    var head := s.lists.current[0];
    Expired(s.(lists := s.lists.(current := s.lists.current[1..])), head.owner, head.value, now)
  }

  lemma GoodHead(s: State, held: set<Id>)
    requires Good(s, held) && s.lists.current != []
    ensures HasHead(s) && s.timer[s.lists.current[0].owner].active && s.lists.current[0].owner !in held
    ensures var t := s.lists.current[0].owner;
            var s1 := s.(lists := s.lists.(current := s.lists.current[1..]));
            Good(s1, held + {t}) && OthersSame(s, s1, t)
  {
    var t := s.lists.current[0].owner;
    HeadOut(s.lists);
    TakeOutKeeps(s.lists, t);
    hide Ordered, Listed, TakeOut;
    GoodBelow(s.lists);
  }

  lemma GoodBelow(l: Lists)
    requires Ordered(l) && l.current != []
    ensures l.current[0].value < M
  {
  }

  /** A timer is listed once, so the expiry time its head item shows is the one it is on course for. */
  lemma HeadUnique(l: Lists, e: nat, x: nat)
    requires Ordered(l) && l.current != [] && On(l, e, l.current[0].owner, x)
    ensures x == e + l.current[0].value
  {
    var t, all := l.current[0].owner, Everyone(l);
    hide Sorted, Below;
    if x >= e && Item(t, x - e) in l.current {
      var i :| 0 <= i < |l.current| && l.current[i] == Item(t, x - e);
      assert all[i] == t && all[0] == t;
      if i != 0 {
        Differ(all, 0, i);
      }
    } else {
      var i :| 0 <= i < |l.overflow| && l.overflow[i] == Item(t, x - e - M);
      assert all[|l.current| + i] == t && all[0] == t;
      Differ(all, 0, |l.current| + i);
    }
  }

  /** Absolute times within one epoch. */
  lemma WithinEpoch(now: nat, v: nat)
    requires v < M
    ensures (EpochStart(now) + v) % M == v && EpochStart(EpochStart(now) + v) == EpochStart(now)
  {
    Div(now);
    DivModUnique(now / M, v);
  }

  lemma ExpireHeadKeeps(s: State, now: nat, held: set<Id>)
    requires Good(s, held) && s.lists.current != [] && EpochStart(now) + s.lists.current[0].value <= now
    ensures HasHead(s) && Good(ExpireHead(s, now % M), held) && ExpireHead(s, now % M).last == s.last
    ensures OthersSame(s, ExpireHead(s, now % M), s.lists.current[0].owner)
  {
    hide Good, Expired, Ordered;
    var head := s.lists.current[0];
    GoodHead(s, held);
    WithinEpoch(now, head.value);
    NowWithin(now);
    hide EpochStart;
    var s1 := s.(lists := s.lists.(current := s.lists.current[1..]));
    ExpiredKeeps(s1, head.owner, EpochStart(now) + head.value, now, held);
    SameTwice(s, s1, ExpireHead(s, now % M), head.owner);
  }

  lemma NowWithin(now: nat)
    ensures EpochStart(now) <= now < EpochStart(now) + M
  {
  }

  lemma SameTwice(s: State, m: State, r: State, t: Id)
    requires OthersSame(s, m, t) && OthersSame(m, r, t)
    ensures OthersSame(s, r, t)
  {
    hide Listed;
  }

  lemma ExpireHeadOnCourse(s: State, now: nat, held: set<Id>, t: Id, c: nat, f: nat)
    requires Good(s, held) && s.lists.current != [] && EpochStart(now) + s.lists.current[0].value <= now
    requires OnCourse(s, EpochStart(now), now, t, c, f) && t !in held
    ensures HasHead(s) && OnCourse(ExpireHead(s, now % M), EpochStart(now), now, t, c, f)
  {
    hide Good, Expired, Ordered, Times;
    var e, head := EpochStart(now), s.lists.current[0];
    GoodHead(s, held);
    ExpireHeadKeeps(s, now, held);
    if t != head.owner {
      hide HasHead, ExpireHead, EpochStart;
      OtherOnCourse(s, ExpireHead(s, now % M), e, now, head.owner, t, c, f);
    } else {
      WithinEpoch(now, head.value);
      NowWithin(now);
      GoodOrdered(s, held);
      hide EpochStart;
      HeadUnique(s.lists, e, c + Times(s.timer[t].fired - f + 1, s.timer[t].period));
      hide On;
      var s1 := s.(lists := s.lists.(current := s.lists.current[1..]));
      ExpiredOnCourse(s1, t, e + head.value, now, held, c, f);
    }
  }

  lemma GoodOrdered(s: State, held: set<Id>)
    requires Good(s, held)
    ensures Ordered(s.lists)
  {
  }

  // ----- switching the lists -----

  ghost predicate Drainable(s: State) {
    forall i :: 0 <= i < |s.lists.current| ==> s.lists.current[i].owner in s.timer && s.lists.current[i].value < M
  }

  /** At the last tick of an epoch a reload never goes on the current list. */
  lemma {:induction false} ReloadAtEnd(s: State, t: Id, expired: nat)
    requires t in s.timer && expired < M
    ensures Reload(s, t, expired, M - 1).lists.current == s.lists.current
    decreases Minus(M - 1, expired)
  {
    var p := s.timer[t].period;
    var next := Plus(expired, p);
    if Decide(next, M - 1, expired, p) == Due {
      DueShrinks(expired, p, M - 1);
      ReloadAtEnd(Fire(s, t), t, next);
    }
  }

  lemma ExpireAtEnd(s: State)
    requires Drainable(s) && s.lists.current != []
    ensures HasHead(s)
    ensures ExpireHead(s, M - 1).lists.current == s.lists.current[1..] && Drainable(ExpireHead(s, M - 1))
  {
    var head := s.lists.current[0];
    var s1 := s.(lists := s.lists.(current := s.lists.current[1..]));
    ReloadAtEnd(s1, head.owner, head.value);
    ReloadKeepsTimer(s1, head.owner, head.value, M - 1);
    hide Reload;
  }

  /** The loop of `prvSwitchTimerLists`: expire the head of the current list until it is empty. */
  function DrainCurrent(s: State): State
    requires Drainable(s)
    decreases |s.lists.current|
  {
    if s.lists.current == [] then s
    else
      ExpireAtEnd(s);
      DrainCurrent(ExpireHead(s, M - 1))
  }

  /** `prvSwitchTimerLists`. */
  function SwitchLists(s: State): State
    requires Drainable(s)
  {
    var r := DrainCurrent(s);
    r.(lists := Lists(r.lists.overflow, r.lists.current))
  }

  /** `prvSampleTimeNow`. */
  function Sample(s: State, now: nat): State
    requires Drainable(s)
  {
    (if now < s.last then SwitchLists(s) else s).(last := now)
  }

  lemma GoodDrainable(s: State, held: set<Id>)
    requires Good(s, held)
    ensures Drainable(s)
  {
    forall i | 0 <= i < |s.lists.current| ensures s.lists.current[i].owner in s.timer && s.lists.current[i].value < M {
      assert Everyone(s.lists)[i] == s.lists.current[i].owner;
      assert Listed(s.lists, s.lists.current[i].owner);
    }
  }

  /** The last tick of the epoch of `now`, to which the drained timers are held. */
  function EpochEnd(now: nat): nat { EpochStart(now) + M - 1 }

  lemma EndOfEpoch(now: nat)
    ensures EpochEnd(now) % M == M - 1 && EpochStart(EpochEnd(now)) == EpochStart(now) && now <= EpochEnd(now)
  {
    WithinEpoch(now, M - 1);
    NowWithin(now);
  }

  /** Draining empties the current list, keeps everything in order, and nobody off course. */
  lemma {:induction false} DrainKeeps(s: State, now: nat, held: set<Id>)
    requires Good(s, held)
    ensures Drainable(s) && Good(DrainCurrent(s), held) && DrainCurrent(s).lists.current == []
        && DrainCurrent(s).last == s.last
    decreases |s.lists.current|
  {
    GoodDrainable(s, held);
    hide Good, Drainable, ExpireHead, HasHead;
    if s.lists.current != [] {
      HeadBeforeEnd(s, now, held);
      EndOfEpoch(now);
      hide EpochEnd, EpochStart;
      ExpireHeadKeeps(s, EpochEnd(now), held);
      ExpireAtEnd(s);
      DrainKeeps(ExpireHead(s, M - 1), now, held);
    }
  }

  lemma HeadBeforeEnd(s: State, now: nat, held: set<Id>)
    requires Good(s, held) && s.lists.current != []
    ensures EpochStart(EpochEnd(now)) + s.lists.current[0].value <= EpochEnd(now)
  {
    EndOfEpoch(now);
    GoodHead(s, held);
    hide Good, EpochStart;
  }

  lemma {:induction false} DrainOnCourse(s: State, now: nat, held: set<Id>, t: Id, c: nat, f: nat)
    requires Good(s, held) && t !in held && OnCourse(s, EpochStart(now), EpochEnd(now), t, c, f)
    ensures Drainable(s) && OnCourse(DrainCurrent(s), EpochStart(now), EpochEnd(now), t, c, f)
    decreases |s.lists.current|
  {
    GoodDrainable(s, held);
    hide Good, Drainable, ExpireHead, HasHead, OnCourse;
    if s.lists.current != [] {
      HeadBeforeEnd(s, now, held);
      EndOfEpoch(now);
      hide EpochEnd, EpochStart;
      ExpireHeadKeeps(s, EpochEnd(now), held);
      ExpireHeadOnCourse(s, EpochEnd(now), held, t, c, f);
      ExpireAtEnd(s);
      DrainOnCourse(ExpireHead(s, M - 1), now, held, t, c, f);
    }
  }

  /** Timers of the overflow list expire in the epoch that becomes the current one. */
  lemma SwitchedOn(l: Lists, e: nat, t: Id, x: nat)
    requires l.current == [] && On(l, e, t, x)
    ensures On(Lists(l.overflow, l.current), e + M, t, x)
  {
  }

  lemma SwappedGood(s: State, held: set<Id>)
    requires Good(s, held) && s.lists.current == []
    ensures Good(s.(lists := Lists(s.lists.overflow, s.lists.current)), held)
  {
    var r := s.(lists := Lists(s.lists.overflow, s.lists.current));
    assert Owners(s.lists.current) == [];
    assert Everyone(r.lists) == Everyone(s.lists);
    hide NoDup, Sorted, Below;
    assert forall t :: Listed(r.lists, t) <==> Listed(s.lists, t);
  }

  lemma SwitchKeeps(s: State, now: nat, held: set<Id>)
    requires Good(s, held)
    ensures Drainable(s) && Good(SwitchLists(s), held) && SwitchLists(s).lists.overflow == []
  {
    hide Good, Drainable, DrainCurrent;
    DrainKeeps(s, now, held);
    SwappedGood(DrainCurrent(s), held);
  }

  lemma SwitchOnCourse(s: State, now: nat, held: set<Id>, t: Id, c: nat, f: nat)
    requires Good(s, held) && t !in held && OnCourse(s, EpochStart(now), now, t, c, f)
    ensures Drainable(s) && OnCourse(SwitchLists(s), EpochStart(now) + M, EpochEnd(now), t, c, f)
  {
    hide Good, Drainable, DrainCurrent, On, Times;
    EndOfEpoch(now);
    hide EpochEnd, EpochStart;
    LaterOnCourse(s, EpochStart(now), now, EpochEnd(now), t, c, f);
    DrainKeeps(s, now, held);
    DrainOnCourse(s, now, held, t, c, f);
    var r := DrainCurrent(s);
    var n, p := r.timer[t].fired - f, r.timer[t].period;
    if r.timer[t].active {
      SwitchedOn(r.lists, EpochStart(now), t, c + Times(n + 1, p));
    }
  }

  // ----- sampling time -----

  /** The daemon last sampled time at absolute time `now`. */
  ghost predicate At(s: State, now: nat, held: set<Id>) { Good(s, held) && s.last == now % M }

  /** Sampling at most `M - 1` ticks later sees exactly the wraps, and nothing goes off course. */
  lemma SampleKeeps(s: State, before: nat, now: nat, held: set<Id>)
    requires At(s, before, held) && before <= now < before + M
    ensures Drainable(s) && At(Sample(s, now % M), now, held)
    ensures now % M < s.last <==> EpochStart(now) == EpochStart(before) + M
    ensures EpochStart(now) != EpochStart(before) + M ==>
        EpochStart(now) == EpochStart(before) && Sample(s, now % M).lists == s.lists
  {
    GoodDrainable(s, held);
    Advance(before, now - before);
    if now % M < s.last {
      SwitchKeeps(s, before, held);
    }
    hide Ordered, SwitchLists;
  }

  lemma SampleOnCourse(s: State, before: nat, now: nat, held: set<Id>, t: Id, c: nat, f: nat)
    requires At(s, before, held) && before <= now < before + M && t !in held
        && OnCourse(s, EpochStart(before), before, t, c, f)
    ensures Drainable(s) && OnCourse(Sample(s, now % M), EpochStart(now), now, t, c, f)
  {
    hide Good, Drainable, SwitchLists, OnCourse;
    SampleKeeps(s, before, now, held);
    if now % M < s.last {
      SwitchOnCourse(s, before, held, t, c, f);
      EndOfEpoch(before);
      NowWithin(now);
      hide EpochStart, EpochEnd;
      LaterOnCourse(SwitchLists(s), EpochStart(now), EpochEnd(before), now, t, c, f);
      SampledOnCourse(SwitchLists(s), EpochStart(now), now, t, c, f);
    } else {
      LaterOnCourse(s, EpochStart(now), before, now, t, c, f);
      SampledOnCourse(s, EpochStart(now), now, t, c, f);
    }
  }

  lemma SampledOnCourse(s: State, e: nat, now: nat, t: Id, c: nat, f: nat)
    requires OnCourse(s, e, now, t, c, f)
    ensures OnCourse(s.(last := now % M), e, now, t, c, f)
  {
    hide On, Times;
  }

  // ----- one pass of the daemon -----

  /** `prvGetNextExpireTime`. */
  function NextExpiry(s: State): nat { if s.lists.current == [] then 0 else s.lists.current[0].value }

  /** `prvProcessTimerOrBlockTask` does not expire a timer: the daemon waits for time or a command. */
  predicate Blocks(s: State, now: nat) { !(now < s.last) && (s.lists.current == [] || NextExpiry(s) > now) }

  /** `prvProcessTimerOrBlockTask`. */
  function Pass(s: State, now: nat): State
    requires Drainable(s) && now < M
  {
    var r := Sample(s, now);
    if now < s.last || s.lists.current == [] || NextExpiry(s) > now then r else ExpireHead(r, now)
  }

  lemma PassKeeps(s: State, before: nat, now: nat)
    requires At(s, before, {}) && before <= now < before + M
    ensures Drainable(s) && At(Pass(s, now % M), now, {})
  {
    SampleKeeps(s, before, now, {});
    var r := Sample(s, now % M);
    hide Drainable, Good, Sample, ExpireHead, HasHead;
    NowWithin(now);
    if !(now % M < s.last) && s.lists.current != [] && NextExpiry(s) <= now % M {
      hide EpochStart;
      HeadDue(r, now);
      ExpireHeadKeeps(r, now, {});
    }
  }

  lemma HeadDue(r: State, now: nat)
    requires r.lists.current != [] && r.lists.current[0].value <= now % M
    ensures EpochStart(now) + r.lists.current[0].value <= now
  {
  }

  lemma PassOnCourse(s: State, before: nat, now: nat, t: Id, c: nat, f: nat)
    requires At(s, before, {}) && before <= now < before + M && OnCourse(s, EpochStart(before), before, t, c, f)
    ensures Drainable(s) && OnCourse(Pass(s, now % M), EpochStart(now), now, t, c, f)
  {
    SampleKeeps(s, before, now, {});
    SampleOnCourse(s, before, now, {}, t, c, f);
    var r := Sample(s, now % M);
    hide Drainable, Good, Sample, ExpireHead, HasHead, OnCourse;
    if !(now % M < s.last) && s.lists.current != [] && NextExpiry(s) <= now % M {
      hide EpochStart;
      HeadDue(r, now);
      ExpireHeadOnCourse(r, now, {}, t, c, f);
    }
  }

  // ----- commands -----

  /** The commands of the timer queue; the from-interrupt and reset forms are handled as a start. */
  datatype Command = Start(t: Id, at: nat) | Stop(t: Id) | ChangePeriod(t: Id, period: nat) | Delete(t: Id)

  function Started(s: State, t: Id, at: nat, now: nat): State
    requires t in s.timer && at < M && now < M
  {
    var p := s.timer[t].period;
    var s1 := SetActive(s, t, true);
    var v := Decide(Plus(at, p), now, at, p);
    if v == Due then Expired(s1, t, Plus(at, p), now) else Insert(s1, t, Plus(at, p), v)
  }

  /**
   The flag and the lists after a change to any period, asserted to be positive or not.  The verdict
   of the insertion is ignored: the command time is the current time.
   */
  function ChangeTo(l: Lists, t: Id, period: nat, now: nat): (r: (bool, Lists)) {
    (true, Enter(l, Item(t, Plus(now, period)), Decide(Plus(now, period), now, now, period)))
  }

  function Changed(s: State, t: Id, period: Period, now: nat): State
    requires t in s.timer && now < M
  {
    var (active, lists) := ChangeTo(s.lists, t, period, now);
    s.(timer := s.timer[t := s.timer[t].(active := active, period := period)], lists := lists)
  }

  /** A deleted timer is freed, or marked dormant if its memory is not the kernel's. */
  function Deleted(s: State, t: Id): State
    requires t in s.timer
  {
    if s.timer[t].dynamic then s.(timer := s.timer - {t}) else SetActive(s, t, false)
  }

  /** One message: the timer is taken off its list, time is sampled, and the command carried out. */
  function Handle(s: State, c: Command, now: nat): State
    requires Good(s, {}) && c.t in s.timer && now < M
    requires c.Start? ==> c.at < M
    requires c.ChangePeriod? ==> 0 < c.period < M
  {
    TakenGood(s, c.t);
    GoodDrainable(Taken(s, c.t), {c.t});
    var s2 := Sample(Taken(s, c.t), now);
    SampleKeepsTimers(Taken(s, c.t), now);
    match c
    case Start(t, at) => Started(s2, t, at, now)
    case Stop(t) => SetActive(s2, t, false)
    case ChangePeriod(t, p) => Changed(s2, t, p, now)
    case Delete(t) => Deleted(s2, t)
  }

  function Taken(s: State, t: Id): State { s.(lists := TakeOut(s.lists, t)) }

  lemma TakenGood(s: State, t: Id)
    requires Good(s, {}) && t in s.timer
    ensures Good(Taken(s, t), {t}) && OthersSame(s, Taken(s, t), t)
  {
    TakeOutKeeps(s.lists, t);
    hide Ordered, Listed;
  }

  lemma {:induction false} DrainKeepsTimers(s: State)
    requires Drainable(s)
    ensures DrainCurrent(s).timer.Keys == s.timer.Keys
    decreases |s.lists.current|
  {
    if s.lists.current != [] {
      ExpireAtEnd(s);
      var head := s.lists.current[0];
      ReloadKeepsTimer(s.(lists := s.lists.(current := s.lists.current[1..])), head.owner, head.value, M - 1);
      hide Reload;
      DrainKeepsTimers(ExpireHead(s, M - 1));
    }
  }

  lemma SampleKeepsTimers(s: State, now: nat)
    requires Drainable(s)
    ensures Sample(s, now).timer.Keys == s.timer.Keys
  {
    hide DrainCurrent, Drainable;
    if now < s.last {
      DrainKeepsTimers(s);
    }
  }

  /** A timer that is not due goes on the list of the epoch it expires in. */
  lemma InsertedKeeps(s: State, t: Id, c: nat, now: nat, v: Verdict)
    requires Good(s, {t}) && t in s.timer && s.timer[t].active && c <= now < c + M
    requires v == Decide(Plus(c % M, s.timer[t].period), now % M, c % M, s.timer[t].period) && v != Due
    ensures var p := s.timer[t].period;
            var r := Insert(s, t, Plus(c % M, p), v);
            Good(r, {}) && OthersSame(s, r, t) && On(r.lists, EpochStart(now), t, c + p) && r.timer == s.timer
  {
    hide Good, OthersSame, Ordered, SameBut, Listed, On, Decide, Plus, EpochStart, PutOverflow, PutCurrent;
    var p := s.timer[t].period;
    HeldUnlisted(s, t);
    DecideExact(c, p, now);
    InEpoch(c + p);
    PlacedOn(s.lists, t, c + p, (c + p) % M, EpochStart(now), v);
    ListsChanged(s, Insert(s, t, Plus(c % M, p), v), t);
    assert {} + {t} == {t};
    Relisted(s, Insert(s, t, Plus(c % M, p), v), t, {});
  }

  lemma HeldUnlisted(s: State, t: Id)
    requires Good(s, {t})
    ensures Ordered(s.lists) && !Listed(s.lists, t)
  {
    hide Ordered, Listed;
  }

  lemma ListsChanged(s: State, r: State, t: Id)
    requires r.timer == s.timer && r.last == s.last && SameBut(s.lists, r.lists, t)
    ensures OthersSame(s, r, t)
  {
    hide SameBut;
  }

  /** A change of fields of a timer that is on no list. */
  lemma RetimedGood(s: State, t: Id, x: Timer)
    requires Good(s, {t}) && t in s.timer
    ensures var r := s.(timer := s.timer[t := x]); Good(r, {t}) && OthersSame(s, r, t)
  {
    hide Ordered, Listed;
  }

  /**
   A start command issued at absolute time `c` and handled at `now`, however stale within a turn
   of the clock: expiries that have passed are made up for, and the timer is on course.
   */
  lemma StartedOnCourse(s: State, t: Id, c: nat, now: nat)
    requires Good(s, {t}) && t in s.timer && c <= now < c + M
    ensures var r := Started(s, t, c % M, now % M);
            Good(r, {}) && OthersSame(s, r, t) && OnCourse(r, EpochStart(now), now, t, c, s.timer[t].fired)
  {
    hide Good, OthersSame, On, Expired, EpochStart, Times;
    var p, s1 := s.timer[t].period, SetActive(s, t, true);
    RetimedGood(s, t, s.timer[t].(active := true));
    DecideExact(c, p, now);
    TimesAdd(0, 1, p);
    var v := Decide(Plus(c % M, p), now % M, c % M, p);
    assert {} + {t} == {t};
    if v == Due {
      ExpiredKeeps(s1, t, c + p, now, {});
      ExpiredOnCourse(s1, t, c + p, now, {}, c, s.timer[t].fired);
    } else {
      InsertedKeeps(s1, t, c, now, v);
    }
    SameTwice(s, s1, Started(s, t, c % M, now % M), t);
  }

  /** A new period counts from the moment the command is handled, and is never due at once. */
  lemma ChangedOnCourse(s: State, t: Id, p: Period, now: nat)
    requires Good(s, {t}) && t in s.timer
    ensures var r := Changed(s, t, p, now % M);
            Good(r, {}) && OthersSame(s, r, t) && OnCourse(r, EpochStart(now), now, t, now, s.timer[t].fired)
  {
    hide Good, OthersSame, On, EpochStart, Times;
    var x := s.timer[t].(active := true, period := p);
    var s1 := s.(timer := s.timer[t := x]);
    RetimedGood(s, t, x);
    DecideExact(now, p, now);
    TimesAdd(0, 1, p);
    InsertedKeeps(s1, t, now, now, Decide(Plus(now % M, p), now % M, now % M, p));
    SameTwice(s, s1, Changed(s, t, p, now % M), t);
  }

  /**
   A changed timer is active exactly if it is listed, unless the new period is zero: then it is active
   and on no list.
   */
  lemma ZeroPeriodIsLost(s: State, t: Id, p: nat, now: nat)
    requires Good(s, {t}) && p < M && now < M
    ensures var (active, lists) := ChangeTo(s.lists, t, p, now);
            && ((active <==> Listed(lists, t)) <==> p > 0)
            && (p == 0 ==> active && !Listed(lists, t) && lists == s.lists)
  {
    HeldUnlisted(s, t);
    DivModUnique(0, now);
    Advance(now, p);
    MinusIs(now, now);
    var v := Decide(Plus(now, p), now, now, p);
    assert v == Due <==> p == 0;
    hide Ordered, Listed, Decide;
    if v == ToOverflow {
      PutOverflowKeeps(s.lists, Item(t, Plus(now, p)));
    } else if v == ToCurrent {
      PutCurrentKeeps(s.lists, Item(t, Plus(now, p)));
    }
  }

  // ----- steps and runs -----

  /** Times are absolute; `SetReload` and `Create` happen in other tasks. */
  datatype Step =
    | Daemon(now: nat)
    | Message(command: Command, now: nat)
    | SetReload(t: Id, autoReload: bool)
    | Create(t: Id, period: Period, autoReload: bool, dynamic: bool)

  function TimeAfter(st: Step, before: nat): nat {
    match st
    case Daemon(now) => now
    case Message(_, now) => now
    case _ => before
  }

  /** The daemon samples time, and handles a command, less than a turn of the clock late. */
  predicate Enabled(s: State, before: nat, st: Step) {
    match st
    case Daemon(now) => before <= now < before + M
    case Message(c, now) =>
      && before <= now < before + M && c.t in s.timer
      && (c.Start? ==> c.at <= now < c.at + M) && (c.ChangePeriod? ==> 0 < c.period < M)
    case SetReload(t, _) => t in s.timer
    case Create(t, _, _, _) => t !in s.timer
  }

  function Modular(c: Command): Command { if c.Start? then c.(at := c.at % M) else c }

  function Apply(s: State, before: nat, st: Step): State
    requires At(s, before, {}) && Enabled(s, before, st)
  {
    match st
    case Daemon(now) =>
      GoodDrainable(s, {});
      Pass(s, now % M)
    case Message(c, now) => Handle(s, Modular(c), now % M)
    case SetReload(t, b) => s.(timer := s.timer[t := s.timer[t].(autoReload := b)])
    case Create(t, p, b, d) => s.(timer := s.timer[t := Timer(p, b, false, d, 0)])
  }

  predicate Concerns(st: Step, t: Id) {
    match st
    case Daemon(_) => false
    case Message(c, _) => c.t == t
    case SetReload(u, _) => u == t
    case Create(u, _, _, _) => u == t
  }

  /** What the command itself does once the timer is off its list and time has been sampled. */
  lemma CommandKeeps(s: State, c: Command, now: nat)
    requires Good(s, {c.t}) && c.t in s.timer && s.last == now % M
    requires c.Start? ==> c.at <= now < c.at + M
    requires c.ChangePeriod? ==> 0 < c.period < M
    ensures var r := match c
                     case Start(t, at) => Started(s, t, at % M, now % M)
                     case Stop(t) => SetActive(s, t, false)
                     case ChangePeriod(t, p) => Changed(s, t, p, now % M)
                     case Delete(t) => Deleted(s, t);
            At(r, now, {}) && OthersSame(s, r, c.t)
  {
    hide Good, OthersSame, Started, Changed;
    match c
    case Start(t, at) =>
      StartedOnCourse(s, t, at, now);
      LastSame(s, Started(s, t, at % M, now % M), t);
    case Stop(t) => DormantGood(s, SetActive(s, t, false), t);
    case ChangePeriod(t, p) =>
      ChangedOnCourse(s, t, p, now);
      LastSame(s, Changed(s, t, p, now % M), t);
    case Delete(t) => DormantGood(s, Deleted(s, t), t);
  }

  lemma LastSame(s: State, r: State, t: Id)
    requires OthersSame(s, r, t)
    ensures r.last == s.last
  {
  }

  lemma DormantGood(s: State, r: State, t: Id)
    requires Good(s, {t}) && r.lists == s.lists && r.last == s.last
    requires r.timer == s.timer - {t} || (t in s.timer && r.timer == s.timer[t := s.timer[t].(active := false)])
    ensures Good(r, {}) && OthersSame(s, r, t)
  {
    hide Ordered, Listed;
    assert !Listed(s.lists, t);
  }

  lemma HandleKeeps(s: State, before: nat, c: Command, now: nat)
    requires At(s, before, {}) && Enabled(s, before, Message(c, now))
    ensures At(Handle(s, Modular(c), now % M), now, {})
  {
    hide Good, OthersSame, Drainable, Started, Changed, Deleted, SetActive, Sample;
    TakenGood(s, c.t);
    GoodDrainable(Taken(s, c.t), {c.t});
    SampleKeeps(Taken(s, c.t), before, now, {c.t});
    SampleKeepsTimers(Taken(s, c.t), now % M);
    CommandKeeps(Sample(Taken(s, c.t), now % M), c, now);
  }

  lemma HandleOnCourse(s: State, before: nat, c: Command, now: nat, u: Id, from: nat, f: nat)
    requires At(s, before, {}) && Enabled(s, before, Message(c, now)) && u != c.t
    requires OnCourse(s, EpochStart(before), before, u, from, f)
    ensures OnCourse(Handle(s, Modular(c), now % M), EpochStart(now), now, u, from, f)
  {
    hide Good, OthersSame, Drainable, Started, Changed, Deleted, SetActive, Sample, OnCourse, EpochStart;
    TakenGood(s, c.t);
    GoodDrainable(Taken(s, c.t), {c.t});
    OtherOnCourse(s, Taken(s, c.t), EpochStart(before), before, c.t, u, from, f);
    SampleKeeps(Taken(s, c.t), before, now, {c.t});
    SampleOnCourse(Taken(s, c.t), before, now, {c.t}, u, from, f);
    SampleKeepsTimers(Taken(s, c.t), now % M);
    var s2 := Sample(Taken(s, c.t), now % M);
    CommandKeeps(s2, c, now);
    OtherOnCourse(s2, Handle(s, Modular(c), now % M), EpochStart(now), now, c.t, u, from, f);
  }

  lemma ApplyKeeps(s: State, before: nat, st: Step)
    requires At(s, before, {}) && Enabled(s, before, st)
    ensures At(Apply(s, before, st), TimeAfter(st, before), {})
  {
    match st
    case Daemon(now) => PassKeeps(s, before, now);
    case Message(c, now) => HandleKeeps(s, before, c, now);
    case SetReload(t, b) =>
      hide Ordered, Listed;
    case Create(t, p, b, d) =>
      hide Ordered, Listed;
  }

  /** No step takes a timer off course but one that concerns it. */
  lemma ApplyOnCourse(s: State, before: nat, st: Step, t: Id, c: nat, f: nat)
    requires At(s, before, {}) && Enabled(s, before, st) && !Concerns(st, t)
    requires OnCourse(s, EpochStart(before), before, t, c, f)
    ensures OnCourse(Apply(s, before, st), EpochStart(TimeAfter(st, before)), TimeAfter(st, before), t, c, f)
  {
    hide At, OnCourse, Pass, Handle;
    match st
    case Daemon(now) => PassOnCourse(s, before, now, t, c, f);
    case Message(c1, now) => HandleOnCourse(s, before, c1, now, t, c, f);
    case SetReload(u, b) => FieldOnCourse(s, before, u, s.timer[u].(autoReload := b), t, c, f);
    case Create(u, p, b, d) => FieldOnCourse(s, before, u, Timer(p, b, false, d, 0), t, c, f);
  }

  lemma FieldOnCourse(s: State, now: nat, u: Id, x: Timer, t: Id, c: nat, f: nat)
    requires u != t && OnCourse(s, EpochStart(now), now, t, c, f)
    ensures OnCourse(s.(timer := s.timer[u := x]), EpochStart(now), now, t, c, f)
  {
    hide On, Times, EpochStart;
  }

  ghost predicate Runnable(s: State, before: nat, sts: seq<Step>)
    requires At(s, before, {})
    decreases |sts|
  {
    || sts == []
    || (&& Enabled(s, before, sts[0])
        && (ApplyKeeps(s, before, sts[0]); Runnable(Apply(s, before, sts[0]), TimeAfter(sts[0], before), sts[1..])))
  }

  /** The state and the time after a run. */
  ghost function Run(s: State, before: nat, sts: seq<Step>): (State, nat)
    requires At(s, before, {}) && Runnable(s, before, sts)
    decreases |sts|
  {
    if sts == [] then (s, before)
    else
      ApplyKeeps(s, before, sts[0]);
      Run(Apply(s, before, sts[0]), TimeAfter(sts[0], before), sts[1..])
  }

  lemma {:induction false} RunOnCourse(s: State, before: nat, sts: seq<Step>, t: Id, c: nat, f: nat)
    requires At(s, before, {}) && Runnable(s, before, sts) && OnCourse(s, EpochStart(before), before, t, c, f)
    requires forall i :: 0 <= i < |sts| ==> !Concerns(sts[i], t)
    ensures var (r, now) := Run(s, before, sts); OnCourse(r, EpochStart(now), now, t, c, f)
    decreases |sts|
  {
    hide At, OnCourse, Apply, Enabled;
    if sts != [] {
      ApplyKeeps(s, before, sts[0]);
      assert !Concerns(sts[0], t);
      ApplyOnCourse(s, before, sts[0], t, c, f);
      assert forall i :: 0 <= i < |sts| - 1 ==> sts[1..][i] == sts[i + 1];
      RunOnCourse(Apply(s, before, sts[0]), TimeAfter(sts[0], before), sts[1..], t, c, f);
    }
  }

  /**
   Auto-reload timers neither drift, skip nor fire twice.  A timer with period `p` is started by
   a command issued at absolute time `c`.  In every state that any later run reaches without a
   command on it, after `n` callbacks its listed expiry is `c + (n + 1) * p`, and the last
   callback was not before `c + n * p`, however late the daemon was.  A one-shot timer has made
   no callback and is listed for `c + p`, or has made exactly one, not before `c + p`.
   */
  lemma TimersKeepTime(s: State, before: nat, t: Id, c: nat, handled: nat, s1: State, sts: seq<Step>)
    requires At(s, before, {}) && Enabled(s, before, Message(Start(t, c), handled))
    requires s1 == Apply(s, before, Message(Start(t, c), handled))
    requires At(s1, handled, {}) && Runnable(s1, handled, sts) && forall i :: 0 <= i < |sts| ==> !Concerns(sts[i], t)
    ensures t in s.timer
    ensures var (r, now) := Run(s1, handled, sts); OnCourse(r, EpochStart(now), now, t, c, s.timer[t].fired)
  {
    hide At, Runnable, Run, Handle, OnCourse;
    StartMessageOnCourse(s, before, t, c, handled);
    RunOnCourse(s1, handled, sts, t, c, s.timer[t].fired);
  }

  lemma StartMessageOnCourse(s: State, before: nat, t: Id, c: nat, now: nat)
    requires At(s, before, {}) && Enabled(s, before, Message(Start(t, c), now))
    ensures OnCourse(Handle(s, Start(t, c % M), now % M), EpochStart(now), now, t, c, s.timer[t].fired)
  {
    hide Good, OnCourse, Drainable, Started, Sample, EpochStart;
    TakenGood(s, t);
    GoodDrainable(Taken(s, t), {t});
    SampleKeeps(Taken(s, t), before, now, {t});
    SampleKeepsTimers(Taken(s, t), now % M);
    HeldNotFired(Taken(s, t), {t}, t, now % M);
    StartedOnCourse(Sample(Taken(s, t), now % M), t, c, now);
  }

  /** Sampling makes no callback of a timer that is on no list. */
  lemma HeldNotFired(s: State, held: set<Id>, t: Id, now: nat)
    requires Good(s, held) && t in held && t in s.timer
    ensures Drainable(s) && t in Sample(s, now).timer && Sample(s, now).timer[t] == s.timer[t]
  {
    GoodDrainable(s, held);
    hide Good, Drainable, DrainCurrent;
    if now < s.last {
      DrainSkips(s, held, t);
    }
  }

  lemma {:induction false} DrainSkips(s: State, held: set<Id>, t: Id)
    requires Good(s, held) && t in held && t in s.timer
    ensures Drainable(s) && t in DrainCurrent(s).timer && DrainCurrent(s).timer[t] == s.timer[t]
    decreases |s.lists.current|
  {
    GoodDrainable(s, held);
    hide Good, Drainable, ExpireHead, HasHead;
    if s.lists.current != [] {
      HeadBeforeEnd(s, 0, held);
      EndOfEpoch(0);
      ExpireHeadKeeps(s, EpochEnd(0), held);
      GoodHead(s, held);
      ExpireAtEnd(s);
      DrainSkips(ExpireHead(s, M - 1), held, t);
    }
  }

  /** When the daemon blocks it has caught up: every listed expiry lies ahead of the clock. */
  lemma BlocksOnlyAhead(s: State, before: nat, now: nat, t: Id, x: nat)
    requires At(s, before, {}) && before <= now < before + M && Blocks(s, now % M)
    requires Drainable(s) && On(Pass(s, now % M).lists, EpochStart(now), t, x)
    ensures x > now
  {
    SampleKeeps(s, before, now, {});
    NowWithin(now);
    InEpoch(now);
    hide Drainable, SwitchLists, NoDup, Below, EpochStart;
    assert Sorted(s.lists.current);
    if x >= EpochStart(now) && Item(t, x - EpochStart(now)) in s.lists.current {
      var i :| 0 <= i < |s.lists.current| && s.lists.current[i] == Item(t, x - EpochStart(now));
      assert s.lists.current[0].value <= s.lists.current[i].value;
    }
  }

  /** A daemon that blocks has made exactly the callbacks whose expiry times have passed. */
  lemma BlockedHasFiredExactly(s: State, before: nat, now: nat, t: Id, c: nat, f: nat)
    requires At(s, before, {}) && before <= now < before + M && Blocks(s, now % M)
    requires OnCourse(s, EpochStart(before), before, t, c, f) && Drainable(s)
    requires t in Pass(s, now % M).timer && Pass(s, now % M).timer[t].autoReload
    ensures var x := Pass(s, now % M).timer[t];
            x.fired >= f && c + Times(x.fired - f, x.period) <= now < c + Times(x.fired - f + 1, x.period)
  {
    hide At, Times, On, Pass, Blocks;
    PassOnCourse(s, before, now, t, c, f);
    var x := Pass(s, now % M).timer[t];
    BlocksOnlyAhead(s, before, now, t, c + Times(x.fired - f + 1, x.period));
  }

  lemma {:induction false} RunKeeps(s: State, before: nat, sts: seq<Step>, t: Id)
    requires At(s, before, {}) && Runnable(s, before, sts)
    ensures var (r, now) := Run(s, before, sts);
            At(r, now, {}) && (t in r.timer && r.timer[t].active <==> Listed(r.lists, t))
    decreases |sts|
  {
    if sts != [] {
      hide Apply, Enabled, Good, Listed;
      ApplyKeeps(s, before, sts[0]);
      RunKeeps(Apply(s, before, sts[0]), TimeAfter(sts[0], before), sts[1..], t);
    } else {
      hide Ordered, Listed;
    }
  }

  /** The service before any timer exists. */
  function Fresh(): (s: State)
    ensures At(s, 0, {})
  {
    assert 0 % M == 0 && Owners([]) == [];
    State(map[], Lists([], []), 0)
  }

  /** At every step boundary of every run of the service a timer is active exactly if it is on one of the lists. */
  lemma ActiveIffListed(sts: seq<Step>, t: Id)
    requires Runnable(Fresh(), 0, sts)
    ensures var (r, now) := Run(Fresh(), 0, sts);
            At(r, now, {}) && (t in r.timer && r.timer[t].active <==> Listed(r.lists, t))
  {
    hide At, Listed;
    RunKeeps(Fresh(), 0, sts, t);
  }

  /** Such runs: a timer is created and started at time zero, and the daemon then blocks. */
  lemma TimerFromFresh()
    ensures var create, start := Create(0, 1, true, false), Message(Start(0, 0), 0);
            && Enabled(Fresh(), 0, create)
            && var s := Apply(Fresh(), 0, create);
               && At(s, 0, {}) && Enabled(s, 0, start)
               && var s1 := Apply(s, 0, start);
                  && At(s1, 0, {}) && Runnable(s1, 0, []) && OnCourse(s1, EpochStart(0), 0, 0, 0, 0)
                  && Blocks(s1, 0 % M) && Drainable(s1) && 0 in Pass(s1, 0 % M).timer
                      && Pass(s1, 0 % M).timer[0].autoReload
  {
    var create, start := Create(0, 1, true, false), Message(Start(0, 0), 0);
    ApplyKeeps(Fresh(), 0, create);
    var s := Apply(Fresh(), 0, create);
    DivModUnique(0, 0);
    StartMessageOnCourse(s, 0, 0, 0, 0);
    ApplyKeeps(s, 0, start);
    var s1 := Apply(s, 0, start);
    FirstStart(s);
    GoodDrainable(s1, {});
  }

  lemma FirstStart(s: State)
    requires s == State(map[0 := Timer(1, true, false, false, 0)], Lists([], []), 0) && Good(s, {})
    ensures var r := Handle(s, Start(0, 0), 0);
            r == State(map[0 := Timer(1, true, true, false, 0)], Lists([Item(0, 1)], []), 0)
  {
    hide Good, Drainable;
    DivModUnique(0, 1);
    var none: seq<Item> := [];
    assert WithoutOwner(none, 0) == none;
    assert Decide(1, 0, 0, 1) == ToCurrent;
    assert InsertSorted(none, Item(0, 1)) == [Item(0, 1)];
  }

  // ----- how long the daemon blocks -----

  /** Every value on the overflow list is below the last time sampled. */
  ghost predicate Behind(s: State) { Below(s.lists.overflow, s.last) }

  /** An expiry that goes on the overflow list has a value that the clock has passed in this epoch. */
  lemma InsertBehind(s: State, t: Id, command: nat, period: nat, now: nat)
    requires command < M && 0 < period < M && now < M && Below(s.lists.overflow, now)
    ensures var next := Plus(command, period);
            Below(Insert(s, t, next, Decide(next, now, command, period)).lists.overflow, now)
  {
    var next := Plus(command, period);
    var v := Decide(next, now, command, period);
    if v == ToOverflow {
      MinusIs(now, command);
      Advance(command, period);
      DivModUnique(0, command);
      assert next < now;
      InsertBelow(s.lists.overflow, Item(t, next), now);
    }
  }

  lemma InsertBelow(s: seq<Item>, x: Item, v: nat)
    requires Below(s, v) && x.value < v
    ensures Below(InsertSorted(s, x), v)
  {
    InsertSortedMembers(s, x);
    var r := InsertSorted(s, x);
    forall i | 0 <= i < |r| ensures r[i].value < v {
      assert r[i] in r;
    }
  }

  lemma {:induction false} ReloadBehind(s: State, t: Id, expired: nat, now: nat)
    requires t in s.timer && expired < M && now < M && Below(s.lists.overflow, now)
    ensures Below(Reload(s, t, expired, now).lists.overflow, now)
    decreases Minus(now, expired)
  {
    hide Below, Plus;
    var p := s.timer[t].period;
    var next := Plus(expired, p);
    InsertBehind(s, t, expired, p, now);
    PlusBelow(expired, p);
    if Decide(next, now, expired, p) == Due {
      DueShrinks(expired, p, now);
      ReloadBehind(Fire(s, t), t, next, now);
    }
  }

  lemma ExpiredBehind(s: State, t: Id, expired: nat, now: nat)
    requires t in s.timer && expired < M && now < M && Below(s.lists.overflow, now)
    ensures Below(Expired(s, t, expired, now).lists.overflow, now) && Expired(s, t, expired, now).last == s.last
  {
    hide Below, Reload;
    ReloadKeepsTimer(s, t, expired, now);
    ReloadBehind(s, t, expired, now);
  }

  lemma SampleBehind(s: State, before: nat, now: nat, held: set<Id>)
    requires At(s, before, held) && before <= now < before + M && Behind(s)
    ensures Drainable(s) && Sample(s, now % M).last == now % M && Behind(Sample(s, now % M))
  {
    hide Good, Drainable, SwitchLists;
    SampleKeeps(s, before, now, held);
    if now % M < s.last {
      SwitchKeeps(s, before, held);
    }
  }

  lemma PassBehind(s: State, before: nat, now: nat)
    requires At(s, before, {}) && before <= now < before + M && Behind(s)
    ensures Drainable(s) && Behind(Pass(s, now % M))
  {
    hide Good, Drainable, Expired, Sample, Behind;
    SampleBehind(s, before, now, {});
    SampleKeeps(s, before, now, {});
    if !(now % M < s.last) && s.lists.current != [] && NextExpiry(s) <= now % M {
      GoodHead(Sample(s, now % M), {});
      HeadBehind(Sample(s, now % M), now % M);
    }
  }

  lemma HeadBehind(r: State, now: nat)
    requires HasHead(r) && now < M && r.last == now && Behind(r)
    ensures Behind(ExpireHead(r, now))
  {
    hide Expired;
    ExpiredBehind(r.(lists := r.lists.(current := r.lists.current[1..])), r.lists.current[0].owner, r.lists.current[0].value, now);
  }

  lemma TakenBehind(s: State, t: Id)
    requires Behind(s)
    ensures Behind(Taken(s, t))
  {
    WithoutOwnerBounds(s.lists.overflow, t, 0, s.last);
  }

  /** The command itself, at the time just sampled. */
  lemma CommandBehind(s: State, c: Command, now: nat)
    requires c.t in s.timer && now < M && s.last == now && Behind(s)
    requires (c.Start? ==> c.at < M) && (c.ChangePeriod? ==> 0 < c.period < M)
    ensures c.Start? ==> Behind(Started(s, c.t, c.at, now))
    ensures c.ChangePeriod? ==> Behind(Changed(s, c.t, c.period, now))
    ensures Behind(SetActive(s, c.t, false)) && Behind(Deleted(s, c.t))
  {
    hide Below, Expired, Plus;
    var s1 := SetActive(s, c.t, true);
    var p := s.timer[c.t].period;
    if c.Start? {
      PlusBelow(c.at, p);
      InsertBehind(s1, c.t, c.at, p, now);
      ExpiredBehind(s1, c.t, Plus(c.at, p), now);
    } else if c.ChangePeriod? {
      InsertBehind(s, c.t, now, c.period, now);
    }
  }

  lemma HandleBehind(s: State, before: nat, c: Command, now: nat)
    requires At(s, before, {}) && Enabled(s, before, Message(c, now)) && Behind(s)
    ensures Behind(Handle(s, Modular(c), now % M))
  {
    hide Good, OthersSame, Drainable, Started, Changed, Deleted, SetActive, Sample, Behind;
    TakenGood(s, c.t);
    TakenBehind(s, c.t);
    GoodDrainable(Taken(s, c.t), {c.t});
    SampleBehind(Taken(s, c.t), before, now, {c.t});
    SampleKeepsTimers(Taken(s, c.t), now % M);
    CommandBehind(Sample(Taken(s, c.t), now % M), Modular(c), now % M);
  }

  lemma ApplyBehind(s: State, before: nat, st: Step)
    requires At(s, before, {}) && Enabled(s, before, st) && Behind(s)
    ensures Behind(Apply(s, before, st))
  {
    hide Good, Pass, Handle;
    match st
    case Daemon(now) => PassBehind(s, before, now);
    case Message(c, now) => HandleBehind(s, before, c, now);
    case SetReload(t, b) =>
    case Create(t, p, b, d) =>
  }

  lemma {:induction false} RunBehind(s: State, before: nat, sts: seq<Step>)
    requires At(s, before, {}) && Runnable(s, before, sts) && Behind(s)
    ensures var (r, now) := Run(s, before, sts); At(r, now, {}) && Behind(r)
    decreases |sts|
  {
    hide At, Behind, Apply, Enabled;
    if sts != [] {
      ApplyKeeps(s, before, sts[0]);
      ApplyBehind(s, before, sts[0]);
      RunBehind(Apply(s, before, sts[0]), TimeAfter(sts[0], before), sts[1..]);
    }
  }

  /** The daemon waits for a command alone: no timer is on either list. */
  predicate WaitsForever(s: State) { s.lists.current == [] && s.lists.overflow == [] }

  /** The number of ticks the daemon asks to wait, if not for ever. */
  function WaitTicks(s: State, now: nat): nat { Minus(NextExpiry(s), now) }

  /** What the daemon then asks of the scheduler. */
  function BlockTicks(s: State, now: nat): nat { if WaitsForever(s) then MAX_DELAY else WaitTicks(s, now) }

  /** No listed timer expires before the wait is over, and one whose time is in this epoch expires just then. */
  ghost predicate WaitFits(s: State, now: nat, wait: nat) {
    && (forall t, x: nat :: On(s.lists, EpochStart(now), t, x) ==> now + wait <= x)
    && (s.lists.current != [] ==> On(s.lists, EpochStart(now), s.lists.current[0].owner, now + wait))
    && (s.lists.current == [] ==> now + wait == EpochStart(now) + M)
  }

  /**
   When the daemon blocks after a run, it waits for ever exactly if no timer is listed; otherwise
   for at least one tick and less than a turn, until the first expiry or the end of the epoch.
   */
  lemma BlocksLongEnough(s: State, before: nat, now: nat)
    requires At(s, before, {}) && Behind(s) && before <= now < before + M && Blocks(s, now % M)
    ensures Drainable(s) && Pass(s, now % M) == s.(last := now % M)
    ensures WaitsForever(s) <==> forall t :: !Listed(s.lists, t)
    ensures 1 <= BlockTicks(s, now % M) < M
    ensures !WaitsForever(s) ==> WaitFits(s, now, WaitTicks(s, now % M))
  {
    GoodDrainable(s, {});
    NobodyListed(s.lists);
    NowWithin(now);
    if s.lists.current != [] {
      WaitsForHead(s, now);
    } else if s.lists.overflow != [] {
      WaitsForTurn(s, now);
    }
  }

  lemma NobodyListed(l: Lists)
    ensures (l.current == [] && l.overflow == []) <==> forall t :: !Listed(l, t)
  {
    if l.current != [] {
      assert Owners(l.current)[0] in Owners(l.current);
      assert Listed(l, l.current[0].owner);
    } else if l.overflow != [] {
      assert Owners(l.overflow)[0] in Owners(l.overflow);
      assert Listed(l, l.overflow[0].owner);
    }
  }

  lemma WaitsForHead(s: State, now: nat)
    requires Ordered(s.lists) && s.lists.current != [] && s.lists.current[0].value > now % M
    ensures 1 <= WaitTicks(s, now % M) < M && WaitFits(s, now, WaitTicks(s, now % M))
  {
    hide NoDup;
    var head := s.lists.current[0];
    MinusIs(head.value, now % M);
    var e := EpochStart(now);
    assert head in s.lists.current;
    forall t, x: nat | On(s.lists, e, t, x) ensures e + head.value <= x {
      if x >= e && Item(t, x - e) in s.lists.current {
        var i :| 0 <= i < |s.lists.current| && s.lists.current[i] == Item(t, x - e);
        assert head.value <= s.lists.current[i].value;
      }
    }
  }

  lemma WaitsForTurn(s: State, now: nat)
    requires Behind(s) && s.last <= now % M && s.lists.current == [] && s.lists.overflow != []
    ensures 1 <= WaitTicks(s, now % M) < M && WaitFits(s, now, WaitTicks(s, now % M))
  {
    assert s.lists.overflow[0].value < s.last;
    MinusIs(0, now % M);
  }

  /** In every run of the service. */
  lemma DaemonWaitsExactly(sts: seq<Step>, now: nat)
    requires Runnable(Fresh(), 0, sts)
    requires var (s, before) := Run(Fresh(), 0, sts); before <= now < before + M && Blocks(s, now % M)
    ensures var s := Run(Fresh(), 0, sts).0;
            && (WaitsForever(s) <==> forall t :: !Listed(s.lists, t))
            && 1 <= BlockTicks(s, now % M) < M
            && (!WaitsForever(s) ==> WaitFits(s, now, BlockTicks(s, now % M)))
  {
    var (s, before) := Run(Fresh(), 0, sts);
    RunBehind(Fresh(), 0, sts);
    hide At, Behind, Runnable, Run, Blocks, WaitsForever, Listed, WaitFits;
    BlocksLongEnough(s, before, now);
  }

  // ----- the object -----

  /** The static data of `timers.c`, and its functions as they work on it. */
  class TimerService {
    var timer: map<Id, Timer>
    var current: seq<Item>
    var overflow: seq<Item>
    var last: nat

    ghost function View(): State
      reads this
    {
      State(timer, Lists(current, overflow), last)
    }

    constructor ()
      ensures View() == Fresh()
    {
      timer, current, overflow, last := map[], [], [], 0;
    }

    method Callback(t: Id)
      requires t in timer
      modifies this`timer
      ensures View() == Fire(old(View()), t)
    {
      timer := timer[t := timer[t].(fired := timer[t].fired + 1)];
    }

    method InsertTimerInActiveList(t: Id, next: nat, now: nat, command: nat) returns (processNow: bool)
      requires t in timer
      modifies this`current, this`overflow
      ensures var v := Decide(next, now, command, timer[t].period);
              processNow == (v == Due) && View() == Insert(old(View()), t, next, v)
    {
      hide Minus, InsertSorted;
      processNow := false;
      if next <= now {
        if Minus(now, command) >= timer[t].period {
          processNow := true;
        } else {
          overflow := InsertSorted(overflow, Item(t, next));
        }
      } else if now < command && next >= command {
        processNow := true;
      } else {
        current := InsertSorted(current, Item(t, next));
      }
    }

    method ReloadTimer(t: Id, expired: nat, now: nat)
      requires t in timer && expired < M && now < M
      modifies this`timer, this`current, this`overflow
      ensures View() == Reload(old(View()), t, expired, now)
    {
      hide Decide, Minus, Plus, PutOverflow, PutCurrent;
      var x: nat := expired;
      PlusBelow(x, timer[t].period);
      var processNow := InsertTimerInActiveList(t, Plus(x, timer[t].period), now, x);
      while processNow
        invariant t in timer && x < M && last == old(last)
        invariant processNow ==>
                    && Decide(Plus(x, timer[t].period), now, x, timer[t].period) == Due
                    && Reload(View(), t, x, now) == Reload(old(View()), t, expired, now)
        invariant !processNow ==> View() == Reload(old(View()), t, expired, now)
        decreases processNow, Minus(now, x)
      {
        DueShrinks(x, timer[t].period, now);
        PlusBelow(x, timer[t].period);
        x := Plus(x, timer[t].period);
        Callback(t);
        PlusBelow(x, timer[t].period);
        processNow := InsertTimerInActiveList(t, Plus(x, timer[t].period), now, x);
      }
    }

    method ProcessExpiredTimer(next: nat, now: nat)
      requires HasHead(View()) && next == current[0].value && now < M
      modifies this`timer, this`current, this`overflow
      ensures View() == ExpireHead(old(View()), now)
    {
      hide Reload;
      var t := current[0].owner;
      current := current[1..];
      ReloadKeepsTimer(View(), t, next, now);
      if timer[t].autoReload {
        ReloadTimer(t, next, now);
      } else {
        timer := timer[t := timer[t].(active := false)];
      }
      Callback(t);
    }

    method SwitchTimerLists()
      requires Drainable(View())
      modifies this`timer, this`current, this`overflow
      ensures View() == SwitchLists(old(View()))
    {
      hide Drainable, HasHead, ExpireHead;
      while current != []
        invariant Drainable(View()) && DrainCurrent(View()) == DrainCurrent(old(View())) && last == old(last)
        decreases |current|
      {
        ExpireAtEnd(View());
        var next := current[0].value;
        ProcessExpiredTimer(next, M - 1);
      }
      current, overflow := overflow, current;
    }

    method SampleTimeNow(now: nat) returns (switched: bool)
      requires Drainable(View())
      modifies this
      ensures View() == Sample(old(View()), now) && switched == (now < old(last))
    {
      hide Drainable, SwitchLists;
      switched := now < last;
      if switched {
        SwitchTimerLists();
      }
      last := now;
    }

    /** `prvGetNextExpireTime` and `prvProcessTimerOrBlockTask`; true if the daemon goes on to block. */
    method ProcessTimerOrBlockTask(now: nat) returns (blocks: bool, wait: nat, indefinitely: bool)
      requires Drainable(View()) && now < M
      modifies this
      ensures View() == Pass(old(View()), now) && blocks == Blocks(old(View()), now)
      ensures blocks ==> wait == WaitTicks(old(View()), now) && indefinitely == WaitsForever(old(View()))
    {
      var listWasEmpty := current == [];
      var next := if listWasEmpty then 0 else current[0].value;
      assert !listWasEmpty ==> HasHead(View());
      hide Drainable, HasHead, SwitchLists, ExpireHead;
      blocks, wait, indefinitely := false, 0, false;
      var switched := SampleTimeNow(now);
      if !switched {
        if !listWasEmpty && next <= now {
          SameHead(old(View()), View());
          ProcessExpiredTimer(next, now);
        } else {
          if listWasEmpty {
            listWasEmpty := overflow == [];
          }
          blocks, wait, indefinitely := true, Minus(next, now), listWasEmpty;
        }
      }
    }

    /** One round of the loop of `prvProcessReceivedCommands`. */
    method ProcessCommand(c: Command, now: nat)
      requires Good(View(), {}) && c.t in timer && now < M
      requires c.Start? ==> c.at < M
      requires c.ChangePeriod? ==> 0 < c.period < M
      modifies this
      ensures View() == Handle(old(View()), c, now)
    {
      hide Good, Drainable, Sample, Enter, Decide, Plus, Reload;
      TakenGood(View(), c.t);
      GoodDrainable(Taken(View(), c.t), {c.t});
      SampleKeepsTimers(Taken(View(), c.t), now);
      current, overflow := WithoutOwner(current, c.t), WithoutOwner(overflow, c.t);
      var switched := SampleTimeNow(now);
      var t := c.t;
      match c {
        case Start(_, at) =>
          StartCommand(t, at, now);
        case Stop(_) =>
          timer := timer[t := timer[t].(active := false)];
        case ChangePeriod(_, p) =>
          timer := timer[t := timer[t].(active := true, period := p)];
          PlusBelow(now, p);
          var ignored := InsertTimerInActiveList(t, Plus(now, p), now, now);
        case Delete(_) =>
          if timer[t].dynamic {
            timer := timer - {t};
          } else {
            timer := timer[t := timer[t].(active := false)];
          }
      }
    }

    /** The start and reset case: a timer that expired before it could be listed is processed now. */
    method StartCommand(t: Id, at: nat, now: nat)
      requires t in timer && at < M && now < M
      modifies this`timer, this`current, this`overflow
      ensures View() == Started(old(View()), t, at, now)
    {
      hide Decide, Plus, Reload, PutOverflow, PutCurrent;
      timer := timer[t := timer[t].(active := true)];
      PlusBelow(at, timer[t].period);
      var processNow := InsertTimerInActiveList(t, Plus(at, timer[t].period), now, at);
      if processNow {
        ReloadKeepsTimer(View(), t, Plus(at, timer[t].period), now);
        if timer[t].autoReload {
          ReloadTimer(t, Plus(at, timer[t].period), now);
        } else {
          timer := timer[t := timer[t].(active := false)];
        }
        Callback(t);
      }
    }
  }

  lemma SameHead(s: State, r: State)
    requires HasHead(s) && r.lists == s.lists && r.timer == s.timer
    ensures HasHead(r)
  {
  }

  lemma PlusBelow(x: nat, y: nat)
    ensures Plus(x, y) < M
  {
  }
}
