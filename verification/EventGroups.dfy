/**
 Event groups: one atomic evaluation of all waiting tasks against one value of the bits, with
 the clearing put off to the end.
 */
module EventGroups {
  import Scheduler

  type Task = Scheduler.Task
  type Bits = bv32

  /** The control bits that share an event list item value with the bits waited for. */
  const CLEAR_ON_EXIT: Bits := 0x0100_0000
  const UNBLOCKED_BY_SET: Bits := 0x0200_0000
  const WAIT_FOR_ALL: Bits := 0x0400_0000
  const CONTROL: Bits := 0xff00_0000
  const IN_USE: Bits := 0x8000_0000

  // ----- conditions -----

  /** `prvTestWaitCondition`. */
  predicate Met(bits: Bits, want: Bits, all: bool) {
    if all then bits & want == want else bits & want != 0
  }

  /** The event bits of an item value, without the control bits. */
  function Stripped(value: Bits): Bits { value & !CONTROL }

  predicate Unblocked(value: Bits) { value & UNBLOCKED_BY_SET != 0 }

  /** The match made by a set against an event list item value. */
  predicate Matches(value: Bits, bits: Bits) {
    if !ForAll(value) then Stripped(value) & bits != 0 else Stripped(value) & bits == Stripped(value)
  }

  predicate ForAll(value: Bits) { value & CONTROL & WAIT_FOR_ALL != 0 }

  predicate Clears(value: Bits) { value & CONTROL & CLEAR_ON_EXIT != 0 }

  predicate Plain(bits: Bits) { bits & CONTROL == 0 }

  predicate Subset(x: Bits, y: Bits) { x & y == x }

  /** The item value of a waiting task. */
  function Request(want: Bits, clear: bool, all: bool): Bits {
    want | (if clear then CLEAR_ON_EXIT else 0) | (if all then WAIT_FOR_ALL else 0) | IN_USE
  }

  /** The item value keeps what was asked for apart from how, and does not look unblocked. */
  lemma RequestFaithful(want: Bits, clear: bool, all: bool, bits: Bits)
    requires Plain(want)
    ensures var v := Request(want, clear, all);
            Stripped(v) == want && (Matches(v, bits) <==> Met(bits, want, all)) && (Clears(v) <==> clear) && !Unblocked(v)
  {
    hide Request, ForAll, Stripped, Met, Matches;
    RequestParts(want, clear, all);
    MatchIsTest(Request(want, clear, all), bits);
  }

  /** The match of a set is the test made before a task blocks. */
  lemma MatchIsTest(value: Bits, bits: Bits)
    ensures Matches(value, bits) <==> Met(bits, Stripped(value), ForAll(value))
  {
  }

  lemma RequestParts(want: Bits, clear: bool, all: bool)
    requires Plain(want)
    ensures var v := Request(want, clear, all);
            Stripped(v) == want && (ForAll(v) <==> all) && (Clears(v) <==> clear) && !Unblocked(v)
  {
  }

  /** Fewer bits match less. */
  lemma MatchesGrows(value: Bits, x: Bits, y: Bits)
    requires Subset(x, y) && Matches(value, x)
    ensures Matches(value, y)
  {
  }

  /** What an unblocked task returns is the value the bits had, without the control bits. */
  lemma DeliveredReads(bits: Bits)
    requires Plain(bits)
    ensures Unblocked(Delivery(bits)) && Stripped(Delivery(bits)) == bits
  {
  }

  lemma DeliversZero()
    ensures Delivery(0) == UNBLOCKED_BY_SET | IN_USE && Unblocked(Delivery(0)) && Stripped(Delivery(0)) == 0
  {
  }

  lemma ClearingShrinks(bits: Bits, clear: Bits)
    ensures Subset(Except(bits, clear), bits) && (Plain(bits) ==> Plain(Except(bits, clear)))
  {
  }

  // ----- the evaluation -----

  datatype Waiter = Waiter(task: Task, value: Bits)

  /** The waiters that do not match, in their order. */
  function Left(ws: seq<Waiter>, bits: Bits): seq<Waiter> {
    if ws == [] then []
    else if Matches(ws[0].value, bits) then Left(ws[1..], bits)
    else [ws[0]] + Left(ws[1..], bits)
  }

  function Woken(ws: seq<Waiter>, bits: Bits): seq<Waiter> {
    if ws == [] then []
    else if Matches(ws[0].value, bits) then [ws[0]] + Woken(ws[1..], bits)
    else Woken(ws[1..], bits)
  }

  /** The union of the bits waited for by woken tasks that asked for clearing. */
  function ToClear(ws: seq<Waiter>, bits: Bits): Bits {
    if ws == [] then 0
    else Union(Cleared(ws[0], bits), ToClear(ws[1..], bits))
  }

  /** Exactly the satisfied waiters are woken, and every other one stays. */
  lemma {:induction false} WokenExactly(ws: seq<Waiter>, bits: Bits)
    ensures forall w :: w in Woken(ws, bits) <==> w in ws && Matches(w.value, bits)
    ensures forall w :: w in Left(ws, bits) <==> w in ws && !Matches(w.value, bits)
    ensures multiset(Woken(ws, bits)) + multiset(Left(ws, bits)) == multiset(ws)
  {
    hide Matches;
    if ws != [] {
      WokenExactly(ws[1..], bits);
      assert ws == [ws[0]] + ws[1..];
    }
  }

  function Union(x: Bits, y: Bits): Bits { x | y }

  function Except(x: Bits, y: Bits): Bits { x & !y }

  /** What one waiter adds to the bits to clear. */
  function Cleared(w: Waiter, bits: Bits): Bits {
    if Matches(w.value, bits) && Clears(w.value) then Stripped(w.value) else 0
  }

  /** The bits to clear include those of every woken task that asked for it. */
  lemma {:induction false} ClearsAsked(ws: seq<Waiter>, bits: Bits, w: Waiter)
    requires w in ws
    ensures Subset(Cleared(w, bits), ToClear(ws, bits))
  {
    hide Subset, Cleared, Union;
    var head, rest := Cleared(ws[0], bits), ToClear(ws[1..], bits);
    UnionHolds(head, rest);
    if w != ws[0] {
      ClearsAsked(ws[1..], bits, w);
      SubsetTrans(Cleared(w, bits), rest, ToClear(ws, bits));
    }
  }

  /** They include nothing else: any set of bits that has all of those has them. */
  lemma {:induction false} ClearsOnlyAsked(ws: seq<Waiter>, bits: Bits, c: Bits)
    requires forall w :: w in ws ==> Subset(Cleared(w, bits), c)
    ensures Subset(ToClear(ws, bits), c)
  {
    hide Subset, Cleared, Union;
    if ws == [] {
      NoBits(c);
    } else {
      ClearsOnlyAsked(ws[1..], bits, c);
      assert ws[0] in ws;
      UnionLeast(Cleared(ws[0], bits), ToClear(ws[1..], bits), c);
    }
  }

  lemma NoBits(c: Bits)
    ensures Subset(0, c)
  {
  }

  lemma UnionHolds(x: Bits, y: Bits)
    ensures Subset(x, Union(x, y)) && Subset(y, Union(x, y))
  {
  }

  lemma UnionLeast(x: Bits, y: Bits, c: Bits)
    requires Subset(x, c) && Subset(y, c)
    ensures Subset(Union(x, y), c)
  {
  }

  lemma SubsetTrans(x: Bits, y: Bits, z: Bits)
    requires Subset(x, y) && Subset(y, z)
    ensures Subset(x, z)
  {
  }

  lemma SubsetBoth(x: Bits, y: Bits)
    requires Subset(x, y) && Subset(y, x)
    ensures x == y
  {
  }

  /** The outcome does not depend on the order of the waiting list. */
  lemma OrderIrrelevant(ws: seq<Waiter>, vs: seq<Waiter>, bits: Bits)
    requires multiset(ws) == multiset(vs)
    ensures ToClear(ws, bits) == ToClear(vs, bits)
    ensures forall w :: w in Woken(ws, bits) <==> w in Woken(vs, bits)
    ensures forall w :: w in Left(ws, bits) <==> w in Left(vs, bits)
  {
    hide Matches, Woken, Left, ToClear, Subset;
    SameMembers(ws, vs);
    WokenExactly(ws, bits);
    WokenExactly(vs, bits);
    ClearsNoMore(ws, vs, bits);
    ClearsNoMore(vs, ws, bits);
    SubsetBoth(ToClear(ws, bits), ToClear(vs, bits));
  }

  lemma SameMembers(ws: seq<Waiter>, vs: seq<Waiter>)
    requires multiset(ws) == multiset(vs)
    ensures forall w :: w in ws <==> w in vs
  {
    assert forall w :: w in ws <==> w in multiset(ws);
    assert forall w :: w in vs <==> w in multiset(vs);
  }

  lemma ClearsNoMore(ws: seq<Waiter>, vs: seq<Waiter>, bits: Bits)
    requires forall w :: w in ws ==> w in vs
    ensures Subset(ToClear(ws, bits), ToClear(vs, bits))
  {
    hide Subset, Cleared, ToClear;
    forall w | w in ws ensures Subset(Cleared(w, bits), ToClear(vs, bits)) {
      ClearsAsked(vs, bits, w);
    }
    ClearsOnlyAsked(ws, bits, ToClear(vs, bits));
  }

  // ----- the group and its operations -----

  /** What a task asked for in the call it is blocked in. */
  datatype Call = Call(want: Bits, clear: bool, all: bool)

  /** `delivered` holds the item values of tasks taken off the list by a set that have not run since. */
  datatype Group = Group(bits: Bits, waiters: seq<Waiter>, delivered: map<Task, Bits>, call: map<Task, Call>)

  function Deliver(m: map<Task, Bits>, ws: seq<Waiter>, value: Bits): map<Task, Bits>
    decreases |ws|
  {
    if ws == [] then m else Deliver(m[ws[0].task := value], ws[1..], value)
  }

  /** The value an unblocked task finds in its event list item. */
  function Delivery(bits: Bits): Bits { bits | UNBLOCKED_BY_SET | IN_USE }

  /** `xEventGroupSetBits`. */
  function SetTo(g: Group, added: Bits): Group {
    var bits := Union(g.bits, added);
    g.(bits := Except(bits, ToClear(g.waiters, bits)), waiters := Left(g.waiters, bits),
       delivered := Deliver(g.delivered, Woken(g.waiters, bits), Delivery(bits)))
  }

  function ClearTo(g: Group, cleared: Bits): Group { g.(bits := Except(g.bits, cleared)) }

  function Blocked(g: Group, t: Task, c: Call): Group {
    g.(waiters := g.waiters + [Waiter(t, Request(c.want, c.clear, c.all))], call := g.call[t := c], delivered := g.delivered - {t})
  }

  /** The part of `xEventGroupWaitBits` before a task blocks; the value is returned if it does not. */
  function WaitFor(g: Group, t: Task, c: Call, block: bool): (Group, Bits) {
    if Met(g.bits, c.want, c.all) then (if c.clear then ClearTo(g, c.want) else g, g.bits)
    else if block then (Blocked(g, t, c), 0)
    else (g, g.bits)
  }

  /** The part of `xEventGroupSync` before a task blocks. */
  function Rendezvous(g: Group, t: Task, added: Bits, want: Bits, block: bool): (Group, Bits) {
    var bits, g1 := Union(g.bits, added), SetTo(g, added);
    if Met(bits, want, true) then (ClearTo(g1, want), bits)
    else if block then (Blocked(g1, t, Call(want, true, true)), 0)
    else (g1, g1.bits)
  }

  /** What a task does once it runs again after blocking, and what it returns. */
  function Finish(g: Group, t: Task): (Group, Bits)
    requires t in g.call
  {
    var c := g.call[t];
    var g1 := g.(call := g.call - {t}, delivered := g.delivered - {t});
    var value := if t in g.delivered then g.delivered[t] else Request(c.want, c.clear, c.all);
    if Unblocked(value) then (g1, Stripped(value))
    else (if Met(g.bits, c.want, c.all) && c.clear then ClearTo(g1, c.want) else g1, Stripped(g.bits))
  }

  // ----- the invariant -----

  ghost predicate Waits(ws: seq<Waiter>, t: Task) { exists w :: w in ws && w.task == t }

  /** A task on the list is in the call its item value describes, and not satisfied. */
  ghost predicate WaiterOk(g: Group, w: Waiter) {
    && w.task in g.call && w.task !in g.delivered && !Matches(w.value, g.bits)
    && w.value == Request(g.call[w.task].want, g.call[w.task].clear, g.call[w.task].all)
  }

  /** A task that was unblocked has been given one value of the bits, which satisfied it. */
  ghost predicate DeliveredOk(g: Group, t: Task)
    requires t in g.delivered
  {
    t in g.call && exists b :: Satisfies(g, t, b)
  }

  ghost predicate Satisfies(g: Group, t: Task, b: Bits)
    requires t in g.delivered && t in g.call
  {
    Plain(b) && g.delivered[t] == Delivery(b) && Met(b, g.call[t].want, g.call[t].all)
  }

  ghost predicate Distinct(ws: seq<Waiter>) { forall i, j :: 0 <= i < j < |ws| ==> ws[i].task != ws[j].task }

  ghost predicate Inv(g: Group) {
    && Plain(g.bits) && Distinct(g.waiters)
    && (forall w :: w in g.waiters ==> WaiterOk(g, w))
    && (forall t :: t in g.delivered ==> DeliveredOk(g, t))
    && (forall t :: t in g.call ==> Plain(g.call[t].want))
  }

  lemma {:induction false} DeliverIs(m: map<Task, Bits>, ws: seq<Waiter>, value: Bits)
    ensures forall t :: t in Deliver(m, ws, value) <==> t in m || Waits(ws, t)
    ensures forall t :: t in Deliver(m, ws, value) ==> Deliver(m, ws, value)[t] == if Waits(ws, t) then value else m[t]
    decreases |ws|
  {
    if ws != [] {
      DeliverIs(m[ws[0].task := value], ws[1..], value);
      assert ws == [ws[0]] + ws[1..];
      assert forall t :: Waits(ws, t) <==> ws[0].task == t || Waits(ws[1..], t);
    }
  }

  lemma {:induction false} LeftDistinct(ws: seq<Waiter>, bits: Bits)
    requires Distinct(ws)
    ensures Distinct(Left(ws, bits))
  {
    hide Matches;
    if ws != [] {
      assert Distinct(ws[1..]);
      LeftDistinct(ws[1..], bits);
      WokenExactly(ws[1..], bits);
      var l := Left(ws[1..], bits);
      forall j | 0 <= j < |l| ensures l[j].task != ws[0].task {
        assert l[j] in ws[1..];
      }
    }
  }

  /** A task waits in one place: what was woken does not wait any more. */
  lemma WokenGone(ws: seq<Waiter>, bits: Bits, u: Waiter)
    requires Distinct(ws) && u in Left(ws, bits)
    ensures !Waits(Woken(ws, bits), u.task)
  {
    hide Matches;
    WokenExactly(ws, bits);
    forall w | w in Woken(ws, bits) ensures w.task != u.task {
      var i :| 0 <= i < |ws| && ws[i] == w;
      var j :| 0 <= j < |ws| && ws[j] == u;
      assert i != j;
    }
  }

  /** After a set nobody left on the list is satisfied, and everybody taken off was. */
  lemma SetKeeps(g: Group, added: Bits)
    requires Inv(g) && Plain(added)
    ensures Inv(SetTo(g, added))
  {
    hide Matches, Woken, Left, ToClear, Deliver, Delivery, Union, Except, Plain, Subset, Request, Distinct, Met,
        WaiterOk, DeliveredOk;
    var bits := Union(g.bits, added);
    UnionPlain(g.bits, added);
    ClearingShrinks(bits, ToClear(g.waiters, bits));
    LeftDistinct(g.waiters, bits);
    SetWaiters(g, added);
    SetDelivered(g, added);
  }

  lemma SetWaiters(g: Group, added: Bits)
    requires Inv(g)
    ensures forall w :: w in SetTo(g, added).waiters ==> WaiterOk(SetTo(g, added), w)
  {
    hide Matches, Woken, Left, ToClear, Deliver, Delivery, Union, Except, Plain, Subset, Request, Distinct, Met,
        DeliveredOk;
    var bits, r := Union(g.bits, added), SetTo(g, added);
    ClearingShrinks(bits, ToClear(g.waiters, bits));
    WokenExactly(g.waiters, bits);
    forall w | w in r.waiters ensures WaiterOk(r, w) {
      assert WaiterOk(g, w);
      StillUnmatched(w.value, r.bits, bits);
      LeftNotDelivered(g, bits, w);
    }
  }

  lemma SetDelivered(g: Group, added: Bits)
    requires Inv(g) && Plain(Union(g.bits, added))
    ensures forall t :: t in SetTo(g, added).delivered ==> DeliveredOk(SetTo(g, added), t)
  {
    hide Matches, Woken, Left, ToClear, Deliver, Delivery, Union, Except, Plain, Subset, Request, Distinct, Met;
    var bits, r := Union(g.bits, added), SetTo(g, added);
    var woken := Woken(g.waiters, bits);
    WokenExactly(g.waiters, bits);
    DeliverIs(g.delivered, woken, Delivery(bits));
    forall t | t in r.delivered ensures DeliveredOk(r, t) {
      if Waits(woken, t) {
        var w :| w in woken && w.task == t;
        assert WaiterOk(g, w);
        MatchedIsMet(g.call[t], bits);
        assert Satisfies(r, t, bits);
      } else {
        assert DeliveredOk(g, t);
        var b :| Satisfies(g, t, b);
        assert Satisfies(r, t, b);
      }
    }
  }

  lemma UnionPlain(x: Bits, y: Bits)
    requires Plain(x) && Plain(y)
    ensures Plain(Union(x, y))
  {
  }

  lemma StillUnmatched(value: Bits, fewer: Bits, bits: Bits)
    requires Subset(fewer, bits) && !Matches(value, bits)
    ensures !Matches(value, fewer)
  {
    hide Matches, Subset;
    if Matches(value, fewer) {
      MatchesGrows(value, fewer, bits);
    }
  }

  lemma MatchedIsMet(c: Call, bits: Bits)
    requires Plain(c.want)
    ensures Matches(Request(c.want, c.clear, c.all), bits) <==> Met(bits, c.want, c.all)
  {
    RequestFaithful(c.want, c.clear, c.all, bits);
  }

  lemma LeftNotDelivered(g: Group, bits: Bits, w: Waiter)
    requires Inv(g) && w in Left(g.waiters, bits)
    ensures w.task !in Deliver(g.delivered, Woken(g.waiters, bits), Delivery(bits))
  {
    hide Matches, Deliver, Delivery;
    WokenExactly(g.waiters, bits);
    WokenGone(g.waiters, bits, w);
    DeliverIs(g.delivered, Woken(g.waiters, bits), Delivery(bits));
    assert WaiterOk(g, w);
  }

  /** Fewer bits satisfy nobody new. */
  lemma ClearKeeps(g: Group, cleared: Bits)
    requires Inv(g)
    ensures Inv(ClearTo(g, cleared))
  {
    hide Matches, Plain, Subset, Except, Delivery, Met, Request, Distinct;
    var r := ClearTo(g, cleared);
    ClearingShrinks(g.bits, cleared);
    forall w | w in r.waiters ensures WaiterOk(r, w) {
      assert WaiterOk(g, w);
      StillUnmatched(w.value, r.bits, g.bits);
    }
    forall t | t in r.delivered ensures DeliveredOk(r, t) {
      assert DeliveredOk(g, t);
      var b :| Satisfies(g, t, b);
      assert Satisfies(r, t, b);
    }
  }

  lemma BlockKeeps(g: Group, t: Task, c: Call)
    requires Inv(g) && t !in g.call && Plain(c.want) && !Met(g.bits, c.want, c.all)
    ensures Inv(Blocked(g, t, c))
  {
    MatchedIsMet(c, g.bits);
    hide Matches, Plain, Met, Request, Delivery;
    var r := Blocked(g, t, c);
    forall w | w in r.waiters ensures WaiterOk(r, w) {
      if w in g.waiters {
        assert WaiterOk(g, w);
      }
    }
    assert Distinct(r.waiters) by {
      forall i | 0 <= i < |g.waiters| ensures g.waiters[i].task != t {
        assert WaiterOk(g, g.waiters[i]);
      }
    }
    hide Distinct;
    forall u | u in r.delivered ensures DeliveredOk(r, u) {
      assert DeliveredOk(g, u);
      var b :| Satisfies(g, u, b);
      assert Satisfies(r, u, b);
    }
  }

  /** The task with a time-out leaves the list. */
  function TimedOut(g: Group, k: nat): Group
    requires k < |g.waiters|
  {
    g.(waiters := g.waiters[..k] + g.waiters[k + 1..])
  }

  lemma TimeOutKeeps(g: Group, k: nat)
    requires Inv(g) && k < |g.waiters|
    ensures Inv(TimedOut(g, k))
  {
    hide Matches, Plain, Met, Request, Delivery;
    var r := TimedOut(g, k);
    forall i | 0 <= i < |r.waiters| ensures r.waiters[i] == g.waiters[if i < k then i else i + 1] {
    }
    forall w | w in r.waiters ensures WaiterOk(r, w) {
      assert WaiterOk(g, w);
    }
    hide Distinct;
    SameDelivered(g, r);
  }

  lemma SameDelivered(g: Group, r: Group)
    requires forall t :: t in g.delivered ==> DeliveredOk(g, t)
    requires forall t :: t in r.delivered ==> t in g.delivered && r.delivered[t] == g.delivered[t]
    requires forall t :: t in r.delivered && t in g.call ==> t in r.call && r.call[t] == g.call[t]
    ensures forall t :: t in r.delivered ==> DeliveredOk(r, t)
  {
    hide Plain, Met, Delivery;
    forall t | t in r.delivered ensures DeliveredOk(r, t) {
      assert DeliveredOk(g, t);
      var b :| Satisfies(g, t, b);
      assert Satisfies(r, t, b);
    }
  }

  /** A task that is off the list returns from its call. */
  lemma LeaveKeeps(g: Group, t: Task)
    requires Inv(g) && t in g.call && !Waits(g.waiters, t)
    ensures Inv(g.(call := g.call - {t}, delivered := g.delivered - {t}))
  {
    hide Matches, Plain, Met, Request, Delivery, Distinct;
    var r := g.(call := g.call - {t}, delivered := g.delivered - {t});
    forall w | w in r.waiters ensures WaiterOk(r, w) {
      assert WaiterOk(g, w);
    }
    SameDelivered(g, r);
  }

  lemma FinishKeeps(g: Group, t: Task)
    requires Inv(g) && t in g.call && !Waits(g.waiters, t)
    ensures Inv(Finish(g, t).0)
  {
    LeaveKeeps(g, t);
    hide Inv, Met, Except;
    ClearKeeps(g.(call := g.call - {t}, delivered := g.delivered - {t}), g.call[t].want);
  }

  /**
   What a task gets back from a call it was blocked in: if it was unblocked, the one value of the
   bits that satisfied it, whatever the bits are now; if it timed out, the bits as they are now.
   */
  lemma FinishReturns(g: Group, t: Task)
    requires Inv(g) && t in g.call
    ensures var v := Finish(g, t).1;
            && Plain(v)
            && (t in g.delivered ==> Met(v, g.call[t].want, g.call[t].all))
            && (t !in g.delivered ==> v == g.bits)
  {
    var c := g.call[t];
    PlainMasked(g.bits);
    if t in g.delivered {
      assert DeliveredOk(g, t);
      var b :| Satisfies(g, t, b);
      DeliveredReads(b);
      hide Met, Plain, Delivery, Request;
    } else {
      RequestFaithful(c.want, c.clear, c.all, g.bits);
      hide Met, Plain, Delivery, Request;
    }
  }

  lemma PlainMasked(b: Bits)
    requires Plain(b)
    ensures Stripped(b) == b
  {
  }

  // ----- runs -----

  datatype Step =
    | SetBits(added: Bits)
    | ClearBits(cleared: Bits)
    | Wait(t: Task, call: Call, block: bool)
    | Sync(t: Task, added: Bits, want: Bits, block: bool)
    | TimeOut(k: nat)
    | Return(t: Task)

  /** The assertions of the source on its arguments; a blocked task makes no calls. */
  ghost predicate Enabled(g: Group, st: Step) {
    match st
    case SetBits(added) => Plain(added)
    case ClearBits(cleared) => Plain(cleared)
    case Wait(t, c, _) => t !in g.call && Plain(c.want) && c.want != 0
    case Sync(t, added, want, _) => t !in g.call && Plain(added) && Plain(want) && want != 0
    case TimeOut(k) => k < |g.waiters|
    case Return(t) => t in g.call && !Waits(g.waiters, t)
  }

  ghost function Apply(g: Group, st: Step): Group
    requires Enabled(g, st)
  {
    match st
    case SetBits(added) => SetTo(g, added)
    case ClearBits(cleared) => ClearTo(g, cleared)
    case Wait(t, c, block) => WaitFor(g, t, c, block).0
    case Sync(t, added, want, block) => Rendezvous(g, t, added, want, block).0
    case TimeOut(k) => TimedOut(g, k)
    case Return(t) => Finish(g, t).0
  }

  lemma SyncKeeps(g: Group, t: Task, added: Bits, want: Bits, block: bool)
    requires Inv(g) && t !in g.call && Plain(added) && Plain(want)
    ensures Inv(Rendezvous(g, t, added, want, block).0)
  {
    var bits, g1 := Union(g.bits, added), SetTo(g, added);
    SetKeeps(g, added);
    SetShrinks(g, added);
    hide Inv, SetTo, Union, Plain;
    if Met(bits, want, true) {
      ClearKeeps(g1, want);
    } else if block {
      MetShrinks(g1.bits, bits, want);
      BlockKeeps(g1, t, Call(want, true, true));
    }
  }

  lemma SetShrinks(g: Group, added: Bits)
    ensures Subset(SetTo(g, added).bits, Union(g.bits, added)) && SetTo(g, added).call == g.call
  {
    ClearingShrinks(Union(g.bits, added), ToClear(g.waiters, Union(g.bits, added)));
  }

  lemma MetShrinks(fewer: Bits, bits: Bits, want: Bits)
    requires Subset(fewer, bits)
    ensures Met(fewer, want, true) ==> Met(bits, want, true)
  {
  }

  lemma StepKeeps(g: Group, st: Step)
    requires Inv(g) && Enabled(g, st)
    ensures Inv(Apply(g, st))
  {
    hide Inv, SetTo, Met, Union, Plain;
    match st
    case SetBits(added) => SetKeeps(g, added);
    case ClearBits(cleared) => ClearKeeps(g, cleared);
    case Wait(t, c, block) =>
      if Met(g.bits, c.want, c.all) {
        ClearKeeps(g, c.want);
      } else if block {
        BlockKeeps(g, t, c);
      }
    case Sync(t, added, want, block) => SyncKeeps(g, t, added, want, block);
    case TimeOut(k) => TimeOutKeeps(g, k);
    case Return(t) => FinishKeeps(g, t);
  }

  ghost predicate Runnable(g: Group, sts: seq<Step>)
    decreases |sts|
  {
    sts == [] || (Enabled(g, sts[0]) && Runnable(Apply(g, sts[0]), sts[1..]))
  }

  ghost function Run(g: Group, sts: seq<Step>): Group
    requires Runnable(g, sts)
    decreases |sts|
  {
    if sts == [] then g else Run(Apply(g, sts[0]), sts[1..])
  }

  /** A new event group. */
  function Fresh(): (g: Group)
    ensures Inv(g)
  {
    Group(0, [], map[], map[])
  }

  lemma {:induction false} RunKeeps(g: Group, sts: seq<Step>)
    requires Inv(g) && Runnable(g, sts)
    ensures var r := Run(g, sts);
            Inv(r) && forall w :: w in r.waiters ==>
                                    w.task in r.call && !Met(r.bits, r.call[w.task].want, r.call[w.task].all)
    decreases |sts|
  {
    hide Met, Apply, Enabled, Matches, Request, Plain;
    if sts != [] {
      StepKeeps(g, sts[0]);
      hide Inv;
      RunKeeps(Apply(g, sts[0]), sts[1..]);
    } else {
      forall w | w in g.waiters ensures w.task in g.call && !Met(g.bits, g.call[w.task].want, g.call[w.task].all) {
        assert WaiterOk(g, w);
        MatchedIsMet(g.call[w.task], g.bits);
      }
    }
  }

  /** In every state a new event group can reach no task left on the waiting list has its condition satisfied. */
  lemma NobodySatisfiedWaits(sts: seq<Step>)
    requires Runnable(Fresh(), sts)
    ensures var r := Run(Fresh(), sts);
            Inv(r) && forall w :: w in r.waiters ==>
                                    w.task in r.call && !Met(r.bits, r.call[w.task].want, r.call[w.task].all)
  {
    hide Inv, Met;
    RunKeeps(Fresh(), sts);
  }

  // ----- a set, exactly -----

  /**
   A set unblocks exactly the waiting tasks whose condition the old bits together with the new
   ones satisfy, hands each of them that same value, and leaves those bits less the ones to clear.
   */
  lemma SetIsExact(g: Group, added: Bits, w: Waiter)
    requires Inv(g) && Plain(added) && w in g.waiters
    ensures var bits, r := Union(g.bits, added), SetTo(g, added);
            && r.bits == Except(bits, ToClear(g.waiters, bits))
            && w.task in g.call && w.task in r.call
            && (Waits(r.waiters, w.task) <==> !Met(bits, g.call[w.task].want, g.call[w.task].all))
            && (w.task in r.delivered <==> Met(bits, g.call[w.task].want, g.call[w.task].all))
            && (w.task in r.delivered ==> Finish(r, w.task).1 == bits)
  {
    hide Matches, Met, Plain, Delivery, Request, Union, Except, ToClear, Distinct, Finish;
    var bits, r := Union(g.bits, added), SetTo(g, added);
    UnionPlain(g.bits, added);
    assert WaiterOk(g, w);
    MatchedIsMet(g.call[w.task], bits);
    WokenExactly(g.waiters, bits);
    DeliverIs(g.delivered, Woken(g.waiters, bits), Delivery(bits));
    OneEntry(g.waiters, bits, w);
    if w.task in r.delivered {
      FinishDelivered(r, w.task, bits);
    }
  }

  lemma FinishDelivered(g: Group, t: Task, bits: Bits)
    requires t in g.call && t in g.delivered && g.delivered[t] == Delivery(bits) && Plain(bits)
    ensures Finish(g, t).1 == bits
  {
    DeliveredReads(bits);
    hide Delivery, Plain;
  }

  lemma OneEntry(ws: seq<Waiter>, bits: Bits, w: Waiter)
    requires Distinct(ws) && w in ws
    ensures Waits(Left(ws, bits), w.task) <==> !Matches(w.value, bits)
    ensures Waits(Woken(ws, bits), w.task) <==> Matches(w.value, bits)
  {
    hide Matches;
    WokenExactly(ws, bits);
    forall v | v in ws && v.task == w.task ensures v == w {
      var i :| 0 <= i < |ws| && ws[i] == v;
      var j :| 0 <= j < |ws| && ws[j] == w;
    }
  }

  /**
   A rendezvous: when everybody waiting has synchronised on the same bits and the last one
   completes them, all are released with one value that has the bits, and the bits are cleared.
   */
  lemma RendezvousReleasesAll(g: Group, t: Task, added: Bits, want: Bits, block: bool)
    requires Inv(g) && Plain(added) && Plain(want) && Met(Union(g.bits, added), want, true)
    requires forall w :: w in g.waiters ==> w.value == Request(want, true, true)
    ensures var (r, value), bits := Rendezvous(g, t, added, want, block), Union(g.bits, added);
            && value == bits && r.waiters == [] && r.bits == Except(bits, want)
            && forall w :: w in g.waiters ==> w.task in r.delivered && r.delivered[w.task] == Delivery(bits)
  {
    hide Met, Delivery, Union, Except, ToClear, Request, Plain, Subset;
    var bits := Union(g.bits, added);
    AllMatch(g.waiters, bits, want);
    DeliverIs(g.delivered, Woken(g.waiters, bits), Delivery(bits));
    ClearedTwice(bits, ToClear(g.waiters, bits), want);
    assert forall w :: w in g.waiters ==> Waits(g.waiters, w.task);
  }

  lemma ClearedTwice(bits: Bits, some: Bits, want: Bits)
    requires Subset(some, want)
    ensures Except(Except(bits, some), want) == Except(bits, want)
  {
  }

  lemma {:induction false} AllMatch(ws: seq<Waiter>, bits: Bits, want: Bits)
    requires Plain(want) && Met(bits, want, true) && forall w :: w in ws ==> w.value == Request(want, true, true)
    ensures Left(ws, bits) == [] && Woken(ws, bits) == ws && Subset(ToClear(ws, bits), want)
  {
    RequestFaithful(want, true, true, bits);
    SelfSubset(want);
    hide Matches, Met, Request, Union, Subset, Plain, Clears, Stripped;
    if ws != [] {
      assert ws[0] in ws;
      AllMatch(ws[1..], bits, want);
      UnionLeast(Cleared(ws[0], bits), ToClear(ws[1..], bits), want);
    } else {
      NoBits(want);
    }
  }

  lemma SelfSubset(x: Bits)
    ensures Subset(x, x)
  {
  }

  // ----- the object -----

  /** An event group, with the item values and calls of the tasks that use it. */
  class EventGroup {
    var bits: Bits
    var waiters: seq<Waiter>
    var delivered: map<Task, Bits>
    var call: map<Task, Call>

    ghost function View(): Group
      reads this
    {
      Group(bits, waiters, delivered, call)
    }

    constructor ()
      ensures View() == Fresh()
    {
      bits, waiters, delivered, call := 0, [], map[], map[];
    }

    /** The walk over the waiting list; the next item is found before the current one is removed. */
    method SetBits(added: Bits) returns (now: Bits)
      modifies this`bits, this`waiters, this`delivered
      ensures View() == SetTo(old(View()), added) && now == bits
    {
      hide Clears, Stripped, Matches, Except, Delivery, Union, Goal;
      ghost var start := delivered;
      bits := Union(bits, added);
      ghost var target := Goal(waiters, 0, bits, 0, start);
      GoalAtStart(waiters, bits, start);
      var toClear: Bits := 0;
      var i := 0;
      while i < |waiters|
        invariant i <= |waiters| && bits == Union(old(bits), added)
        invariant Goal(waiters, i, bits, toClear, delivered) == target
        decreases |waiters| - i
      {
        var item := waiters[i];
        GoalStep(waiters, i, bits, toClear, delivered);
        if Matches(item.value, bits) {
          if Clears(item.value) {
            toClear := Union(toClear, Stripped(item.value));
          }
          delivered := delivered[item.task := Delivery(bits)];
          waiters := waiters[..i] + waiters[i + 1..];
        } else {
          i := i + 1;
        }
      }
      GoalAtEnd(waiters, bits, toClear, delivered);
      bits := Except(bits, toClear);
      now := bits;
    }

    /** The part of `xEventGroupWaitBits` up to blocking. */
    method WaitBits(t: Task, c: Call, block: bool) returns (value: Bits)
      modifies this
      ensures (View(), value) == WaitFor(old(View()), t, c, block)
    {
      hide Met, Request, Except;
      value := bits;
      if Met(bits, c.want, c.all) {
        if c.clear {
          bits := Except(bits, c.want);
        }
      } else if block {
        Join(t, c);
        value := 0;
      }
    }

    /** Store the request in the task's event list item and put it at the end of the list. */
    method Join(t: Task, c: Call)
      modifies this`waiters, this`call, this`delivered
      ensures View() == Blocked(old(View()), t, c)
    {
      waiters := waiters + [Waiter(t, Request(c.want, c.clear, c.all))];
      call := call[t := c];
      delivered := delivered - {t};
    }

    /** The part of `xEventGroupSync` up to blocking. */
    method Sync(t: Task, added: Bits, want: Bits, block: bool) returns (value: Bits)
      modifies this
      ensures (View(), value) == Rendezvous(old(View()), t, added, want, block)
    {
      hide Met, Union, Except, SetTo, Blocked;
      var original := bits;
      var now := SetBits(added);
      if Met(Union(original, added), want, true) {
        value := Union(original, added);
        bits := Except(bits, want);
      } else if block {
        Join(t, Call(want, true, true));
        value := 0;
      } else {
        value := bits;
      }
    }

    /** What a task does when it runs again after it has blocked. */
    method Resume(t: Task) returns (value: Bits)
      requires t in call
      modifies this
      ensures (View(), value) == Finish(old(View()), t)
    {
      hide Met, Request, Except, Unblocked, Stripped;
      var c := call[t];
      value := if t in delivered then delivered[t] else Request(c.want, c.clear, c.all);
      call := call - {t};
      delivered := delivered - {t};
      if !Unblocked(value) {
        value := bits;
        if Met(value, c.want, c.all) && c.clear {
          bits := Except(bits, c.want);
        }
      }
      value := Stripped(value);
    }

    method ClearBits(cleared: Bits) returns (before: Bits)
      modifies this`bits
      ensures before == old(bits) && View() == ClearTo(old(View()), cleared)
    {
      before := bits;
      bits := Except(bits, cleared);
    }

    /** `vEventGroupDelete`: every waiting task is released and reads zero. */
    method Delete()
      modifies this`waiters, this`delivered
      ensures waiters == [] && delivered == Deliver(old(delivered), old(waiters), Delivery(0))
      ensures forall t :: Waits(old(waiters), t) ==>
          t in delivered && Unblocked(delivered[t]) && Stripped(delivered[t]) == 0
      ensures forall t :: t in old(delivered) && !Waits(old(waiters), t) ==>
          t in delivered && delivered[t] == old(delivered)[t]
    {
      hide Delivery, Unblocked, Stripped;
      ghost var m, ws := delivered, waiters;
      var released := UNBLOCKED_BY_SET | IN_USE;
      DeliversZero();
      while waiters != []
        invariant Deliver(delivered, waiters, released) == Deliver(m, ws, released)
        decreases |waiters|
      {
        delivered := delivered[waiters[0].task := released];
        waiters := waiters[1..];
      }
      DeliverIs(m, ws, released);
    }
  }

  /** What the walk still has to produce: the remaining list, the bits to clear and the item values. */
  ghost function Goal(ws: seq<Waiter>, i: nat, bits: Bits, toClear: Bits, m: map<Task, Bits>)
    : (seq<Waiter>, Bits, map<Task, Bits>)
    requires i <= |ws|
  {
    (ws[..i] + Left(ws[i..], bits), Union(toClear, ToClear(ws[i..], bits)), Deliver(m, Woken(ws[i..], bits), Delivery(bits)))
  }

  lemma GoalAtStart(ws: seq<Waiter>, bits: Bits, m: map<Task, Bits>)
    ensures Goal(ws, 0, bits, 0, m) == (Left(ws, bits), ToClear(ws, bits), Deliver(m, Woken(ws, bits), Delivery(bits)))
  {
    NoneToUnite(ToClear(ws, bits));
    assert ws[0..] == ws;
    hide Union;
    assert ws[..0] + Left(ws, bits) == Left(ws, bits);
  }

  lemma GoalAtEnd(ws: seq<Waiter>, bits: Bits, toClear: Bits, m: map<Task, Bits>)
    ensures Goal(ws, |ws|, bits, toClear, m) == (ws, toClear, m)
  {
    UniteNone(toClear);
    hide Union;
    assert ws[|ws|..] == [];
    assert ws[..|ws|] + [] == ws;
  }

  /** One item: a match is removed and recorded, anything else is passed over. */
  lemma GoalStep(ws: seq<Waiter>, i: nat, bits: Bits, toClear: Bits, m: map<Task, Bits>)
    requires i < |ws|
    ensures var item := ws[i];
            Goal(ws, i, bits, toClear, m) ==
            if Matches(item.value, bits) then
              Goal(ws[..i] + ws[i + 1..], i, bits, if Clears(item.value) then Union(toClear, Stripped(item.value)) else toClear,
                   m[item.task := Delivery(bits)])
            else Goal(ws, i + 1, bits, toClear, m)
  {
    hide Matches, Clears, Stripped, Delivery, Union;
    var item, prefix, rest := ws[i], ws[..i], ws[i..];
    Walk(rest, bits);
    UnionShifts(toClear, Cleared(item, bits), ToClear(rest[1..], bits));
    if Matches(item.value, bits) {
      var vs := prefix + ws[i + 1..];
      assert vs[..i] == prefix && vs[i..] == rest[1..];
    } else {
      assert ws[..i + 1] == prefix + [item] && ws[i + 1..] == rest[1..];
      assert prefix + ([item] + Left(rest[1..], bits)) == (prefix + [item]) + Left(rest[1..], bits);
    }
  }

  lemma NoneToUnite(x: Bits)
    ensures Union(0, x) == x
  {
  }

  lemma UniteNone(x: Bits)
    ensures Union(x, 0) == x
  {
  }

  lemma UnionShifts(x: Bits, y: Bits, z: Bits)
    ensures Union(x, Union(y, z)) == Union(Union(x, y), z)
    ensures y == 0 ==> Union(x, Union(y, z)) == Union(x, z)
  {
  }

  /** One step of the walk. */
  lemma Walk(rest: seq<Waiter>, bits: Bits)
    requires rest != []
    ensures ToClear(rest, bits) == Union(Cleared(rest[0], bits), ToClear(rest[1..], bits))
    ensures Left(rest, bits) == (if Matches(rest[0].value, bits) then [] else [rest[0]]) + Left(rest[1..], bits)
    ensures Woken(rest, bits) == (if Matches(rest[0].value, bits) then [rest[0]] else []) + Woken(rest[1..], bits)
    ensures Cleared(rest[0], bits) == if Matches(rest[0].value, bits) && Clears(rest[0].value) then Stripped(rest[0].value) else 0
  {
    hide Matches, Clears, Stripped, Union;
  }
}
