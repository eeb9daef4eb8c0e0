/**
 What the operations on an event group leave, bit by bit.  `m` is any mask: a claim about `x & m` for
 every mask says which bits are set.
 */
module EventOutcomes {
  import opened EventGroups

  /** No bit of `y` is set in `x`. */
  predicate NoneOf(x: Bits, y: Bits) { x & y == 0 }

  /** The two have the same bits under the mask. */
  predicate Agree(x: Bits, y: Bits, m: Bits) { x & m == y & m }

  /** An item value that looks unblocked and reads as these bits. */
  predicate Reads(value: Bits, bits: Bits) { value & UNBLOCKED_BY_SET != 0 && value & !CONTROL == bits }

  /** An item value that says what a call waits for and how, and does not look unblocked. */
  predicate Asks(value: Bits, c: Call) {
    && value & !CONTROL == c.want && (value & CLEAR_ON_EXIT != 0 <==> c.clear) && (value & WAIT_FOR_ALL != 0 <==> c.all)
    && value & UNBLOCKED_BY_SET == 0
  }

  /** All bits waited for are set: none of them is among the bits that are not. */
  lemma MetByAll(bits: Bits, want: Bits)
    ensures Met(bits, want, true) <==> NoneOf(want, !bits)
  {
    hide Met, NoneOf;
    if NoneOf(want, !bits) {
      NoneMissing(bits, want);
    }
    if Met(bits, want, true) {
      AllThere(bits, want);
    }
  }

  lemma NoneMissing(bits: Bits, want: Bits)
    requires NoneOf(want, !bits)
    ensures Met(bits, want, true)
  {
  }

  lemma AllThere(bits: Bits, want: Bits)
    requires Met(bits, want, true)
    ensures NoneOf(want, !bits)
  {
  }

  /** One of the bits waited for is set. */
  lemma MetByAny(bits: Bits, want: Bits)
    ensures Met(bits, want, false) <==> !NoneOf(bits, want)
  {
  }

  predicate Holds(bits: Bits, c: Call) { Met(bits, c.want, c.all) }

  // ----- clearing -----

  /** Together these say what is left of `x` without `y`. */
  lemma ExceptClears(x: Bits, y: Bits)
    ensures NoneOf(Except(x, y), y) && Except(x, y) | y == x | y
  {
  }

  lemma ExceptKeeps(x: Bits, y: Bits, m: Bits)
    requires NoneOf(m, y)
    ensures Agree(Except(x, y), x, m)
  {
  }

  /** The bits given are clear afterwards, and every other one is as it was. */
  lemma ClearsExactly(g: Group, cleared: Bits, m: Bits)
    ensures var r := ClearTo(g, cleared);
            && NoneOf(r.bits, cleared) && (NoneOf(m, cleared) ==> Agree(r.bits, g.bits, m))
            && r.waiters == g.waiters && r.delivered == g.delivered && r.call == g.call
  {
    ExceptClears(g.bits, cleared);
    if NoneOf(m, cleared) {
      ExceptKeeps(g.bits, cleared, m);
    }
    hide Except, NoneOf, Agree;
  }

  // ----- setting -----

  /** The tasks a set releases, by what they asked for. */
  ghost predicate Released(g: Group, w: Waiter, bits: Bits) { w in g.waiters && w.task in g.call && Holds(bits, g.call[w.task]) }

  /**
   A waiting task whose condition the old bits together with the new ones satisfy is off the list, is
   handed that value, and its bits are clear if it asked for that; any other goes on waiting.
   */
  lemma SetsExactly(g: Group, added: Bits, w: Waiter)
    requires Inv(g) && Plain(added) && w in g.waiters
    ensures var bits, r := Union(g.bits, added), SetTo(g, added);
            && w.task in g.call && r.call == g.call
            && (if Holds(bits, g.call[w.task]) then
                  && !Waits(r.waiters, w.task) && w.task in r.delivered
                  && Reads(r.delivered[w.task], bits)
                  && (g.call[w.task].clear ==> NoneOf(r.bits, g.call[w.task].want))
                else w in r.waiters && w.task !in r.delivered)
  {
    hide Inv, SetTo, Met, Plain, NoneOf, Reads, Matches, Union, Delivery, Request, Clears, Stripped, Unblocked;
    WaiterFacts(g, w);
    var c := g.call[w.task];
    SetIsExact(g, added, w);
    SetShapes(g, added);
    WokenExactly(g.waiters, Union(g.bits, added));
    MatchedIsMet(c, Union(g.bits, added));
    if Met(Union(g.bits, added), c.want, c.all) {
      DeliveredValue(g, added, w);
      if c.clear {
        AskedIsClear(g, added, w);
      }
    }
  }

  lemma UnionIs(x: Bits, y: Bits)
    ensures Union(x, y) == x | y
  {
  }

  lemma WaiterFacts(g: Group, w: Waiter)
    requires Inv(g) && w in g.waiters
    ensures w.task in g.call && w.value == Request(g.call[w.task].want, g.call[w.task].clear, g.call[w.task].all)
    ensures Plain(g.call[w.task].want) && Plain(g.bits)
  {
    assert WaiterOk(g, w);
    hide Plain, Request, Matches;
  }

  lemma SetShapes(g: Group, added: Bits)
    ensures var bits, r := Union(g.bits, added), SetTo(g, added);
            r.waiters == Left(g.waiters, bits) && r.call == g.call && r.bits == Except(bits, ToClear(g.waiters, bits))
  {
    hide Left, ToClear, Except, Deliver, Delivery;
  }

  lemma DeliveredValue(g: Group, added: Bits, w: Waiter)
    requires Inv(g) && Plain(added) && w in g.waiters && Matches(w.value, Union(g.bits, added))
    ensures var bits, r := Union(g.bits, added), SetTo(g, added);
            w.task in r.delivered && Reads(r.delivered[w.task], bits)
  {
    hide Inv, Plain, Matches, Delivery, Reads, Union;
    var bits := Union(g.bits, added);
    UnionIs(g.bits, added);
    WaiterFacts(g, w);
    PlainBoth(g.bits, added);
    WokenExactly(g.waiters, bits);
    DeliverIs(g.delivered, Woken(g.waiters, bits), Delivery(bits));
    assert Waits(Woken(g.waiters, bits), w.task);
    DeliveryBits(bits);
    SetDelivers(g, added);
  }

  lemma SetDelivers(g: Group, added: Bits)
    ensures SetTo(g, added).delivered == Deliver(g.delivered, Woken(g.waiters, Union(g.bits, added)), Delivery(Union(g.bits, added)))
  {
    hide Deliver, Delivery, Woken;
  }

  lemma PlainBoth(x: Bits, y: Bits)
    requires Plain(x) && Plain(y)
    ensures Plain(x | y)
  {
  }

  lemma DeliveryBits(bits: Bits)
    requires Plain(bits)
    ensures Reads(Delivery(bits), bits)
  {
  }

  /** The bits of a released task that asked for clearing are among those cleared. */
  lemma AskedIsClear(g: Group, added: Bits, w: Waiter)
    requires Inv(g) && Plain(added) && w in g.waiters && Matches(w.value, Union(g.bits, added)) && w.task in g.call
    requires g.call[w.task].clear
    ensures NoneOf(SetTo(g, added).bits, g.call[w.task].want)
  {
    hide Inv, Plain, Matches, Request, Clears, Stripped, SetTo, ToClear, Except, Subset, NoneOf, Union;
    var bits, c := Union(g.bits, added), g.call[w.task];
    WaiterFacts(g, w);
    RequestFaithful(c.want, c.clear, c.all, bits);
    ClearsAsked(g.waiters, bits, w);
    SetShapes(g, added);
    ExceptClears(bits, ToClear(g.waiters, bits));
    PartIsClear(c.want, ToClear(g.waiters, bits), SetTo(g, added).bits);
  }

  lemma PartIsClear(part: Bits, whole: Bits, bits: Bits)
    requires Subset(part, whole) && NoneOf(bits, whole)
    ensures NoneOf(bits, part)
  {
    assert bits & part == (bits & whole) & part;
  }

  /** A bit that no released task asked to clear is as set afterwards as before or asked for. */
  lemma SetKeepsOthers(g: Group, added: Bits, m: Bits)
    requires Inv(g) && Plain(added)
    requires forall w :: Released(g, w, Union(g.bits, added)) && g.call[w.task].clear ==> NoneOf(m, g.call[w.task].want)
    ensures Agree(SetTo(g, added).bits, Union(g.bits, added), m)
  {
    hide Inv, Plain, Matches, Request, Clears, Stripped, SetTo, ToClear, Except, Subset, Cleared, Met, NoneOf, Agree,
        Union;
    var bits := Union(g.bits, added);
    forall w | w in g.waiters ensures Subset(Cleared(w, bits), !m) {
      WaiterFacts(g, w);
      var c := g.call[w.task];
      RequestFaithful(c.want, c.clear, c.all, bits);
      ClearedIs(w, bits);
      OutsideMask(c.want, m);
      assert Released(g, w, bits) <==> Matches(w.value, bits);
    }
    ClearsOnlyAsked(g.waiters, bits, !m);
    SetShapes(g, added);
    MaskKept(bits, ToClear(g.waiters, bits), m);
  }

  lemma ClearedIs(w: Waiter, bits: Bits)
    ensures Cleared(w, bits) == if Matches(w.value, bits) && Clears(w.value) then Stripped(w.value) else 0
  {
    hide Matches, Clears, Stripped;
  }

  lemma OutsideMask(x: Bits, m: Bits)
    ensures Subset(0, !m) && (NoneOf(m, x) ==> Subset(x, !m))
  {
  }

  lemma MaskKept(bits: Bits, clear: Bits, m: Bits)
    requires Subset(clear, !m)
    ensures Agree(Except(bits, clear), bits, m)
  {
  }

  // ----- waiting -----

  /**
   A call that finds its condition satisfied returns the bits it found, and clears those it waited for
   if asked to; one that does not waits with its request, or returns and changes nothing.
   */
  lemma WaitsExactly(g: Group, t: Task, c: Call, block: bool, m: Bits)
    requires Plain(c.want)
    ensures var (r, value) := WaitFor(g, t, c, block);
            if Holds(g.bits, c) then
              && value == g.bits && r.waiters == g.waiters && r.delivered == g.delivered && r.call == g.call
              && (c.clear ==> NoneOf(r.bits, c.want) && (NoneOf(m, c.want) ==> Agree(r.bits, g.bits, m)))
              && (!c.clear ==> r.bits == g.bits)
            else if block then
              && r.bits == g.bits && r.call == g.call[t := c] && t !in r.delivered
              && (forall u :: u != t ==> (u in r.delivered <==> u in g.delivered))
              && (forall u :: u in r.delivered ==> r.delivered[u] == g.delivered[u])
              && |r.waiters| == |g.waiters| + 1 && r.waiters[..|g.waiters|] == g.waiters
              && var w := r.waiters[|g.waiters|];
                 w.task == t && Asks(w.value, c)
            else r == g && value == g.bits
  {
    hide Met, Request, ClearTo, NoneOf, Agree, Asks, Plain;
    ClearsExactly(g, c.want, m);
    RequestBits(c);
  }

  lemma RequestBits(c: Call)
    requires Plain(c.want)
    ensures Asks(Request(c.want, c.clear, c.all), c)
  {
  }

  /**
   A task that was unblocked clears nothing when it returns.  One that timed out returns the bits as
   they are, and if these satisfy it by now, clears those it waited for if asked to.
   */
  lemma FinishesExactly(g: Group, t: Task, m: Bits)
    requires Inv(g) && t in g.call
    ensures var (r, value), c := Finish(g, t), g.call[t];
            && r.waiters == g.waiters && r.call == g.call - {t} && r.delivered == g.delivered - {t}
            && (t in g.delivered ==> r.bits == g.bits && Holds(value, c) && Reads(g.delivered[t], value))
            && (t !in g.delivered ==>
                  && value == g.bits
                  && (if Holds(g.bits, c) && c.clear
                      then NoneOf(r.bits, c.want) && (NoneOf(m, c.want) ==> Agree(r.bits, g.bits, m))
                      else r.bits == g.bits))
  {
    hide Inv, Met, Request, ClearTo, Unblocked, Stripped, Plain, NoneOf, Agree, Reads;
    var c := g.call[t];
    FinishReturns(g, t);
    FinishTurns(g, t);
    ClearsExactly(g.(call := g.call - {t}, delivered := g.delivered - {t}), c.want, m);
    if t in g.delivered {
      StrippedReads(g.delivered[t]);
    }
  }

  lemma StrippedReads(v: Bits)
    requires Unblocked(v)
    ensures Reads(v, Stripped(v))
  {
  }

  /** Whether the item looks unblocked is whether a set delivered it. */
  lemma FinishTurns(g: Group, t: Task)
    requires Inv(g) && t in g.call
    ensures var c := g.call[t];
            if t in g.delivered then Unblocked(g.delivered[t]) else !Unblocked(Request(c.want, c.clear, c.all))
  {
    var c := g.call[t];
    if t in g.delivered {
      assert DeliveredOk(g, t);
      var b :| Satisfies(g, t, b);
      DeliveredReads(b);
    } else {
      RequestFaithful(c.want, c.clear, c.all, g.bits);
    }
    hide Met, Plain, Delivery, Request, Unblocked;
  }

  /** A time-out takes its task off the list and nobody else. */
  lemma TimesOutExactly(g: Group, k: nat)
    requires Inv(g) && k < |g.waiters|
    ensures var r := TimedOut(g, k);
            && r.bits == g.bits && r.delivered == g.delivered && r.call == g.call
            && !Waits(r.waiters, g.waiters[k].task)
            && forall w :: w in g.waiters && w.task != g.waiters[k].task ==> w in r.waiters
  {
    hide Matches, Plain, Met, Request, Delivery;
    var r := TimedOut(g, k);
    assert forall i :: 0 <= i < |r.waiters| ==> r.waiters[i] == g.waiters[if i < k then i else i + 1];
    forall w | w in g.waiters && w.task != g.waiters[k].task ensures w in r.waiters {
      var i :| 0 <= i < |g.waiters| && g.waiters[i] == w;
      assert r.waiters[if i < k then i else i - 1] == w;
    }
  }

  // ----- rendezvous -----

  /** Everybody who waits has synchronised on these bits. */
  ghost predicate AllWaitFor(g: Group, want: Bits) { forall w :: w in g.waiters ==> w.value == Request(want, true, true) }

  /** An arrival that does not complete the bits sets its own, releases nobody, and waits for all of them. */
  lemma ArrivalWaits(g: Group, t: Task, added: Bits, want: Bits)
    requires Inv(g) && Plain(added) && Plain(want) && AllWaitFor(g, want) && !Met(Union(g.bits, added), want, true)
    ensures var r := Rendezvous(g, t, added, want, true).0;
            && r.bits == Union(g.bits, added) && r.waiters == g.waiters + [Waiter(t, Request(want, true, true))]
            && r.call == g.call[t := Call(want, true, true)] && AllWaitFor(r, want)
  {
    hide Request, Matches, Except, Plain, Inv;
    var bits := Union(g.bits, added);
    NobodyMatches(g.waiters, bits, want);
    SetShapes(g, added);
    NothingCleared(bits);
    hide SetTo, Met;
  }

  lemma NothingCleared(bits: Bits)
    ensures Except(bits, 0) == bits
  {
  }

  lemma {:induction false} NobodyMatches(ws: seq<Waiter>, bits: Bits, want: Bits)
    requires Plain(want) && !Met(bits, want, true) && forall w :: w in ws ==> w.value == Request(want, true, true)
    ensures Left(ws, bits) == ws && ToClear(ws, bits) == 0
  {
    hide Matches, Request, Plain, Clears, Stripped, Union, Met, Cleared;
    if ws != [] {
      assert ws[0] in ws;
      RequestFaithful(want, true, true, bits);
      ClearedIs(ws[0], bits);
      NobodyMatches(ws[1..], bits, want);
      NoUnion();
    }
  }

  lemma NoUnion()
    ensures Union(0, 0) == 0
  {
  }

  /**
   The arrival that completes the bits returns them, and they are clear when it is through; bits it
   did not wait for and that no task it released asked to clear are as set.
   */
  lemma ArrivalCompletes(g: Group, t: Task, added: Bits, want: Bits, block: bool, m: Bits)
    requires Inv(g) && Plain(added) && Plain(want) && Met(Union(g.bits, added), want, true)
    ensures var (r, value) := Rendezvous(g, t, added, want, block);
            && value == Union(g.bits, added) && NoneOf(r.bits, want)
            && r.waiters == SetTo(g, added).waiters && r.call == g.call && r.delivered == SetTo(g, added).delivered
            && (NoneOf(m, want)
                && (forall w :: Released(g, w, Union(g.bits, added)) && g.call[w.task].clear ==> NoneOf(m, g.call[w.task].want))
                ==> Agree(r.bits, Union(g.bits, added), m))
  {
    hide Inv, SetTo, Plain, ClearTo, NoneOf, Agree, Union, Met;
    ClearsExactly(SetTo(g, added), want, m);
    SetCalls(g, added);
    if NoneOf(m, want) && forall w :: Released(g, w, Union(g.bits, added)) && g.call[w.task].clear ==>
        NoneOf(m, g.call[w.task].want) {
      SetKeepsOthers(g, added, m);
      AgreeTwice(Rendezvous(g, t, added, want, block).0.bits, SetTo(g, added).bits, Union(g.bits, added), m);
    }
  }

  lemma AgreeTwice(x: Bits, y: Bits, z: Bits, m: Bits)
    requires Agree(x, y, m) && Agree(y, z, m)
    ensures Agree(x, z, m)
  {
  }

  lemma SetCalls(g: Group, added: Bits)
    ensures SetTo(g, added).call == g.call
  {
  }

  /** One that may not wait and does not complete them has set its own and returns what is then set. */
  lemma ArrivalReturns(g: Group, t: Task, added: Bits, want: Bits)
    requires !Met(Union(g.bits, added), want, true)
    ensures Rendezvous(g, t, added, want, false) == (SetTo(g, added), SetTo(g, added).bits)
  {
    hide SetTo, Met, Union;
  }

  /** Two tasks meet: each sets its bit and waits for both, and the second one finds them. */
  lemma TwoMeet()
    ensures var sts := [Sync(1, 1, 3, true), Sync(2, 2, 3, true)];
            && Runnable(Fresh(), sts)
            && var r := Run(Fresh(), sts);
               r.bits == 0 && r.waiters == [] && 1 in r.delivered && Reads(r.delivered[1], 3) && 1 in r.call
                   && 2 !in r.call
  {
    hide Reads;
    var g1 := Apply(Fresh(), Sync(1, 1, 3, true));
    StepKeeps(Fresh(), Sync(1, 1, 3, true)) by {
      FirstArrives();
    }
    FirstArrives();
    SecondArrives(g1);
    TwoSteps(Fresh(), Sync(1, 1, 3, true), Sync(2, 2, 3, true));
  }

  lemma TwoSteps(g: Group, a: Step, b: Step)
    requires Enabled(g, a) && Enabled(Apply(g, a), b)
    ensures Runnable(g, [a, b]) && Run(g, [a, b]) == Apply(Apply(g, a), b)
  {
    hide Apply, Enabled;
    assert [a, b][1..] == [b] && [b][1..] == [];
    var m := Apply(g, a);
    assert Runnable(m, [b]) && Run(m, [b]) == Apply(m, b);
  }

  lemma FirstArrives()
    ensures Enabled(Fresh(), Sync(1, 1, 3, true))
    ensures Apply(Fresh(), Sync(1, 1, 3, true))
              == Group(1, [Waiter(1, Request(3, true, true))], map[], map[1 := Call(3, true, true)])
  {
    hide Request;
    assert !Met(Union(0, 1), 3, true);
    assert Except(1, 0) == 1;
  }

  lemma SecondArrives(g: Group)
    requires Inv(g) && g == Group(1, [Waiter(1, Request(3, true, true))], map[], map[1 := Call(3, true, true)])
    ensures Enabled(g, Sync(2, 2, 3, true))
    ensures var r := Apply(g, Sync(2, 2, 3, true));
            && r.bits == 0 && r.waiters == [] && 1 in r.delivered && Reads(r.delivered[1], 3) && r.call == g.call
  {
    assert Union(1, 2) == 3 && Met(3, 3, true) && Plain(3) && Plain(2) && Except(3, 3) == 0;
    hide Request, Delivery, Reads, Plain, Met, Except, Union, Inv;
    RendezvousReleasesAll(g, 2, 2, 3, true);
    DeliveryBits(3);
    SetCalls(g, 2);
    assert g.waiters[0] in g.waiters;
  }
}
