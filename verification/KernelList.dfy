/**
 The intrusive, doubly linked, circular list of `list.c`, at heap level.  The end marker is
 part of the circle; `index` roves over it.  A ghost sequence records the items in link order,
 and every operation is proved to act on it as the `Ring` operation of the same name.
 */
module KernelList {
  import opened Rings
  import Ticks

  /** Neighbours in the sequence are neighbours through the pointers. */
  ghost predicate Linked(c: seq<ListItem>)
    reads c
  {
    && (forall i {:trigger c[i].next} :: 0 <= i < |c| - 1 ==> c[i].next == c[i + 1])
    && (forall i {:trigger c[i].previous} :: 1 <= i < |c| ==> c[i].previous == c[i - 1])
  }

  /** A circle of distinct nodes, cut open at its first node. */
  ghost predicate Cut(c: seq<ListItem>) {
    |c| >= 2 && c[0] == c[|c| - 1] && NoDup(c[1..])
  }

  /** Every node but the marker names the list as its container. */
  ghost predicate Contained(c: seq<ListItem>, l: List)
    reads c
  {
    forall i {:trigger c[i].container} {:trigger c[i].value} :: 1 <= i < |c| - 1 ==>
        c[i].container == l && c[i].value <= Ticks.MAX_DELAY
  }

  lemma ContainedSpliced(c: seq<ListItem>, p: nat, x: ListItem, l: List)
    requires Contained(c, l) && p + 1 < |c| && x.container == l && x.value <= Ticks.MAX_DELAY
    ensures Contained(c[..p + 1] + [x] + c[p + 1..], l)
  {
    var d := c[..p + 1] + [x] + c[p + 1..];
    forall i | 1 <= i < |d| - 1 ensures d[i].container == l && d[i].value <= Ticks.MAX_DELAY {
      var a := if i <= p then c[i] else if i == p + 1 then x else c[i - 1];
      assert a == d[i] && a.container == l;
    }
  }

  lemma ContainedUnspliced(c: seq<ListItem>, p: nat, l: List)
    requires Contained(c, l) && 0 < p < |c| - 1
    ensures Contained(c[..p] + c[p + 1..], l)
  {
    var d := c[..p] + c[p + 1..];
    forall i | 1 <= i < |d| - 1 ensures d[i].container == l && d[i].value <= Ticks.MAX_DELAY {
      var a := if i < p then c[i] else c[i + 1];
      assert a == d[i] && a.container == l;
    }
  }

  /** The links of `c`, except those between `c[lo]` and `c[hi]`, are in place. */
  ghost predicate LinkedOutside(c: seq<ListItem>, lo: nat, hi: nat)
    reads c
  {
    && (forall i {:trigger c[i].next} :: 0 <= i < |c| - 1 && !(lo <= i < hi) ==> c[i].next == c[i + 1])
    && (forall i {:trigger c[i].previous} :: 1 <= i < |c| && !(lo < i <= hi) ==> c[i].previous == c[i - 1])
  }

  /** Linking `x` between `c[p]` and `c[p + 1]` gives the longer circle. */
  lemma Spliced(c: seq<ListItem>, p: nat, x: ListItem)
    requires p + 1 < |c| && LinkedOutside(c, p, p + 1)
    requires x.next == c[p + 1] && x.previous == c[p] && c[p].next == x && c[p + 1].previous == x
    ensures Linked(c[..p + 1] + [x] + c[p + 1..])
  {
    var d := c[..p + 1] + [x] + c[p + 1..];
    forall i | 0 <= i < |d| - 1 ensures d[i].next == d[i + 1] {
      var a, b := if i <= p then c[i] else if i == p + 1 then x else c[i - 1], if i < p then c[i + 1] else if i == p then x else c[i];
      assert a == d[i] && b == d[i + 1] && a.next == b;
    }
    forall i | 1 <= i < |d| ensures d[i].previous == d[i - 1] {
      var a, b := if i <= p then c[i] else if i == p + 1 then x else c[i - 1], if i <= p + 1 then c[i - 1] else if i == p + 2 then x else c[i - 2];
      assert a == d[i] && b == d[i - 1] && a.previous == b;
    }
  }

  /** Linking the neighbours of `c[p]` to each other gives the circle without it. */
  lemma Unspliced(c: seq<ListItem>, p: nat)
    requires 0 < p < |c| - 1 && LinkedOutside(c, p - 1, p + 1)
    requires c[p - 1].next == c[p + 1] && c[p + 1].previous == c[p - 1]
    ensures Linked(c[..p] + c[p + 1..])
  {
    var d := c[..p] + c[p + 1..];
    forall i | 0 <= i < |d| - 1 ensures d[i].next == d[i + 1] {
      var a, b := if i < p then c[i] else c[i + 1], if i < p - 1 then c[i + 1] else c[i + 2];
      assert a == d[i] && b == d[i + 1] && a.next == b;
    }
    forall i | 1 <= i < |d| ensures d[i].previous == d[i - 1] {
      var a, b := if i < p then c[i] else c[i + 1], if i <= p then c[i - 1] else c[i];
      assert a == d[i] && b == d[i - 1] && a.previous == b;
    }
  }

  lemma Apart(c: seq<ListItem>, k: nat)
    requires Cut(c) && k < |c| - 1
    ensures forall i :: 0 <= i < |c| - 1 && i != k ==> c[i] != c[k]
    ensures forall i :: 1 <= i < |c| && i != k + 1 ==> c[i] != c[k + 1]
  {
    var n := |c| - 1;
    forall i | 0 <= i < n && i != k ensures c[i] != c[k] {
      Differ(c[1..], if i == 0 then n - 1 else i - 1, if k == 0 then n - 1 else k - 1);
    }
    forall i | 1 <= i < |c| && i != k + 1 ensures c[i] != c[k + 1] {
      Differ(c[1..], i - 1, k);
    }
  }

  ghost function Inner<T>(c: seq<T>): seq<T>
    requires |c| >= 2
  {
    c[1..|c| - 1]
  }

  lemma InnerSpliced<T>(c: seq<T>, p: nat, x: T)
    requires p + 1 < |c|
    ensures Inner(c[..p + 1] + [x] + c[p + 1..]) == Inner(c)[..p] + [x] + Inner(c)[p..]
    ensures p == |Inner(c)| ==> Inner(c[..p + 1] + [x] + c[p + 1..]) == Inner(c) + [x]
  {
  }

  /** The cursor still stands on its node, or has stepped back from the one taken out. */
  lemma CursorSpliced<T>(c: seq<T>, p: nat, x: T, cur: nat)
    requires p + 1 < |c| && cur < |c| - 1
    ensures var d := c[..p + 1] + [x] + c[p + 1..];
            |d| == |c| + 1 && d[0] == c[0] && d[if cur > p then cur + 1 else cur] == c[cur]
  {
  }

  lemma CursorUnspliced<T>(c: seq<T>, p: nat, cur: nat)
    requires 0 < p < |c| - 1 && cur < |c| - 1
    ensures var d := c[..p] + c[p + 1..];
            |d| == |c| - 1 && d[0] == c[0] && d[if cur >= p then cur - 1 else cur] == c[if cur == p then p - 1 else cur]
  {
  }

  lemma InnerUnspliced<T>(c: seq<T>, p: nat)
    requires 0 < p < |c| - 1
    ensures Inner(c[..p] + c[p + 1..]) == Inner(c)[..p - 1] + Inner(c)[p..]
  {
  }

  /** Inserting a new node into a circle, or taking a node out, gives a circle. */
  lemma CutSpliced(c: seq<ListItem>, p: nat, x: ListItem)
    requires Cut(c) && p + 1 < |c| && x !in c
    ensures Cut(c[..p + 1] + [x] + c[p + 1..])
  {
    var d := c[..p + 1] + [x] + c[p + 1..];
    assert d[1..] == c[1..][..p] + [x] + c[1..][p..];
    NoDupInsert(c[1..], p, x);
  }

  lemma CutUnspliced(c: seq<ListItem>, p: nat)
    requires Cut(c) && 0 < p < |c| - 1
    ensures Cut(c[..p] + c[p + 1..]) && c[p] !in c[..p] + c[p + 1..]
  {
    var d := c[..p] + c[p + 1..];
    assert d[1..] == c[1..][..p - 1] + c[1..][p..];
    NoDupRemove(c[1..], p - 1);
    Apart(c, p);
  }

  /**
   The writes common to both insertions: four links and the container.  The circle `d` that
   results is described by what the callers need of it.
   */
  method LinkIn(l: List, x: ListItem, before: ListItem, after: ListItem, ghost c: seq<ListItem>, ghost p: nat,
      ghost cur: nat)
    returns (ghost d: seq<ListItem>)
    requires Cut(c) && Linked(c) && Contained(c, l) && x !in c && x.value <= Ticks.MAX_DELAY
    requires p + 1 < |c| && before == c[p] && after == c[p + 1] && cur < |c| - 1
    modifies x`next, x`previous, x`container, before`next, after`previous
    ensures Cut(d) && Linked(d) && Contained(d, l) && x.container == l
    ensures |d| == |c| + 1 && d[0] == c[0] && d[if cur > p then cur + 1 else cur] == c[cur]
    ensures Inner(d) == Inner(c)[..p] + [x] + Inner(c)[p..]
    ensures p == |c| - 2 ==> Inner(d) == Inner(c) + [x]
  {
    Apart(c, p);
    x.next := after;
    x.previous := before;
    before.next := x;
    after.previous := x;
    x.container := l;
    d := c[..p + 1] + [x] + c[p + 1..];
    Spliced(c, p, x);
    CutSpliced(c, p, x);
    ContainedSpliced(c, p, x, l);
    InnerSpliced(c, p, x);
    CursorSpliced(c, p, x, cur);
  }

  /** The writes of a removal. */
  method LinkOut(ghost l: List, x: ListItem, ghost c: seq<ListItem>, ghost p: nat, ghost cur: nat)
    returns (ghost d: seq<ListItem>)
    requires Cut(c) && Linked(c) && Contained(c, l) && 0 < p < |c| - 1 && x == c[p] && cur < |c| - 1
    modifies x`container, x.previous`next, x.next`previous
    ensures x.container == null && x.previous == old(x.previous) == c[p - 1]
    ensures Cut(d) && Linked(d) && Contained(d, l)
    ensures |d| == |c| - 1 && d[0] == c[0] && d[if cur >= p then cur - 1 else cur] == c[if cur == p then p - 1 else cur]
    ensures Inner(d) == Inner(c)[..p - 1] + Inner(c)[p..]
    ensures c[cur] == x <==> cur == p
  {
    Apart(c, p - 1);
    Apart(c, p);
    x.next.previous := x.previous;
    x.previous.next := x.next;
    d := c[..p] + c[p + 1..];
    Unspliced(c, p);
    CutUnspliced(c, p);
    ContainedUnspliced(c, p, l);
    InnerUnspliced(c, p);
    CursorUnspliced(c, p, cur);
    x.container := null;
  }

  ghost function EntriesOf(s: seq<ListItem>): seq<Item>
    reads s
  {
    seq(|s|, i requires 0 <= i < |s| reads s => Item(s[i].owner, s[i].value))
  }

  lemma EntriesSpliced(s: seq<ListItem>, p: nat, x: ListItem)
    requires p <= |s|
    ensures EntriesOf(s[..p] + [x] + s[p..]) == EntriesOf(s)[..p] + [Item(x.owner, x.value)] + EntriesOf(s)[p..]
  {
  }

  class ListItem {
    var value: nat
    var owner: nat
    var next: ListItem?
    var previous: ListItem?
    var container: List?

    constructor (value: nat, owner: nat)
      ensures this.value == value && this.owner == owner && container == null
    {
      this.value, this.owner, container, next, previous := value, owner, null, null, null;
    }
  }

  class List {
    var count: nat
    var index: ListItem
    const end: ListItem
    /** The nodes in link order from the end marker round to the end marker again. */
    ghost var circle: seq<ListItem>
    ghost var cursor: nat

    ghost predicate Valid()
      reads this, circle
    {
      && Cut(circle) && Linked(circle)
      && circle[0] == end && end.value == Ticks.MAX_DELAY && end.container == null
      && count == |circle| - 2
      && cursor <= count && index == circle[cursor]
      && Contained(circle, this)
    }

    ghost function Items(): seq<ListItem>
      reads this
      requires |circle| >= 2
    {
      Inner(circle)
    }

    ghost function View(): Ring<ListItem>
      reads this
      requires |circle| >= 2
    {
      Ring(Items(), cursor)
    }

    /** Owner and value of every item, in list order. */
    ghost function Entries(): seq<Item>
      reads this, circle
      requires |circle| >= 2
    {
      EntriesOf(Items())
    }

    constructor ()
      ensures Valid() && fresh(this) && fresh(end) && View() == Ring([], 0)
    {
      var marker := new ListItem(Ticks.MAX_DELAY, 0);
      end := marker;
      index := marker;
      count, circle, cursor := 0, [marker, marker], 0;
      new;
      end.next := end;
      end.previous := end;
    }

    method InsertEnd(x: ListItem)
      requires Valid() && x.container == null && x != end && x.value <= Ticks.MAX_DELAY
      modifies this, circle`next, circle`previous, x`next, x`previous, x`container
      ensures Valid() && View() == old(View()).InsertEnd(x)
      ensures x.container == this
    {
      ghost var c := circle;
      ghost var p := if cursor == 0 then count else cursor - 1;
      assert x !in c;
      assert index == c[p + 1] && index.previous == c[p];
      circle := LinkIn(this, x, index.previous, index, c, p, cursor);
      count := count + 1;
      cursor := if cursor == 0 then 0 else cursor + 1;
    }

    method Insert(x: ListItem) returns (ghost p: nat)
      requires Valid() && x.container == null && x != end && x.value <= Ticks.MAX_DELAY
      modifies this, circle`next, circle`previous, x`next, x`previous, x`container
      ensures Valid() && x.container == this
      ensures Entries() == InsertSorted(old(Entries()), Item(x.owner, x.value))
      ensures p <= old(count) && Items() == old(Items())[..p] + [x] + old(Items())[p..]
      ensures cursor == if old(cursor) > p then old(cursor) + 1 else old(cursor)
    {
      ghost var s, e := Items(), Entries();
      var spot;
      spot, p := FindSpot(x.value);
      LinkBehind(x, spot, p);
      EntriesSpliced(s, p, x);
      assert EntriesOf(s) == e;
    }

    /** Put `x` behind the node `spot`, which is number `p` of the circle. */
    method LinkBehind(x: ListItem, spot: ListItem, ghost p: nat)
      requires Valid() && x.container == null && x != end && x.value <= Ticks.MAX_DELAY
      requires p <= count && spot == circle[p] && spot.next == circle[p + 1]
      modifies this, circle`next, circle`previous, x`next, x`previous, x`container
      ensures Valid() && x.container == this
      ensures Items() == old(Items())[..p] + [x] + old(Items())[p..]
      ensures cursor == if old(cursor) > p then old(cursor) + 1 else old(cursor)
    {
      assert x !in circle;
      circle := LinkIn(this, x, spot, spot.next, circle, p, cursor);
      count := count + 1;
      cursor := if cursor > p then cursor + 1 else cursor;
    }

    /** The search loop of an ordered insertion; the largest value is placed without a search. */
    method FindSpot(value: nat) returns (spot: ListItem, ghost p: nat)
      requires Valid() && value <= Ticks.MAX_DELAY
      ensures p == Reach(Values(Entries()), value) && spot == circle[p] && spot.next == circle[p + 1]
    {
      if value == Ticks.MAX_DELAY {
        p := count;
        assert circle[p + 1] == end;
        spot := end.previous;
      } else {
        spot := end;
        p := 0;
        while spot.next.value <= value
          invariant 0 <= p <= count && spot == circle[p] && spot.next == circle[p + 1]
          invariant forall i :: 1 <= i <= p ==> circle[i].value <= value
          decreases count - p
        {
          spot := spot.next;
          p := p + 1;
          assert circle[p] == spot && p < count + 1;
        }
      }
      ReachIs(Values(Entries()), value, p);
    }

    method NextOwner() returns (owner: nat)
      requires Valid() && Items() != []
      modifies this
      ensures Valid() && View() == old(View()).Step() && owner == old(View()).Next().owner
    {
      assert circle[cursor].next == circle[cursor + 1] && circle[0].next == circle[1];
      assert circle[1..][|circle| - 2] == end;
      Apart(circle, 0);
      index := index.next;
      cursor := cursor + 1;
      if index == end {
        index := index.next;
        cursor := 1;
      }
      owner := index.owner;
    }
  }

  /** An item is removed through its own links and its container pointer. */
  method Remove(x: ListItem) returns (left: nat, ghost k: nat)
    requires x.container != null && x.container.Valid() && x in x.container.Items()
    modifies x`container, x.container, x.container.circle`next, x.container.circle`previous
    ensures x.container == null
    ensures var l := old(x.container);
            && l.Valid() && left == |l.Items()|
            && k < old(|l.Items()|) && old(l.Items())[k] == x
            && l.View() == old(l.View()).RemoveAt(k)
  {
    var l := x.container;
    ghost var c := l.circle;
    k := Locate(c, x);
    ghost var d := LinkOut(l, x, c, k + 1, l.cursor);
    if l.index == x {
      l.index := x.previous;
    }
    l.count := l.count - 1;
    l.circle := d;
    l.cursor := if l.cursor > k then l.cursor - 1 else l.cursor;
    left := l.count;
  }

  lemma Locate(c: seq<ListItem>, x: ListItem) returns (k: nat)
    requires |c| >= 2 && x in Inner(c)
    ensures k < |c| - 2 && c[k + 1] == x == Inner(c)[k]
  {
    k :| 0 <= k < |c| - 2 && Inner(c)[k] == x;
  }
}
