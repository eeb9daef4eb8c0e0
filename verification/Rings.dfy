/**
 The sequence view of the kernel's lists: a rotation with a roving cursor (used for round
 robin), and insertion in value order (used for wake times and event priorities).
 */
module Rings {

  ghost predicate Pos<T>(s: seq<T>, i: int) { 0 <= i < |s| }

  /** No item occurs twice.  Stated on `Pos` so that it is only instantiated on request. */
  ghost predicate NoDup<T>(s: seq<T>) {
    forall i, j {:trigger Pos(s, i), Pos(s, j)} :: Pos(s, i) && Pos(s, j) && i != j ==> s[i] != s[j]
  }

  lemma Differ<T>(s: seq<T>, i: int, j: int)
    requires NoDup(s) && 0 <= i < |s| && 0 <= j < |s| && i != j
    ensures s[i] != s[j]
  {
    assert Pos(s, i) && Pos(s, j);
  }

  lemma NoDupInsert<T>(s: seq<T>, p: nat, x: T)
    requires NoDup(s) && x !in s && p <= |s|
    ensures NoDup(s[..p] + [x] + s[p..])
  {
    var d := s[..p] + [x] + s[p..];
    forall i, j | Pos(d, i) && Pos(d, j) && i != j ensures d[i] != d[j] {
      if i != p && j != p {
        Differ(s, if i < p then i else i - 1, if j < p then j else j - 1);
      }
    }
  }

  lemma NoDupSlice<T>(s: seq<T>, lo: nat, hi: nat)
    requires NoDup(s) && lo <= hi <= |s|
    ensures NoDup(s[lo..hi])
  {
    forall i, j | Pos(s[lo..hi], i) && Pos(s[lo..hi], j) && i != j ensures s[lo..hi][i] != s[lo..hi][j] {
      Differ(s, lo + i, lo + j);
    }
  }

  /** Taking one item out leaves the rest distinct, and it is gone. */
  lemma NoDupRemove<T>(s: seq<T>, k: nat)
    requires NoDup(s) && k < |s|
    ensures NoDup(s[..k] + s[k + 1..])
    ensures s[k] !in s[..k] && s[k] !in s[k + 1..]
  {
    var d := s[..k] + s[k + 1..];
    forall i, j | Pos(d, i) && Pos(d, j) && i != j ensures d[i] != d[j] {
      Differ(s, if i < k then i else i + 1, if j < k then j else j + 1);
    }
    forall i | 0 <= i < |s| && i != k ensures s[i] != s[k] {
      Differ(s, i, k);
    }
  }

  /** A rotation of distinct items is distinct. */
  lemma NoDupRotate<T>(s: seq<T>, c: nat)
    requires NoDup(s) && c <= |s|
    ensures NoDup(s[c..] + s[..c])
  {
    var d := s[c..] + s[..c];
    var n := |s| - c;
    forall i, j | Pos(d, i) && Pos(d, j) && i != j ensures d[i] != d[j] {
      Differ(s, if i < n then c + i else i - n, if j < n then c + j else j - n);
    }
  }

  /**
   The items of a list from the end marker on, and the place of `pxIndex`: position 0 is the
   end marker, position `i` is `items[i - 1]`.
   */
  datatype Ring<T(==)> = Ring(items: seq<T>, cursor: nat) {

    ghost predicate Valid() { cursor <= |items| && NoDup(items) }

    /** The order in which repeated next-entry calls visit the items. */
    ghost function Order(): seq<T>
      requires cursor <= |items|
    {
      items[cursor..] + items[..cursor]
    }

    /** Insert just before the cursor. */
    function InsertEnd(x: T): Ring<T>
      requires cursor <= |items|
    {
      if cursor == 0 then Ring(items + [x], 0)
      else Ring(items[..cursor - 1] + [x] + items[cursor - 1..], cursor + 1)
    }

    /** Unlink the item at `k`; a cursor on it steps back. */
    function RemoveAt(k: nat): Ring<T>
      requires k < |items| && cursor <= |items|
    {
      Ring(items[..k] + items[k + 1..], if cursor > k then cursor - 1 else cursor)
    }

    function Remove(x: T): Ring<T>
      requires x in items && cursor <= |items|
    {
      RemoveAt(IndexOf(items, x))
    }

    /** The cursor after one next-entry call; the end marker is skipped. */
    function Step(): (r: Ring<T>)
      requires items != [] && cursor <= |items|
      ensures r.items == items && 1 <= r.cursor <= |items|
    {
      Ring(items, if cursor == |items| then 1 else cursor + 1)
    }

    /** The item a next-entry call returns. */
    function Next(): T
      requires items != [] && cursor <= |items|
    {
      items[Step().cursor - 1]
    }
  }

  function IndexOf<T(==)>(s: seq<T>, x: T): (k: nat)
    requires x in s
    ensures k < |s| && s[k] == x
  {
    if s[0] == x then 0 else 1 + IndexOf(s[1..], x)
  }

  function Without<T(==)>(s: seq<T>, x: T): seq<T> {
    if s == [] then []
    else if s[0] == x then Without(s[1..], x)
    else [s[0]] + Without(s[1..], x)
  }

  lemma {:induction false} WithoutMembers<T>(s: seq<T>, x: T)
    ensures x !in s ==> Without(s, x) == s
    ensures forall y :: y in Without(s, x) <==> y in s && y != x
  {
    if s != [] {
      WithoutMembers(s[1..], x);
    }
  }

  lemma {:induction false} WithoutConcat<T>(a: seq<T>, b: seq<T>, x: T)
    ensures Without(a + b, x) == Without(a, x) + Without(b, x)
  {
    if a == [] {
      assert a + b == b;
    } else {
      assert (a + b)[1..] == a[1..] + b;
      WithoutConcat(a[1..], b, x);
    }
  }

  /** In a list without repetition, removing an item is removing its position. */
  lemma WithoutAt<T>(s: seq<T>, k: nat)
    requires NoDup(s) && k < |s|
    ensures Without(s, s[k]) == s[..k] + s[k + 1..]
  {
    hide NoDup;
    NoDupRemove(s, k);
    WithoutBetween(s[..k], s[k], s[k + 1..]);
    assert s == s[..k] + ([s[k]] + s[k + 1..]);
  }

  lemma WithoutBetween<T>(a: seq<T>, x: T, b: seq<T>)
    requires x !in a && x !in b
    ensures Without(a + ([x] + b), x) == a + b
  {
    WithoutConcat(a, [x] + b, x);
    WithoutMembers(a, x);
    WithoutMembers(b, x);
    assert ([x] + b)[1..] == b;
  }

  lemma NoDupWithout<T>(s: seq<T>, x: T)
    requires NoDup(s)
    ensures NoDup(Without(s, x))
    ensures forall y :: y in Without(s, x) <==> y in s && y != x
  {
    WithoutMembers(s, x);
    if x in s {
      var k :| 0 <= k < |s| && s[k] == x;
      WithoutAt(s, k);
      NoDupRemove(s, k);
    }
  }

  // ----- round robin -----

  /** A next-entry call returns the head of the visiting order and moves it to the back. */
  lemma StepRotates<T>(r: Ring<T>)
    requires r.Valid() && r.items != []
    ensures r.Next() == r.Order()[0]
    ensures r.Step().Valid() && r.Step().Order() == r.Order()[1..] + [r.Order()[0]]
  {
  }

  function Visit<T>(r: Ring<T>, n: nat): (seq<T>, Ring<T>)
    requires r.items != [] && r.cursor <= |r.items|
    decreases n
  {
    if n == 0 then ([], r)
    else
      var (seen, last) := Visit(r.Step(), n - 1);
      ([r.Next()] + seen, last)
  }

  /** `n` next-entry calls on `n` items return each of them once and restore the order. */
  lemma {:induction false} RoundRobin<T>(r: Ring<T>)
    requires r.Valid() && r.items != []
    ensures Visit(r, |r.items|).0 == r.Order()
    ensures Visit(r, |r.items|).1.Valid() && Visit(r, |r.items|).1.Order() == r.Order()
    ensures forall x :: x in r.items <==> x in Visit(r, |r.items|).0
    ensures NoDup(Visit(r, |r.items|).0)
  {
    VisitPrefix(r, |r.items|);
    assert r.items == r.items[..r.cursor] + r.items[r.cursor..];
    NoDupRotate(r.items, r.cursor);
  }

  lemma {:induction false} VisitPrefix<T>(r: Ring<T>, n: nat)
    requires r.Valid() && r.items != [] && n <= |r.items|
    ensures Visit(r, n).0 == r.Order()[..n]
    ensures Visit(r, n).1.Valid() && Visit(r, n).1.items == r.items
    ensures Visit(r, n).1.Order() == r.Order()[n..] + r.Order()[..n]
    decreases n
  {
    if n > 0 {
      StepRotates(r);
      VisitPrefix(r.Step(), n - 1);
      RotatedPrefix(r.Order(), n);
    }
  }

  lemma RotatedPrefix<T>(o: seq<T>, n: nat)
    requires 0 < n <= |o|
    ensures var o' := o[1..] + [o[0]];
            [o[0]] + o'[..n - 1] == o[..n] && o'[n - 1..] + o'[..n - 1] == o[n..] + o[..n]
  {
    var o' := o[1..] + [o[0]];
    assert o'[..n - 1] == o[1..n];
    assert o'[n - 1..] == o[n..] + [o[0]];
    assert o[..n] == [o[0]] + o[1..n];
  }

  /**
   Where insert-end puts a new item: it waits for every other item except the one the cursor
   is on, which has just been visited and now comes last.
   */
  lemma InsertEndOrder<T>(r: Ring<T>, x: T)
    requires r.Valid() && x !in r.items
    ensures r.InsertEnd(x).Valid()
    ensures forall y :: y in r.InsertEnd(x).items <==> y == x || y in r.items
    ensures r.cursor == 0 ==> r.InsertEnd(x).Order() == r.Order() + [x]
    ensures r.cursor > 0 ==>
              var n := |r.items|;
              r.InsertEnd(x).Order() == r.Order()[..n - 1] + [x] + [r.Order()[n - 1]]
  {
    var p := if r.cursor == 0 then |r.items| else r.cursor - 1;
    NoDupInsert(r.items, p, x);
    assert r.InsertEnd(x).items == r.items[..p] + [x] + r.items[p..];
    assert r.items == r.items[..p] + r.items[p..];
  }

  /**
   The header promises that every other item is visited before the new one.  That holds
   exactly when the cursor is on the end marker.
   */
  lemma InsertEndIsLastExactly<T>(r: Ring<T>, x: T)
    requires r.Valid() && x !in r.items
    ensures (r.InsertEnd(x).Order()[|r.items|] == x) <==> r.cursor == 0
  {
    InsertEndOrder(r, x);
  }

  /** Removal keeps the visiting order of the others, wherever the cursor was. */
  lemma RemoveOrder<T>(r: Ring<T>, k: nat)
    requires r.Valid() && k < |r.items|
    ensures r.RemoveAt(k).Valid()
    ensures r.RemoveAt(k).Order() == Without(r.Order(), r.items[k])
    ensures forall y :: y in r.RemoveAt(k).items <==> y in r.items && y != r.items[k]
  {
    var x, s, c := r.items[k], r.items, r.cursor;
    NoDupRemove(s, k);
    WithoutAt(s, k);
    WithoutMembers(s, x);
    WithoutConcat(s[c..], s[..c], x);
    if k < c {
      RemoveFromFront(s, c, k);
    } else {
      RemoveFromBack(s, c, k);
    }
  }

  lemma RemoveFromFront<T>(s: seq<T>, c: nat, k: nat)
    requires NoDup(s) && k < c <= |s|
    ensures var s' := s[..k] + s[k + 1..];
            s'[c - 1..] + s'[..c - 1] == Without(s[c..], s[k]) + Without(s[..c], s[k])
  {
    assert s[..c][k] == s[k];
    NoDupRemove(s, k);
    NoDupSlice(s, 0, c);
    WithoutAt(s[..c], k);
    assert s[k] !in s[c..] by {
      assert s[c..] == s[k + 1..][c - k - 1..];
    }
    WithoutMembers(s[c..], s[k]);
    var s' := s[..k] + s[k + 1..];
    assert s'[c - 1..] == s[c..];
    assert s'[..c - 1] == s[..c][..k] + s[..c][k + 1..];
  }

  lemma RemoveFromBack<T>(s: seq<T>, c: nat, k: nat)
    requires NoDup(s) && c <= k < |s|
    ensures var s' := s[..k] + s[k + 1..];
            s'[c..] + s'[..c] == Without(s[c..], s[k]) + Without(s[..c], s[k])
  {
    assert s[c..][k - c] == s[k];
    NoDupRemove(s, k);
    NoDupSlice(s, c, |s|);
    assert s[c..|s|] == s[c..];
    WithoutAt(s[c..], k - c);
    assert s[k] !in s[..c] by {
      assert s[..c] == s[..k][..c];
    }
    WithoutMembers(s[..c], s[k]);
    var s' := s[..k] + s[k + 1..];
    assert s'[..c] == s[..c];
    assert s'[c..] == s[c..][..k - c] + s[c..][k - c + 1..];
  }

  lemma RemoveItem<T>(r: Ring<T>, x: T)
    requires r.Valid() && x in r.items
    ensures r.Remove(x).Valid()
    ensures forall y :: y in r.Remove(x).items <==> y in r.items && y != x
  {
    RemoveOrder(r, IndexOf(r.items, x));
  }

  // ----- insertion in value order -----

  /** A list item: who it belongs to and the value it is sorted by. */
  datatype Item = Item(owner: nat, value: nat)

  ghost predicate Sorted(s: seq<Item>) {
    forall i, j :: 0 <= i < j < |s| ==> s[i].value <= s[j].value
  }

  /** How many leading values do not exceed `v`: where the insertion loop stops. */
  function Reach(values: seq<int>, v: int): (p: nat)
    ensures p <= |values|
    ensures forall i :: 0 <= i < p ==> values[i] <= v
    ensures p < |values| ==> values[p] > v
  {
    if values == [] || values[0] > v then 0 else 1 + Reach(values[1..], v)
  }

  lemma {:induction false} ReachIs(values: seq<int>, v: int, p: nat)
    requires p <= |values|
    requires forall i :: 0 <= i < p ==> values[i] <= v
    requires p == |values| || values[p] > v
    ensures Reach(values, v) == p
  {
    if p > 0 {
      ReachIs(values[1..], v, p - 1);
    }
  }

  function Values(s: seq<Item>): (r: seq<nat>)
    ensures |r| == |s| && forall i :: 0 <= i < |s| ==> r[i] == s[i].value
  {
    seq(|s|, i requires 0 <= i < |s| => s[i].value)
  }

  function InsertSorted(s: seq<Item>, x: Item): seq<Item> {
    var p := Reach(Values(s), x.value);
    s[..p] + [x] + s[p..]
  }

  /** Stable sorted insertion: after everything not larger, before everything larger. */
  lemma InsertSortedStable(s: seq<Item>, x: Item)
    requires Sorted(s)
    ensures var p := Reach(Values(s), x.value);
            && (forall i :: 0 <= i < p ==> s[i].value <= x.value)
            && (forall i :: p <= i < |s| ==> s[i].value > x.value)
    ensures Sorted(InsertSorted(s, x))
  {
    var p := Reach(Values(s), x.value);
    assert p < |s| ==> s[p].value > x.value;
    InsertAtSorted(s, p, x);
  }

  lemma InsertSortedMembers(s: seq<Item>, x: Item)
    ensures forall y :: y in InsertSorted(s, x) <==> y == x || y in s
  {
    var p := Reach(Values(s), x.value);
    assert s == s[..p] + s[p..];
  }

  lemma InsertAtSorted(s: seq<Item>, p: nat, x: Item)
    requires Sorted(s) && p <= |s|
    requires forall i :: 0 <= i < p ==> s[i].value <= x.value
    requires forall i :: p <= i < |s| ==> s[i].value > x.value
    ensures Sorted(s[..p] + [x] + s[p..])
  {
  }
}
