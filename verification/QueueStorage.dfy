/**
 The storage of a queue: a ring of equally sized slots in one byte buffer, written at the back
 or the front and read at the front.
 */
module QueueStorage {

  type Byte = n: nat | n < 256

  type Message = seq<Byte>

  datatype Option<T> = None | Some(value: T)

  datatype Position = ToBack | ToFront | Overwrite

  // ----- the queue as a deque -----

  /** What a send does to the messages of a queue of the given length, and whether it succeeds. */
  function Sent(q: seq<Message>, length: nat, m: Message, position: Position): (r: (bool, seq<Message>)) {
    match position
    case ToBack => if |q| < length then (true, q + [m]) else (false, q)
    case ToFront => if |q| < length then (true, [m] + q) else (false, q)
    case Overwrite => (true, [m])
  }

  function Received(q: seq<Message>): (r: (Option<Message>, seq<Message>)) {
    if q == [] then (None, q) else (Some(q[0]), q[1..])
  }

  datatype Op = Send(m: Message, position: Position) | Receive | Peek

  /** The messages accepted, handed out and looked at in a sequence of operations, and those left after it. */
  datatype Outcome = Outcome(accepted: seq<Message>, received: seq<Message>, peeked: seq<Message>, left: seq<Message>)

  function Perform(q: seq<Message>, length: nat, ops: seq<Op>): Outcome
    decreases |ops|
  {
    if ops == [] then Outcome([], [], [], q)
    else
      match ops[0]
      case Send(m, position) =>
        var (ok, q') := Sent(q, length, m, position);
        var r := Perform(q', length, ops[1..]);
        if ok then r.(accepted := [m] + r.accepted) else r
      case Receive =>
        var (m, q') := Received(q);
        var r := Perform(q', length, ops[1..]);
        if m.Some? then r.(received := [m.value] + r.received) else r
      case Peek =>
        var r := Perform(q, length, ops[1..]);
        if q != [] then r.(peeked := [q[0]] + r.peeked) else r
  }

  /** Without front sends and overwrites a queue is first in, first out, and loses nothing. */
  lemma {:induction false} FirstInFirstOut(q: seq<Message>, length: nat, ops: seq<Op>)
    requires forall i :: 0 <= i < |ops| ==> ops[i].Send? ==> ops[i].position == ToBack
    ensures var r := Perform(q, length, ops); r.received + r.left == q + r.accepted
    decreases |ops|
  {
    if ops != [] {
      assert forall i :: 0 <= i < |ops[1..]| ==> ops[1..][i] == ops[i + 1];
      var rest := ops[1..];
      match ops[0]
      case Send(m, position) =>
        var q' := Sent(q, length, m, position).1;
        FirstInFirstOut(q', length, rest);
        assert q + [m] + Perform(q', length, rest).accepted == q + ([m] + Perform(q', length, rest).accepted);
      case Receive =>
        var q' := Received(q).1;
        FirstInFirstOut(q', length, rest);
        if q != [] {
          var r := Perform(q', length, rest);
          assert [q[0]] + (r.received + r.left) == ([q[0]] + r.received) + r.left;
          assert [q[0]] + (q' + r.accepted) == q + r.accepted;
        }
      case Peek => FirstInFirstOut(q, length, rest);
    }
  }

  // ----- a ring of slots refines the deque -----

  /** `write` is the next free slot; `read` is the slot read last, one before the oldest message. */
  datatype SlotRing = SlotRing(slots: seq<Message>, write: nat, read: nat, count: nat) {

    ghost predicate Valid() {
      && 1 <= |slots| && write < |slots| && read < |slots| && count <= |slots|
      && write == Wrap(Wrap(read + 1) + count)
    }

    function Wrap(k: nat): nat { if k >= |slots| then k - |slots| else k }

    ghost function Contents(): (q: seq<Message>)
      requires Valid()
      ensures |q| == count && forall i :: 0 <= i < count ==> q[i] == slots[Wrap(Wrap(read + 1) + i)]
    {
      seq(count, i requires 0 <= i < count => slots[Wrap(Wrap(read + 1) + i)])
    }

    /** What copying a message in does to the ring; an overwritten message is discounted first. */
    function Put(m: Message, position: Position): SlotRing
      requires write < |slots| && read < |slots|
    {
      if position == ToBack then
        SlotRing(slots[write := m], Wrap(write + 1), read, count + 1)
      else
        var kept := if position == Overwrite && count > 0 then count - 1 else count;
        SlotRing(slots[read := m], write, if read == 0 then |slots| - 1 else read - 1, kept + 1)
    }

    /** What copying a message out does: the read slot moves on to it. */
    function Take(): SlotRing
      requires count > 0
    {
      SlotRing(slots, write, Wrap(read + 1), count - 1)
    }
  }

  lemma PutBackAppends(r: SlotRing, m: Message)
    requires r.Valid() && r.count < |r.slots|
    ensures var p := r.Put(m, ToBack); p.Valid() && p.Contents() == r.Contents() + [m]
  {
  }

  lemma PutFrontPrepends(r: SlotRing, m: Message)
    requires r.Valid() && r.count < |r.slots|
    ensures var p := r.Put(m, ToFront); p.Valid() && p.Contents() == [m] + r.Contents()
  {
    var p, q := r.Put(m, ToFront), [m] + r.Contents();
    assert p.Wrap(p.read + 1) == r.read;
    forall i | 0 <= i < p.count ensures p.Contents()[i] == q[i] {
      if i > 0 {
        assert p.Wrap(r.read + i) == r.Wrap(r.Wrap(r.read + 1) + (i - 1));
        assert p.Wrap(r.read + i) != r.read;
      }
    }
  }

  /** Copying in acts on the contents as a send on a deque does: append, prepend or replace. */
  lemma PutRefines(r: SlotRing, m: Message, position: Position)
    requires r.Valid() && (r.count < |r.slots| || position == Overwrite)
    requires position == Overwrite ==> |r.slots| == 1
    ensures var p := r.Put(m, position);
            p.Valid() && Sent(r.Contents(), |r.slots|, m, position) == (true, p.Contents())
  {
    match position
    case ToBack => PutBackAppends(r, m);
    case ToFront => PutFrontPrepends(r, m);
    case Overwrite => OverwriteReplaces(r, m);
  }

  lemma OverwriteReplaces(r: SlotRing, m: Message)
    requires r.Valid() && |r.slots| == 1
    ensures var p := r.Put(m, Overwrite); p.Valid() && p.Contents() == [m]
  {
  }

  /** Copying out yields the oldest message and leaves the others. */
  lemma TakeRefines(r: SlotRing)
    requires r.Valid() && r.count > 0
    ensures r.Take().Valid() && Received(r.Contents()) == (Some(r.slots[r.Take().read]), r.Take().Contents())
  {
    var t := r.Take();
    forall i | 0 <= i < t.count ensures t.Contents()[i] == r.Contents()[i + 1] {
      assert t.Wrap(t.Wrap(t.read + 1) + i) == r.Wrap(r.Wrap(r.read + 1) + (i + 1));
    }
    assert t.Contents() == r.Contents()[1..];
  }

  /** A queue that can be overwritten has length one. */
  predicate Fits(length: nat, ops: seq<Op>) {
    forall i :: 0 <= i < |ops| && ops[i].Send? && ops[i].position == Overwrite ==> length == 1
  }

  /** The ring after one operation; a refused send and an empty queue leave it alone. */
  function RingStep(r: SlotRing, op: Op): SlotRing
    requires r.write < |r.slots| && r.read < |r.slots|
  {
    match op
    case Send(m, position) => if r.count < |r.slots| || position == Overwrite then r.Put(m, position) else r
    case Receive => if r.count > 0 then r.Take() else r
    case Peek => r
  }

  /** What one operation on the ring adds to the outcome of those after it. */
  function Noted(r: SlotRing, op: Op, o: Outcome): Outcome
    requires r.Valid()
  {
    match op
    case Send(m, position) => if r.count < |r.slots| || position == Overwrite then o.(accepted := [m] + o.accepted) else o
    case Receive => if r.count > 0 then o.(received := [r.slots[r.Take().read]] + o.received) else o
    case Peek => if r.count > 0 then o.(peeked := [r.slots[r.Take().read]] + o.peeked) else o
  }

  lemma RingStepRefines(r: SlotRing, op: Op)
    requires r.Valid() && (op.Send? && op.position == Overwrite ==> |r.slots| == 1)
    ensures var e := RingStep(r, op);
            && e.Valid() && |e.slots| == |r.slots|
            && (op.Send? ==> Sent(r.Contents(), |r.slots|, op.m, op.position) == (r.count < |r.slots| || op.position == Overwrite, e.Contents()))
            && (op.Receive? ==> Received(r.Contents()) == (if r.count > 0 then Some(r.slots[r.Take().read]) else None, e.Contents()))
            && (op.Peek? ==> e == r && (r.count > 0 ==> r.Contents()[0] == r.slots[r.Take().read]))
  {
    match op
    case Send(m, position) =>
      if r.count < |r.slots| || position == Overwrite {
        PutRefines(r, m, position);
      }
    case Receive =>
      if r.count > 0 {
        TakeRefines(r);
      }
    case Peek =>
      if r.count > 0 {
        TakeRefines(r);
      }
  }

  /** A sequence of operations on the ring: what they accept and hand out, and the ring after them. */
  function RingPerform(r: SlotRing, ops: seq<Op>): (Outcome, SlotRing)
    requires r.Valid() && Fits(|r.slots|, ops)
    decreases |ops|
  {
    if ops == [] then (Outcome([], [], [], []), r)
    else
      RingStepRefines(r, ops[0]);
      assert forall i :: 0 <= i < |ops| - 1 ==> ops[1..][i] == ops[i + 1];
      var (o, last) := RingPerform(RingStep(r, ops[0]), ops[1..]);
      (Noted(r, ops[0], o), last)
  }

  /**
   Whatever is sent, to the back, to the front or over what is there, received and looked at, the
   ring of slots accepts, hands out and keeps what the deque does.
   */
  lemma {:induction false} RingRefines(r: SlotRing, ops: seq<Op>)
    requires r.Valid() && Fits(|r.slots|, ops)
    ensures var (o, last) := RingPerform(r, ops);
            last.Valid() && |last.slots| == |r.slots|
                && o.(left := last.Contents()) == Perform(r.Contents(), |r.slots|, ops)
    decreases |ops|
  {
    if ops != [] {
      hide SlotRing.Put, SlotRing.Take, SlotRing.Wrap, RingStep;
      assert forall i :: 0 <= i < |ops| - 1 ==> ops[1..][i] == ops[i + 1];
      RingStepRefines(r, ops[0]);
      RingRefines(RingStep(r, ops[0]), ops[1..]);
    }
  }

  /** A ring written at the back only is first in, first out. */
  lemma RingKeepsOrder(r: SlotRing, ops: seq<Op>)
    requires r.Valid() && forall i :: 0 <= i < |ops| ==> ops[i].Send? ==> ops[i].position == ToBack
    ensures var (o, last) := RingPerform(r, ops);
            last.Valid() && o.received + last.Contents() == r.Contents() + o.accepted
  {
    RingRefines(r, ops);
    FirstInFirstOut(r.Contents(), |r.slots|, ops);
  }

  // ----- slots in a byte buffer -----

  function Offset(k: nat, size: nat): nat { k * size }

  lemma NextSlot(k: nat, size: nat)
    ensures Offset(k + 1, size) == Offset(k, size) + size
  {
  }

  lemma FirstSlot(size: nat)
    ensures Offset(0, size) == 0
  {
  }

  /** Moving on by one slot runs past the end exactly at the last slot. */
  lemma NextOffset(k: nat, length: nat, size: nat)
    requires k < length && size >= 1
    ensures Offset(k + 1, size) == Offset(k, size) + size && Offset(0, size) == 0
    ensures Offset(k, size) + size >= Offset(length, size) <==> k + 1 >= length
  {
    hide Offset;
    FirstSlot(size);
    NextSlot(k, size);
    if k + 1 < length {
      SlotsApart(k + 1, length, size);
    }
  }

  lemma {:induction false} SlotsApart(j: nat, k: nat, size: nat)
    requires j < k
    ensures Offset(j, size) + size <= Offset(k, size)
    decreases k
  {
    NextSlot(k - 1, size);
    if j < k - 1 {
      SlotsApart(j, k - 1, size);
    }
  }

  ghost function SlotAt(b: seq<Byte>, k: nat, length: nat, size: nat): Message
    requires |b| == Offset(length, size) && k < length
  {
    SlotsApart(k, length, size);
    b[Offset(k, size)..Offset(k, size) + size]
  }

  ghost function SlotsOf(b: seq<Byte>, length: nat, size: nat): (s: seq<Message>)
    requires |b| == Offset(length, size)
    ensures |s| == length && forall k :: 0 <= k < length ==> s[k] == SlotAt(b, k, length, size)
  {
    seq(length, k requires 0 <= k < length => SlotAt(b, k, length, size))
  }

  /** Writing the bytes of one slot changes that slot only. */
  lemma SlotWritten(b: seq<Byte>, k: nat, length: nat, size: nat, m: Message)
    requires |b| == Offset(length, size) && k < length && |m| == size && Offset(k, size) + size <= |b|
    ensures var c := b[..Offset(k, size)] + m + b[Offset(k, size) + size..];
            |c| == |b| && SlotsOf(c, length, size) == SlotsOf(b, length, size)[k := m]
  {
    hide Offset;
    var at := Offset(k, size);
    var c := b[..at] + m + b[at + size..];
    forall j | 0 <= j < length ensures SlotAt(c, j, length, size) == if j == k then m else SlotAt(b, j, length, size) {
      SlotsApart(j, length, size);
      if j < k {
        SlotsApart(j, k, size);
      } else if j > k {
        SlotsApart(k, j, size);
      }
      SlotReads(b, c, m, at, Offset(j, size), size);
    }
  }

  lemma SlotReads(b: seq<Byte>, c: seq<Byte>, m: Message, at: nat, j: nat, size: nat)
    requires |m| == size && at + size <= |b| && c == b[..at] + m + b[at + size..] && j + size <= |b|
    requires j + size <= at || j == at || at + size <= j
    ensures c[j..j + size] == if j == at then m else b[j..j + size]
  {
  }

  class Queue {
    const length: nat
    const itemSize: nat
    const storage: array<Byte>
    /** Byte offsets of the next free slot and of the slot read last. */
    var writeTo: int
    var readFrom: int
    var messages: nat
    ghost var writeSlot: nat
    ghost var readSlot: nat

    ghost predicate Valid()
      reads this, storage
    {
      && length >= 1 && itemSize >= 1 && storage.Length == Offset(length, itemSize)
      && writeTo == Offset(writeSlot, itemSize) && readFrom == Offset(readSlot, itemSize)
      && View().Valid()
    }

    ghost function View(): SlotRing
      requires storage.Length == Offset(length, itemSize)
      reads this, storage
    {
      SlotRing(SlotsOf(storage[..], length, itemSize), writeSlot, readSlot, messages)
    }

    /** The messages in the queue, oldest first. */
    ghost function Contents(): seq<Message>
      requires Valid()
      reads this, storage
    {
      View().Contents()
    }

    constructor (length: nat, itemSize: nat)
      requires length >= 1 && itemSize >= 1
      ensures Valid() && Contents() == [] && fresh(storage) && this.length == length && this.itemSize == itemSize
    {
      this.length := length;
      this.itemSize := itemSize;
      storage := new Byte[length * itemSize](_ => 0);
      messages := 0;
      writeTo := 0;
      readFrom := (length - 1) * itemSize;
      writeSlot := 0;
      readSlot := length - 1;
    }

    /** The copy into one slot. */
    method CopyIn(at: int, m: Message, ghost k: nat)
      requires storage.Length == Offset(length, itemSize) && k < length && at == Offset(k, itemSize) && |m| == itemSize
      modifies storage
      ensures SlotsOf(storage[..], length, itemSize) == old(SlotsOf(storage[..], length, itemSize))[k := m]
    {
      hide Offset;
      SlotsApart(k, length, itemSize);
      ghost var b := storage[..];
      forall i | 0 <= i < itemSize {
        storage[at + i] := m[i];
      }
      assert storage[..] == b[..at] + m + b[at + itemSize..];
      SlotWritten(b, k, length, itemSize, m);
    }

    /** `prvCopyDataToQueue` for items with a size. */
    method CopyDataToQueue(m: Message, position: Position)
      requires Valid() && |m| == itemSize && (messages < length || position == Overwrite)
      requires position == Overwrite ==> length == 1
      modifies this, storage
      ensures Valid() && View() == old(View()).Put(m, position)
    {
      hide Offset, SlotsOf;
      PutRefines(View(), m, position);
      var kept := messages;
      if position == ToBack {
        CopyIn(writeTo, m, writeSlot);
        AdvanceWrite();
      } else {
        CopyIn(readFrom, m, readSlot);
        StepReadBack();
        if position == Overwrite && messages > 0 {
          kept := messages - 1;
        }
      }
      messages := kept + 1;
    }

    method AdvanceWrite()
      requires length >= 1 && itemSize >= 1 && storage.Length == Offset(length, itemSize)
      requires writeSlot < length && writeTo == Offset(writeSlot, itemSize)
      modifies this`writeTo, this`writeSlot
      ensures writeSlot == (if old(writeSlot) + 1 >= length then 0 else old(writeSlot) + 1) && writeTo == Offset(writeSlot, itemSize)
    {
      hide Offset;
      NextOffset(writeSlot, length, itemSize);
      writeTo := writeTo + itemSize;
      writeSlot := if writeSlot + 1 >= length then 0 else writeSlot + 1;
      if writeTo >= storage.Length {
        writeTo := 0;
      }
    }

    method StepReadBack()
      requires length >= 1 && itemSize >= 1 && storage.Length == Offset(length, itemSize)
      requires readSlot < length && readFrom == Offset(readSlot, itemSize)
      modifies this`readFrom, this`readSlot
      ensures readSlot == (if old(readSlot) == 0 then length - 1 else old(readSlot) - 1) && readFrom == Offset(readSlot, itemSize)
    {
      hide Offset;
      NextSlot(length - 1, itemSize);
      FirstSlot(itemSize);
      if readSlot > 0 {
        NextSlot(readSlot - 1, itemSize);
      }
      readFrom := readFrom - itemSize;
      readSlot := if readSlot == 0 then length - 1 else readSlot - 1;
      if readFrom < 0 {
        readFrom := storage.Length - itemSize;
      }
    }

    /** `prvCopyDataFromQueue` for items with a size. */
    method CopyDataFromQueue() returns (m: Message)
      requires Valid() && messages > 0
      modifies this`readFrom, this`readSlot
      ensures storage.Length == Offset(length, itemSize) && readFrom == Offset(readSlot, itemSize)
      ensures View() == old(View()).(read := old(View()).Take().read) && m == View().slots[readSlot]
    {
      hide Offset, SlotsOf;
      NextOffset(readSlot, length, itemSize);
      readFrom := readFrom + itemSize;
      readSlot := if readSlot + 1 >= length then 0 else readSlot + 1;
      if readFrom >= storage.Length {
        readFrom := 0;
      }
      SlotsApart(readSlot, length, itemSize);
      m := storage[readFrom..readFrom + itemSize];
      assert m == SlotAt(storage[..], readSlot, length, itemSize);
    }

    /** The first critical section of `xQueueGenericSend`. */
    method Send(m: Message, position: Position) returns (ok: bool)
      requires Valid() && |m| == itemSize && (position == Overwrite ==> length == 1)
      modifies this, storage
      ensures Valid() && (ok, Contents()) == Sent(old(Contents()), length, m, position)
    {
      hide Offset, SlotsOf;
      ok := messages < length || position == Overwrite;
      if ok {
        PutRefines(View(), m, position);
        CopyDataToQueue(m, position);
      }
    }

    /** The first critical section of `xQueueReceive`. */
    method Receive() returns (m: Option<Message>)
      requires Valid()
      modifies this
      ensures Valid() && (m, Contents()) == Received(old(Contents()))
    {
      hide Offset, SlotsOf;
      m := None;
      if messages > 0 {
        TakeRefines(View());
        var taken := CopyDataFromQueue();
        messages := messages - 1;
        m := Some(taken);
      }
    }

    /** The first critical section of `xQueuePeek`: the read position is put back afterwards. */
    method Peek() returns (m: Option<Message>)
      requires Valid()
      modifies this
      ensures Valid() && m == Received(Contents()).0 && Contents() == old(Contents())
    {
      hide Offset, SlotsOf;
      m := None;
      if messages > 0 {
        TakeRefines(View());
        ghost var slot := readSlot;
        var original := readFrom;
        var taken := CopyDataFromQueue();
        readFrom := original;
        readSlot := slot;
        m := Some(taken);
      }
    }
  }
}
