/**
 One writer and one reader on a stream or message buffer without a lock.  Each works from a
 single look at the other's position, copies byte by byte, and publishes its own position last.
 */
module StreamProtocol {
  import opened StreamBuffers

  /** A writer that has planned what to write copies it to the bytes behind the head. */
  datatype Writer = WriterIdle | Writing(data: seq<Byte>, copied: nat)

  /** A reader that has planned how much to read copies it from the tail on. */
  datatype Reader = ReaderIdle | Reading(count: nat, copied: seq<Byte>)

  /**
   The positions are those published.  `accepted` and `received` are all the bytes published and
   consumed so far; for a message buffer `sent` and `got` are the messages they make up.
   */
  datatype Ring = Ring(isMessageBuffer: bool, cells: seq<Byte>, head: nat, tail: nat, writer: Writer, reader: Reader,
                       accepted: seq<Byte>, received: seq<Byte>, sent: seq<Message>, got: seq<Message>)

  datatype Step =
    | PlanWrite(data: seq<Byte>)
    | PlanMessage(m: Message)
    | WriteByte
    | Publish
    | PlanRead(capacity: nat)
    | PlanReceive(capacity: nat)
    | ReadByte
    | Consume

  ghost predicate Placed(r: Ring) { r.head < |r.cells| && r.tail < |r.cells| }

  ghost function Stored(r: Ring): seq<Byte>
    requires Placed(r)
  {
    Unread(r.cells, r.head, r.tail)
  }

  function Space(r: Ring): nat
    requires Placed(r)
  {
    SpacesIn(|r.cells|, r.head, r.tail)
  }

  ghost predicate Enabled(r: Ring, st: Step) {
    match st
    case PlanWrite(_) => !r.isMessageBuffer && r.writer.WriterIdle?
    case PlanMessage(m) => r.isMessageBuffer && r.writer.WriterIdle? && |m| + LENGTH_BYTES < Pow256(LENGTH_BYTES)
    case WriteByte => r.writer.Writing? && r.writer.copied < |r.writer.data|
    case Publish => r.writer.Writing? && r.writer.copied == |r.writer.data|
    case PlanRead(_) => !r.isMessageBuffer && r.reader.ReaderIdle?
    case PlanReceive(_) => r.isMessageBuffer && r.reader.ReaderIdle?
    case ReadByte => r.reader.Reading? && |r.reader.copied| < r.reader.count
    case Consume => r.reader.Reading? && |r.reader.copied| == r.reader.count
  }

  /** The length a message reader finds in front of the oldest message. */
  ghost function FoundLength(r: Ring): nat
    requires Placed(r) && |Stored(r)| > LENGTH_BYTES
  {
    Decode(Stored(r)[..LENGTH_BYTES])
  }

  /** A frame without its length. */
  function Body(frame: seq<Byte>): Message { if |frame| < LENGTH_BYTES then [] else frame[LENGTH_BYTES..] }

  ghost function Apply(r: Ring, st: Step): Ring
    requires Inv(r) && Enabled(r, st)
  {
    match st
    case PlanWrite(data) =>
      var n := Min(|data|, Space(r));
      if n == 0 then r else r.(writer := Writing(data[..n], 0))
    case PlanMessage(m) =>
      if m == [] || |Frame(m)| > Space(r) then r else r.(writer := Writing(Frame(m), 0))
    case WriteByte =>
      var i := r.writer.copied;
      r.(cells := r.cells[Wrap(|r.cells|, r.head + i) := r.writer.data[i]], writer := r.writer.(copied := i + 1))
    case Publish =>
      var d := r.writer.data;
      r.(head := Wrap(|r.cells|, r.head + |d|), writer := WriterIdle, accepted := r.accepted + d,
        sent := if r.isMessageBuffer then r.sent + [Body(d)] else r.sent)
    case PlanRead(capacity) =>
      var n := Min(capacity, |Stored(r)|);
      if n == 0 then r else r.(reader := Reading(n, []))
    case PlanReceive(capacity) =>
      if |Stored(r)| <= LENGTH_BYTES then r
      else
        var n := FoundLength(r);
        if n > capacity || n == 0 then r else r.(reader := Reading(LENGTH_BYTES + Min(n, |Stored(r)| - LENGTH_BYTES), []))
    case ReadByte =>
      var c := r.reader.copied;
      r.(reader := r.reader.(copied := c + [r.cells[Wrap(|r.cells|, r.tail + |c|)]]))
    case Consume =>
      r.(tail := Wrap(|r.cells|, r.tail + r.reader.count), reader := ReaderIdle, received := r.received + r.reader.copied,
        got := if r.isMessageBuffer then r.got + [Body(r.reader.copied)] else r.got)
  }

  /** What the writer has copied so far lies behind the head, in space that was free when it looked. */
  ghost predicate WriterOk(r: Ring)
    requires Placed(r)
  {
    r.writer.Writing? ==>
      && r.writer.copied <= |r.writer.data| <= Space(r)
      && Window(r.cells, r.head, r.writer.copied) == r.writer.data[..r.writer.copied]
  }

  /** What the reader has copied so far is the front of what is stored. */
  ghost predicate ReaderOk(r: Ring)
    requires Placed(r)
  {
    r.reader.Reading? ==>
      && |r.reader.copied| <= r.reader.count <= |Stored(r)|
      && r.reader.copied == Stored(r)[..|r.reader.copied|]
  }

  ghost predicate Inv(r: Ring) {
    && Placed(r) && WriterOk(r) && ReaderOk(r)
    && r.received + Stored(r) == r.accepted
  }

  // ----- what each step does -----

  /** The byte about to be overwritten is not an unread one. */
  lemma TargetIsFree(r: Ring, j: nat)
    requires Inv(r) && Enabled(r, WriteByte) && j < |Stored(r)|
    ensures Wrap(|r.cells|, r.head + r.writer.copied) != Wrap(|r.cells|, r.tail + j)
  {
  }

  lemma WriteByteKeeps(r: Ring)
    requires Inv(r) && Enabled(r, WriteByte)
    ensures Inv(Apply(r, WriteByte)) && Stored(Apply(r, WriteByte)) == Stored(r)
  {
    StoredStays(r);
    CopiedGrows(r);
    hide Window, Unread;
  }

  lemma StoredStays(r: Ring)
    requires Inv(r) && Enabled(r, WriteByte)
    ensures Placed(Apply(r, WriteByte)) && Stored(Apply(r, WriteByte)) == Stored(r)
  {
    var n := Apply(r, WriteByte);
    forall j | 0 <= j < |Stored(r)| ensures Stored(n)[j] == Stored(r)[j] {
      TargetIsFree(r, j);
    }
  }

  lemma CopiedGrows(r: Ring)
    requires Inv(r) && Enabled(r, WriteByte)
    ensures Placed(Apply(r, WriteByte)) && WriterOk(Apply(r, WriteByte))
  {
    var i, n := r.writer.copied, Apply(r, WriteByte);
    forall j | 0 <= j < i + 1 ensures Window(n.cells, n.head, i + 1)[j] == r.writer.data[j] {
      if j < i {
        assert Window(r.cells, r.head, i)[j] == r.writer.data[..i][j];
        assert Wrap(|r.cells|, r.head + j) != Wrap(|r.cells|, r.head + i);
      }
    }
    assert Window(n.cells, n.head, i + 1) == r.writer.data[..i + 1];
  }

  lemma PublishKeeps(r: Ring)
    requires Inv(r) && Enabled(r, Publish)
    ensures Inv(Apply(r, Publish)) && Stored(Apply(r, Publish)) == Stored(r) + r.writer.data
  {
    var d := r.writer.data;
    assert d[..|d|] == d;
    PublishAppends(r.cells, r.head, r.tail, d);
    hide Window, Unread;
    var n := Apply(r, Publish);
    assert Stored(n) == Stored(r) + d;
    if r.reader.Reading? {
      assert (Stored(r) + d)[..|r.reader.copied|] == Stored(r)[..|r.reader.copied|];
    }
    assert r.received + (Stored(r) + d) == (r.received + Stored(r)) + d;
  }

  lemma ReadByteKeeps(r: Ring)
    requires Inv(r) && Enabled(r, ReadByte)
    ensures Inv(Apply(r, ReadByte)) && Stored(Apply(r, ReadByte)) == Stored(r)
  {
    var c := r.reader.copied;
    assert Stored(r)[|c|] == r.cells[Wrap(|r.cells|, r.tail + |c|)];
    assert Stored(r)[..|c| + 1] == Stored(r)[..|c|] + [Stored(r)[|c|]];
  }

  lemma ConsumeKeeps(r: Ring)
    requires Inv(r) && Enabled(r, Consume)
    ensures Inv(Apply(r, Consume)) && Stored(Apply(r, Consume)) == Stored(r)[r.reader.count..]
    ensures r.reader.copied == Stored(r)[..r.reader.count]
  {
    hide Window, Unread;
    var k := r.reader.count;
    ConsumeDrops(r.cells, r.head, r.tail, k);
    MovedOver(r.received, Stored(r), k);
    ConsumeWriter(r);
  }

  lemma MovedOver<T>(a: seq<T>, b: seq<T>, k: nat)
    requires k <= |b|
    ensures (a + b[..k]) + b[k..] == a + b
  {
    assert b == b[..k] + b[k..];
  }

  /** Consuming only frees space for the writer. */
  lemma ConsumeWriter(r: Ring)
    requires Inv(r) && Enabled(r, Consume)
    ensures Placed(Apply(r, Consume)) && WriterOk(Apply(r, Consume))
  {
    hide Window;
  }

  lemma StepKeeps(r: Ring, st: Step)
    requires Inv(r) && Enabled(r, st)
    ensures Inv(Apply(r, st))
  {
    match st
    case WriteByte => WriteByteKeeps(r);
    case Publish => PublishKeeps(r);
    case ReadByte => ReadByteKeeps(r);
    case Consume => ConsumeKeeps(r);
    case _ =>
      hide Window;
  }

  // ----- messages -----

  /** The messages sent and not yet got. */
  function Pending(r: Ring): seq<Message>
    requires |r.got| <= |r.sent|
  {
    r.sent[|r.got|..]
  }

  /**
   The bytes stored are exactly the frames of the pending messages; what is being written is one
   more frame, and what is being read is the frame of the oldest.
   */
  ghost predicate MessagesOk(r: Ring)
    requires Placed(r)
  {
    && AllSendable(r.sent) && |r.got| <= |r.sent| && r.got == r.sent[..|r.got|]
    && Stored(r) == Frames(Pending(r))
    && (r.writer.Writing? ==> Sendable(Body(r.writer.data)) && r.writer.data == Frame(Body(r.writer.data)))
    && (r.reader.Reading? ==> |r.got| < |r.sent| && r.reader.count == LENGTH_BYTES + |r.sent[|r.got|]|)
  }

  lemma PublishMessage(r: Ring)
    requires Inv(r) && r.isMessageBuffer && MessagesOk(r) && Enabled(r, Publish)
    ensures MessagesOk(Apply(r, Publish))
  {
    hide Window, Unread, Frames, Frame, Sendable;
    PublishKeeps(r);
    var n, m := Apply(r, Publish), Body(r.writer.data);
    FrameAppends(Pending(r), m);
    assert Pending(n) == Pending(r) + [m];
  }

  lemma ConsumeMessage(r: Ring)
    requires Inv(r) && r.isMessageBuffer && MessagesOk(r) && Enabled(r, Consume)
    ensures MessagesOk(Apply(r, Consume)) && Apply(r, Consume).got == r.got + [r.sent[|r.got|]]
  {
    hide Window, Unread, Frames, Frame, Decode;
    ConsumeKeeps(r);
    assert Pending(r)[0] == r.sent[|r.got|];
    assert Sendable(Pending(r)[0]);
    FirstFrame(Pending(r));
    var n := Apply(r, Consume);
    assert Body(r.reader.copied) == r.sent[|r.got|];
    assert Pending(n) == Pending(r)[1..];
    assert r.sent[..|r.got| + 1] == r.sent[..|r.got|] + [r.sent[|r.got|]];
  }

  /** A reader that finds anything finds the whole oldest message. */
  lemma ReceiveFindsOldest(r: Ring, capacity: nat)
    requires Inv(r) && r.isMessageBuffer && MessagesOk(r) && |Stored(r)| > LENGTH_BYTES
    ensures |r.got| < |r.sent| && FoundLength(r) == |r.sent[|r.got|]| > 0
        && |Stored(r)| - LENGTH_BYTES >= FoundLength(r)
  {
    hide Window, Unread, Frames, Decode;
    HeadFrame(Pending(r));
    assert Pending(r)[0] == r.sent[|r.got|];
  }

  lemma MessageStepKeeps(r: Ring, st: Step)
    requires Inv(r) && r.isMessageBuffer && MessagesOk(r) && Enabled(r, st)
    ensures Placed(Apply(r, st)) && MessagesOk(Apply(r, st))
  {
    StepKeeps(r, st);
    hide Window, Unread, Frames, Decode, Pow256;
    match st
    case WriteByte => WriteByteKeeps(r);
    case Publish => PublishMessage(r);
    case ReadByte => ReadByteKeeps(r);
    case Consume => ConsumeMessage(r);
    case PlanReceive(capacity) =>
      if |Stored(r)| > LENGTH_BYTES {
        ReceiveFindsOldest(r, capacity);
      }
    case PlanMessage(m) => assert Body(Frame(m)) == m;
    case _ =>
  }

  // ----- runs -----

  ghost predicate Runnable(r: Ring, sts: seq<Step>)
    requires Inv(r)
    decreases |sts|
  {
    sts == [] || (Enabled(r, sts[0]) && (StepKeeps(r, sts[0]); Runnable(Apply(r, sts[0]), sts[1..])))
  }

  ghost function Run(r: Ring, sts: seq<Step>): Ring
    requires Inv(r) && Runnable(r, sts)
    decreases |sts|
  {
    if sts == [] then r
    else
      StepKeeps(r, sts[0]);
      Run(Apply(r, sts[0]), sts[1..])
  }

  /** A new buffer: nothing stored, nobody writing or reading. */
  ghost function Fresh(cells: seq<Byte>, isMessageBuffer: bool): (r: Ring)
    requires cells != []
    ensures Inv(r) && MessagesOk(r)
  {
    Ring(isMessageBuffer, cells, 0, 0, WriterIdle, ReaderIdle, [], [], [], [])
  }

  lemma {:induction false} RunKeeps(r: Ring, sts: seq<Step>)
    requires Inv(r) && Runnable(r, sts)
    ensures var n := Run(r, sts);
            Inv(n) && n.isMessageBuffer == r.isMessageBuffer && n.received + Stored(n) == n.accepted
    decreases |sts|
  {
    hide Apply, Enabled;
    if sts != [] {
      StepKeeps(r, sts[0]);
      SameMode(r, sts[0]);
      RunKeeps(Apply(r, sts[0]), sts[1..]);
    }
  }

  /** Whatever the interleaving on a new buffer, what was received and what is stored make up what was accepted. */
  lemma FirstInFirstOut(cells: seq<Byte>, isMessageBuffer: bool, sts: seq<Step>)
    requires cells != [] && Runnable(Fresh(cells, isMessageBuffer), sts)
    ensures var n := Run(Fresh(cells, isMessageBuffer), sts); Inv(n) && n.received + Stored(n) == n.accepted
  {
    hide Inv;
    RunKeeps(Fresh(cells, isMessageBuffer), sts);
  }

  lemma {:induction false} MessagesKeep(r: Ring, sts: seq<Step>)
    requires Inv(r) && r.isMessageBuffer && MessagesOk(r) && Runnable(r, sts)
    ensures var n := Run(r, sts);
            && Inv(n) && n.isMessageBuffer && MessagesOk(n)
            && |n.got| <= |n.sent| && n.got == n.sent[..|n.got|]
            && Parse(Stored(n)) == Messages(Pending(n))
    decreases |sts|
  {
    if sts == [] {
      ParseFrames(Pending(r));
    } else {
      StepKeeps(r, sts[0]);
      MessageStepKeeps(r, sts[0]);
      SameMode(r, sts[0]);
      hide Apply, Enabled, MessagesOk, Inv;
      MessagesKeep(Apply(r, sts[0]), sts[1..]);
    }
  }

  /** The messages got from a new buffer are the first of the messages sent, whole and in order; the rest is stored. */
  lemma MessagesArriveWhole(cells: seq<Byte>, sts: seq<Step>)
    requires cells != [] && Runnable(Fresh(cells, true), sts)
    ensures var n := Run(Fresh(cells, true), sts);
            && Inv(n) && |n.got| <= |n.sent| && n.got == n.sent[..|n.got|]
            && Stored(n) == Frames(Pending(n)) && Parse(Stored(n)) == Messages(Pending(n))
  {
    hide Inv;
    MessagesKeep(Fresh(cells, true), sts);
  }

  lemma SameMode(r: Ring, st: Step)
    requires Inv(r) && Enabled(r, st)
    ensures Apply(r, st).isMessageBuffer == r.isMessageBuffer
  {
  }

  // ----- calls that run to their end -----

  /** The writer copies what is left of its data. */
  ghost function Copied(r: Ring): (e: Ring)
    requires Inv(r) && r.writer.Writing?
    ensures Inv(e) && e == r.(cells := e.cells, writer := Writing(r.writer.data, |r.writer.data|))
    ensures |e.cells| == |r.cells| && Stored(e) == Stored(r)
    decreases |r.writer.data| - r.writer.copied
  {
    if r.writer.copied == |r.writer.data| then r
    else
      WriteByteKeeps(r);
      CopiesOne(r);
      Copied(Apply(r, WriteByte))
  }

  lemma CopiesOne(r: Ring)
    requires Inv(r) && Enabled(r, WriteByte)
    ensures var n := Apply(r, WriteByte);
            n == r.(cells := n.cells, writer := Writing(r.writer.data, r.writer.copied + 1)) && |n.cells| == |r.cells|
  {
    hide Window, Unread;
  }

  /** The reader copies what is left of what it planned to. */
  ghost function Fetched(r: Ring): (e: Ring)
    requires Inv(r) && r.reader.Reading?
    ensures Inv(e) && Stored(e) == Stored(r) && e == r.(reader := Reading(r.reader.count, Stored(r)[..r.reader.count]))
    decreases r.reader.count - |r.reader.copied|
  {
    if |r.reader.copied| == r.reader.count then r
    else
      ReadByteKeeps(r);
      Fetched(Apply(r, ReadByte))
  }

  /** A write to a stream buffer appends as much of the data as fits, one byte of the ring being kept. */
  lemma WriteTakesWhatFits(r: Ring, data: seq<Byte>)
    requires Inv(r) && Enabled(r, PlanWrite(data))
    ensures var room, p := |r.cells| - 1 - |Stored(r)|, Apply(r, PlanWrite(data));
            var n := if |data| < room then |data| else room;
            && (n == 0 ==> p == r)
            && (n > 0 ==>
                  && Inv(p) && p.writer.Writing?
                  && var e := Apply(Copied(p), Publish);
                     && Inv(e) && Stored(e) == Stored(r) + data[..n] && e.accepted == r.accepted + data[..n]
                     && e.writer == WriterIdle && e.reader == r.reader && e.tail == r.tail && e.received == r.received)
  {
    StepKeeps(r, PlanWrite(data));
    var p := Apply(r, PlanWrite(data));
    if p.writer.Writing? {
      PublishKeeps(Copied(p));
    }
    hide Window;
  }

  /** A message is appended whole if it fits with its length, and else not at all; an empty one is not. */
  lemma MessageGoesWhole(r: Ring, m: Message)
    requires Inv(r) && Enabled(r, PlanMessage(m)) && MessagesOk(r)
    ensures var p := Apply(r, PlanMessage(m));
            && (m == [] || |m| + LENGTH_BYTES > |r.cells| - 1 - |Stored(r)| ==> p == r)
            && (m != [] && |m| + LENGTH_BYTES <= |r.cells| - 1 - |Stored(r)| ==>
                  && Inv(p) && p.writer.Writing?
                  && var e := Apply(Copied(p), Publish);
                     && Inv(e) && Stored(e) == Stored(r) + Frame(m) && e.sent == r.sent + [m] && e.got == r.got
                     && e.writer == WriterIdle && e.reader == r.reader && e.tail == r.tail && e.received == r.received)
  {
    StepKeeps(r, PlanMessage(m));
    var p := Apply(r, PlanMessage(m));
    if p.writer.Writing? {
      PublishKeeps(Copied(p));
      assert Body(Frame(m)) == m;
    }
    hide Window, Encode, Decode, Pow256;
  }

  /** A read from a stream buffer takes what is stored, as far as the caller has room. */
  lemma ReadTakesWhatIsThere(r: Ring, capacity: nat)
    requires Inv(r) && Enabled(r, PlanRead(capacity))
    ensures var n, p := if capacity < |Stored(r)| then capacity else |Stored(r)|, Apply(r, PlanRead(capacity));
            && (n == 0 ==> p == r)
            && (n > 0 ==>
                  && Inv(p) && p.reader.Reading?
                  && var e := Apply(Fetched(p), Consume);
                     && Inv(e) && Stored(e) == Stored(r)[n..] && e.received == r.received + Stored(r)[..n]
                     && e.reader == ReaderIdle && e.writer == r.writer && e.head == r.head && e.accepted == r.accepted)
  {
    StepKeeps(r, PlanRead(capacity));
    var p := Apply(r, PlanRead(capacity));
    if p.reader.Reading? {
      ConsumeKeeps(Fetched(p));
    }
    hide Window, Unread;
  }

  /** A receive takes the oldest message if the caller has room for it, and else leaves it. */
  lemma ReceiveTakesOldest(r: Ring, capacity: nat)
    requires Inv(r) && Enabled(r, PlanReceive(capacity)) && MessagesOk(r)
    ensures var p := Apply(r, PlanReceive(capacity));
            && (|r.got| == |r.sent| || |r.sent[|r.got|]| > capacity ==> p == r)
            && (|r.got| < |r.sent| && |r.sent[|r.got|]| <= capacity ==>
                  && Inv(p) && p.reader.Reading?
                  && var e := Apply(Fetched(p), Consume);
                     && Inv(e) && e.got == r.got + [r.sent[|r.got|]] && e.sent == r.sent
                     && Stored(e) == Stored(r)[LENGTH_BYTES + |r.sent[|r.got|]|..]
                     && e.reader == ReaderIdle && e.writer == r.writer && e.head == r.head && e.accepted == r.accepted)
  {
    hide Window, Unread, Frames, Frame, Decode, Pow256;
    PendingStored(r);
    if |Stored(r)| > LENGTH_BYTES {
      ReceiveFindsOldest(r, capacity);
    }
    StepKeeps(r, PlanReceive(capacity));
    MessageStepKeeps(r, PlanReceive(capacity));
    var p := Apply(r, PlanReceive(capacity));
    if p.reader.Reading? {
      FetchedMessages(p);
      ConsumeMessage(Fetched(p));
      ConsumeKeeps(Fetched(p));
    }
  }

  /** There is more than a length stored exactly if a message is pending. */
  lemma PendingStored(r: Ring)
    requires Inv(r) && MessagesOk(r)
    ensures |Stored(r)| > LENGTH_BYTES <==> |r.got| < |r.sent|
  {
    EmptyOrMore(Pending(r));
    hide Window, Unread, Frames;
  }

  lemma FetchedMessages(r: Ring)
    requires Inv(r) && r.reader.Reading? && MessagesOk(r)
    ensures MessagesOk(Fetched(r))
  {
    hide Window, Unread, Frames, Frame;
  }
}
