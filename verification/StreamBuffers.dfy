/**
 Stream and message buffers: a byte ring with one slot kept free, written and read in at most
 two chunks, and the framing of discrete messages on top of it.
 */
module StreamBuffers {

  type Byte = n: nat | n < 256

  // ----- the ring -----

  /** A position at most one turn ahead, brought back into a ring of the given size. */
  function Wrap(size: nat, k: nat): nat
    requires k < 2 * size
  {
    if k >= size then k - size else k
  }

  /** `prvBytesInBuffer`: how far `head` is ahead of `tail`. */
  function BytesIn(size: nat, head: nat, tail: nat): (n: nat)
    requires head < size && tail < size
    ensures n < size && Wrap(size, tail + n) == head
  {
    var count := size + head - tail;
    if count >= size then count - size else count
  }

  /** What `xStreamBufferSpacesAvailable` computes from the two positions. */
  function SpacesIn(size: nat, head: nat, tail: nat): (n: nat)
    requires head < size && tail < size
    ensures n + BytesIn(size, head, tail) == size - 1
  {
    var space := size + tail - head - 1;
    if space >= size then space - size else space
  }

  /** `n` bytes from position `at` on. */
  ghost function Window(b: seq<Byte>, at: nat, n: nat): (w: seq<Byte>)
    requires at < |b| && n <= |b|
    ensures |w| == n && forall j :: 0 <= j < n ==> w[j] == b[Wrap(|b|, at + j)]
  {
    seq(n, j requires 0 <= j < n => b[Wrap(|b|, at + j)])
  }

  /** The bytes that were published and not yet consumed. */
  ghost function Unread(b: seq<Byte>, head: nat, tail: nat): (u: seq<Byte>)
    requires head < |b| && tail < |b|
    ensures |u| == BytesIn(|b|, head, tail)
  {
    Window(b, tail, BytesIn(|b|, head, tail))
  }

  /** `c` is `b` with `data` written from position `at` on, and nothing else changed. */
  ghost predicate Written(b: seq<Byte>, c: seq<Byte>, at: nat, data: seq<Byte>)
    requires at < |b| && |data| <= |b|
  {
    && |c| == |b| && Window(c, at, |data|) == data
    && (forall k: nat :: k < |b| && BytesIn(|b|, k, at) >= |data| ==> c[k] == b[k])
  }

  /** Writing into the free space changes no unread byte. */
  lemma WriteIsUnseen(b: seq<Byte>, c: seq<Byte>, head: nat, tail: nat, at: nat, data: seq<Byte>)
    requires head < |b| && tail < |b| && at < |b| && |data| <= |b| && Written(b, c, at, data)
    requires BytesIn(|b|, at, head) + |data| <= SpacesIn(|b|, head, tail)
    ensures Unread(c, head, tail) == Unread(b, head, tail)
  {
    forall j | 0 <= j < BytesIn(|b|, head, tail) ensures Unread(c, head, tail)[j] == Unread(b, head, tail)[j] {
      assert BytesIn(|b|, Wrap(|b|, tail + j), at) >= |data|;
    }
  }

  /** Publishing the head behind written data appends the data to what is unread. */
  lemma PublishAppends(b: seq<Byte>, head: nat, tail: nat, data: seq<Byte>)
    requires head < |b| && tail < |b| && |data| <= SpacesIn(|b|, head, tail) && Window(b, head, |data|) == data
    ensures Wrap(|b|, head + |data|) < |b| && Unread(b, Wrap(|b|, head + |data|), tail) == Unread(b, head, tail) + data
  {
    var n, next := BytesIn(|b|, head, tail), Wrap(|b|, head + |data|);
    assert BytesIn(|b|, next, tail) == n + |data|;
    forall j | 0 <= j < n + |data| ensures Unread(b, next, tail)[j] == (Unread(b, head, tail) + data)[j] {
      if j >= n {
        assert Wrap(|b|, tail + j) == Wrap(|b|, head + (j - n));
        assert data[j - n] == Window(b, head, |data|)[j - n];
      }
    }
  }

  /** Publishing the tail behind bytes that were read takes them off the front. */
  lemma ConsumeDrops(b: seq<Byte>, head: nat, tail: nat, n: nat)
    requires head < |b| && tail < |b| && n <= BytesIn(|b|, head, tail)
    ensures Wrap(|b|, tail + n) < |b| && Window(b, tail, n) == Unread(b, head, tail)[..n]
    ensures Unread(b, head, Wrap(|b|, tail + n)) == Unread(b, head, tail)[n..]
  {
    var next := Wrap(|b|, tail + n);
    assert BytesIn(|b|, head, next) == BytesIn(|b|, head, tail) - n;
    forall j | 0 <= j < BytesIn(|b|, head, next) ensures Unread(b, head, next)[j] == Unread(b, head, tail)[n + j] {
      assert Wrap(|b|, next + j) == Wrap(|b|, tail + (n + j));
    }
  }

  /** Two consecutive writes are one write of both pieces. */
  lemma WrittenTwice(b: seq<Byte>, c: seq<Byte>, d: seq<Byte>, at: nat, x: seq<Byte>, y: seq<Byte>)
    requires at < |b| && |x| + |y| <= |b| && |x| < |b| && Written(b, c, at, x) && Written(c, d, Wrap(|b|, at + |x|), y)
    ensures Written(b, d, at, x + y)
  {
    var next := Wrap(|b|, at + |x|);
    forall j | 0 <= j < |x| + |y| ensures Window(d, at, |x| + |y|)[j] == (x + y)[j] {
      var k := Wrap(|b|, at + j);
      if j < |x| {
        assert BytesIn(|b|, k, next) >= |y|;
        assert Window(c, at, |x|)[j] == x[j];
      } else {
        assert k == Wrap(|b|, next + (j - |x|));
        assert Window(d, next, |y|)[j - |x|] == y[j - |x|];
      }
    }
    forall k: nat | k < |b| && BytesIn(|b|, k, at) >= |x| + |y| ensures d[k] == b[k] {
      assert BytesIn(|b|, k, next) >= |y|;
    }
  }

  // ----- framing -----

  /** The size of the type that holds a stored message length; it is that of all lengths, `size_t`. */
  type Width = n: nat | n >= 1 witness 4

  const LENGTH_BYTES: Width

  function Pow256(n: nat): (p: nat)
    ensures p > 0
  {
    if n == 0 then 1 else 256 * Pow256(n - 1)
  }

  /** A length as stored, least significant byte first. */
  function Encode(n: nat, width: nat): (e: seq<Byte>)
    ensures |e| == width
  {
    if width == 0 then [] else [n % 256] + Encode(n / 256, width - 1)
  }

  function Decode(e: seq<Byte>): nat { if e == [] then 0 else e[0] + 256 * Decode(e[1..]) }

  lemma {:induction false} DecodeEncode(n: nat, width: nat)
    requires n < Pow256(width)
    ensures Decode(Encode(n, width)) == n
  {
    if width > 0 {
      DecodeEncode(n / 256, width - 1);
    }
  }

  /** What reads back is the length modulo what the type can hold. */
  lemma {:induction false} DecodeTruncates(n: nat, width: nat)
    ensures Decode(Encode(n, width)) == n % Pow256(width)
  {
    if width > 0 {
      DecodeTruncates(n / 256, width - 1);
      LowByte(n, Pow256(width - 1));
      hide Pow256;
    }
  }

  lemma LowByte(n: nat, p: nat)
    requires p > 0
    ensures n % (256 * p) == n % 256 + 256 * (n / 256 % p)
  {
    var m := n / 256;
    var q, r := m / p, m % p;
    assert m == p * q + r;
    Regroup(p, q);
    DivModOf(n, 256 * p, q, 256 * r + n % 256);
  }

  lemma Regroup(p: nat, q: nat)
    ensures 256 * (p * q) == (256 * p) * q
  {
  }

  lemma DivModOf(n: nat, d: nat, q: nat, r: nat)
    requires r < d && n == d * q + r
    ensures n % d == r
  {
    assert n == d * (n / d) + n % d;
    var k := n / d - q;
    assert d * k == d * (n / d) - d * q;
    MultipleGrows(k, d);
  }

  lemma MultipleGrows(k: int, d: nat)
    ensures k >= 1 ==> d * k >= d
    ensures k <= -1 ==> d * k + d <= 0
  {
  }

  type Message = seq<Byte>

  /** Messages that can be sent: not empty, and with a length that can be stored with its prefix. */
  predicate Sendable(m: Message) { m != [] && |m| + LENGTH_BYTES < Pow256(LENGTH_BYTES) }

  function Frame(m: Message): seq<Byte> { Encode(|m|, LENGTH_BYTES) + m }

  function Frames(ms: seq<Message>): seq<Byte> { if ms == [] then [] else Frame(ms[0]) + Frames(ms[1..]) }

  ghost predicate AllSendable(ms: seq<Message>) { forall i :: 0 <= i < |ms| ==> Sendable(ms[i]) }

  datatype Parsed = Malformed | Messages(list: seq<Message>)

  /** What a reader of the bytes would make of them. */
  function Parse(b: seq<Byte>): Parsed
    decreases |b|
  {
    if b == [] then Messages([])
    else if |b| <= LENGTH_BYTES then Malformed
    else
      var n := Decode(b[..LENGTH_BYTES]);
      if n == 0 || LENGTH_BYTES + n > |b| then Malformed
      else
        match Parse(b[LENGTH_BYTES + n..])
        case Malformed => Malformed
        case Messages(ms) => Messages([b[LENGTH_BYTES..LENGTH_BYTES + n]] + ms)
  }

  /** Framing loses nothing: the bytes of any messages parse back to those messages. */
  lemma {:induction false} ParseFrames(ms: seq<Message>)
    requires AllSendable(ms)
    ensures Parse(Frames(ms)) == Messages(ms)
    decreases |ms|
  {
    if ms != [] {
      var b := Frames(ms);
      var n := |ms[0]|;
      assert Sendable(ms[0]);
      FirstFrame(ms);
      assert AllSendable(ms[1..]);
      ParseFrames(ms[1..]);
      assert b[LENGTH_BYTES + n..] == Frames(ms[1..]);
      assert ms == [ms[0]] + ms[1..];
    }
  }

  /** With a narrower type framing breaks: a message parses back exactly if its length fits the type. */
  lemma FramingExactly(m: Message)
    requires m != []
    ensures Parse(Frame(m)) == Messages([m]) <==> |m| < Pow256(LENGTH_BYTES)
  {
    var b := Frame(m);
    DecodeTruncates(|m|, LENGTH_BYTES);
    assert b[..LENGTH_BYTES] == Encode(|m|, LENGTH_BYTES);
    if |m| < Pow256(LENGTH_BYTES) {
      DecodeEncode(|m|, LENGTH_BYTES);
      assert b[LENGTH_BYTES + |m|..] == [] && b[LENGTH_BYTES..LENGTH_BYTES + |m|] == m;
    } else {
      var n := Decode(b[..LENGTH_BYTES]);
      assert n < |m|;
      if n > 0 {
        assert |b[LENGTH_BYTES..LENGTH_BYTES + n]| < |m|;
      }
    }
  }

  lemma FirstFrame(ms: seq<Message>)
    requires ms != [] && Sendable(ms[0])
    ensures var b, n := Frames(ms), |ms[0]|;
            && |b| >= LENGTH_BYTES + n && Decode(b[..LENGTH_BYTES]) == n
            && b[LENGTH_BYTES..LENGTH_BYTES + n] == ms[0] && b[LENGTH_BYTES + n..] == Frames(ms[1..])
            && b[..LENGTH_BYTES + n] == Frame(ms[0])
  {
    DecodeEncode(|ms[0]|, LENGTH_BYTES);
    assert Frames(ms)[..LENGTH_BYTES] == Encode(|ms[0]|, LENGTH_BYTES);
  }

  /** What a reader finds when there is more than a length: the length and data of the oldest message. */
  lemma HeadFrame(ms: seq<Message>)
    requires AllSendable(ms) && |Frames(ms)| > LENGTH_BYTES
    ensures ms != [] && ms[0] != [] && AllSendable(ms[1..])
    ensures var rest, n := Frames(ms)[LENGTH_BYTES..], |ms[0]|;
            && n <= |rest| && Decode(Frames(ms)[..LENGTH_BYTES]) == n
            && rest[..n] == ms[0] && rest[n..] == Frames(ms[1..])
  {
    assert ms != [];
    assert Sendable(ms[0]);
    FirstFrame(ms);
    var q, n := Frames(ms), |ms[0]|;
    assert q[LENGTH_BYTES..][..n] == q[LENGTH_BYTES..LENGTH_BYTES + n];
    assert q[LENGTH_BYTES..][n..] == q[LENGTH_BYTES + n..];
  }

  lemma {:induction false} FramesConcat(a: seq<Message>, b: seq<Message>)
    ensures Frames(a + b) == Frames(a) + Frames(b)
    decreases |a|
  {
    if a == [] {
      assert a + b == b;
    } else {
      assert (a + b)[1..] == a[1..] + b;
      FramesConcat(a[1..], b);
    }
  }

  /** A framed buffer is empty or holds more than a length: no length is seen without its data. */
  lemma EmptyOrMore(ms: seq<Message>)
    requires AllSendable(ms)
    ensures |Frames(ms)| <= LENGTH_BYTES <==> ms == []
    ensures ms == [] <==> Frames(ms) == []
  {
    if ms != [] {
      assert Sendable(ms[0]);
    }
  }

  // ----- the object -----

  function Min(a: nat, b: nat): nat { if a < b then a else b }

  class StreamBuffer {
    const buffer: array<Byte>
    const isMessageBuffer: bool
    var head: nat
    var tail: nat
    /** The messages sent and not yet received, if this is a message buffer. */
    ghost var messages: seq<Message>

    ghost predicate InRing()
      reads this
    {
      head < buffer.Length && tail < buffer.Length
    }

    ghost predicate Valid()
      reads this, buffer
    {
      InRing() && (isMessageBuffer ==> Contents() == Frames(messages) && AllSendable(messages))
    }

    ghost function Contents(): seq<Byte>
      requires InRing()
      reads this, buffer
    {
      Unread(buffer[..], head, tail)
    }

    /** The ring has one byte more than was asked for. */
    constructor (size: nat, isMessageBuffer: bool)
      requires size > 0 && (isMessageBuffer ==> size > LENGTH_BYTES)
      ensures Valid() && Contents() == [] && messages == [] && fresh(buffer)
      ensures buffer.Length == size + 1 && this.isMessageBuffer == isMessageBuffer
    {
      buffer := new Byte[size + 1](_ => 0);
      this.isMessageBuffer := isMessageBuffer;
      head, tail, messages := 0, 0, [];
    }

    method BytesInBuffer() returns (count: nat)
      requires InRing()
      ensures count == |Contents()|
    {
      count := buffer.Length + head;
      count := count - tail;
      if count >= buffer.Length {
        count := count - buffer.Length;
      }
    }

    /** With nobody else at work the tail does not move and the loop ends after one round. */
    method SpacesAvailable() returns (space: nat)
      requires InRing()
      ensures space == buffer.Length - 1 - |Contents()|
    {
      space := 0;
      var again := true;
      while again
        invariant !again ==> space == buffer.Length + tail - head
        decreases again
      {
        var original := tail;
        space := buffer.Length + tail;
        space := space - head;
        again := original != tail;
      }
      space := space - 1;
      if space >= buffer.Length {
        space := space - buffer.Length;
      }
    }

    method WriteBytesToBuffer(data: seq<Byte>, at: nat) returns (next: nat)
      requires 0 < |data| <= buffer.Length && at < buffer.Length
      modifies buffer
      ensures Written(old(buffer[..]), buffer[..], at, data) && next == Wrap(buffer.Length, at + |data|)
    {
      ghost var b := buffer[..];
      var first := Min(buffer.Length - at, |data|);
      forall i | 0 <= i < first {
        buffer[at + i] := data[i];
      }
      if |data| > first {
        forall i | 0 <= i < |data| - first {
          buffer[i] := data[first + i];
        }
      }
      next := at + |data|;
      if next >= buffer.Length {
        next := next - buffer.Length;
      }
      assert forall k :: 0 <= k < |b| ==>
                           buffer[k] == if at <= k < at + first then data[k - at] else if k < |data| - first then data[first + k] else b[k];
    }

    method ReadBytesFromBuffer(count: nat, at: nat) returns (data: seq<Byte>, next: nat)
      requires 0 < count <= buffer.Length && at < buffer.Length
      ensures data == Window(buffer[..], at, count) && next == Wrap(buffer.Length, at + count)
    {
      var first := Min(buffer.Length - at, count);
      data := buffer[at..at + first];
      if count > first {
        data := data + buffer[..count - first];
      }
      next := at + count;
      if next >= buffer.Length {
        next := next - buffer.Length;
      }
    }

    /** `prvWriteMessageToBuffer`, given the space found before. */
    method WriteMessageToBuffer(data: seq<Byte>, space: nat, required: nat) returns (written: nat)
      requires Valid() && space <= buffer.Length - 1 - |Contents()|
      requires isMessageBuffer ==> required == |data| + LENGTH_BYTES && required < Pow256(LENGTH_BYTES)
      modifies this`head, this`messages, buffer
      ensures Valid()
      ensures isMessageBuffer ==>
                && written == (if space >= required then |data| else 0)
                && messages == if written > 0 then old(messages) + [data] else old(messages)
      ensures !isMessageBuffer ==> written == Min(|data|, space) && Contents() == old(Contents()) + data[..written]
    {
      hide Written, Window, Frames, Encode;
      ghost var b, q := buffer[..], Contents();
      var next := head;
      written := |data|;
      if isMessageBuffer {
        if space >= required {
          next := WriteBytesToBuffer(Encode(|data|, LENGTH_BYTES), next);
          WriteIsUnseen(b, buffer[..], head, tail, head, Encode(|data|, LENGTH_BYTES));
        } else {
          written := 0;
        }
      } else {
        written := Min(|data|, space);
      }
      if written != 0 {
        ghost var c := buffer[..];
        next := WriteBytesToBuffer(data[..written], next);
        if isMessageBuffer {
          assert data[..written] == data;
          WrittenTwice(b, c, buffer[..], head, Encode(|data|, LENGTH_BYTES), data);
          Published(b, buffer[..], head, tail, Frame(data));
          FrameAppends(messages, data);
          messages := messages + [data];
        } else {
          Published(b, buffer[..], head, tail, data[..written]);
        }
        head := next;
      }
    }

    /** The part of a send that does not wait: the number of bytes taken over is returned. */
    method Send(data: seq<Byte>) returns (written: nat)
      requires Valid() && (isMessageBuffer ==> |data| + LENGTH_BYTES < Pow256(LENGTH_BYTES))
      modifies this`head, this`messages, buffer
      ensures Valid()
      ensures isMessageBuffer ==>
                && written == (if |data| + LENGTH_BYTES <= buffer.Length - 1 - |old(Contents())| then |data| else 0)
                && messages == if written > 0 then old(messages) + [data] else old(messages)
      ensures !isMessageBuffer ==>
                && written == Min(|data|, buffer.Length - 1 - |old(Contents())|)
                && Contents() == old(Contents()) + data[..written]
    {
      hide Frames, Window, Unread;
      var required := |data|;
      if isMessageBuffer {
        required := required + LENGTH_BYTES;
      }
      var space := SpacesAvailable();
      written := WriteMessageToBuffer(data, space, required);
    }

    /** `prvReadMessageFromBuffer`: a message that does not fit the caller's buffer is left alone. */
    method ReadMessageFromBuffer(capacity: nat, available: nat) returns (data: seq<Byte>)
      requires Valid() && available == |Contents()| && (isMessageBuffer ==> available > LENGTH_BYTES)
      modifies this`tail, this`messages
      ensures Valid()
      ensures isMessageBuffer ==>
                && old(messages) != []
                && (if |old(messages)[0]| <= capacity then data == old(messages)[0] && messages == old(messages)[1..]
                    else data == [] && messages == old(messages))
      ensures !isMessageBuffer ==>
                data == old(Contents())[..Min(capacity, available)]
                    && Contents() == old(Contents())[Min(capacity, available)..]
    {
      hide Window, Unread, Frames, Decode, Sendable, AllSendable;
      ghost var q, b := Contents(), buffer[..];
      var next, left, wanted := tail, available, capacity;
      if isMessageBuffer {
        HeadFrame(messages);
        ConsumeDrops(b, head, tail, LENGTH_BYTES);
        var prefix;
        prefix, next := ReadBytesFromBuffer(LENGTH_BYTES, next);
        wanted := Decode(prefix);
        left := left - LENGTH_BYTES;
        if wanted > capacity {
          wanted := 0;
        }
      }
      var count := Min(wanted, left);
      data := [];
      if count != 0 {
        ConsumeDrops(b, head, next, count);
        data, next := ReadBytesFromBuffer(count, next);
        if isMessageBuffer {
          messages := messages[1..];
        }
        tail := next;
      }
    }

    /** The part of a receive that does not wait. */
    method Receive(capacity: nat) returns (data: seq<Byte>)
      requires Valid()
      modifies this`tail, this`messages
      ensures Valid()
      ensures isMessageBuffer ==>
                if old(messages) != [] && |old(messages)[0]| <= capacity
                then data == old(messages)[0] && messages == old(messages)[1..]
                else data == [] && messages == old(messages)
      ensures !isMessageBuffer ==>
                var n := Min(capacity, |old(Contents())|);
                data == old(Contents())[..n] && Contents() == old(Contents())[n..]
    {
      hide Frames, Window, Unread;
      var prefix := if isMessageBuffer then LENGTH_BYTES else 0;
      var available := BytesInBuffer();
      if isMessageBuffer {
        EmptyOrMore(messages);
      }
      data := [];
      if available > prefix {
        data := ReadMessageFromBuffer(capacity, available);
      }
    }

    /** `xStreamBufferNextMessageLengthBytes`; the assertion is the one the source makes. */
    method NextMessageLengthBytes() returns (length: nat)
      requires Valid()
      ensures length == if isMessageBuffer && messages != [] then |messages[0]| else 0
    {
      hide Frames, Window, Unread, Decode;
      length := 0;
      if isMessageBuffer {
        var available := BytesInBuffer();
        EmptyOrMore(messages);
        if available > LENGTH_BYTES {
          HeadFrame(messages);
          ConsumeDrops(buffer[..], head, tail, LENGTH_BYTES);
          var prefix, next := ReadBytesFromBuffer(LENGTH_BYTES, tail);
          length := Decode(prefix);
        } else {
          assert available == 0;
        }
      }
    }
  }

  lemma Published(b: seq<Byte>, c: seq<Byte>, head: nat, tail: nat, data: seq<Byte>)
    requires head < |b| && tail < |b| && |data| <= SpacesIn(|b|, head, tail) && Written(b, c, head, data)
    ensures Wrap(|b|, head + |data|) < |b| && Unread(c, Wrap(|b|, head + |data|), tail) == Unread(b, head, tail) + data
  {
    WriteIsUnseen(b, c, head, tail, head, data);
    PublishAppends(c, head, tail, data);
  }

  lemma FrameAppends(ms: seq<Message>, m: Message)
    ensures Frames(ms + [m]) == Frames(ms) + Frame(m)
  {
    FramesConcat(ms, [m]);
    assert [m][1..] == [];
  }
}
