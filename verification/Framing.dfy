/** The control protocol's frames: four bytes of length, most significant first, and the payload
    (internal/protocol/codec.go). */
module Framing {
  import opened Streams

  const MAX_MESSAGE_SIZE := 0x10_0000

  type Payload = seq<Byte>

  datatype Message =
    | Message(payload: Payload)
    | TooLarge
    | HeaderError(cause: ReadResult)
    | PayloadError(cause: ReadResult)

  datatype Sent = Sent | Oversized | WriteError

  // ------------------------------------------------------------------ specification

  function Frame(data: Payload): seq<Byte>
    requires |data| <= MAX_MESSAGE_SIZE
  {
    BigEndian(|data|) + data
  }

  predicate Fits(list: seq<Payload>) {
    forall i :: 0 <= i < |list| ==> |list[i]| <= MAX_MESSAGE_SIZE
  }

  function Frames(list: seq<Payload>): seq<Byte>
    requires Fits(list)
  {
    if list == [] then [] else Frame(list[0]) + Frames(list[1..])
  }

  function Cut(bytes: seq<Byte>): ReadResult {
    if bytes == [] then EOF else UnexpectedEOF
  }

  /** What a receiver makes of a stream, and what it leaves of it. */
  function Receive(s: seq<Byte>): (r: (Message, seq<Byte>))
    ensures |r.1| <= |s| && (r.0.Message? ==> |r.1| < |s|)
  {
    if |s| < 4 then (HeaderError(Cut(s)), [])
    else
      var n, rest := Number(s[..4]), s[4..];
      if n > MAX_MESSAGE_SIZE then (TooLarge, rest)
      else if |rest| < n then (PayloadError(Cut(rest)), [])
      else (Message(rest[..n]), rest[n..])
  }

  /** A message loop: every payload up to the first error. */
  function ReceiveAll(s: seq<Byte>): (seq<Payload>, Message)
    decreases |s|
  {
    var (m, rest) := Receive(s);
    if m.Message? then
      Prepend([m.payload], ReceiveAll(rest))
    else ([], m)
  }

  // -------------------------------------------------------------------------- codec

  /** sync.Pool: it hands out any buffer it was given, with whatever that holds. */
  class BufferPool {
    var buffers: seq<array<Byte>>

    constructor ()
      ensures buffers == []
    {
      buffers := [];
    }

    method Get() returns (buf: array<Byte>)
      modifies this
      ensures buf in old(buffers) || fresh(buf)
      ensures forall b :: b in buffers ==> b in old(buffers)
    {
      if buffers == [] {
        return new Byte[512];
      }
      var i: nat :| i < |buffers|;
      buf := buffers[i];
      buffers := buffers[..i] + buffers[i + 1..];
    }

    method Put(buf: array<Byte>)
      modifies this
      ensures buffers == old(buffers) + [buf]
    {
      buffers := buffers + [buf];
    }
  }

  class Codec {
    const reader: Reader
    const writer: Writer
    const pool: BufferPool

    constructor (reader: Reader, writer: Writer, pool: BufferPool)
      ensures this.reader == reader && this.writer == writer && this.pool == pool
    {
      this.reader, this.writer, this.pool := reader, writer, pool;
    }

    /** What is written does not depend on the buffers in the pool. */
    method EncodeBytes(data: Payload) returns (sent: Sent)
      modifies writer, pool, pool.buffers
      ensures sent == Oversized <==> |data| > 1024 * 1024
      ensures sent == Sent <==> |data| <= 1024 * 1024 && 4 + |data| <= old(writer.room)
      ensures sent == Oversized ==> writer.written == old(writer.written)
      ensures sent == Sent ==> writer.written == old(writer.written) + Frame(data)
      ensures sent == WriteError ==> writer.written == old(writer.written) + Frame(data)[..old(writer.room)]
      ensures forall b :: b in pool.buffers ==> b in old(pool.buffers) || fresh(b)
    {
      if |data| > MAX_MESSAGE_SIZE {
        return Oversized;
      }
      var total := 4 + |data|;
      var buf := pool.Get();
      if buf.Length < total {
        buf := new Byte[total];
      }
      Copy(buf, 0, BigEndian(|data|));
      Copy(buf, 4, data);
      assert buf[..total] == Frame(data);
      var ok := writer.Write(buf[..total]);
      pool.Put(buf);
      return if ok then Sent else WriteError;
    }

    method DecodeRaw() returns (m: Message)
      modifies reader
      ensures (m, reader.pending) == Receive(old(reader.pending))
    {
      var header := new Byte[4];
      var result := ReadFull(reader, header);
      if !result.Full? {
        return HeaderError(result);
      }
      var length := Number(header[..]);
      if length > MAX_MESSAGE_SIZE {
        return TooLarge;
      }
      var data := new Byte[length];
      result := ReadFull(reader, data);
      if !result.Full? {
        return PayloadError(result);
      }
      return Message(data[..]);
    }

    /** The reading side of a connection. */
    method ReadMessages() returns (payloads: seq<Payload>, end: Message)
      modifies reader
      ensures (payloads, end) == ReceiveAll(old(reader.pending))
    {
      payloads := [];
      PrependNothing(ReceiveAll(reader.pending));
      while true
        invariant ReceiveAll(old(reader.pending)) == Prepend(payloads, ReceiveAll(reader.pending))
        decreases |reader.pending|
      {
        end := DecodeRaw();
        if !end.Message? {
          assert payloads + [] == payloads;
          return;
        }
        PrependTwice(payloads, end.payload, ReceiveAll(reader.pending));
        payloads := payloads + [end.payload];
      }
    }
  }

  function Prepend(payloads: seq<Payload>, r: (seq<Payload>, Message)): (seq<Payload>, Message) {
    (payloads + r.0, r.1)
  }

  lemma PrependNothing(r: (seq<Payload>, Message))
    ensures Prepend([], r) == r
  {
    assert [] + r.0 == r.0;
  }

  lemma PrependTwice(payloads: seq<Payload>, last: Payload, r: (seq<Payload>, Message))
    ensures Prepend(payloads, Prepend([last], r)) == Prepend(payloads + [last], r)
  {
    assert payloads + ([last] + r.0) == payloads + [last] + r.0;
  }

  // ----------------------------------------------------------------------- theorems

  /** Four bytes, most significant first. */
  function Length(s: seq<Byte>): int
    requires |s| >= 4
  {
    var a: int, b: int, c: int, d: int := s[0], s[1], s[2], s[3];
    a * 16777216 + b * 65536 + c * 256 + d
  }

  /** A frame is the length, most significant byte first, and the payload. */
  lemma FrameLayout(data: Payload)
    requires |data| <= 1024 * 1024
    ensures var f := Frame(data);
            |f| == 4 + |data| && Length(f) == |data| && f[4..] == data
  {
    NumberOfBigEndian(|data|);
  }

  /** A length over a mebibyte is refused, and only that; none of what follows is read. */
  lemma OversizedIsRefused(s: seq<Byte>)
    ensures var (m, rest) := Receive(s);
            && (m == TooLarge <==> |s| >= 4 && Length(s) > 1024 * 1024)
            && (m == TooLarge ==> rest == s[4..])
  {
  }

  /** One frame is read back whole and nothing after it is touched. */
  lemma FrameRoundTrip(data: Payload, rest: seq<Byte>)
    requires |data| <= MAX_MESSAGE_SIZE
    ensures Receive(Frame(data) + rest) == (Message(data), rest)
  {
    var s := Frame(data) + rest;
    NumberOfBigEndian(|data|);
    assert s[..4] == BigEndian(|data|);
    assert s[4..] == data + rest;
  }

  /** A list of payloads comes back as it was sent, with nothing left over. */
  lemma {:induction false} FramesRoundTrip(list: seq<Payload>)
    requires Fits(list)
    ensures ReceiveAll(Frames(list)) == (list, HeaderError(EOF))
  {
    if list != [] {
      FrameRoundTrip(list[0], Frames(list[1..]));
      FramesRoundTrip(list[1..]);
      assert list == [list[0]] + list[1..];
    }
  }

  /** Every accepted message was a frame: reading is inverse to writing in both directions. */
  lemma ReceivedWasFramed(s: seq<Byte>)
    requires Receive(s).0.Message?
    ensures var (m, rest) := Receive(s); |m.payload| <= MAX_MESSAGE_SIZE && s == Frame(m.payload) + rest
  {
    BigEndianOfNumber(s[..4]);
    assert s == s[..4] + s[4..];
  }

  lemma CutFrame(data: Payload, k: nat)
    requires |data| <= MAX_MESSAGE_SIZE && k < |Frame(data)|
    ensures Receive(Frame(data)[..k]) ==
              (if k < 4 then HeaderError(Cut(Frame(data)[..k]))
               else PayloadError(if k == 4 then EOF else UnexpectedEOF), [])
  {
    var s := Frame(data)[..k];
    NumberOfBigEndian(|data|);
    if k >= 4 {
      assert s[..4] == BigEndian(|data|);
    }
  }

  /** What a receiver that saw the first k bytes of these frames may have made of them. */
  predicate PrefixReceived(list: seq<Payload>, k: nat, got: seq<Payload>, end: Message)
    requires Fits(list)
  {
    && got <= list && |Frames(got)| <= k
    && (|got| < |list| ==> k < |Frames(list[..|got| + 1])|)
    && (end == HeaderError(EOF) <==> k == |Frames(got)|)
  }

  /** A connection cut at any byte delivers exactly the messages that were complete by then, and
      the error tells whether the cut fell between two frames. */
  lemma {:induction false} CutStreamDeliversPrefix(list: seq<Payload>, k: nat)
    requires Fits(list) && k <= |Frames(list)|
    ensures var r := ReceiveAll(Frames(list)[..k]); PrefixReceived(list, k, r.0, r.1)
  {
    if list == [] {
      assert Frames(list)[..k] == [];
    } else if k < |Frame(list[0])| {
      CutInFirst(list, k);
    } else {
      var k' := k - |Frame(list[0])|;
      CutStreamDeliversPrefix(list[1..], k');
      ReceivedFirst(list, k);
      var r := ReceiveAll(Frames(list[1..])[..k']);
      OneMoreReceived(list[0], list[1..], k', r.0, r.1);
      assert list == [list[0]] + list[1..];
    }
  }

  lemma CutInFirst(list: seq<Payload>, k: nat)
    requires Fits(list) && list != [] && k < |Frame(list[0])|
    ensures var r := ReceiveAll(Frames(list)[..k]); PrefixReceived(list, k, r.0, r.1)
  {
    CutFrame(list[0], k);
    assert Frames(list)[..k] == Frame(list[0])[..k];
    FramesOfCons(list[0], []);
    assert list[..1] == [list[0]] + [];
  }

  lemma ReceivedFirst(list: seq<Payload>, k: nat)
    requires Fits(list) && list != [] && |Frame(list[0])| <= k <= |Frames(list)|
    ensures var rest := Frames(list[1..])[..k - |Frame(list[0])|];
            Receive(Frames(list)[..k]) == (Message(list[0]), rest)
  {
    var first, rest := Frame(list[0]), Frames(list[1..]);
    assert Frames(list)[..k] == first + rest[..k - |first|];
    FrameRoundTrip(list[0], rest[..k - |first|]);
  }

  lemma OneMoreReceived(data: Payload, list: seq<Payload>, k: nat, got: seq<Payload>, end: Message)
    requires |data| <= MAX_MESSAGE_SIZE && Fits(list) && PrefixReceived(list, k, got, end)
    ensures Fits([data] + list) && PrefixReceived([data] + list, |Frame(data)| + k, [data] + got, end)
  {
    FramesOfCons(data, list);
    FramesOfCons(data, got);
    if |got| < |list| {
      FramesOfCons(data, list[..|got| + 1]);
      assert ([data] + list)[..|got| + 2] == [data] + list[..|got| + 1];
    }
  }

  lemma FramesOfCons(data: Payload, list: seq<Payload>)
    requires |data| <= MAX_MESSAGE_SIZE && Fits(list)
    ensures Fits([data] + list) && Frames([data] + list) == Frame(data) + Frames(list)
  {
    assert ([data] + list)[1..] == list;
  }
}
