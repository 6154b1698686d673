/** Byte streams as Go's io package gives them: a reader hands out what is left in chunks of its
    own choosing, a writer may stop early. */
module Streams {

  type Byte = b: int | 0 <= b < 256

  datatype ReadResult = Full | EOF | UnexpectedEOF

  class Reader {
    var pending: seq<Byte>

    constructor (bytes: seq<Byte>)
      ensures pending == bytes
    {
      pending := bytes;
    }

    /** Some nonempty chunk, unless the stream has ended. */
    method Read(limit: nat) returns (chunk: seq<Byte>)
      requires limit > 0
      modifies this
      ensures old(pending) == chunk + pending && |chunk| <= limit
      ensures chunk == [] <==> old(pending) == []
    {
      if pending == [] {
        return [];
      }
      var n: nat :| 1 <= n <= limit && n <= |pending|;
      chunk, pending := pending[..n], pending[n..];
    }
  }

  class Writer {
    var written: seq<Byte>
    var room: nat                       // how many more bytes get through before the connection fails

    constructor (room: nat)
      ensures written == [] && this.room == room
    {
      this.written, this.room := [], room;
    }

    /** Everything, or only the part that still gets through. */
    method Write(bytes: seq<Byte>) returns (ok: bool)
      modifies this
      ensures ok <==> |bytes| <= old(room)
      ensures written == old(written) + (if ok then bytes else bytes[..old(room)])
      ensures room == if ok then old(room) - |bytes| else 0
    {
      ok := |bytes| <= room;
      written := written + if ok then bytes else bytes[..room];
      room := if ok then room - |bytes| else 0;
    }
  }

  /** io.ReadFull: the outcome does not depend on how the reader cuts the stream. */
  method ReadFull(r: Reader, buf: array<Byte>) returns (result: ReadResult)
    modifies r, buf
    ensures |old(r.pending)| >= buf.Length ==>
              result == Full && buf[..] == old(r.pending)[..buf.Length] && r.pending == old(r.pending)[buf.Length..]
    ensures |old(r.pending)| < buf.Length ==>
              r.pending == [] && result == if old(r.pending) == [] then EOF else UnexpectedEOF
  {
    var n := 0;
    while n < buf.Length
      invariant 0 <= n <= buf.Length
      invariant old(r.pending) == buf[..n] + r.pending
      decreases buf.Length - n
    {
      var chunk := r.Read(buf.Length - n);
      if chunk == [] {
        return if n > 0 then UnexpectedEOF else EOF;
      }
      Copy(buf, n, chunk);
      n := n + |chunk|;
    }
    return Full;
  }

  /** Go's copy(buf[at:], bytes). */
  method Copy(buf: array<Byte>, at: nat, bytes: seq<Byte>)
    requires at + |bytes| <= buf.Length
    modifies buf
    ensures buf[..at + |bytes|] == old(buf[..at]) + bytes
    ensures buf[at + |bytes|..] == old(buf[at + |bytes|..])
  {
    forall i | 0 <= i < |bytes| {
      buf[at + i] := bytes[i];
    }
  }

  // ------------------------------------------------------------ big-endian numbers

  function BigEndian(n: int): (r: seq<Byte>)
    requires 0 <= n < 0x1_0000_0000
    ensures |r| == 4
  {
    var high := n / 0x100;
    var higher := high / 0x100;
    [higher / 0x100, higher % 0x100, high % 0x100, n % 0x100]
  }

  function Number(bytes: seq<Byte>): (n: int)
    requires |bytes| == 4
    ensures 0 <= n < 0x1_0000_0000
  {
    var a: int, b: int, c: int, d: int := bytes[0], bytes[1], bytes[2], bytes[3];
    ((a * 0x100 + b) * 0x100 + c) * 0x100 + d
  }

  lemma NumberOfBigEndian(n: int)
    requires 0 <= n < 0x1_0000_0000
    ensures Number(BigEndian(n)) == n
  {
  }

  lemma BigEndianOfNumber(bytes: seq<Byte>)
    requires |bytes| == 4
    ensures BigEndian(Number(bytes)) == bytes
  {
    var a: int, b: int, c: int, d: int := bytes[0], bytes[1], bytes[2], bytes[3];
    var high := (a * 0x100 + b) * 0x100 + c;
    assert Number(bytes) / 0x100 == high && Number(bytes) % 0x100 == d;
    assert high / 0x100 == a * 0x100 + b && high % 0x100 == c;
  }
}
