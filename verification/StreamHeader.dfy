/** The header at the start of a data stream: two strings, each after one byte of length
    (internal/protocol/stream_header.go). */
module StreamHeader {
  import opened Streams

  type Text = seq<Byte>

  datatype Header = Header(tunnelId: Text, remoteAddr: Text)

  datatype Outcome = Ok(header: Header) | Broken

  predicate Short(h: Header) {
    |h.tunnelId| <= 255 && |h.remoteAddr| <= 255
  }

  function Encoded(h: Header): seq<Byte>
    requires Short(h)
  {
    [|h.tunnelId|] + h.tunnelId + [|h.remoteAddr|] + h.remoteAddr
  }

  datatype FieldResult = Found(text: Text) | Missing

  /** One string off the front of a stream. */
  function Field(s: seq<Byte>): (FieldResult, seq<Byte>) {
    if s == [] || |s| - 1 < s[0] then (Missing, []) else (Found(s[1..1 + s[0]]), s[1 + s[0]..])
  }

  function Decoded(s: seq<Byte>): (Outcome, seq<Byte>) {
    var (t, more) := Field(s);
    var (r, rest) := Field(more);
    if t.Found? && r.Found? then (Ok(Header(t.text, r.text)), rest) else (Broken, [])
  }

  datatype Write = Written | TunnelIdTooLong | RemoteAddrTooLong | Failed

  method WriteStreamHeader(w: Writer, h: Header) returns (result: Write)
    modifies w
    ensures result == TunnelIdTooLong <==> |h.tunnelId| > 255
    ensures result == RemoteAddrTooLong <==> |h.tunnelId| <= 255 < |h.remoteAddr|
    ensures result == Written <==> Short(h) && 2 + |h.tunnelId| + |h.remoteAddr| <= old(w.room)
    ensures !Short(h) ==> w.written == old(w.written)
    ensures result == Written ==> w.written == old(w.written) + Encoded(h)
    ensures result == Failed ==> w.written == old(w.written) + Encoded(h)[..old(w.room)]
  {
    var tidLen, raLen := |h.tunnelId|, |h.remoteAddr|;
    if tidLen > 255 {
      return TunnelIdTooLong;
    }
    if raLen > 255 {
      return RemoteAddrTooLong;
    }
    var buf := new Byte[1 + tidLen + 1 + raLen];
    buf[0] := tidLen;
    Copy(buf, 1, h.tunnelId);
    assert buf[..1 + tidLen] == [tidLen] + h.tunnelId;
    buf[1 + tidLen] := raLen;
    assert buf[..2 + tidLen] == [tidLen] + h.tunnelId + [raLen];
    Copy(buf, 2 + tidLen, h.remoteAddr);
    assert buf[..] == Encoded(h);
    var ok := w.Write(buf[..]);
    return if ok then Written else Failed;
  }

  method ReadField(r: Reader) returns (field: FieldResult)
    modifies r
    ensures (field, r.pending) == Field(old(r.pending))
  {
    var lenBuf := new Byte[1];
    var result := ReadFull(r, lenBuf);
    if !result.Full? {
      return Missing;
    }
    assert lenBuf[..][0] == old(r.pending)[0];
    var text := new Byte[lenBuf[0]];
    if lenBuf[0] > 0 {
      result := ReadFull(r, text);
      if !result.Full? {
        return Missing;
      }
    }
    assert text[..] == old(r.pending)[1..1 + lenBuf[0]];
    return Found(text[..]);
  }

  method ReadStreamHeader(r: Reader) returns (outcome: Outcome)
    modifies r
    ensures (outcome, r.pending) == Decoded(old(r.pending))
  {
    var tid := ReadField(r);
    if tid.Missing? {
      return Broken;
    }
    var ra := ReadField(r);
    if ra.Missing? {
      return Broken;
    }
    return Ok(Header(tid.text, ra.text));
  }

  /** Each text comes after one byte of its length. */
  lemma EncodedLayout(h: Header)
    requires Short(h)
    ensures var e, n := Encoded(h), |h.tunnelId|;
            && |e| == 2 + n + |h.remoteAddr|
            && e[0] == n && e[1..1 + n] == h.tunnelId && e[1 + n] == |h.remoteAddr| && e[2 + n..] == h.remoteAddr
  {
  }

  lemma FieldRoundTrip(text: Text, rest: seq<Byte>)
    requires |text| <= 255
    ensures Field([|text|] + text + rest) == (Found(text), rest)
  {
    var s := [|text|] + text + rest;
    assert s[1..1 + |text|] == text && s[1 + |text|..] == rest;
  }

  /** A header is read back whole and leaves exactly what follows it. */
  lemma HeaderRoundTrip(h: Header, rest: seq<Byte>)
    requires Short(h)
    ensures Decoded(Encoded(h) + rest) == (Ok(h), rest)
  {
    var tail := [|h.remoteAddr|] + h.remoteAddr + rest;
    assert Encoded(h) + rest == [|h.tunnelId|] + h.tunnelId + tail;
    FieldRoundTrip(h.tunnelId, tail);
    FieldRoundTrip(h.remoteAddr, rest);
  }

  /** So no encoding is a prefix of another one. */
  lemma NoProperPrefix(g: Header, h: Header)
    requires Short(g) && Short(h) && Encoded(g) <= Encoded(h)
    ensures g == h
  {
    var rest := Encoded(h)[|Encoded(g)|..];
    assert Encoded(h) == Encoded(g) + rest == Encoded(h) + [];
    HeaderRoundTrip(g, rest);
    HeaderRoundTrip(h, []);
  }

  /** Whatever is accepted was an encoding: every header read is one that can be written. */
  lemma DecodedWasEncoded(s: seq<Byte>)
    requires Decoded(s).0.Ok?
    ensures var (o, rest) := Decoded(s); Short(o.header) && s == Encoded(o.header) + rest
  {
    var (t, more) := Field(s);
    assert s == [s[0]] + s[1..1 + s[0]] + more;
    var (r, rest) := Field(more);
    assert more == [more[0]] + more[1..1 + more[0]] + rest;
  }

  /** A stream cut inside a header is an error, never a shorter header. */
  lemma CutHeaderIsBroken(h: Header, k: nat)
    requires Short(h) && k < |Encoded(h)|
    ensures Decoded(Encoded(h)[..k]).0.Broken?
  {
    var s := Encoded(h)[..k];
    assert k > 0 ==> s[0] == |h.tunnelId|;
    assert k > 1 + |h.tunnelId| ==> s[1 + |h.tunnelId|] == |h.remoteAddr|;
  }
}
