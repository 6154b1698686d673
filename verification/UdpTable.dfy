/** Where replies on a UDP tunnel go: the address tables of HandlePackets
    (internal/server/udp_manager.go). */
module UdpTable {
  import opened Arithmetic
  import opened Streams
  import opened Wrappers

  type Time = int

  const STALE_AFTER: Time := 60

  /** A remote address as Go holds it; an IPv4 address has 4 bytes or its 16-byte form. The hash
      leaves out the zone of an IPv6 address. */
  datatype Addr = Addr(ip: seq<Byte>, port: int, zone: string)

  // ------------------------------------------------------------------ keys and hashes

  const TEN_ZEROS: seq<Byte> := [0, 0, 0, 0, 0, 0, 0, 0, 0, 0]
  const MAPPED_PREFIX: seq<Byte> := TEN_ZEROS + [255] + [255]

  predicate IsMapped(ip: seq<Byte>) {
    |ip| == 16 && ip[..12] == MAPPED_PREFIX
  }

  /** addr.String() tells addresses apart, but not the two forms of an IPv4 address. */
  function KeyOf(addr: Addr): Addr {
    if IsMapped(addr.ip) then addr.(ip := addr.ip[12..]) else addr
  }

  const WRAP := 0x1_0000_0000

  function Mix(hash: int, b: int): int {
    (hash * 31 + b) % WRAP
  }

  function HashBytes(bytes: seq<Byte>): int {
    if bytes == [] then 0 else Mix(HashBytes(bytes[..|bytes| - 1]), bytes[|bytes| - 1])
  }

  function Hash(addr: Addr): int {
    Mix(HashBytes(addr.ip), addr.port)
  }

  function Power(n: nat): int {
    if n == 0 then 1 else 31 * Power(n - 1)
  }

  /** The bytes as coefficients: bytes[0] * 31^n + ... + bytes[n-1] * 31. */
  function Polynomial(bytes: seq<Byte>): int {
    if bytes == [] then 0 else bytes[0] * Power(|bytes|) + Polynomial(bytes[1..])
  }

  method HashAddr(addr: Addr) returns (hash: int)
    ensures hash == Hash(addr) == (Polynomial(addr.ip) + addr.port) % 0x1_0000_0000
  {
    HashIsPolynomial(addr);
    hash := 0;
    for i := 0 to |addr.ip|
      invariant hash == HashBytes(addr.ip[..i])
    {
      assert addr.ip[..i + 1][..i] == addr.ip[..i];
      hash := Mix(hash, addr.ip[i]);
    }
    assert addr.ip[..|addr.ip|] == addr.ip;
    hash := Mix(hash, addr.port);
  }

  lemma {:induction false} PolynomialOfLonger(bytes: seq<Byte>, b: Byte)
    ensures Polynomial(bytes + [b]) == (Polynomial(bytes) + b) * 31
  {
    if bytes == [] {
      assert Polynomial([b]) == b * Power(1) + Polynomial([]);
    } else {
      PolynomialOfLonger(bytes[1..], b);
      assert (bytes + [b])[1..] == bytes[1..] + [b];
      assert bytes[0] * Power(|bytes| + 1) == bytes[0] * Power(|bytes|) * 31;
    }
  }

  lemma {:induction false} BytesArePolynomial(bytes: seq<Byte>)
    ensures (HashBytes(bytes) * 31) % WRAP == Polynomial(bytes) % WRAP
  {
    if bytes != [] {
      var rest, b := bytes[..|bytes| - 1], bytes[|bytes| - 1];
      BytesArePolynomial(rest);
      PolynomialOfLonger(rest, b);
      assert bytes == rest + [b];
      var x, y := HashBytes(rest) * 31, Polynomial(rest);
      SameRemainder((x + b) * 31, HashBytes(bytes) * 31, (x + b) / WRAP * 31, WRAP);
      SameRemainder((x + b) * 31, (y + b) * 31, (x / WRAP - y / WRAP) * 31, WRAP);
    }
  }

  /** The hash is the polynomial of the address's bytes, plus the port, in 32 bits. */
  lemma HashIsPolynomial(addr: Addr)
    ensures Hash(addr) == (Polynomial(addr.ip) + addr.port) % 0x1_0000_0000
  {
    BytesArePolynomial(addr.ip);
    var x, y := HashBytes(addr.ip) * 31, Polynomial(addr.ip);
    SameRemainder(x + addr.port, y + addr.port, x / WRAP - y / WRAP, WRAP);
  }

  /** So the hash tells the ports of one IP address apart. */
  lemma PortsDiffer(a: Addr, b: Addr)
    requires a.ip == b.ip && 0 <= a.port < 65536 && 0 <= b.port < 65536
    ensures Hash(a) == Hash(b) <==> a.port == b.port
  {
    HashIsPolynomial(a);
    HashIsPolynomial(b);
    var x := Polynomial(a.ip);
    if Hash(a) == Hash(b) {
      var k := (x + a.port) / WRAP - (x + b.port) / WRAP;
      assert a.port - b.port == k * WRAP;
    }
  }

  // -------------------------------------------------------------------------- tables

  datatype Event = Packet(addr: Addr, now: Time) | Evict(now: Time)

  datatype Table = Table(addrs: map<Addr, Addr>, keys: map<int, Addr>, seen: map<Addr, Time>)

  const EMPTY := Table(map[], map[], map[])

  function Received(t: Table, addr: Addr, now: Time): Table {
    var key := KeyOf(addr);
    Table(t.addrs[key := addr], t.keys[Hash(addr) := key], t.seen[key := now])
  }

  function Evicted(t: Table, now: Time): Table {
    var stale := set key | key in t.seen && now - t.seen[key] > STALE_AFTER;
    t.(addrs := t.addrs - stale, seen := t.seen - stale)
  }

  function After(events: seq<Event>): Table {
    if events == [] then EMPTY
    else
      var t := After(events[..|events| - 1]);
      match events[|events| - 1]
      case Packet(addr, now) => Received(t, addr, now)
      case Evict(now) => Evicted(t, now)
  }

  /** The address a reply with this hash is sent to; None drops it. */
  function Reply(t: Table, hash: int): Option<Addr> {
    if hash in t.keys && t.keys[hash] in t.addrs then Some(t.addrs[t.keys[hash]]) else None
  }

  lemma MinusOneMore<K, V>(m: map<K, V>, s: set<K>, todo: set<K>, k: K)
    requires k in todo && k in s
    ensures m - (s - todo) - {k} == m - (s - (todo - {k}))
  {
    assert s - (todo - {k}) == s - todo + {k};
  }

  class ReplyTable {
    var clientAddrs: map<Addr, Addr>
    var hashToKey: map<int, Addr>
    var clientLastSeen: map<Addr, Time>
    ghost var events: seq<Event>

    ghost predicate Valid()
      reads this
    {
      Table(clientAddrs, hashToKey, clientLastSeen) == After(events)
    }

    constructor ()
      ensures Valid() && events == []
    {
      clientAddrs, hashToKey, clientLastSeen, events := map[], map[], map[], [];
    }

    method Receive(addr: Addr, now: Time)
      requires Valid()
      modifies this
      ensures Valid() && events == old(events) + [Packet(addr, now)]
    {
      var key := KeyOf(addr);
      var hash := HashAddr(addr);
      clientAddrs := clientAddrs[key := addr];
      hashToKey := hashToKey[hash := key];
      clientLastSeen := clientLastSeen[key := now];
      events := events + [Packet(addr, now)];
      assert events[..|events| - 1] == old(events);
    }

    method EvictStale(now: Time)
      requires Valid()
      modifies this
      ensures Valid() && events == old(events) + [Evict(now)]
    {
      var todo := clientLastSeen.Keys;
      ghost var stale := set key | key in clientLastSeen && now - clientLastSeen[key] > STALE_AFTER;
      while todo != {}
        invariant clientAddrs == old(clientAddrs) - (stale - todo)
        invariant clientLastSeen == old(clientLastSeen) - (stale - todo)
        invariant todo <= clientLastSeen.Keys
        invariant hashToKey == old(hashToKey) && events == old(events)
        decreases todo
      {
        var key :| key in todo;
        assert clientLastSeen[key] == old(clientLastSeen[key]);
        if now - clientLastSeen[key] > STALE_AFTER {
          MinusOneMore(old(clientAddrs), stale, todo, key);
          MinusOneMore(old(clientLastSeen), stale, todo, key);
          clientAddrs := clientAddrs - {key};
          clientLastSeen := clientLastSeen - {key};
        } else {
          assert stale - (todo - {key}) == stale - todo;
        }
        todo := todo - {key};
      }
      assert stale - {} == stale;
      events := events + [Evict(now)];
      assert events[..|events| - 1] == old(events);
    }

    method Lookup(hash: int) returns (addr: Option<Addr>)
      requires Valid()
      ensures addr == Reply(After(events), hash)
    {
      if hash !in hashToKey {
        return None;
      }
      var key := hashToKey[hash];
      return if key in clientAddrs then Some(clientAddrs[key]) else None;
    }
  }

  // -------------------------------------------------------------- replies from history

  /** The most recent packet with the hash, or -1. */
  function LastWithHash(events: seq<Event>, hash: int): (i: int)
    ensures -1 <= i < |events|
    ensures i >= 0 ==> events[i].Packet? && Hash(events[i].addr) == hash
    ensures forall k :: i < k < |events| && events[k].Packet? ==> Hash(events[k].addr) != hash
  {
    if events == [] then -1
    else
      var last := events[|events| - 1];
      if last.Packet? && Hash(last.addr) == hash then |events| - 1 else LastWithHash(events[..|events| - 1], hash)
  }

  /** The most recent packet from the key's address, or -1. */
  function LastWithKey(events: seq<Event>, key: Addr): (i: int)
    ensures -1 <= i < |events|
    ensures i >= 0 ==> events[i].Packet? && KeyOf(events[i].addr) == key
    ensures forall k :: i < k < |events| && events[k].Packet? ==> KeyOf(events[k].addr) != key
  {
    if events == [] then -1
    else
      var last := events[|events| - 1];
      if last.Packet? && KeyOf(last.addr) == key then |events| - 1 else LastWithKey(events[..|events| - 1], key)
  }

  /** No later eviction found packet i too old. */
  predicate Fresh(events: seq<Event>, i: int)
    requires 0 <= i < |events| && events[i].Packet?
  {
    forall k :: i < k < |events| && events[k].Evict? ==> events[k].now - events[i].now <= 60
  }

  lemma {:induction false} KeyStays(events: seq<Event>, key: Addr)
    ensures var t, i := After(events), LastWithKey(events, key);
            && (key in t.seen <==> i >= 0 && Fresh(events, i))
            && (key in t.addrs <==> key in t.seen)
            && (key in t.seen ==> t.seen[key] == events[i].now && t.addrs[key] == events[i].addr)
  {
    if events != [] {
      var before := events[..|events| - 1];
      KeyStays(before, key);
      var i := LastWithKey(before, key);
      if i >= 0 {
        assert Fresh(events, i) <==>
                 Fresh(before, i)
                   && (events[|events| - 1].Evict? ==> events[|events| - 1].now - events[i].now <= STALE_AFTER);
      }
    }
  }

  lemma {:induction false} HashStays(events: seq<Event>, hash: int)
    ensures var t, i := After(events), LastWithHash(events, hash);
            && (hash in t.keys <==> i >= 0)
            && (i >= 0 ==> t.keys[hash] == KeyOf(events[i].addr))
  {
    if events != [] {
      HashStays(events[..|events| - 1], hash);
    }
  }

  /** The two tables that eviction works on always have the same keys. */
  lemma {:induction false} TablesHaveSameKeys(events: seq<Event>)
    ensures After(events).addrs.Keys == After(events).seen.Keys
  {
    forall key ensures key in After(events).addrs <==> key in After(events).seen {
      KeyStays(events, key);
    }
  }

  /** Exactly when, and exactly where to, a reply is delivered: the hash names the sender of the
      most recent packet with it; the reply goes to that sender's latest address unless an
      eviction since found the sender silent for over a minute. */
  lemma ReplyGoesToLatest(events: seq<Event>, hash: int)
    ensures var i := LastWithHash(events, hash);
            Reply(After(events), hash) ==
              if i < 0 then None
              else
                var j := LastWithKey(events, KeyOf(events[i].addr));
                if j >= 0 && Fresh(events, j) then Some(events[j].addr) else None
  {
    var i := LastWithHash(events, hash);
    HashStays(events, hash);
    if i >= 0 {
      KeyStays(events, KeyOf(events[i].addr));
    }
  }

  /** Every sender keeps to one form of its address. */
  ghost predicate OneForm(events: seq<Event>) {
    forall i, j | 0 <= i < |events| && 0 <= j < |events| && events[i].Packet? && events[j].Packet? ::
      KeyOf(events[i].addr) == KeyOf(events[j].addr) ==> events[i].addr == events[j].addr
  }

  /** Then a reply is dropped or goes to the address of the most recent packet with its hash, and
      that address really has the hash. */
  lemma ReplyGoesToItsHash(events: seq<Event>, hash: int)
    requires OneForm(events)
    ensures var r, i := Reply(After(events), hash), LastWithHash(events, hash);
            r.Some? ==> i >= 0 && r.value == events[i].addr && Hash(r.value) == hash
  {
    ReplyGoesToLatest(events, hash);
  }

  /** A socket reports all its senders in addresses of one length: 4 bytes or 16. */
  predicate FromOneSocket(events: seq<Event>, length: nat) {
    forall i :: 0 <= i < |events| && events[i].Packet? ==> |events[i].addr.ip| == length
  }

  lemma SameLengthIsOneForm(events: seq<Event>, length: nat)
    requires FromOneSocket(events, length)
    ensures OneForm(events)
  {
    forall i, j | 0 <= i < |events| && 0 <= j < |events| && events[i].Packet? && events[j].Packet?
                  && KeyOf(events[i].addr) == KeyOf(events[j].addr)
      ensures events[i].addr == events[j].addr
    {
      var a, b := events[i].addr, events[j].addr;
      assert IsMapped(a.ip) <==> IsMapped(b.ip);
      if IsMapped(a.ip) {
        assert a.ip == MAPPED_PREFIX + a.ip[12..] && b.ip == MAPPED_PREFIX + b.ip[12..];
      }
    }
  }

  /** So on a tunnel, which has one socket, a reply is delivered exactly when some packet had its hash
      and no eviction since the last packet of that sender found it silent for over a minute; and it
      goes to the sender of the most recent packet with the hash. */
  lemma TunnelReply(events: seq<Event>, length: nat, hash: int)
    requires FromOneSocket(events, length)
    ensures var i := LastWithHash(events, hash);
            Reply(After(events), hash) ==
              if i >= 0 && Fresh(events, LastWithKey(events, KeyOf(events[i].addr))) then Some(events[i].addr) else None
    ensures Reply(After(events), hash).Some? ==> Hash(Reply(After(events), hash).value) == hash
  {
    SameLengthIsOneForm(events, length);
    ReplyGoesToLatest(events, hash);
    var i := LastWithHash(events, hash);
    if i >= 0 {
      assert LastWithKey(events, KeyOf(events[i].addr)) >= i;
    }
  }

  /** Two senders behind one IP address never take each other's replies. */
  lemma NeighboursKeepTheirReplies(events: seq<Event>, length: nat, a: Addr, b: Addr)
    requires FromOneSocket(events, length)
    requires a.ip == b.ip && a.port != b.port && 0 <= a.port < 65536 && 0 <= b.port < 65536
    ensures Reply(After(events), Hash(a)) != Some(b)
  {
    PortsDiffer(a, b);
    TunnelReply(events, length, Hash(a));
  }

  function Packets(events: seq<Event>): seq<Event> {
    if events == [] then []
    else Packets(events[..|events| - 1]) + if events[|events| - 1].Packet? then [events[|events| - 1]] else []
  }

  /** t is u with some senders forgotten. */
  ghost predicate Forgets(t: Table, u: Table) {
    t.keys == u.keys && forall key :: key in t.addrs ==> key in u.addrs && t.addrs[key] == u.addrs[key]
  }

  lemma AfterPacket(events: seq<Event>, addr: Addr, now: Time)
    ensures After(events + [Packet(addr, now)]) == Received(After(events), addr, now)
  {
    assert (events + [Packet(addr, now)])[..|events|] == events;
  }

  lemma {:induction false} EvictionForgets(events: seq<Event>)
    ensures Forgets(After(events), After(Packets(events)))
  {
    if events != [] {
      EvictionForgets(events[..|events| - 1]);
      var last := events[|events| - 1];
      if last.Packet? {
        AfterPacket(Packets(events[..|events| - 1]), last.addr, last.now);
      } else {
        assert Packets(events) == Packets(events[..|events| - 1]);
      }
    }
  }

  /** Evictions at any times only turn deliveries into drops: they never change where a reply goes. */
  lemma EvictionOnlyDrops(events: seq<Event>, hash: int)
    ensures var r := Reply(After(events), hash);
            r.None? || r == Reply(After(Packets(events)), hash)
  {
    EvictionForgets(events);
  }

  // ------------------------------------------------- why one form of address matters

  lemma MixShift(g: int, h: int, d: int, b: int)
    requires g % WRAP == (h + d) % WRAP
    ensures Mix(g, b) == (Mix(h, b) + d * 31) % WRAP
  {
    var k, l := g / WRAP - (h + d) / WRAP, (h * 31 + b) / WRAP;
    assert g == h + d + k * WRAP;
    SameRemainder(g * 31 + b, (h + d) * 31 + b, 31 * k, WRAP);
    SameRemainder((h + d) * 31 + b, Mix(h, b) + d * 31, l, WRAP);
  }

  lemma HashOfLonger(bytes: seq<Byte>, b: Byte)
    ensures HashBytes(bytes + [b]) == Mix(HashBytes(bytes), b)
  {
    assert (bytes + [b])[..|bytes|] == bytes;
  }

  lemma {:induction false} HashOfZeros(bytes: seq<Byte>)
    requires forall i :: 0 <= i < |bytes| ==> bytes[i] == 0
    ensures HashBytes(bytes) == 0
  {
    if bytes != [] { HashOfZeros(bytes[..|bytes| - 1]); }
  }

  lemma HashOfPrefix()
    ensures HashBytes(MAPPED_PREFIX) == 8160
  {
    HashOfZeros(TEN_ZEROS);
    HashOfLonger(TEN_ZEROS, 255);
    HashOfLonger(TEN_ZEROS + [255], 255);
  }

  /** What stands before an address shifts its hash by a constant. */
  lemma {:induction false} HashOfMapped(ip: seq<Byte>)
    ensures HashBytes(MAPPED_PREFIX + ip) % WRAP == (HashBytes(ip) + 8160 * Power(|ip|)) % WRAP
  {
    if ip == [] {
      HashOfPrefix();
      assert MAPPED_PREFIX + ip == MAPPED_PREFIX;
    } else {
      var rest, b := ip[..|ip| - 1], ip[|ip| - 1];
      HashOfMapped(rest);
      assert MAPPED_PREFIX + ip == (MAPPED_PREFIX + rest) + [b];
      HashOfLonger(MAPPED_PREFIX + rest, b);
      MixShift(HashBytes(MAPPED_PREFIX + rest), HashBytes(rest), 8160 * Power(|rest|), b);
    }
  }

  lemma ShiftOfMapped()
    ensures 8160 * Power(4) * 31 == 1685638176 + 54 * WRAP
  {
    assert Power(4) == 31 * (31 * (31 * (31 * Power(0))));
  }

  /** The 16-byte form of every IPv4 address has another hash than its 4-byte form, and the same key:
      were both to come, a reply to the one would go to the other. No one socket sends both. */
  lemma MixedFormsMissTheHash(a: Addr, now: Time)
    requires |a.ip| == 4
    ensures var b := a.(ip := MAPPED_PREFIX + a.ip);
            && KeyOf(b) == KeyOf(a) && Hash(b) != Hash(a)
            && Reply(After([Packet(a, now), Packet(b, now)]), Hash(a)) == Some(b)
            && forall length :: !FromOneSocket([Packet(a, now), Packet(b, now)], length)
  {
    var b := a.(ip := MAPPED_PREFIX + a.ip);
    var events := [Packet(a, now), Packet(b, now)];
    HashOfMapped(a.ip);
    MixShift(HashBytes(b.ip), HashBytes(a.ip), 8160 * Power(4), a.port);
    ShiftOfMapped();
    SameRemainder(Hash(a) + 8160 * Power(4) * 31, Hash(a) + 1685638176, 54, WRAP);
    assert Hash(b) == (Hash(a) + 1685638176) % WRAP;
    assert b.ip[12..] == a.ip && KeyOf(b) == a;
    assert events[..1] == [Packet(a, now)];
    ReplyGoesToLatest(events, Hash(a));
    assert LastWithHash(events, Hash(a)) == 0;
    assert LastWithKey(events, a) == 1;
    assert events[0].Packet? && events[1].Packet? && |events[1].addr.ip| == 16;
  }
}
