/** The wire format of a heartbeat: fixed-width integers, the attached flag packed
    into the type word, a counted list of peers each with a counted list of timings,
    and a counted run of attribute bytes. */
module HeartbeatWire {
  import opened Tables

  type Byte = n: nat | n < 0x100
  type U16 = n: nat | n < 0x1_0000
  type U32 = n: nat | n < 0x1_0000_0000
  type U64 = n: nat | n < 0x1_0000_0000_0000_0000

  const TYPE_CODE: U32 := 2053597282
  const ATTACHED_BIT: nat := 0x8000
  const HEADER_SIZE: nat := 50
  const TIMING_SIZE: nat := 12
  const PEER_ID_SIZE: nat := 16
  const COUNT_SIZE: nat := 4

  datatype PeerID = PeerID(high: U64, low: U64)

  datatype Timing = Timing(tag: U16, packetId: U32, dwell: U32)

  type Timings = s: seq<Timing> | |s| < 0x1_0000_0000

  datatype PeerInfo = PeerInfo(id: PeerID, timings: Timings)

  /** A heartbeat packet's serialised fields. */
  datatype Packet = Packet(
    packetId: U32,
    version: U32,
    systemKey: U64,
    port: U16,
    uptime: U32,
    source: PeerID,
    peerType: U16,
    attached: bool,
    peers: seq<PeerInfo>,
    attributes: Option<seq<Byte>>)

  datatype Parsed<T> = Parsed(value: T, rest: seq<Byte>) | Bad

  // ----- Integers -----

  function Power(k: nat): (r: nat)
    ensures r > 0
  {
    if k == 0 then 1 else 0x100 * Power(k - 1)
  }

  /** The low `k` bytes of an integer, lowest first, in front of `rest`. */
  function Put(v: nat, k: nat, rest: seq<Byte>): (r: seq<Byte>)
    ensures |r| == k + |rest|
  {
    if k == 0 then rest else [v % 0x100] + Put(v / 0x100, k - 1, rest)
  }

  function Take(bytes: seq<Byte>, k: nat): (r: (nat, seq<Byte>))
    requires k <= |bytes|
    ensures |r.1| == |bytes| - k
  {
    if k == 0 then (0, bytes)
    else
      var (v, rest) := Take(bytes[1..], k - 1);
      (bytes[0] + 0x100 * v, rest)
  }

  lemma ModSplit(v: nat, p: nat)
    requires p > 0
    ensures v % 0x100 + 0x100 * ((v / 0x100) % p) == v % (0x100 * p)
  {
    var m, w := v % 0x100, v / 0x100;
    var r, q := w % p, w / p;
    assert w == p * q + r;
    assert v == (0x100 * p) * q + (0x100 * r + m);
    ModIs(v, 0x100 * p, q, 0x100 * r + m);
  }

  lemma ModIs(v: nat, d: nat, q: nat, r: nat)
    requires d > 0 && v == d * q + r && r < d
    ensures v % d == r
  {
    var q', r' := v / d, v % d;
    assert v == d * q' + r';
    if q < q' {
      NextMultiple(d, q, q');
    } else if q' < q {
      NextMultiple(d, q', q);
    }
  }

  lemma NextMultiple(d: nat, a: nat, b: nat)
    requires a < b
    ensures d * a + d <= d * b
  {
    assert d * (a + 1) == d * a + d;
    assert d * b == d * (a + 1) + d * (b - a - 1);
  }

  /** An integer written in `k` bytes is read back modulo 256^k. */
  lemma {:induction false} TakePut(v: nat, k: nat, rest: seq<Byte>)
    ensures Take(Put(v, k, rest), k) == (v % Power(k), rest)
  {
    if k > 0 {
      TakePut(v / 0x100, k - 1, rest);
      ModSplit(v, Power(k - 1));
      assert Put(v, k, rest)[1..] == Put(v / 0x100, k - 1, rest);
    }
  }

  lemma Take2(v: nat, rest: seq<Byte>)
    ensures Take(Put(v, 2, rest), 2) == (v % 0x1_0000, rest)
  {
    TakePut(v, 2, rest);
    assert Power(2) == 0x100 * Power(1) && Power(1) == 0x100 * Power(0);
  }

  lemma Take4(v: nat, rest: seq<Byte>)
    ensures Take(Put(v, 4, rest), 4) == (v % 0x1_0000_0000, rest)
  {
    TakePut(v, 4, rest);
    assert Power(2) == 0x100 * Power(1) && Power(1) == 0x100 * Power(0);
    assert Power(4) == 0x100 * Power(3) && Power(3) == 0x100 * Power(2);
  }

  lemma Take8(v: nat, rest: seq<Byte>)
    ensures Take(Put(v, 8, rest), 8) == (v % 0x1_0000_0000_0000_0000, rest)
  {
    TakePut(v, 8, rest);
    assert Power(2) == 0x100 * Power(1) && Power(1) == 0x100 * Power(0);
    assert Power(4) == 0x100 * Power(3) && Power(3) == 0x100 * Power(2);
    assert Power(6) == 0x100 * Power(5) && Power(5) == 0x100 * Power(4);
    assert Power(8) == 0x100 * Power(7) && Power(7) == 0x100 * Power(6);
  }

  // ----- Timings -----

  function PutTiming(t: Timing, rest: seq<Byte>): (r: seq<Byte>)
    ensures |r| == TIMING_SIZE + |rest|
  {
    Put(t.tag, 2, Put(0, 2, Put(t.packetId, 4, Put(t.dwell, 4, rest))))
  }

  function TakeTiming(bytes: seq<Byte>): (r: (Timing, seq<Byte>))
    requires TIMING_SIZE <= |bytes|
    ensures |r.1| == |bytes| - TIMING_SIZE
  {
    var (tag, b) := Take(bytes, 2);
    var (_, c) := Take(b, 2);
    var (packetId, d) := Take(c, 4);
    var (dwell, e) := Take(d, 4);
    (Timing(tag % 0x1_0000, packetId % 0x1_0000_0000, dwell % 0x1_0000_0000), e)
  }

  lemma TimingRoundTrip(t: Timing, rest: seq<Byte>)
    ensures TakeTiming(PutTiming(t, rest)) == (t, rest)
  {
    hide Put, Take;
    Take4(t.dwell, rest);
    var c := Put(t.dwell, 4, rest);
    Take4(t.packetId, c);
    var b := Put(t.packetId, 4, c);
    Take2(0, b);
    Take2(t.tag, Put(0, 2, b));
  }

  function PutTimings(ts: seq<Timing>, rest: seq<Byte>): (r: seq<Byte>)
    ensures |r| == TIMING_SIZE * |ts| + |rest|
  {
    if ts == [] then rest else PutTiming(ts[0], PutTimings(ts[1..], rest))
  }

  function TakeTimings(bytes: seq<Byte>, n: nat): (r: (seq<Timing>, seq<Byte>))
    requires TIMING_SIZE * n <= |bytes|
    ensures |r.0| == n
    decreases n
  {
    if n == 0 then ([], bytes)
    else
      var (t, b) := TakeTiming(bytes);
      var (ts, c) := TakeTimings(b, n - 1);
      ([t] + ts, c)
  }

  lemma {:induction false} TimingsRoundTrip(ts: seq<Timing>, rest: seq<Byte>)
    ensures TakeTimings(PutTimings(ts, rest), |ts|) == (ts, rest)
  {
    if ts != [] {
      hide PutTiming, TakeTiming;
      TimingRoundTrip(ts[0], PutTimings(ts[1..], rest));
      TimingsRoundTrip(ts[1..], rest);
      assert ts == [ts[0]] + ts[1..];
    }
  }

  // ----- Peers -----

  function PutPeerID(id: PeerID, rest: seq<Byte>): (r: seq<Byte>)
    ensures |r| == PEER_ID_SIZE + |rest|
  {
    Put(id.high, 8, Put(id.low, 8, rest))
  }

  function TakePeerID(bytes: seq<Byte>): (r: (PeerID, seq<Byte>))
    requires PEER_ID_SIZE <= |bytes|
    ensures |r.1| == |bytes| - PEER_ID_SIZE
  {
    var (high, b) := Take(bytes, 8);
    var (low, c) := Take(b, 8);
    (PeerID(high % 0x1_0000_0000_0000_0000, low % 0x1_0000_0000_0000_0000), c)
  }

  lemma PeerIDRoundTrip(id: PeerID, rest: seq<Byte>)
    ensures TakePeerID(PutPeerID(id, rest)) == (id, rest)
  {
    hide Put, Take;
    Take8(id.low, rest);
    Take8(id.high, Put(id.low, 8, rest));
  }

  function PutPeer(p: PeerInfo, rest: seq<Byte>): (r: seq<Byte>)
    ensures |r| == PeerSize(p) + |rest|
  {
    PutPeerID(p.id, Put(|p.timings|, 4, PutTimings(p.timings, rest)))
  }

  function PeerSize(p: PeerInfo): nat {
    PEER_ID_SIZE + COUNT_SIZE + TIMING_SIZE * |p.timings|
  }

  /** A peer's entry, or Bad when the bytes run out before the timings it counts. */
  function TakePeer(bytes: seq<Byte>): Parsed<PeerInfo> {
    if |bytes| < PEER_ID_SIZE + COUNT_SIZE then Bad
    else
      var (id, b) := TakePeerID(bytes);
      var (n, c) := Take(b, COUNT_SIZE);
      if n >= 0x1_0000_0000 || |c| < TIMING_SIZE * n then Bad
      else
        var (timings, d) := TakeTimings(c, n);
        Parsed(PeerInfo(id, timings), d)
  }

  lemma PeerRoundTrip(p: PeerInfo, rest: seq<Byte>)
    ensures TakePeer(PutPeer(p, rest)) == Parsed(p, rest)
  {
    hide Put, Take, PutTimings, TakeTimings, PutPeerID, TakePeerID;
    var c := PutTimings(p.timings, rest);
    PeerIDRoundTrip(p.id, Put(|p.timings|, 4, c));
    Take4(|p.timings|, c);
    TimingsRoundTrip(p.timings, rest);
  }

  function PutPeers(ps: seq<PeerInfo>, rest: seq<Byte>): seq<Byte> {
    if ps == [] then rest else PutPeer(ps[0], PutPeers(ps[1..], rest))
  }

  function Prepend(ps: seq<PeerInfo>, r: Parsed<seq<PeerInfo>>): Parsed<seq<PeerInfo>> {
    if r.Bad? then Bad else Parsed(ps + r.value, r.rest)
  }

  function TakePeers(bytes: seq<Byte>, n: nat): (r: Parsed<seq<PeerInfo>>)
    ensures r.Parsed? ==> |r.value| == n
    decreases n
  {
    if n == 0 then Parsed([], bytes)
    else
      var first := TakePeer(bytes);
      if first.Bad? then Bad
      else
        Prepend([first.value], TakePeers(first.rest, n - 1))
  }

  lemma {:induction false} PeersRoundTrip(ps: seq<PeerInfo>, rest: seq<Byte>)
    ensures TakePeers(PutPeers(ps, rest), |ps|) == Parsed(ps, rest)
  {
    if ps != [] {
      hide PutPeer, TakePeer;
      PeerRoundTrip(ps[0], PutPeers(ps[1..], rest));
      PeersRoundTrip(ps[1..], rest);
      assert ps == [ps[0]] + ps[1..];
    }
  }

  // ----- The header -----

  function TypeWord(p: Packet): U16 {
    if p.attached && p.peerType < ATTACHED_BIT then p.peerType + ATTACHED_BIT else p.peerType
  }

  function AttributeSize(p: Packet): nat {
    if p.attributes.Some? then |p.attributes.value| else 0
  }

  /** The counts are written in 16 bits each, whatever they are. */
  function PutTail(p: Packet, rest: seq<Byte>): (r: seq<Byte>)
    ensures |r| == 8 + |rest|
  {
    Put(TypeWord(p), 2, Put(|p.peers|, 2, Put(AttributeSize(p), 2, Put(0, 2, rest))))
  }

  function PutHeader(p: Packet, rest: seq<Byte>): (r: seq<Byte>)
    ensures |r| == HEADER_SIZE + |rest|
  {
    Put(TYPE_CODE, 4, Put(p.packetId, 4, Put(p.version, 4, Put(p.systemKey, 8, Put(p.port, 2, Put(p.uptime, 4,
      PutPeerID(p.source, PutTail(p, rest))))))))
  }

  datatype Tail = Tail(word: nat, peerCount: nat, attributeSize: nat)

  datatype Header = Header(typeCode: nat, packetId: nat, version: nat, systemKey: nat, port: nat, uptime: nat,
                           source: PeerID, tail: Tail)

  function TakeTail(bytes: seq<Byte>): (r: (Tail, seq<Byte>))
    requires 8 <= |bytes|
  {
    var (word, b) := Take(bytes, 2);
    var (peerCount, c) := Take(b, 2);
    var (attributeSize, d) := Take(c, 2);
    var (_, e) := Take(d, 2);
    (Tail(word, peerCount, attributeSize), e)
  }

  lemma TailReads(p: Packet, rest: seq<Byte>)
    ensures TakeTail(PutTail(p, rest)) == (Tail(TypeWord(p), |p.peers| % 0x1_0000, AttributeSize(p) % 0x1_0000), rest)
  {
    hide Put, Take;
    Take2(0, rest);
    var d := Put(0, 2, rest);
    Take2(AttributeSize(p), d);
    var c := Put(AttributeSize(p), 2, d);
    Take2(|p.peers|, c);
    Take2(TypeWord(p), Put(|p.peers|, 2, c));
  }

  function TakeHeader(bytes: seq<Byte>): (Header, seq<Byte>)
    requires HEADER_SIZE <= |bytes|
  {
    var (typeCode, b) := Take(bytes, 4);
    var (packetId, c) := Take(b, 4);
    var (version, d) := Take(c, 4);
    var (systemKey, e) := Take(d, 8);
    var (port, f) := Take(e, 2);
    var (uptime, g) := Take(f, 4);
    var (source, h) := TakePeerID(g);
    var (tail, i) := TakeTail(h);
    (Header(typeCode, packetId, version, systemKey, port, uptime, source, tail), i)
  }

  lemma HeaderReads(p: Packet, rest: seq<Byte>)
    ensures TakeHeader(PutHeader(p, rest)) ==
            (Header(TYPE_CODE, p.packetId, p.version, p.systemKey, p.port, p.uptime, p.source,
                    Tail(TypeWord(p), |p.peers| % 0x1_0000, AttributeSize(p) % 0x1_0000)), rest)
  {
    hide Put, Take, PutPeerID, TakePeerID, PutTail, TakeTail;
    TailReads(p, rest);
    var h := PutTail(p, rest);
    PeerIDRoundTrip(p.source, h);
    var g := PutPeerID(p.source, h);
    Take4(p.uptime, g);
    var f := Put(p.uptime, 4, g);
    Take2(p.port, f);
    var e := Put(p.port, 2, f);
    Take8(p.systemKey, e);
    var d := Put(p.systemKey, 8, e);
    Take4(p.version, d);
    var c := Put(p.version, 4, d);
    Take4(p.packetId, c);
    Take4(TYPE_CODE, Put(p.packetId, 4, c));
  }

  // ----- The packet -----

  function PutAttributes(p: Packet, rest: seq<Byte>): seq<Byte> {
    if p.attributes.Some? then p.attributes.value + rest else rest
  }

  function Flatten(p: Packet, rest: seq<Byte>): seq<Byte> {
    PutHeader(p, PutPeers(p.peers, PutAttributes(p, rest)))
  }

  function TakeAttributes(bytes: seq<Byte>, size: nat): Parsed<Option<seq<Byte>>> {
    if size == 0 then Parsed(None, bytes)
    else if size > |bytes| then Bad
    else Parsed(Some(bytes[..size]), bytes[size..])
  }

  function FromHeader(h: Header, peers: seq<PeerInfo>, attributes: Option<seq<Byte>>): Packet {
    Packet(h.packetId % 0x1_0000_0000, h.version % 0x1_0000_0000, h.systemKey % 0x1_0000_0000_0000_0000,
           h.port % 0x1_0000, h.uptime % 0x1_0000_0000, h.source,
           h.tail.word % ATTACHED_BIT, (h.tail.word / ATTACHED_BIT) % 2 == 1, peers, attributes)
  }

  function TakeBody(h: Header, bytes: seq<Byte>): Parsed<Packet> {
    var peers := TakePeers(bytes, h.tail.peerCount);
    if peers.Bad? then Bad
    else
      var attributes := TakeAttributes(peers.rest, h.tail.attributeSize);
      if attributes.Bad? then Bad else Parsed(FromHeader(h, peers.value, attributes.value), attributes.rest)
  }

  function Unflatten(bytes: seq<Byte>): Parsed<Packet> {
    if |bytes| < HEADER_SIZE then Bad
    else
      var (h, b) := TakeHeader(bytes);
      if h.typeCode != TYPE_CODE then Bad else TakeBody(h, b)
  }

  // ----- The round trip -----

  /** The counts fit in 16 bits, the type leaves the top bit free, and attributes
      are not present and empty at once. */
  predicate Fits(p: Packet) {
    && |p.peers| < 0x1_0000
    && AttributeSize(p) < 0x1_0000
    && p.peerType < ATTACHED_BIT
    && p.attributes != Some([])
  }

  lemma AttributesRoundTrip(p: Packet, rest: seq<Byte>)
    requires p.attributes != Some([])
    ensures TakeAttributes(PutAttributes(p, rest), AttributeSize(p)) == Parsed(p.attributes, rest)
  {
    if p.attributes.Some? {
      assert p.attributes.value != [];
    }
  }

  lemma FieldsRoundTrip(p: Packet)
    requires p.peerType < ATTACHED_BIT
    ensures FromHeader(HeaderOf(p), p.peers, p.attributes) == p
  {
  }

  function HeaderOf(p: Packet): Header {
    Header(TYPE_CODE, p.packetId, p.version, p.systemKey, p.port, p.uptime, p.source,
           Tail(TypeWord(p), |p.peers| % 0x1_0000, AttributeSize(p) % 0x1_0000))
  }

  lemma UnflattenIsBody(p: Packet, rest: seq<Byte>)
    ensures Unflatten(Flatten(p, rest)) == TakeBody(HeaderOf(p), PutPeers(p.peers, PutAttributes(p, rest)))
  {
    hide PutHeader, TakeHeader, TakeBody, PutPeers, PutAttributes;
    HeaderReads(p, PutPeers(p.peers, PutAttributes(p, rest)));
  }

  /** Unflatten undoes Flatten, leaving alone what follows, exactly for the packets
      that fit. */
  lemma RoundTripIff(p: Packet, rest: seq<Byte>)
    ensures Unflatten(Flatten(p, rest)) == Parsed(p, rest) <==> Fits(p)
  {
    hide Unflatten, Flatten, PutPeers, TakePeers, PutAttributes;
    UnflattenIsBody(p, rest);
    if Fits(p) {
      PeersRoundTrip(p.peers, PutAttributes(p, rest));
      AttributesRoundTrip(p, rest);
      FieldsRoundTrip(p);
    }
  }

  /** Attributes that are present and empty come back as absent. */
  lemma EmptyAttributesExample()
    ensures var p := Packet(1, 2, 3, 4, 5, PeerID(6, 7), 0, true, [], Some([]));
            !Fits(p) && Unflatten(Flatten(p, [])) == Parsed(p.(attributes := None), [])
  {
    hide Unflatten, PutHeader;
    var p := Packet(1, 2, 3, 4, 5, PeerID(6, 7), 0, true, [], Some([]));
    var q := p.(attributes := None);
    RoundTripIff(q, []);
    SameBytes(p, q, []);
  }

  lemma SameBytes(p: Packet, q: Packet, rest: seq<Byte>)
    requires p.attributes == Some([]) && q == p.(attributes := None)
    ensures Flatten(p, rest) == Flatten(q, rest)
  {
    hide Put, PutPeerID, PutPeers;
    assert [] + rest == rest;
  }

  // ----- The size -----

  function PeersSize(ps: seq<PeerInfo>): nat {
    if ps == [] then 0 else PeersSize(ps[..|ps| - 1]) + PeerSize(ps[|ps| - 1])
  }

  function PacketSize(p: Packet): nat {
    HEADER_SIZE + PeersSize(p.peers) + AttributeSize(p)
  }

  lemma {:induction false} PeersSizeFirst(ps: seq<PeerInfo>)
    requires ps != []
    ensures PeersSize(ps) == PeerSize(ps[0]) + PeersSize(ps[1..])
  {
    if |ps| > 1 {
      var n := |ps| - 1;
      PeersSizeFirst(ps[..n]);
      assert ps[1..][..n - 1] == ps[..n][1..];
    }
  }

  lemma {:induction false} PeersTake(ps: seq<PeerInfo>, rest: seq<Byte>)
    ensures |PutPeers(ps, rest)| == PeersSize(ps) + |rest|
  {
    if ps != [] {
      PeersTake(ps[1..], rest);
      PeersSizeFirst(ps);
    }
  }

  /** Exactly as many bytes are written as were counted, for every packet. */
  lemma FlattenWritesSize(p: Packet, rest: seq<Byte>)
    ensures |Flatten(p, rest)| == PacketSize(p) + |rest|
  {
    PeersTake(p.peers, PutAttributes(p, rest));
  }

  // ----- As loops -----

  method FlattenedSize(p: Packet) returns (r: nat)
    ensures r == |Flatten(p, [])|
  {
    FlattenWritesSize(p, []);
    r := HEADER_SIZE;
    for i := 0 to |p.peers|
      invariant r == HEADER_SIZE + PeersSize(p.peers[..i])
    {
      assert p.peers[..i + 1][..i] == p.peers[..i];
      r := r + PeerSize(p.peers[i]);
    }
    assert p.peers[..|p.peers|] == p.peers;
    if p.attributes.Some? {
      r := r + |p.attributes.value|;
    }
  }

  /** The list read one peer at a time from a moving cursor; None on bad data. */
  method UnflattenPeers(bytes: seq<Byte>, count: nat) returns (peers: Option<seq<PeerInfo>>, rest: seq<Byte>)
    ensures peers.None? <==> TakePeers(bytes, count).Bad?
    ensures peers.Some? ==> TakePeers(bytes, count) == Parsed(peers.value, rest)
  {
    hide TakePeer;
    var ps: seq<PeerInfo> := [];
    rest := bytes;
    PrependNothing(TakePeers(bytes, count));
    for i := 0 to count
      invariant TakePeers(bytes, count) == Prepend(ps, TakePeers(rest, count - i))
    {
      var next := TakePeer(rest);
      if next.Bad? {
        return None, rest;
      }
      PrependOne(ps, next.value, TakePeers(next.rest, count - i - 1));
      ps, rest := ps + [next.value], next.rest;
    }
    peers := Some(ps);
    assert ps + [] == ps;
  }

  lemma PrependNothing(r: Parsed<seq<PeerInfo>>)
    ensures Prepend([], r) == r
  {
    if r.Parsed? {
      assert [] + r.value == r.value;
    }
  }

  lemma PrependOne(ps: seq<PeerInfo>, p: PeerInfo, r: Parsed<seq<PeerInfo>>)
    ensures Prepend(ps, Prepend([p], r)) == Prepend(ps + [p], r)
  {
    if r.Parsed? {
      assert ps + ([p] + r.value) == (ps + [p]) + r.value;
    }
  }

  method UnflattenPacket(bytes: seq<Byte>) returns (r: Parsed<Packet>)
    ensures r == Unflatten(bytes)
  {
    hide TakePeers;
    if |bytes| < HEADER_SIZE {
      return Bad;
    }
    var (h, body) := TakeHeader(bytes);
    if h.typeCode != TYPE_CODE {
      return Bad;
    }
    var peers, rest := UnflattenPeers(body, h.tail.peerCount);
    if peers.None? {
      return Bad;
    }
    if h.tail.attributeSize > 0 {
      if h.tail.attributeSize > |rest| {
        return Bad;
      }
      return Parsed(FromHeader(h, peers.value, Some(rest[..h.tail.attributeSize])), rest[h.tail.attributeSize..]);
    }
    return Parsed(FromHeader(h, peers.value, None), rest);
  }

  // ----- Where each field is -----

  /** The integer in the `k` bytes from `at` on. */
  function Field(bytes: seq<Byte>, at: nat, k: nat): nat
    requires at + k <= |bytes|
  {
    Take(bytes[at..], k).0
  }

  lemma {:induction false} PutThenSkip(v: nat, k: nat, rest: seq<Byte>)
    ensures Put(v, k, rest)[k..] == rest
  {
    if k > 0 {
      PutThenSkip(v / 0x100, k - 1, rest);
      assert Put(v, k, rest)[k..] == Put(v / 0x100, k - 1, rest)[k - 1..];
    }
  }

  /** What the bytes from `at` on begin with, and what comes behind it. */
  lemma NextField(bytes: seq<Byte>, at: nat, v: nat, k: nat, rest: seq<Byte>)
    requires at <= |bytes| && bytes[at..] == Put(v, k, rest)
    requires (k == 2 && v < 0x1_0000) || (k == 4 && v < 0x1_0000_0000) || (k == 8 && v < 0x1_0000_0000_0000_0000)
    ensures at + k <= |bytes| && Field(bytes, at, k) == v && bytes[at + k..] == rest
  {
    PutThenSkip(v, k, rest);
    assert bytes[at..][k..] == bytes[at + k..];
    hide Put, Take;
    if k == 2 {
      Take2(v, rest);
    } else if k == 4 {
      Take4(v, rest);
    } else {
      Take8(v, rest);
    }
  }

  /** Where the fields of a heartbeat are, whatever follows its header: the sender's peer
      ID takes the bytes 26 to 41, the word after it is the type with the attached flag
      for its top bit, and the peers' entries begin at byte 50. */
  lemma HeaderLayout(p: Packet, rest: seq<Byte>)
    requires Fits(p)
    ensures var b := Flatten(p, rest);
            && |b| >= HEADER_SIZE
            && Field(b, 0, 4) == TYPE_CODE && Field(b, 4, 4) == p.packetId && Field(b, 8, 4) == p.version
            && Field(b, 12, 8) == p.systemKey && Field(b, 20, 2) == p.port && Field(b, 22, 4) == p.uptime
            && Field(b, 26, 8) == p.source.high && Field(b, 34, 8) == p.source.low
            && Field(b, 42, 2) == (if p.attached then 0x8000 + p.peerType else p.peerType)
            && Field(b, 44, 2) == |p.peers|
            && Field(b, 46, 2) == (match p.attributes case Some(a) => |a| case None => 0)
            && Field(b, 48, 2) == 0
            && b[50..] == PutPeers(p.peers, PutAttributes(p, rest))
  {
    hide Put, Field, PutPeers, PutAttributes;
    var b, body := Flatten(p, rest), PutPeers(p.peers, PutAttributes(p, rest));
    var t4 := Put(0, 2, body);
    var t3 := Put(AttributeSize(p), 2, t4);
    var t2 := Put(|p.peers|, 2, t3);
    var t1 := Put(TypeWord(p), 2, t2);
    var low := Put(p.source.low, 8, t1);
    var high := Put(p.source.high, 8, low);
    var uptime := Put(p.uptime, 4, high);
    var port := Put(p.port, 2, uptime);
    var key := Put(p.systemKey, 8, port);
    var version := Put(p.version, 4, key);
    var id := Put(p.packetId, 4, version);
    assert b[0..] == b;
    NextField(b, 0, TYPE_CODE, 4, id);
    NextField(b, 4, p.packetId, 4, version);
    NextField(b, 8, p.version, 4, key);
    NextField(b, 12, p.systemKey, 8, port);
    NextField(b, 20, p.port, 2, uptime);
    NextField(b, 22, p.uptime, 4, high);
    NextField(b, 26, p.source.high, 8, low);
    NextField(b, 34, p.source.low, 8, t1);
    NextField(b, 42, TypeWord(p), 2, t2);
    NextField(b, 44, |p.peers|, 2, t3);
    NextField(b, 46, AttributeSize(p), 2, t4);
    NextField(b, 48, 0, 2, body);
  }

  /** Where the fields of a peer's entry and of a timing are. */
  lemma PeerLayout(p: PeerInfo, rest: seq<Byte>)
    ensures var b := PutPeer(p, rest);
            && Field(b, 0, 8) == p.id.high && Field(b, 8, 8) == p.id.low && Field(b, 16, 4) == |p.timings|
            && b[20..] == PutTimings(p.timings, rest)
  {
    hide Put, Field, PutTimings;
    var b, timings := PutPeer(p, rest), PutTimings(p.timings, rest);
    var count := Put(|p.timings|, 4, timings);
    var low := Put(p.id.low, 8, count);
    assert b[0..] == b;
    NextField(b, 0, p.id.high, 8, low);
    NextField(b, 8, p.id.low, 8, count);
    NextField(b, 16, |p.timings|, 4, timings);
  }

  lemma TimingLayout(t: Timing, rest: seq<Byte>)
    ensures var b := PutTiming(t, rest);
            && Field(b, 0, 2) == t.tag && Field(b, 2, 2) == 0 && Field(b, 4, 4) == t.packetId && Field(b, 8, 4) == t.dwell
            && b[12..] == rest
  {
    hide Put, Field;
    var b := PutTiming(t, rest);
    var dwell := Put(t.dwell, 4, rest);
    var id := Put(t.packetId, 4, dwell);
    assert b[0..] == b;
    NextField(b, 0, t.tag, 2, Put(0, 2, id));
    NextField(b, 2, 0, 2, id);
    NextField(b, 4, t.packetId, 4, dwell);
    NextField(b, 8, t.dwell, 4, rest);
  }
}
