/** Agreement on seniority: peers multicast heartbeats, each recording what it
    hears, and every list any of them works out is a permutation of the peers it
    knows. Once the lowest-ID full peer's heartbeats all carry the same list,
    everyone's list is that one. */
module Seniority {
  import opened Tables
  import opened Heartbeats
  import opened SeniorityOrder

  /** A peer: its fixed properties, whether it has been up for half the time it
      takes to attach, and its heartbeat thread's table. A peer that crashed is
      one that does nothing any more. */
  datatype Node = Node(kind: nat, identity: nat, timeout: nat, half: bool, table: Table)

  /** The peers and the heartbeats in flight. A heartbeat can be delivered any
      number of times, in any order and by any address, until it is lost. */
  datatype Net = Net(nodes: map<PeerId, Node>, packets: set<Packet>)

  const NOBODY := Net(map[], {})

  datatype Event =
    | Join(peer: PeerId, kind: nat, identity: nat, timeout: nat)
    | HalfAttach(peer: PeerId)
    | Send(peer: PeerId, uptime: nat, attached: bool)
    | Deliver(packet: Packet, peer: PeerId, address: Address, receivedAt: nat)
    | Lose(packet: Packet)
    | PulseAt(peer: PeerId, now: nat)

  predicate Enabled(s: Net, e: Event) {
    match e
    case Join(p, _, _, _) => p != NO_PEER && p !in s.nodes
    case HalfAttach(p) => p in s.nodes
    case Send(p, _, _) => p in s.nodes
    case Deliver(packet, q, address, _) => packet in s.packets && q in s.nodes && address != 0
    case Lose(packet) => packet in s.packets
    case PulseAt(q, _) => q in s.nodes
  }

  /** SendHeartbeatPackets: only a full peer that has been up long enough
      advertises a list. */
  function Heartbeat(p: PeerId, n: Node, uptime: nat, attached: bool): Packet {
    Packet(p, n.kind, n.identity, uptime, attached, if n.kind == FULL_PEER && n.half then OrderedPeers(n.table) else [])
  }

  function NodeNext(q: PeerId, n: Node, input: Input): Node {
    n.(table := Next(n.table, q, n.timeout, input))
  }

  function Step(s: Net, e: Event): Net
    requires Enabled(s, e)
  {
    match e
    case Join(p, kind, identity, timeout) => s.(nodes := s.nodes[p := Node(kind, identity, timeout, false, NOTHING_HEARD)])
    case HalfAttach(p) => s.(nodes := s.nodes[p := s.nodes[p].(half := true)])
    case Send(p, uptime, attached) => s.(packets := s.packets + {Heartbeat(p, s.nodes[p], uptime, attached)})
    case Deliver(packet, q, address, receivedAt) =>
      s.(nodes := s.nodes[q := NodeNext(q, s.nodes[q], Arrival(address, packet, receivedAt))])
    case Lose(packet) => s.(packets := s.packets - {packet})
    case PulseAt(q, now) => s.(nodes := s.nodes[q := NodeNext(q, s.nodes[q], Pulse(now))])
  }

  ghost predicate IsRun(s: Net, events: seq<Event>)
    decreases |events|, 0
  {
    events == [] ||
    (var n := |events| - 1;
     IsRun(s, events[..n]) && Enabled(After(s, events[..n]), events[n]))
  }

  ghost function After(s: Net, events: seq<Event>): Net
    requires IsRun(s, events)
    decreases |events|, 1
  {
    if events == [] then s
    else
      var n := |events| - 1;
      Step(After(s, events[..n]), events[n])
  }

  /** Some run from nothing leads to `s`. */
  ghost predicate Reachable(s: Net) {
    exists events :: IsRun(NOBODY, events) && After(NOBODY, events) == s
  }

  lemma NobodyIsReachable()
    ensures Reachable(NOBODY)
  {
    assert IsRun(NOBODY, []) && After(NOBODY, []) == NOBODY;
  }

  lemma StepIsReachable(s: Net, e: Event)
    requires Reachable(s) && Enabled(s, e)
    ensures Reachable(Step(s, e))
  {
    var events :| IsRun(NOBODY, events) && After(NOBODY, events) == s;
    var more := events + [e];
    assert more[..|events|] == events;
    assert IsRun(NOBODY, more) && After(NOBODY, more) == Step(s, e);
  }

  // ----- Safety of every list -----

  /** A heartbeat sent or recorded comes from a peer, and advertises a list only if
      that peer is a full one, up long enough; no list names a peer twice. */
  ghost predicate PacketOk(nodes: map<PeerId, Node>, packet: Packet) {
    && packet.pid in nodes && packet.pid != NO_PEER
    && packet.kind == nodes[packet.pid].kind
    && Distinct(packet.peers)
    && (packet.peers != [] ==> packet.kind == FULL_PEER && nodes[packet.pid].half)
  }

  ghost predicate TableOk(nodes: map<PeerId, Node>, t: Table) {
    && Indexed(t) && ValidKeys(t)
    && forall k :: k in t.sources ==> PacketOk(nodes, t.sources[k].packet)
  }

  ghost predicate Sound(s: Net) {
    && (forall p :: p in s.nodes ==> p != NO_PEER && TableOk(s.nodes, s.nodes[p].table))
    && (forall packet :: packet in s.packets ==> PacketOk(s.nodes, packet))
  }

  /** Peers join and attach, but do not change what they are. */
  ghost predicate Grown(nodes: map<PeerId, Node>, nodes': map<PeerId, Node>) {
    forall p :: p in nodes ==> p in nodes' && nodes'[p].kind == nodes[p].kind && (nodes[p].half ==> nodes'[p].half)
  }

  lemma TableStaysOk(nodes: map<PeerId, Node>, nodes': map<PeerId, Node>, t: Table)
    requires TableOk(nodes, t) && Grown(nodes, nodes')
    ensures TableOk(nodes', t)
  {
  }

  lemma HeardOk(nodes: map<PeerId, Node>, q: PeerId, n: Node, address: Address, packet: Packet, receivedAt: nat)
    requires TableOk(nodes, n.table) && PacketOk(nodes, packet) && address != 0
    ensures TableOk(nodes, NodeNext(q, n, Arrival(address, packet, receivedAt)).table)
  {
    HeardIndexed(n.table, Key(address, packet.pid), Source(packet, ExpiryOf(q, n.timeout, packet.pid, receivedAt)));
  }

  lemma SweptOk(nodes: map<PeerId, Node>, q: PeerId, n: Node, now: nat)
    requires TableOk(nodes, n.table)
    ensures TableOk(nodes, NodeNext(q, n, Pulse(now)).table)
  {
    SweepExact(n.table, now);
  }

  /** The list is a permutation of the known peers. */
  lemma OkListsExactly(nodes: map<PeerId, Node>, t: Table)
    requires TableOk(nodes, t)
    ensures ListsExactly(OrderedPeers(t), Known(t))
  {
    OrderedPeersIsPermutation(t);
  }

  /** One node changes its table, one heartbeat set changes. */
  lemma SoundWith(s: Net, p: PeerId, n: Node, packets: set<Packet>)
    requires Sound(s) && p != NO_PEER
    requires p in s.nodes ==> n.kind == s.nodes[p].kind && (s.nodes[p].half ==> n.half)
    requires TableOk(s.nodes, n.table) || n.table == NOTHING_HEARD
    requires forall packet :: packet in packets ==> PacketOk(s.nodes, packet)
    ensures Sound(Net(s.nodes[p := n], packets))
  {
    hide TableOk, OrderedPeers;
    var nodes := s.nodes[p := n];
    assert Grown(s.nodes, nodes);
    if n.table == NOTHING_HEARD {
      NothingIsOk(nodes);
    } else {
      TableStaysOk(s.nodes, nodes, n.table);
    }
    forall q | q in nodes
      ensures q != NO_PEER && TableOk(nodes, nodes[q].table)
    {
      if q != p {
        TableStaysOk(s.nodes, nodes, s.nodes[q].table);
      }
    }
  }

  lemma NothingIsOk(nodes: map<PeerId, Node>)
    ensures TableOk(nodes, NOTHING_HEARD)
  {
  }

  lemma StepSound(s: Net, e: Event)
    requires Sound(s) && Enabled(s, e)
    ensures Sound(Step(s, e))
  {
    hide TableOk, PacketOk, OrderedPeers, NodeNext;
    match e {
      case Join(p, kind, identity, timeout) =>
        SoundWith(s, p, Node(kind, identity, timeout, false, NOTHING_HEARD), s.packets);
      case HalfAttach(p) =>
        SoundWith(s, p, s.nodes[p].(half := true), s.packets);
      case Send(p, uptime, attached) =>
        HeartbeatOk(s.nodes, p, uptime, attached);
      case Deliver(packet, q, address, receivedAt) =>
        HeardOk(s.nodes, q, s.nodes[q], address, packet, receivedAt);
        NodeNextIs(q, s.nodes[q], Arrival(address, packet, receivedAt));
        SoundWith(s, q, NodeNext(q, s.nodes[q], Arrival(address, packet, receivedAt)), s.packets);
      case Lose(packet) =>
      case PulseAt(q, now) =>
        SweptOk(s.nodes, q, s.nodes[q], now);
        NodeNextIs(q, s.nodes[q], Pulse(now));
        SoundWith(s, q, NodeNext(q, s.nodes[q], Pulse(now)), s.packets);
    }
  }

  lemma NodeNextIs(q: PeerId, n: Node, input: Input)
    ensures NodeNext(q, n, input).kind == n.kind && NodeNext(q, n, input).half == n.half
  {
  }

  lemma HeartbeatOk(nodes: map<PeerId, Node>, p: PeerId, uptime: nat, attached: bool)
    requires p in nodes && p != NO_PEER && TableOk(nodes, nodes[p].table)
    ensures PacketOk(nodes, Heartbeat(p, nodes[p], uptime, attached))
  {
    OkListsExactly(nodes, nodes[p].table);
  }

  lemma {:induction false} RunSound(s: Net, events: seq<Event>)
    requires Sound(s) && IsRun(s, events)
    ensures Sound(After(s, events))
    decreases |events|
  {
    if events != [] {
      hide Sound;
      var n := |events| - 1;
      RunSound(s, events[..n]);
      StepSound(After(s, events[..n]), events[n]);
    }
  }

  /** In every run from nothing: no heartbeat in flight advertises a list that names
      a peer twice, and every list a peer could work out names each peer it then
      knows exactly once. */
  lemma EveryListIsPermutation(events: seq<Event>, p: PeerId)
    requires IsRun(NOBODY, events) && p in After(NOBODY, events).nodes
    ensures var s := After(NOBODY, events);
            var t := s.nodes[p].table;
            && (forall packet :: packet in s.packets ==> Distinct(packet.peers))
            && ListsExactly(OrderedPeers(t), Known(t))
  {
    RunSound(NOBODY, events);
    var s := After(NOBODY, events);
    OkListsExactly(s.nodes, s.nodes[p].table);
  }

  // ----- The head of every list -----

  /** The head of the list has the largest type code of all in it. */
  ghost predicate TopHeavy(nodes: map<PeerId, Node>, list: seq<PeerId>) {
    forall i :: 0 <= i < |list| ==> list[i] in nodes && list[0] in nodes && nodes[list[i]].kind <= nodes[list[0]].kind
  }

  ghost predicate RecordsTopHeavy(nodes: map<PeerId, Node>, t: Table) {
    forall k :: k in t.sources ==> TopHeavy(nodes, t.sources[k].packet.peers)
  }

  ghost predicate AllTopHeavy(s: Net) {
    && (forall packet :: packet in s.packets ==> TopHeavy(s.nodes, packet.peers))
    && (forall p :: p in s.nodes ==> RecordsTopHeavy(s.nodes, s.nodes[p].table))
  }

  /** What a table says of a peer's type is the peer's type. */
  lemma KnownKind(nodes: map<PeerId, Node>, t: Table, p: PeerId)
    requires TableOk(nodes, t) && p in Known(t)
    ensures p in nodes && KindOf(t, p) == nodes[p].kind
  {
    var q := t.queues[p];
    assert q[0] in q && Key(q[0], p) in t.sources;
    var r := KindOf(t, p);
    assert t.sources[Key(q[0], p)].packet.kind <= r;
    if r != 0 {
      var a :| a in q && Key(a, p) in t.sources && KIND(t.sources[Key(a, p)].packet) == r;
    }
  }

  lemma ListTopHeavy(nodes: map<PeerId, Node>, t: Table)
    requires TableOk(nodes, t) && RecordsTopHeavy(nodes, t)
    ensures TopHeavy(nodes, OrderedPeers(t))
  {
    hide BySeniority, MaxOver, TableOk;
    KingmakerOk(nodes, t);
    if Kingmaker(t) == NO_KEY {
      var s := BySeniority(t, Known(t));
      forall i | 0 <= i < |s|
        ensures s[i] in nodes && s[0] in nodes && nodes[s[i]].kind <= nodes[s[0]].kind
      {
        assert s[i] in s && s[0] in s;
        KnownKind(nodes, t, s[i]);
        KnownKind(nodes, t, s[0]);
        if i > 0 {
          EarlierIsSenior(t, 0, i);
        }
      }
    }
  }

  lemma KingmakerOk(nodes: map<PeerId, Node>, t: Table)
    requires TableOk(nodes, t)
    ensures Kingmaker(t) == NO_KEY || (Kingmaker(t) in t.sources && Kingmaker(t).pid != NO_PEER && Kingmaker(t).address != 0)
  {
    KingmakerIsLowest(t);
  }

  lemma TopHeavyStays(nodes: map<PeerId, Node>, nodes': map<PeerId, Node>)
    requires Grown(nodes, nodes')
    ensures forall list :: TopHeavy(nodes, list) ==> TopHeavy(nodes', list)
  {
  }

  lemma NextTopHeavy(nodes: map<PeerId, Node>, q: PeerId, n: Node, input: Input)
    requires TableOk(nodes, n.table) && RecordsTopHeavy(nodes, n.table)
    requires input.Arrival? ==> TopHeavy(nodes, input.packet.peers)
    ensures RecordsTopHeavy(nodes, NodeNext(q, n, input).table)
  {
    match input {
      case Arrival(address, packet, receivedAt) =>
        HeardIndexed(n.table, Key(address, packet.pid), Source(packet, ExpiryOf(q, n.timeout, packet.pid, receivedAt)));
      case Pulse(now) =>
        SweepExact(n.table, now);
    }
  }

  lemma TopHeavyWith(s: Net, p: PeerId, n: Node)
    requires AllTopHeavy(s) && RecordsTopHeavy(s.nodes, n.table)
    requires p in s.nodes ==> n.kind == s.nodes[p].kind && (s.nodes[p].half ==> n.half)
    ensures AllTopHeavy(s.(nodes := s.nodes[p := n]))
  {
    hide TopHeavy;
    TopHeavyStays(s.nodes, s.nodes[p := n]);
  }

  lemma StepTopHeavy(s: Net, e: Event)
    requires Sound(s) && AllTopHeavy(s) && Enabled(s, e)
    ensures AllTopHeavy(Step(s, e))
  {
    hide TableOk, PacketOk, OrderedPeers, NodeNext, TopHeavy;
    match e {
      case Join(p, kind, identity, timeout) =>
        TopHeavyWith(s, p, Node(kind, identity, timeout, false, NOTHING_HEARD));
      case HalfAttach(p) =>
        TopHeavyWith(s, p, s.nodes[p].(half := true));
      case Send(p, uptime, attached) =>
        ListTopHeavy(s.nodes, s.nodes[p].table);
        NothingIsTopHeavy(s.nodes);
      case Deliver(packet, q, address, receivedAt) =>
        NextTopHeavy(s.nodes, q, s.nodes[q], Arrival(address, packet, receivedAt));
        NodeNextIs(q, s.nodes[q], Arrival(address, packet, receivedAt));
        TopHeavyWith(s, q, NodeNext(q, s.nodes[q], Arrival(address, packet, receivedAt)));
      case Lose(packet) =>
      case PulseAt(q, now) =>
        NextTopHeavy(s.nodes, q, s.nodes[q], Pulse(now));
        NodeNextIs(q, s.nodes[q], Pulse(now));
        TopHeavyWith(s, q, NodeNext(q, s.nodes[q], Pulse(now)));
    }
  }

  lemma NothingIsTopHeavy(nodes: map<PeerId, Node>)
    ensures TopHeavy(nodes, [])
  {
  }

  lemma {:induction false} RunTopHeavy(s: Net, events: seq<Event>)
    requires Sound(s) && AllTopHeavy(s) && IsRun(s, events)
    ensures AllTopHeavy(After(s, events))
    decreases |events|
  {
    if events != [] {
      hide Sound, AllTopHeavy;
      var n := |events| - 1;
      RunTopHeavy(s, events[..n]);
      RunSound(s, events[..n]);
      StepTopHeavy(After(s, events[..n]), events[n]);
    }
  }

  /** In every run from nothing, whether it was sorted locally or adopted: the head of
      the list a peer works out is a full peer exactly when everyone in it is, that
      is, everyone the peer knows. */
  lemma HeadIsFullInEveryRun(events: seq<Event>, p: PeerId)
    requires IsRun(NOBODY, events) && p in After(NOBODY, events).nodes
    requires OrderedPeers(After(NOBODY, events).nodes[p].table) != []
    ensures var s := After(NOBODY, events);
            var list := OrderedPeers(s.nodes[p].table);
            && (forall q :: q in list ==> q in s.nodes)
            && (s.nodes[list[0]].kind == FULL_PEER <==> forall q :: q in list ==> s.nodes[q].kind == FULL_PEER)
  {
    hide OrderedPeers, TableOk;
    RunSound(NOBODY, events);
    RunTopHeavy(NOBODY, events);
    var s := After(NOBODY, events);
    var list := OrderedPeers(s.nodes[p].table);
    ListTopHeavy(s.nodes, s.nodes[p].table);
    assert list[0] in list;
    forall q | q in list
      ensures q in s.nodes && s.nodes[q].kind <= s.nodes[list[0]].kind
    {
      var i :| 0 <= i < |list| && list[i] == q;
    }
  }

  // ----- Agreement -----

  /** Every member knows exactly the members. */
  ghost predicate Fixed(s: Net, members: set<PeerId>) {
    forall p :: p in members ==> p in s.nodes && Known(s.nodes[p].table) == members
  }

  ghost predicate CarriesOnly(t: Table, king: PeerId, list: seq<PeerId>) {
    forall k :: k in t.sources && k.pid == king ==> t.sources[k].packet.peers == list
  }

  /** The heartbeats of `king` recorded in a table that do not carry `list`. */
  ghost function Stale(t: Table, king: PeerId, list: seq<PeerId>): set<Key> {
    set k | k in t.sources && k.pid == king && t.sources[k].packet.peers != list
  }

  /** `king` is the member with the lowest ID that is a full peer, and all its
      heartbeats, in flight or recorded by itself, carry `list`. */
  ghost predicate Decided(s: Net, members: set<PeerId>, king: PeerId, list: seq<PeerId>) {
    && king in members && members <= s.nodes.Keys
    && ListsExactly(list, members) && Known(s.nodes[king].table) == members
    && s.nodes[king].kind == FULL_PEER && s.nodes[king].half
    && (forall p :: p in members && s.nodes[p].kind == FULL_PEER ==> king <= p)
    && (forall packet :: packet in s.packets && packet.pid == king ==> packet.peers == list)
    && CarriesOnly(s.nodes[king].table, king, list)
  }

  /** Likewise for what every other member recorded of the king. */
  ghost predicate Settled(s: Net, members: set<PeerId>, king: PeerId, list: seq<PeerId>) {
    && Fixed(s, members) && Decided(s, members, king, list)
    && (forall p :: p in members ==> Stale(s.nodes[p].table, king, list) == {})
  }

  lemma {:induction false} CountsAlike(s: seq<PeerId>, peers: set<PeerId>)
    requires ListsExactly(s, peers)
    ensures |s| == |peers|
  {
    if s == [] {
      assert peers == {};
    } else {
      var rest := s[1..];
      assert s == [s[0]] + rest;
      CountsAlike(rest, peers - {s[0]});
    }
  }

  lemma KingCandidate(t: Table, king: PeerId, list: seq<PeerId>) returns (k: Key)
    requires Indexed(t) && king in Known(t) && ListsExactly(list, Known(t)) && CarriesOnly(t, king, list)
    ensures Candidate(t, k) && k.pid == king
  {
    k := Key(t.queues[king][0], king);
    assert k.address in t.queues[king];
    CountsAlike(list, Known(t));
  }

  /** Where the king's heartbeats carry the list, the list worked out is that one. */
  lemma AdoptsKingsList(nodes: map<PeerId, Node>, t: Table, king: PeerId, list: seq<PeerId>)
    requires TableOk(nodes, t) && king in Known(t) && ListsExactly(list, Known(t)) && CarriesOnly(t, king, list)
    requires forall p :: p in Known(t) && p in nodes && nodes[p].kind == FULL_PEER ==> king <= p
    ensures OrderedPeers(t) == list
  {
    hide BySeniority;
    var k := KingCandidate(t, king, list);
    KingmakerIsLowest(t);
    var r := Kingmaker(t);
    var advertised := t.sources[r].packet.peers;
    assert advertised != [] by {
      assert |advertised| == |t.queues|;
    }
    assert r.pid in Known(t);
  }

  lemma NoneStale(t: Table, king: PeerId, list: seq<PeerId>)
    ensures Stale(t, king, list) == {} <==> CarriesOnly(t, king, list)
  {
    if Stale(t, king, list) == {} {
      forall k | k in t.sources && k.pid == king
        ensures t.sources[k].packet.peers == list
      {
        assert k !in Stale(t, king, list);
      }
    }
  }

  lemma KingsList(s: Net, members: set<PeerId>, king: PeerId, list: seq<PeerId>)
    requires Sound(s) && Decided(s, members, king, list)
    ensures OrderedPeers(s.nodes[king].table) == list
  {
    AdoptsKingsList(s.nodes, s.nodes[king].table, king, list);
  }

  lemma SettledList(s: Net, members: set<PeerId>, king: PeerId, list: seq<PeerId>, p: PeerId)
    requires Sound(s) && Settled(s, members, king, list) && p in members
    ensures OrderedPeers(s.nodes[p].table) == list
  {
    NoneStale(s.nodes[p].table, king, list);
    AdoptsKingsList(s.nodes, s.nodes[p].table, king, list);
  }

  /** Event `e` delivers a heartbeat of the king to `p` by that address. */
  predicate Hears(e: Event, king: PeerId, p: PeerId, address: Address) {
    e.Deliver? && e.packet.pid == king && e.peer == p && e.address == address
  }

  /** A decided king stays decided while it knows the same members, and no step
      makes anyone's record of the king stale; hearing the king mends it. */
  lemma DecidedStep(s: Net, e: Event, members: set<PeerId>, king: PeerId, list: seq<PeerId>)
    requires Sound(s) && Decided(s, members, king, list) && Enabled(s, e)
    requires Known(Step(s, e).nodes[king].table) == members
    ensures Decided(Step(s, e), members, king, list)
    ensures forall p, k :: p in members && k in Stale(Step(s, e).nodes[p].table, king, list) ==>
              k in Stale(s.nodes[p].table, king, list) && !Hears(e, king, p, k.address)
  {
    hide ListsExactly, OrderedPeers, TableOk, NodeNext, Stale, CarriesOnly;
    match e {
      case Join(p, _, _, _) =>
      case HalfAttach(p) =>
      case Send(p, uptime, attached) =>
        if p == king {
          KingsList(s, members, king, list);
        }
      case Deliver(packet, q, address, receivedAt) =>
        NodeNextIs(q, s.nodes[q], Arrival(address, packet, receivedAt));
        HeardStale(s.nodes, q, s.nodes[q], address, packet, receivedAt, king, list);
      case Lose(packet) =>
      case PulseAt(q, now) =>
        NodeNextIs(q, s.nodes[q], Pulse(now));
        SweptStale(s.nodes, q, s.nodes[q], now, king, list);
    }
  }

  lemma HeardStale(nodes: map<PeerId, Node>, q: PeerId, n: Node, address: Address, packet: Packet, receivedAt: nat,
                   king: PeerId, list: seq<PeerId>)
    requires TableOk(nodes, n.table)
    requires packet.pid == king ==> packet.peers == list
    ensures var t := NodeNext(q, n, Arrival(address, packet, receivedAt)).table;
            && (forall k :: k in Stale(t, king, list) ==>
                  k in Stale(n.table, king, list) && !(packet.pid == king && address == k.address))
            && (CarriesOnly(n.table, king, list) ==> CarriesOnly(t, king, list))
  {
    HeardIndexed(n.table, Key(address, packet.pid), Source(packet, ExpiryOf(q, n.timeout, packet.pid, receivedAt)));
  }

  lemma SweptStale(nodes: map<PeerId, Node>, q: PeerId, n: Node, now: nat, king: PeerId, list: seq<PeerId>)
    requires TableOk(nodes, n.table)
    ensures var t := NodeNext(q, n, Pulse(now)).table;
            && Stale(t, king, list) <= Stale(n.table, king, list)
            && (CarriesOnly(n.table, king, list) ==> CarriesOnly(t, king, list))
  {
    SweepExact(n.table, now);
  }

  /** The membership stays as it is throughout a run. */
  ghost predicate FixedThroughout(s: Net, events: seq<Event>, members: set<PeerId>)
    requires IsRun(s, events)
    decreases |events|
  {
    && Fixed(After(s, events), members)
    && (events == [] || FixedThroughout(s, events[..|events| - 1], members))
  }

  lemma {:induction false} StaysDecided(s: Net, events: seq<Event>, members: set<PeerId>, king: PeerId, list: seq<PeerId>)
    requires Sound(s) && Decided(s, members, king, list)
    requires IsRun(s, events) && FixedThroughout(s, events, members)
    ensures Decided(After(s, events), members, king, list)
    decreases |events|
  {
    if events != [] {
      hide Decided, Sound, Stale, Hears, Step, Enabled;
      var n := |events| - 1;
      StaysDecided(s, events[..n], members, king, list);
      RunSound(s, events[..n]);
      DecidedMembers(s, members, king, list);
      DecidedStep(After(s, events[..n]), events[n], members, king, list);
    }
  }

  /** Some event of the run does. */
  predicate HeardIn(events: seq<Event>, king: PeerId, p: PeerId, address: Address)
    ensures HeardIn(events, king, p, address) <==> exists e :: e in events && Hears(e, king, p, address)
  {
    if events == [] then false
    else
      var n := |events| - 1;
      assert events == events[..n] + [events[n]];
      Hears(events[n], king, p, address) || HeardIn(events[..n], king, p, address)
  }

  /** While the membership is fixed, a record of the king still stale at the end of
      a run was stale at its start and was not refreshed during it. */
  lemma {:induction false} StaysStale(s: Net, events: seq<Event>, members: set<PeerId>, king: PeerId, list: seq<PeerId>,
                                      p: PeerId, k: Key)
    requires Sound(s) && Decided(s, members, king, list) && p in members
    requires IsRun(s, events) && FixedThroughout(s, events, members)
    requires p in After(s, events).nodes && k in Stale(After(s, events).nodes[p].table, king, list)
    ensures p in s.nodes && k in Stale(s.nodes[p].table, king, list) && !HeardIn(events, king, p, k.address)
    decreases |events|
  {
    hide Decided, Sound, Stale, Hears, Step, Enabled;
    DecidedMembers(s, members, king, list);
    if events != [] {
      var n := |events| - 1;
      var before := After(s, events[..n]);
      StaysDecided(s, events[..n], members, king, list);
      RunSound(s, events[..n]);
      DecidedMembers(before, members, king, list);
      DecidedStep(before, events[n], members, king, list);
      StaysStale(s, events[..n], members, king, list, p, k);
    }
  }

  lemma DecidedMembers(s: Net, members: set<PeerId>, king: PeerId, list: seq<PeerId>)
    requires Decided(s, members, king, list)
    ensures king in members && members <= s.nodes.Keys
  {
  }

  lemma FixedAtEnd(s: Net, events: seq<Event>, members: set<PeerId>)
    requires IsRun(s, events) && FixedThroughout(s, events, members)
    ensures Fixed(After(s, events), members)
  {
  }

  /** Agreement is reached: while the membership is fixed and its lowest-ID full
      peer has decided on a list, once every member has heard it again by each
      address it had an older heartbeat from, everyone works out that list. */
  lemma AgreementIsReached(s: Net, events: seq<Event>, members: set<PeerId>, king: PeerId, list: seq<PeerId>)
    requires Sound(s) && Decided(s, members, king, list)
    requires IsRun(s, events) && FixedThroughout(s, events, members)
    requires forall p, k :: p in members && k in Stale(s.nodes[p].table, king, list) ==> HeardIn(events, king, p, k.address)
    ensures Settled(After(s, events), members, king, list)
  {
    hide Decided, Sound, Stale, HeardIn, Fixed;
    StaysDecided(s, events, members, king, list);
    var now := After(s, events);
    FixedAtEnd(s, events, members);
    DecidedMembers(now, members, king, list);
    forall p, k | p in members && k in Stale(now.nodes[p].table, king, list)
      ensures false
    {
      StaysStale(s, events, members, king, list, p, k);
    }
  }

  // ----- How a king decides -----

  /** `king` is the member with the lowest ID that is a full peer, up long enough to
      advertise a list. */
  ghost predicate KingOf(nodes: map<PeerId, Node>, members: set<PeerId>, king: PeerId) {
    && king in members && members <= nodes.Keys
    && nodes[king].kind == FULL_PEER && nodes[king].half
    && (forall p :: p in members && nodes[p].kind == FULL_PEER ==> king <= p)
  }

  lemma StepGrows(s: Net, e: Event)
    requires Enabled(s, e)
    ensures Grown(s.nodes, Step(s, e).nodes)
  {
  }

  /** The event does not bring the king a heartbeat of its own with another list. */
  predicate NoOtherList(e: Event, king: PeerId, list: seq<PeerId>) {
    e.Deliver? && e.peer == king && e.packet.pid == king ==> e.packet.peers == list
  }

  lemma OwnStaleStep(s: Net, e: Event, king: PeerId, list: seq<PeerId>, k: Key)
    requires Sound(s) && Enabled(s, e) && king in s.nodes && NoOtherList(e, king, list)
    requires k in Stale(Step(s, e).nodes[king].table, king, list)
    ensures k in Stale(s.nodes[king].table, king, list) && !Hears(e, king, king, k.address)
  {
    hide TableOk, NodeNext, Stale, OrderedPeers;
    match e {
      case Deliver(packet, q, address, receivedAt) =>
        if q == king {
          HeardStale(s.nodes, q, s.nodes[q], address, packet, receivedAt, king, list);
        }
      case PulseAt(q, now) =>
        if q == king {
          SweptStale(s.nodes, q, s.nodes[q], now, king, list);
        }
      case _ =>
    }
  }

  lemma {:induction false} KingReigns(s: Net, events: seq<Event>, members: set<PeerId>, king: PeerId)
    requires IsRun(s, events) && KingOf(s.nodes, members, king)
    ensures KingOf(After(s, events).nodes, members, king)
    decreases |events|
  {
    if events != [] {
      hide Step, Enabled;
      var n := |events| - 1;
      KingReigns(s, events[..n], members, king);
      StepGrows(After(s, events[..n]), events[n]);
    }
  }

  /** A record the king has of itself that is still stale at the end of a run was
      stale at its start and was not refreshed during it. */
  lemma {:induction false} OwnStale(s: Net, events: seq<Event>, members: set<PeerId>, king: PeerId, list: seq<PeerId>, k: Key)
    requires Sound(s) && IsRun(s, events) && KingOf(s.nodes, members, king)
    requires forall e :: e in events ==> NoOtherList(e, king, list)
    requires king in After(s, events).nodes && k in Stale(After(s, events).nodes[king].table, king, list)
    ensures k in Stale(s.nodes[king].table, king, list) && !HeardIn(events, king, king, k.address)
    decreases |events|
  {
    if events != [] {
      hide Sound, Stale, Hears, Step, Enabled, NoOtherList;
      var n := |events| - 1;
      assert events == events[..n] + [events[n]];
      RunSound(s, events[..n]);
      KingReigns(s, events[..n], members, king);
      OwnStaleStep(After(s, events[..n]), events[n], king, list, k);
      OwnStale(s, events[..n], members, king, list, k);
    }
  }

  /** The lowest-ID full peer decides: over a run in which it hears no heartbeat of its
      own with another list, and hears its list by every address it had an older one
      from, once its older heartbeats are out of flight and it knows exactly the
      members, it has decided on that list. */
  lemma KingDecides(s: Net, events: seq<Event>, members: set<PeerId>, king: PeerId, list: seq<PeerId>)
    requires Sound(s) && IsRun(s, events) && KingOf(s.nodes, members, king) && ListsExactly(list, members)
    requires forall e :: e in events ==> NoOtherList(e, king, list)
    requires forall k :: k in Stale(s.nodes[king].table, king, list) ==> HeardIn(events, king, king, k.address)
    requires var now := After(s, events);
             && king in now.nodes && Known(now.nodes[king].table) == members
             && (forall packet :: packet in now.packets && packet.pid == king ==> packet.peers == list)
    ensures Decided(After(s, events), members, king, list)
  {
    hide Sound, HeardIn, NoOtherList, ListsExactly;
    KingReigns(s, events, members, king);
    var now := After(s, events);
    hide Stale;
    forall k | k in Stale(now.nodes[king].table, king, list)
      ensures false
    {
      OwnStale(s, events, members, king, list, k);
    }
    assert Stale(now.nodes[king].table, king, list) == {};
    NoneStale(now.nodes[king].table, king, list);
  }

  lemma SettledIsDecided(s: Net, members: set<PeerId>, king: PeerId, list: seq<PeerId>)
    requires Settled(s, members, king, list)
    ensures Decided(s, members, king, list)
    ensures forall p, k :: p in members ==> k !in Stale(s.nodes[p].table, king, list)
  {
  }

  /** Agreement lasts: while the membership is fixed, once every heartbeat of the
      lowest-ID full peer, in flight or recorded, carries one list, every list any
      member works out from then on is that list, so all of them name the same
      senior peer. */
  lemma AgreementLasts(s: Net, events: seq<Event>, members: set<PeerId>, king: PeerId, list: seq<PeerId>, p: PeerId)
    requires Sound(s) && Settled(s, members, king, list)
    requires IsRun(s, events) && FixedThroughout(s, events, members) && p in members
    ensures var now := After(s, events);
            p in now.nodes && OrderedPeers(now.nodes[p].table) == list
  {
    hide Sound, Stale, OrderedPeers;
    SettledIsDecided(s, members, king, list);
    AgreementIsReached(s, events, members, king, list);
    RunSound(s, events);
    SettledList(After(s, events), members, king, list, p);
  }
}
