/** The point at which agreement holds is reached: a run from nothing of two full
    peers, in which the one with the lower ID lists the one with the longer uptime
    first, and both come to name that one senior. */
module SeniorityExample {
  import opened Heartbeats
  import opened SeniorityOrder
  import opened Seniority

  const TIMEOUT: nat := 50
  const FIRST := Packet(1, FULL_PEER, 0, 9, true, [])
  const SECOND := Packet(2, FULL_PEER, 0, 10, true, [])
  const LISTING := Packet(1, FULL_PEER, 0, 9, true, [2, 1])

  /** What peer `q` records of a heartbeat heard at time 0. */
  function Recorded(q: PeerId, packet: Packet): Source {
    Source(packet, ExpiryOf(q, TIMEOUT, packet.pid, 0))
  }

  function OneHeard(q: PeerId): Table {
    Table([Key(5, 1)], map[Key(5, 1) := Recorded(q, FIRST)], map[1 := [5]])
  }

  function BothHeard(q: PeerId, first: Packet): Table {
    Table([Key(5, 1), Key(6, 2)],
          map[Key(5, 1) := Recorded(q, first), Key(6, 2) := Recorded(q, SECOND)],
          map[1 := [5], 2 := [6]])
  }

  function Peer(t: Table): Node {
    Node(FULL_PEER, 0, TIMEOUT, true, t)
  }

  lemma HearsFirst(q: PeerId)
    ensures Next(NOTHING_HEARD, q, TIMEOUT, Arrival(5, FIRST, 0)) == OneHeard(q)
  {
    var r := Introduce(NOTHING_HEARD, Key(5, 1), Recorded(q, FIRST));
    assert r.order == [Key(5, 1)] && r.queues[1] == [5];
  }

  lemma HearsSecond(q: PeerId)
    ensures Next(OneHeard(q), q, TIMEOUT, Arrival(6, SECOND, 0)) == BothHeard(q, FIRST)
  {
    var r := Introduce(OneHeard(q), Key(6, 2), Recorded(q, SECOND));
    assert r.order == [Key(5, 1), Key(6, 2)] && r.queues[2] == [6];
    assert r.sources == BothHeard(q, FIRST).sources && r.queues == BothHeard(q, FIRST).queues;
  }

  lemma HearsListing(q: PeerId)
    ensures Next(BothHeard(q, FIRST), q, TIMEOUT, Arrival(5, LISTING, 0)) == BothHeard(q, LISTING)
  {
    var t := BothHeard(q, FIRST);
    assert t.sources[Key(5, 1) := Recorded(q, LISTING)] == BothHeard(q, LISTING).sources;
  }

  lemma BothIndexed(q: PeerId, first: Packet)
    requires first.pid == 1
    ensures Indexed(BothHeard(q, first)) && ValidKeys(BothHeard(q, first)) && Known(BothHeard(q, first)) == {1, 2}
  {
  }

  lemma UptimeOfOneSource(t: Table, p: PeerId, a: Address)
    requires p in t.queues && t.queues[p] == [a] && Key(a, p) in t.sources
    ensures UptimeOf(t, p) == t.sources[Key(a, p)].packet.uptime
  {
    assert MaxOver(t, p, [a][..0], UPTIME) == 0;
  }

  /** Nobody advertises a list yet, so the first peer sorts for itself. */
  lemma FirstLists(q: PeerId)
    ensures OrderedPeers(BothHeard(q, FIRST)) == [2, 1]
  {
    var t := BothHeard(q, FIRST);
    BothIndexed(q, FIRST);
    KingmakerIsLowest(t);
    NoCandidate(q);
    SecondOutranks(q);
    hide MaxOver, BySeniority, Outranks, BothHeard;
    var s := BySeniority(t, Known(t));
    OutranksIsStrict(t, 2, 1, 1);
    assert s[0] in s && s[1] in s && Outranks(t, s[0], s[1]);
    OutranksIsStrict(t, s[0], s[1], s[1]);
  }

  lemma NoCandidate(q: PeerId)
    ensures forall k :: !Candidate(BothHeard(q, FIRST), k)
  {
    assert |map[1 := [5], 2 := [6]]| == 2;
  }

  lemma SecondOutranks(q: PeerId)
    ensures Outranks(BothHeard(q, FIRST), 2, 1)
  {
    hide MaxOver;
    var t := BothHeard(q, FIRST);
    KindOfOneSource(t, 1, 5);
    KindOfOneSource(t, 2, 6);
    UptimeOfOneSource(t, 1, 5);
    UptimeOfOneSource(t, 2, 6);
  }

  lemma NothingListed()
    ensures OrderedPeers(NOTHING_HEARD) == []
  {
  }

  /** Both peers are up and have sent their first heartbeats. */
  lemma BothSent()
    ensures Reachable(Net(map[1 := Peer(NOTHING_HEARD), 2 := Peer(NOTHING_HEARD)], {FIRST, SECOND}))
  {
    hide Reachable, OrderedPeers;
    NobodyIsReachable();
    NothingListed();
    StepIsReachable(NOBODY, Join(1, FULL_PEER, 0, TIMEOUT));
    var a := Step(NOBODY, Join(1, FULL_PEER, 0, TIMEOUT));
    StepIsReachable(a, Join(2, FULL_PEER, 0, TIMEOUT));
    var b := Step(a, Join(2, FULL_PEER, 0, TIMEOUT));
    StepIsReachable(b, HalfAttach(1));
    var c := Step(b, HalfAttach(1));
    StepIsReachable(c, HalfAttach(2));
    var d := Step(c, HalfAttach(2));
    StepIsReachable(d, Send(1, 9, true));
    var e := Step(d, Send(1, 9, true));
    StepIsReachable(e, Send(2, 10, true));
    var f := Step(e, Send(2, 10, true));
    assert f == Net(map[1 := Peer(NOTHING_HEARD), 2 := Peer(NOTHING_HEARD)], {FIRST, SECOND});
  }

  lemma Delivered(s: Net, packet: Packet, q: PeerId, address: Address, t: Table)
    requires Reachable(s) && packet in s.packets && q in s.nodes && address != 0
    requires s.nodes[q].timeout == TIMEOUT && Next(s.nodes[q].table, q, TIMEOUT, Arrival(address, packet, 0)) == t
    ensures Reachable(s.(nodes := s.nodes[q := s.nodes[q].(table := t)]))
  {
    StepIsReachable(s, Deliver(packet, q, address, 0));
  }

  /** Each has heard both. */
  lemma BothHeardThem()
    ensures Reachable(Net(map[1 := Peer(BothHeard(1, FIRST)), 2 := Peer(BothHeard(2, FIRST))], {FIRST, SECOND}))
  {
    hide Reachable, Next, BothHeard, OneHeard;
    BothSent();
    HearsFirst(1);
    HearsFirst(2);
    HearsSecond(1);
    HearsSecond(2);
    var packets := {FIRST, SECOND};
    var a := Net(map[1 := Peer(NOTHING_HEARD), 2 := Peer(NOTHING_HEARD)], packets);
    Delivered(a, FIRST, 1, 5, OneHeard(1));
    var b := Net(map[1 := Peer(OneHeard(1)), 2 := Peer(NOTHING_HEARD)], packets);
    assert a.nodes[1 := Peer(OneHeard(1))] == b.nodes;
    Delivered(b, SECOND, 1, 6, BothHeard(1, FIRST));
    var c := Net(map[1 := Peer(BothHeard(1, FIRST)), 2 := Peer(NOTHING_HEARD)], packets);
    assert b.nodes[1 := Peer(BothHeard(1, FIRST))] == c.nodes;
    Delivered(c, FIRST, 2, 5, OneHeard(2));
    var d := Net(map[1 := Peer(BothHeard(1, FIRST)), 2 := Peer(OneHeard(2))], packets);
    assert c.nodes[2 := Peer(OneHeard(2))] == d.nodes;
    Delivered(d, SECOND, 2, 6, BothHeard(2, FIRST));
    assert d.nodes[2 := Peer(BothHeard(2, FIRST))] == map[1 := Peer(BothHeard(1, FIRST)), 2 := Peer(BothHeard(2, FIRST))];
  }

  function Agreed(): Net {
    Net(map[1 := Peer(BothHeard(1, LISTING)), 2 := Peer(BothHeard(2, LISTING))], {SECOND, LISTING})
  }

  /** The first peer's list has gone out and has been heard, its older heartbeat is
      lost. */
  lemma ListIsHeard()
    ensures Reachable(Agreed())
  {
    hide Reachable, Next, BothHeard, OrderedPeers;
    BothHeardThem();
    FirstLists(1);
    HearsListing(1);
    HearsListing(2);
    var a := Net(map[1 := Peer(BothHeard(1, FIRST)), 2 := Peer(BothHeard(2, FIRST))], {FIRST, SECOND});
    StepIsReachable(a, Send(1, 9, true));
    var b := a.(packets := {FIRST, SECOND, LISTING});
    assert Step(a, Send(1, 9, true)) == b;
    StepIsReachable(b, Lose(FIRST));
    var c := b.(packets := {SECOND, LISTING});
    assert Step(b, Lose(FIRST)) == c;
    Delivered(c, LISTING, 1, 5, BothHeard(1, LISTING));
    var d := c.(nodes := map[1 := Peer(BothHeard(1, LISTING)), 2 := Peer(BothHeard(2, FIRST))]);
    assert c.nodes[1 := Peer(BothHeard(1, LISTING))] == d.nodes;
    Delivered(d, LISTING, 2, 5, BothHeard(2, LISTING));
    assert d.nodes[2 := Peer(BothHeard(2, LISTING))] == Agreed().nodes;
  }

  lemma NothingStale(q: PeerId)
    ensures Stale(BothHeard(q, LISTING), 1, [2, 1]) == {} && CarriesOnly(BothHeard(q, LISTING), 1, [2, 1])
  {
  }

  /** So there is a reachable state in which the two have settled on the list that
      names peer 2 senior. */
  lemma AgreementIsReachable()
    ensures Reachable(Agreed()) && Settled(Agreed(), {1, 2}, 1, [2, 1])
  {
    hide Reachable, Decided;
    ListIsHeard();
    AgreedIsDecided();
    BothIndexed(1, LISTING);
    BothIndexed(2, LISTING);
    hide Indexed, BothHeard;
    NothingStale(1);
    NothingStale(2);
  }

  lemma AgreedIsDecided()
    ensures Decided(Agreed(), {1, 2}, 1, [2, 1])
  {
    BothIndexed(1, LISTING);
    hide Indexed, BothHeard;
    NothingStale(1);
    assert ListsExactly([2, 1], {1, 2});
  }

  // ----- A full peer and a junior-only one -----

  const JUNIOR := Packet(2, JUNIOR_ONLY, 0, 10, true, [])

  lemma HearsJunior()
    ensures Next(OneHeard(1), 1, TIMEOUT, Arrival(6, JUNIOR, 0)) == MIXED_PEERS
  {
    var r := Introduce(OneHeard(1), Key(6, 2), Recorded(1, JUNIOR));
    assert r.order == [Key(5, 1), Key(6, 2)] && r.queues[2] == [6];
    assert r.sources == MIXED_PEERS.sources && r.queues == MIXED_PEERS.queues;
  }

  lemma MixedSent()
    ensures Reachable(Net(map[1 := Peer(NOTHING_HEARD), 2 := Node(JUNIOR_ONLY, 0, TIMEOUT, false, NOTHING_HEARD)], {FIRST, JUNIOR}))
  {
    hide Reachable, OrderedPeers;
    NobodyIsReachable();
    NothingListed();
    StepIsReachable(NOBODY, Join(1, FULL_PEER, 0, TIMEOUT));
    var a := Step(NOBODY, Join(1, FULL_PEER, 0, TIMEOUT));
    StepIsReachable(a, Join(2, JUNIOR_ONLY, 0, TIMEOUT));
    var b := Step(a, Join(2, JUNIOR_ONLY, 0, TIMEOUT));
    StepIsReachable(b, HalfAttach(1));
    var c := Step(b, HalfAttach(1));
    StepIsReachable(c, Send(1, 9, true));
    var d := Step(c, Send(1, 9, true));
    StepIsReachable(d, Send(2, 10, true));
    var e := Step(d, Send(2, 10, true));
    assert e == Net(map[1 := Peer(NOTHING_HEARD), 2 := Node(JUNIOR_ONLY, 0, TIMEOUT, false, NOTHING_HEARD)], {FIRST, JUNIOR});
  }

  /** A run from nothing leads to that table, from which the full peer works out a
      list with the junior-only peer at its head. */
  lemma MixedIsReachable()
    ensures exists s :: Reachable(s) && 1 in s.nodes && s.nodes[1].kind == FULL_PEER && s.nodes[1].table == MIXED_PEERS
    ensures OrderedPeers(MIXED_PEERS) == [2, 1] && KindOf(MIXED_PEERS, 2) == JUNIOR_ONLY
  {
    JuniorOnlyFirstExample();
    hide Reachable, Next, MIXED_PEERS, OneHeard, OrderedPeers, KindOf;
    MixedSent();
    HearsFirst(1);
    HearsJunior();
    var a := Net(map[1 := Peer(NOTHING_HEARD), 2 := Node(JUNIOR_ONLY, 0, TIMEOUT, false, NOTHING_HEARD)], {FIRST, JUNIOR});
    Delivered(a, FIRST, 1, 5, OneHeard(1));
    var b := a.(nodes := a.nodes[1 := Peer(OneHeard(1))]);
    Delivered(b, JUNIOR, 1, 6, MIXED_PEERS);
    var c := b.(nodes := b.nodes[1 := Peer(MIXED_PEERS)]);
    assert Reachable(c) && c.nodes[1].table == MIXED_PEERS;
  }
}
