/** The order of seniority a peer works out from its table: adopted from the
    kingmaker when there is one, and otherwise its own sort of the known peers. */
module SeniorityOrder {
  import opened Tables
  import opened Heartbeats

  // ----- The kingmaker -----

  /** PeersListMatchesIgnoreOrdering. Only sizes and membership are compared: it
      is a permutation of the known peers if it lists none of them twice. */
  predicate Matches(t: Table, peers: seq<PeerId>) {
    |peers| == |t.queues| && forall i :: 0 <= i < |peers| ==> peers[i] in t.queues
  }

  /** GetKingmakerPeerSource after the first `n` sources. */
  function KingmakerScan(t: Table, n: nat): Key
    requires n <= |t.order|
  {
    if n == 0 then NO_KEY
    else
      var best, k := KingmakerScan(t, n - 1), t.order[n - 1];
      if (best.pid == NO_PEER || k.pid < best.pid) && k in t.sources && Matches(t, t.sources[k].packet.peers) then k else best
  }

  function Kingmaker(t: Table): Key {
    KingmakerScan(t, |t.order|)
  }

  /** Every heartbeat came from a valid peer at a valid address. */
  ghost predicate ValidKeys(t: Table) {
    forall k :: k in t.sources ==> k.pid != NO_PEER && k.address != 0
  }

  ghost predicate Candidate(t: Table, k: Key) {
    k in t.sources && Matches(t, t.sources[k].packet.peers)
  }

  lemma {:induction false} ScanFindsLowest(t: Table, n: nat)
    requires n <= |t.order| && ValidKeys(t)
    ensures var r := KingmakerScan(t, n);
            && (r == NO_KEY || Candidate(t, r))
            && (forall i :: 0 <= i < n && Candidate(t, t.order[i]) ==> r != NO_KEY && r.pid <= t.order[i].pid)
  {
    if n > 0 {
      hide Matches;
      ScanFindsLowest(t, n - 1);
    }
  }

  /** The kingmaker is a source of the lowest-ID peer among those that advertise
      the peers known here; there is none exactly when nobody does. */
  lemma KingmakerIsLowest(t: Table)
    requires Indexed(t) && ValidKeys(t)
    ensures var r := Kingmaker(t);
            && (r == NO_KEY || Candidate(t, r))
            && (forall k :: Candidate(t, k) ==> r != NO_KEY && r.pid <= k.pid)
  {
    ScanFindsLowest(t, |t.order|);
    forall k | Candidate(t, k)
      ensures Kingmaker(t) != NO_KEY && Kingmaker(t).pid <= k.pid
    {
      assert k in t.order;
      var i :| 0 <= i < |t.order| && t.order[i] == k;
    }
  }

  // ----- Comparing two peers -----

  function Max(a: nat, b: nat): nat {
    if a < b then b else a
  }

  /** The largest value of a field over the heartbeats a peer was heard from by. */
  function MaxOver(t: Table, p: PeerId, q: seq<Address>, field: Packet -> nat): (r: nat)
    ensures forall a :: a in q && Key(a, p) in t.sources ==> field(t.sources[Key(a, p)].packet) <= r
    ensures r == 0 || exists a :: a in q && Key(a, p) in t.sources && field(t.sources[Key(a, p)].packet) == r
  {
    if q == [] then 0
    else
      var n := |q| - 1;
      var rest := MaxOver(t, p, q[..n], field);
      assert q == q[..n] + [q[n]];
      if Key(q[n], p) in t.sources then Max(rest, field(t.sources[Key(q[n], p)].packet)) else rest
  }

  const KIND: Packet -> nat := (packet: Packet) => packet.kind
  const UPTIME: Packet -> nat := (packet: Packet) => packet.uptime

  function KindOf(t: Table, p: PeerId): nat {
    MaxOver(t, p, QueueOf(t, p), KIND)
  }

  function UptimeOf(t: Table, p: PeerId): nat {
    MaxOver(t, p, QueueOf(t, p), UPTIME)
  }

  /** muscleCompare. */
  function Compare(a: nat, b: nat): int {
    if a < b then -1 else if a > b then 1 else 0
  }

  /** ComparePeerIDsBySeniority: larger type code first, longer uptime first,
      larger ID first. */
  function CompareBySeniority(t: Table, a: PeerId, b: PeerId): int {
    if a !in t.queues || b !in t.queues then 0
    else if KindOf(t, a) != KindOf(t, b) then -Compare(KindOf(t, a), KindOf(t, b))
    else if UptimeOf(t, a) != UptimeOf(t, b) then -Compare(UptimeOf(t, a), UptimeOf(t, b))
    else -Compare(a, b)
  }

  predicate Outranks(t: Table, a: PeerId, b: PeerId) {
    CompareBySeniority(t, a, b) < 0
  }

  /** On known peers it is a strict total order. */
  lemma SeniorityIsTotal(t: Table, a: PeerId, b: PeerId, c: PeerId)
    requires a in Known(t) && b in Known(t) && c in Known(t)
    ensures CompareBySeniority(t, a, b) == -CompareBySeniority(t, b, a)
    ensures CompareBySeniority(t, a, b) == 0 <==> a == b
    ensures Outranks(t, a, b) && Outranks(t, b, c) ==> Outranks(t, a, c)
  {
    hide MaxOver;
  }

  lemma OutranksIsStrict(t: Table, a: PeerId, b: PeerId, c: PeerId)
    requires a in Known(t) && b in Known(t) && c in Known(t)
    ensures !Outranks(t, a, a)
    ensures a != b ==> Outranks(t, a, b) != Outranks(t, b, a)
    ensures Outranks(t, a, b) && Outranks(t, b, c) ==> Outranks(t, a, c)
  {
    hide CompareBySeniority;
    SeniorityIsTotal(t, a, b, c);
    SeniorityIsTotal(t, a, a, a);
  }

  // ----- Sorting by it -----

  lemma {:induction false} HasMostSenior(t: Table, peers: set<PeerId>)
    requires peers != {} && peers <= Known(t)
    ensures exists p :: Tops(t, peers, p)
  {
    hide Outranks;
    var p :| p in peers;
    var rest := peers - {p};
    var c := p;
    if rest != {} {
      HasMostSenior(t, rest);
      var b :| Tops(t, rest, b);
      c := MoreSenior(t, rest, p, b);
    }
    forall q | q in peers && q != c
      ensures Outranks(t, c, q)
    {
      assert q == p || q in rest;
    }
    assert Tops(t, peers, c);
  }

  lemma MoreSenior(t: Table, rest: set<PeerId>, p: PeerId, b: PeerId) returns (c: PeerId)
    requires rest <= Known(t) && p in Known(t) && p !in rest && b in rest
    requires forall q :: q in rest && q != b ==> Outranks(t, b, q)
    ensures c == p || c == b
    ensures c != p ==> Outranks(t, c, p)
    ensures forall q :: q in rest && q != c ==> Outranks(t, c, q)
  {
    hide Outranks;
    OutranksIsStrict(t, p, b, b);
    c := if Outranks(t, p, b) then p else b;
    forall q | q in rest && q != c
      ensures Outranks(t, c, q)
    {
      OutranksIsStrict(t, p, b, q);
    }
  }

  predicate Tops(t: Table, peers: set<PeerId>, p: PeerId) {
    p in peers && forall q :: q in peers && q != p ==> Outranks(t, p, q)
  }

  lemma OnlyOneTops(t: Table, peers: set<PeerId>)
    requires peers <= Known(t)
    ensures forall p, q :: Tops(t, peers, p) && Tops(t, peers, q) ==> p == q
  {
    hide Outranks;
    forall p, q | Tops(t, peers, p) && Tops(t, peers, q)
      ensures p == q
    {
      OutranksIsStrict(t, p, q, p);
    }
  }

  function MostSenior(t: Table, peers: set<PeerId>): (p: PeerId)
    requires peers != {} && peers <= Known(t)
    ensures Tops(t, peers, p)
  {
    HasMostSenior(t, peers);
    OnlyOneTops(t, peers);
    hide Tops;
    var p :| p in peers && Tops(t, peers, p);
    p
  }

  ghost predicate Ranked(t: Table, s: seq<PeerId>) {
    forall i, j :: 0 <= i < j < |s| ==> Outranks(t, s[i], s[j])
  }

  /** SortByKey with that comparison: the given peers, most senior first. */
  function BySeniority(t: Table, peers: set<PeerId>): (s: seq<PeerId>)
    requires peers <= Known(t)
    ensures Ranked(t, s)
    ensures forall p :: p in s <==> p in peers
    ensures |s| == |peers|
  {
    if peers == {} then []
    else
      var p := MostSenior(t, peers);
      var rest := BySeniority(t, peers - {p});
      assert peers == (peers - {p}) + {p};
      assert forall j :: 0 <= j < |rest| ==> rest[j] in peers - {p};
      [p] + rest
  }

  /** What the order is: of two peers the earlier one has the larger type code; with
      the same type the longer uptime; with the same uptime too the larger ID. */
  lemma EarlierIsSenior(t: Table, i: nat, j: nat)
    requires i < j < |Known(t)|
    ensures var s := BySeniority(t, Known(t));
            || KindOf(t, s[i]) > KindOf(t, s[j])
            || (KindOf(t, s[i]) == KindOf(t, s[j]) && UptimeOf(t, s[i]) > UptimeOf(t, s[j]))
            || (KindOf(t, s[i]) == KindOf(t, s[j]) && UptimeOf(t, s[i]) == UptimeOf(t, s[j]) && s[i] > s[j])
  {
    hide MaxOver, BySeniority;
    var s := BySeniority(t, Known(t));
    assert Outranks(t, s[i], s[j]);
  }

  lemma RankedIsDistinct(t: Table, s: seq<PeerId>)
    requires Ranked(t, s)
    ensures Distinct(s)
  {
    forall i, j | 0 <= i < j < |s|
      ensures s[i] != s[j]
    {
      assert Outranks(t, s[i], s[j]);
    }
  }

  lemma NothingElse(s: seq<PeerId>, r: seq<PeerId>)
    requires forall p :: p in s <==> p in r
    ensures s == [] <==> r == []
  {
    assert s != [] ==> s[0] in r;
    assert r != [] ==> r[0] in s;
  }

  /** The sorted order is the only one: whoever sorts, and in whatever table order
      the sort starts, the same known facts give the same list. */
  lemma {:induction false} RankedIsUnique(t: Table, s: seq<PeerId>, r: seq<PeerId>)
    requires Ranked(t, s) && Ranked(t, r)
    requires forall p :: p in s <==> p in r
    requires forall p :: p in s ==> p in Known(t)
    ensures s == r
  {
    hide CompareBySeniority;
    NothingElse(s, r);
    if s != [] {
      SameHead(t, s, r);
      SameTail(t, s, r);
      RankedIsUnique(t, s[1..], r[1..]);
      assert s == [s[0]] + s[1..] && r == [r[0]] + r[1..];
    }
  }

  lemma SameHead(t: Table, s: seq<PeerId>, r: seq<PeerId>)
    requires Ranked(t, s) && Ranked(t, r) && s != [] && r != []
    requires forall p :: p in s <==> p in r
    requires forall p :: p in s ==> p in Known(t)
    ensures s[0] == r[0]
  {
    hide Outranks;
    assert s[0] in r && r[0] in s;
    var i :| 0 <= i < |r| && r[i] == s[0];
    var j :| 0 <= j < |s| && s[j] == r[0];
    OutranksIsStrict(t, s[0], r[0], s[0]);
  }

  lemma SameTail(t: Table, s: seq<PeerId>, r: seq<PeerId>)
    requires Ranked(t, s) && Ranked(t, r) && s != [] && r != [] && s[0] == r[0]
    requires forall p :: p in s <==> p in r
    ensures forall p :: p in s[1..] <==> p in r[1..]
  {
    hide CompareBySeniority;
    RankedIsDistinct(t, s);
    RankedIsDistinct(t, r);
    forall p
      ensures p in s[1..] <==> p in r[1..]
    {
      assert p in s[1..] <==> p in s && p != s[0];
      assert p in r[1..] <==> p in r && p != r[0];
    }
  }

  // ----- The ordered list -----

  /** CalculateOrderedPeersList. */
  function OrderedPeers(t: Table): seq<PeerId> {
    var km := Kingmaker(t);
    if km.pid != NO_PEER && km.address != 0 then
      if km in t.sources then t.sources[km].packet.peers else []
    else BySeniority(t, Known(t))
  }

  /** Nobody heard advertises a list that names a peer twice. */
  ghost predicate DistinctLists(t: Table) {
    forall k :: k in t.sources ==> Distinct(t.sources[k].packet.peers)
  }

  ghost predicate ListsExactly(s: seq<PeerId>, peers: set<PeerId>) {
    Distinct(s) && forall p :: p in s <==> p in peers
  }

  lemma {:induction false} DistinctAndAsMany(s: seq<PeerId>, peers: set<PeerId>)
    requires Distinct(s) && |s| == |peers| && forall i :: 0 <= i < |s| ==> s[i] in peers
    ensures ListsExactly(s, peers)
  {
    if s == [] {
      assert peers == {};
    } else {
      var rest := s[1..];
      forall i | 0 <= i < |rest|
        ensures rest[i] in peers - {s[0]}
      {
        assert rest[i] == s[i + 1];
      }
      DistinctAndAsMany(rest, peers - {s[0]});
      assert s == [s[0]] + rest;
    }
  }

  /** The list a peer works out names each peer it knows exactly once. */
  lemma OrderedPeersIsPermutation(t: Table)
    requires Indexed(t) && ValidKeys(t) && DistinctLists(t)
    ensures ListsExactly(OrderedPeers(t), Known(t))
  {
    hide BySeniority;
    KingmakerIsLowest(t);
    var km := Kingmaker(t);
    if km == NO_KEY {
      RankedIsDistinct(t, BySeniority(t, Known(t)));
    } else {
      DistinctAndAsMany(t.sources[km].packet.peers, Known(t));
    }
  }

  // ----- Full peers and junior-only peers -----

  /** Sorted locally, the head of the list is a full peer exactly when every known
      peer is one: the larger type code sorts first. */
  lemma HeadIsFullIffAllAre(t: Table)
    requires Known(t) != {}
    ensures var s := BySeniority(t, Known(t));
            KindOf(t, s[0]) == FULL_PEER <==> forall p :: p in Known(t) ==> KindOf(t, p) == FULL_PEER
  {
    hide MaxOver, BySeniority;
    var s := BySeniority(t, Known(t));
    forall p | p in Known(t)
      ensures KindOf(t, p) <= KindOf(t, s[0])
    {
      assert p in s;
      var i :| 0 <= i < |s| && s[i] == p;
      assert i > 0 ==> Outranks(t, s[0], s[i]);
    }
  }

  lemma KindOfOneSource(t: Table, p: PeerId, a: Address)
    requires p in t.queues && t.queues[p] == [a] && Key(a, p) in t.sources
    ensures KindOf(t, p) == t.sources[Key(a, p)].packet.kind
  {
    assert MaxOver(t, p, [a][..0], KIND) == 0;
  }

  /** What a full peer has heard of itself and of a junior-only peer. */
  const MIXED_PEERS := Table(
    [Key(5, 1), Key(6, 2)],
    map[Key(5, 1) := Source(Packet(1, FULL_PEER, 0, 9, true, []), None),
        Key(6, 2) := Source(Packet(2, JUNIOR_ONLY, 0, 10, true, []), Some(50))],
    map[1 := [5], 2 := [6]])

  lemma MixedPeersIndexed()
    ensures Indexed(MIXED_PEERS) && ValidKeys(MIXED_PEERS)
    ensures Known(MIXED_PEERS) == {1, 2} && KindOf(MIXED_PEERS, 1) == FULL_PEER && KindOf(MIXED_PEERS, 2) == JUNIOR_ONLY
  {
    hide MaxOver;
    var t := MIXED_PEERS;
    assert t.queues[1] == [5] && t.queues[2] == [6];
    KindOfOneSource(t, 1, 5);
    KindOfOneSource(t, 2, 6);
  }

  lemma NobodyMixedLists()
    ensures forall k :: !Candidate(MIXED_PEERS, k)
  {
    assert |map[1 := [5], 2 := [6]]| == 2;
  }

  /** One full peer and one junior-only peer: the junior-only one comes first in the
      list worked out. */
  lemma JuniorOnlyFirstExample()
    ensures Known(MIXED_PEERS) == {1, 2} && KindOf(MIXED_PEERS, 1) == FULL_PEER && KindOf(MIXED_PEERS, 2) == JUNIOR_ONLY
    ensures OrderedPeers(MIXED_PEERS) == [2, 1]
  {
    hide MaxOver, BySeniority, MIXED_PEERS, KindOf, Kingmaker, Matches, Indexed, Outranks, Candidate;
    MixedSorted();
    MixedPeersIndexed();
    KingmakerIsLowest(MIXED_PEERS);
    NobodyMixedLists();
    var s := BySeniority(MIXED_PEERS, Known(MIXED_PEERS));
    RankedIsDistinct(MIXED_PEERS, s);
    assert s[0] in s && s[1] in s && s[0] != s[1];
    assert s == [2, 1];
  }

  lemma MixedSorted()
    ensures Known(MIXED_PEERS) == {1, 2}
    ensures KindOf(MIXED_PEERS, BySeniority(MIXED_PEERS, Known(MIXED_PEERS))[0]) == JUNIOR_ONLY
  {
    hide MaxOver, BySeniority, MIXED_PEERS, KindOf;
    MixedPeersIndexed();
    HeadIsFullIffAllAre(MIXED_PEERS);
    var s := BySeniority(MIXED_PEERS, Known(MIXED_PEERS));
    assert s[0] in s && s[0] in {1, 2};
    assert 2 in Known(MIXED_PEERS);
  }
}
