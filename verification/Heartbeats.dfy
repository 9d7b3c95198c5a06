/** What a peer's heartbeat thread knows about the others: the online sources it
    hears heartbeats from, the index of those sources by peer, and the order of
    seniority it works out from them. */
module Heartbeats {
  import opened Tables

  /** A 128-bit peer ID; its comparison is that of the number. 0 is not valid. */
  type PeerId = nat

  /** An IP address and port. 0 is not valid. */
  type Address = nat

  const NO_PEER: PeerId := 0
  const FULL_PEER: nat := 0
  const JUNIOR_ONLY: nat := 1

  /** A heartbeat. `identity` stands for the other fields a receiver compares (the
      system key, the TCP port and the attributes); `peers` is the advertised
      order of seniority. */
  datatype Packet = Packet(pid: PeerId, kind: nat, identity: nat, uptime: nat, attached: bool, peers: seq<PeerId>)

  /** The last heartbeat from a source and when it expires (None: never). */
  datatype Source = Source(packet: Packet, expires: Option<nat>)

  datatype Key = Key(address: Address, pid: PeerId)

  const NO_KEY := Key(0, NO_PEER)

  /** _onlineSources, with its iteration order, and _peerIDToIPAddresses. */
  datatype Table = Table(order: seq<Key>, sources: map<Key, Source>, queues: map<PeerId, seq<Address>>)

  const NOTHING_HEARD := Table([], map[], map[])

  function Known(t: Table): set<PeerId> {
    t.queues.Keys
  }

  /** The index: a source is in the table exactly when its address is in its
      peer's queue; no queue is empty or lists an address twice. */
  ghost predicate Indexed(t: Table) {
    && Distinct(t.order)
    && (forall k :: k in t.order <==> k in t.sources)
    && (forall k :: k in t.sources ==> t.sources[k].packet.pid == k.pid)
    && (forall k: Key :: k in t.sources <==> k.pid in t.queues && k.address in t.queues[k.pid])
    && (forall p :: p in t.queues ==> t.queues[p] != [] && Distinct(t.queues[p]))
  }

  // ----- Sources come and go -----

  /** RemoveFirstInstanceOf. */
  function Without<T(==)>(q: seq<T>, x: T): (r: seq<T>)
    ensures forall y :: y in q && y != x ==> y in r
    ensures forall y :: y in r ==> y in q
    ensures x !in q ==> r == q
    ensures |q| - 1 <= |r| <= |q|
  {
    if q == [] then []
    else if q[0] == x then q[1..]
    else [q[0]] + Without(q[1..], x)
  }

  lemma {:induction false} WithoutDistinct<T(!new)>(q: seq<T>, x: T)
    requires Distinct(q)
    ensures Distinct(Without(q, x)) && x !in Without(q, x)
  {
    if q != [] {
      WithoutDistinct(q[1..], x);
      assert q[0] !in q[1..];
    }
  }

  /** Only the first instance goes; the others stay in their order. */
  lemma {:induction false} WithoutTakesFirst<T(!new)>(q: seq<T>, x: T, i: nat)
    requires i < |q| && q[i] == x && x !in q[..i]
    ensures Without(q, x) == q[..i] + q[i + 1..]
  {
    if i > 0 {
      assert q[0] in q[..i] && q[..i] == [q[0]] + q[1..][..i - 1];
      WithoutTakesFirst(q[1..], x, i - 1);
    }
  }

  function Expire(t: Table, k: Key): Table {
    if k !in t.sources then t
    else
      var p := t.sources[k].packet.pid;
      Table(Without(t.order, k), t.sources - {k},
            if p !in t.queues || k.address !in t.queues[p] then t.queues
            else if Without(t.queues[p], k.address) == [] then t.queues - {p}
            else t.queues[p := Without(t.queues[p], k.address)])
  }

  function QueueOf(t: Table, p: PeerId): seq<Address> {
    if p in t.queues then t.queues[p] else []
  }

  function Introduce(t: Table, k: Key, s: Source): Table {
    Table(if k in t.sources then t.order else t.order + [k], t.sources[k := s],
          t.queues[s.packet.pid := QueueOf(t, s.packet.pid) + [k.address]])
  }

  predicate SameIdentity(a: Packet, b: Packet) {
    a.kind == b.kind && a.pid == b.pid && a.identity == b.identity
  }

  /** A heartbeat arrives: the source is refreshed in place, or replaced by a new
      one when the peer is not what it was. */
  function Heard(t: Table, k: Key, s: Source): Table {
    if k in t.sources && SameIdentity(s.packet, t.sources[k].packet) then t.(sources := t.sources[k := s])
    else Introduce(Expire(t, k), k, s)
  }

  lemma ExpireIndexed(t: Table, k: Key)
    requires Indexed(t)
    ensures Indexed(Expire(t, k)) && Expire(t, k).sources == t.sources - {k}
  {
    if k in t.sources {
      WithoutDistinct(t.order, k);
      WithoutDistinct(t.queues[k.pid], k.address);
      var q := Without(t.queues[k.pid], k.address);
      assert q == [] ==> forall a :: a in t.queues[k.pid] ==> a == k.address;
    }
  }

  lemma IntroduceIndexed(t: Table, k: Key, s: Source)
    requires Indexed(t) && k !in t.sources && s.packet.pid == k.pid
    ensures Indexed(Introduce(t, k, s))
  {
  }

  lemma HeardIndexed(t: Table, k: Key, s: Source)
    requires Indexed(t) && s.packet.pid == k.pid
    ensures Indexed(Heard(t, k, s)) && Heard(t, k, s).sources == t.sources[k := s]
    ensures Known(Heard(t, k, s)) == Known(t) + {k.pid}
  {
    hide Indexed, Expire, Introduce;
    var r := Heard(t, k, s);
    if k in t.sources && SameIdentity(s.packet, t.sources[k].packet) {
      RefreshIndexed(t, k, s);
    } else {
      ExpireIndexed(t, k);
      IntroduceIndexed(Expire(t, k), k, s);
      ReplaceSources(t, k, s);
    }
    KnownAre(t);
    KnownAre(r);
    assert k in r.sources;
    assert forall a: Address, p: PeerId :: p != k.pid ==> (Key(a, p) in r.sources <==> Key(a, p) in t.sources);
  }

  lemma RefreshIndexed(t: Table, k: Key, s: Source)
    requires Indexed(t) && k in t.sources && s.packet.pid == k.pid
    ensures Indexed(t.(sources := t.sources[k := s]))
  {
  }

  lemma ReplaceSources(t: Table, k: Key, s: Source)
    ensures Introduce(Expire(t, k), k, s).sources == t.sources[k := s]
  {
  }

  /** The known peers are those with a source online. */
  lemma KnownAre(t: Table)
    requires Indexed(t)
    ensures forall p :: p in Known(t) <==> exists a: Address :: Key(a, p) in t.sources
  {
    forall p | p in Known(t)
      ensures exists a: Address :: Key(a, p) in t.sources
    {
      assert t.queues[p][0] in t.queues[p] && Key(t.queues[p][0], p) in t.sources;
    }
  }

  // ----- Expiry -----

  predicate Expired(s: Source, now: nat) {
    s.expires.Some? && now >= s.expires.value
  }

  /** The pass over the sources, so far as the first `n` of `keys`. */
  function SweepFirst(t: Table, keys: seq<Key>, now: nat, n: nat): Table
    requires n <= |keys|
  {
    if n == 0 then t
    else
      var r := SweepFirst(t, keys, now, n - 1);
      if keys[n - 1] in r.sources && Expired(r.sources[keys[n - 1]], now) then Expire(r, keys[n - 1]) else r
  }

  function Sweep(t: Table, now: nat): Table {
    SweepFirst(t, t.order, now, |t.order|)
  }

  lemma {:induction false} SweepFirstExact(t: Table, keys: seq<Key>, now: nat, n: nat)
    requires Indexed(t) && n <= |keys|
    ensures var r := SweepFirst(t, keys, now, n);
            && Indexed(r)
            && (forall k :: k in r.sources ==> k in t.sources && r.sources[k] == t.sources[k])
            && (forall k :: k in t.sources && k !in r.sources ==> Expired(t.sources[k], now))
            && (forall i :: 0 <= i < n ==> keys[i] in r.sources ==> !Expired(t.sources[keys[i]], now))
  {
    if n > 0 {
      hide Indexed;
      SweepFirstExact(t, keys, now, n - 1);
      ExpireIndexed(SweepFirst(t, keys, now, n - 1), keys[n - 1]);
    }
  }

  /** A sweep keeps exactly the sources that have not expired, as they were, and
      the index with them; a peer stays known exactly while it has one. */
  lemma SweepExact(t: Table, now: nat)
    requires Indexed(t)
    ensures var r := Sweep(t, now);
            && Indexed(r)
            && (forall k :: k in r.sources <==> k in t.sources && !Expired(t.sources[k], now))
            && (forall k :: k in r.sources ==> r.sources[k] == t.sources[k])
            && (forall p :: p in Known(r) <==> exists a: Address :: Key(a, p) in t.sources && !Expired(t.sources[Key(a, p)], now))
  {
    var r := Sweep(t, now);
    SweepFirstExact(t, t.order, now, |t.order|);
    forall k | k in r.sources
      ensures !Expired(t.sources[k], now)
    {
      assert k in t.order;
      var i :| 0 <= i < |t.order| && t.order[i] == k;
    }
    KnownAre(r);
  }

  // ----- Every run of one heartbeat thread -----

  /** What can happen to the table: a heartbeat arrives, or a pulse sweeps it. */
  datatype Input = Arrival(address: Address, packet: Packet, receivedAt: nat) | Pulse(now: nat)

  /** The local peer's own heartbeats never expire. */
  function ExpiryOf(local: PeerId, timeout: nat, p: PeerId, receivedAt: nat): Option<nat> {
    if p == local then None else Some(receivedAt + timeout)
  }

  function Next(t: Table, local: PeerId, timeout: nat, input: Input): Table {
    match input
    case Arrival(address, packet, receivedAt) =>
      Heard(t, Key(address, packet.pid), Source(packet, ExpiryOf(local, timeout, packet.pid, receivedAt)))
    case Pulse(now) => Sweep(t, now)
  }

  function TableAfter(local: PeerId, timeout: nat, inputs: seq<Input>): Table {
    if inputs == [] then NOTHING_HEARD
    else Next(TableAfter(local, timeout, inputs[..|inputs| - 1]), local, timeout, inputs[|inputs| - 1])
  }

  ghost predicate OnlyLocalIsForever(t: Table, local: PeerId) {
    forall k :: k in t.sources ==> (t.sources[k].expires == None <==> k.pid == local)
  }

  lemma NextKeeps(t: Table, local: PeerId, timeout: nat, input: Input)
    requires Indexed(t) && OnlyLocalIsForever(t, local)
    ensures var r := Next(t, local, timeout, input);
            && Indexed(r) && OnlyLocalIsForever(r, local)
            && (forall k :: k in t.sources && k.pid == local ==> k in r.sources)
  {
    match input {
      case Arrival(address, packet, receivedAt) =>
        HeardIndexed(t, Key(address, packet.pid), Source(packet, ExpiryOf(local, timeout, packet.pid, receivedAt)));
      case Pulse(now) =>
        SweepExact(t, now);
    }
  }

  /** In every reachable state the index is right, and whatever the local peer was
      once heard from it is known by for good: its sources never time out. */
  lemma {:induction false} ReachableIndexed(local: PeerId, timeout: nat, inputs: seq<Input>, n: nat)
    requires n <= |inputs|
    ensures var t := TableAfter(local, timeout, inputs);
            && Indexed(t) && OnlyLocalIsForever(t, local)
            && (forall k :: k in TableAfter(local, timeout, inputs[..n]).sources && k.pid == local ==> k in t.sources)
    decreases |inputs|
  {
    if n == |inputs| {
      assert inputs[..n] == inputs;
    }
    if inputs != [] {
      var front := inputs[..|inputs| - 1];
      ReachableIndexed(local, timeout, front, if n < |inputs| then n else 0);
      assert n < |inputs| ==> front[..n] == inputs[..n];
      NextKeeps(TableAfter(local, timeout, front), local, timeout, inputs[|inputs| - 1]);
    }
  }

  /** After each pulse no source past its expiry remains. */
  lemma NothingExpiredAfterPulse(local: PeerId, timeout: nat, inputs: seq<Input>, now: nat, k: Key)
    requires k in TableAfter(local, timeout, inputs + [Pulse(now)]).sources
    ensures !Expired(TableAfter(local, timeout, inputs + [Pulse(now)]).sources[k], now)
  {
    assert (inputs + [Pulse(now)])[..|inputs|] == inputs;
    ReachableIndexed(local, timeout, inputs, 0);
    SweepExact(TableAfter(local, timeout, inputs), now);
  }

  // ----- Who is online, by when each source was last heard -----

  predicate IsFrom(input: Input, k: Key) {
    input.Arrival? && input.address == k.address && input.packet.pid == k.pid
  }

  /** The last heartbeat from the source is the `i`-th input. */
  ghost predicate LastHeard(inputs: seq<Input>, k: Key, i: nat) {
    && i < |inputs| && IsFrom(inputs[i], k)
    && forall j :: i < j < |inputs| ==> !IsFrom(inputs[j], k)
  }

  /** No pulse since the `i`-th input came as late as the timeout after it. */
  ghost predicate StillFresh(timeout: nat, inputs: seq<Input>, i: nat)
    requires i < |inputs| && inputs[i].Arrival?
  {
    forall j :: i < j < |inputs| && inputs[j].Pulse? ==> inputs[j].now < inputs[i].receivedAt + timeout
  }

  /** A source whose last heartbeat was the `i`-th input is online exactly while it is
      fresh, or for good if it is the local peer's own, and it is on record with
      that heartbeat. */
  lemma {:induction false} OnlineWhileFresh(local: PeerId, timeout: nat, inputs: seq<Input>, k: Key, i: nat)
    requires LastHeard(inputs, k, i)
    ensures var t := TableAfter(local, timeout, inputs);
            && (k in t.sources <==> k.pid == local || StillFresh(timeout, inputs, i))
            && (k in t.sources ==> t.sources[k].packet == inputs[i].packet
                                   && (k.pid != local ==> t.sources[k].expires == Some(inputs[i].receivedAt + timeout)))
    decreases |inputs|
  {
    hide Indexed, Sweep, Heard;
    var n := |inputs| - 1;
    var front := inputs[..n];
    ReachableIndexed(local, timeout, front, 0);
    var t := TableAfter(local, timeout, front);
    match inputs[n] {
      case Arrival(address, packet, receivedAt) =>
        HeardIndexed(t, Key(address, packet.pid), Source(packet, ExpiryOf(local, timeout, packet.pid, receivedAt)));
      case Pulse(now) =>
        SweepExact(t, now);
    }
    if i < n {
      OnlineWhileFresh(local, timeout, front, k, i);
      FreshForOneMore(timeout, inputs, i);
    }
  }

  lemma FreshForOneMore(timeout: nat, inputs: seq<Input>, i: nat)
    requires i < |inputs| - 1 && inputs[i].Arrival?
    ensures var n := |inputs| - 1;
            StillFresh(timeout, inputs, i) <==>
            StillFresh(timeout, inputs[..n], i) && (inputs[n].Pulse? ==> inputs[n].now < inputs[i].receivedAt + timeout)
  {
    var n := |inputs| - 1;
    if StillFresh(timeout, inputs, i) {
      forall j | i < j < n && inputs[..n][j].Pulse?
        ensures inputs[..n][j].now < inputs[i].receivedAt + timeout
      {
        assert inputs[..n][j] == inputs[j];
      }
    }
    if StillFresh(timeout, inputs[..n], i) {
      forall j | i < j < n && inputs[j].Pulse?
        ensures inputs[j].now < inputs[i].receivedAt + timeout
      {
        assert inputs[..n][j] == inputs[j];
      }
    }
  }

  /** A source never heard from is not online. */
  lemma {:induction false} NeverHeard(local: PeerId, timeout: nat, inputs: seq<Input>, k: Key)
    requires forall j :: 0 <= j < |inputs| ==> !IsFrom(inputs[j], k)
    ensures k !in TableAfter(local, timeout, inputs).sources
    decreases |inputs|
  {
    if inputs != [] {
      hide Indexed, Sweep, Heard;
      var n := |inputs| - 1;
      NeverHeard(local, timeout, inputs[..n], k);
      ReachableIndexed(local, timeout, inputs[..n], 0);
      var t := TableAfter(local, timeout, inputs[..n]);
      match inputs[n] {
        case Arrival(address, packet, receivedAt) =>
          HeardIndexed(t, Key(address, packet.pid), Source(packet, ExpiryOf(local, timeout, packet.pid, receivedAt)));
        case Pulse(now) =>
          SweepExact(t, now);
      }
    }
  }

  lemma {:induction false} LastOf(inputs: seq<Input>, k: Key, j: nat) returns (i: nat)
    requires j < |inputs| && IsFrom(inputs[j], k)
    ensures LastHeard(inputs, k, i)
    decreases |inputs| - j
  {
    if later :| j < later < |inputs| && IsFrom(inputs[later], k) {
      i := LastOf(inputs, k, later);
    } else {
      i := j;
    }
  }

  /** Over every run: a remote source is online after a pulse exactly if the time the
      pulse came at, and those of the pulses before it, are less than the timeout
      past the arrival of its last heartbeat; the local peer is if ever heard. */
  lemma OnlineAfterPulse(local: PeerId, timeout: nat, inputs: seq<Input>, now: nat, k: Key)
    ensures k in TableAfter(local, timeout, inputs + [Pulse(now)]).sources <==>
            exists i: nat :: LastHeard(inputs, k, i) &&
              (k.pid == local || (StillFresh(timeout, inputs, i) && now < inputs[i].receivedAt + timeout))
  {
    hide TableAfter;
    var all := inputs + [Pulse(now)];
    assert all[..|inputs|] == inputs;
    if j: nat :| j < |inputs| && IsFrom(inputs[j], k) {
      var i := LastOf(inputs, k, j);
      assert LastHeard(all, k, i);
      OnlineWhileFresh(local, timeout, all, k, i);
      FreshForOneMore(timeout, all, i);
      assert forall o: nat :: LastHeard(inputs, k, o) ==> o == i;
    } else {
      assert forall j :: 0 <= j < |inputs| ==> all[j] == inputs[j] && !IsFrom(inputs[j], k);
      NeverHeard(local, timeout, all, k);
    }
  }

  // ----- The order of the sources -----

  /** A refreshed source keeps its place in the table and in its peer's queue; a new or
      replaced one goes to the end of both. */
  lemma HeardOrder(t: Table, k: Key, s: Source)
    requires Indexed(t) && s.packet.pid == k.pid
    ensures var r := Heard(t, k, s);
            if k in t.sources && s.packet.kind == t.sources[k].packet.kind && s.packet.identity == t.sources[k].packet.identity
            then r.order == t.order && r.queues == t.queues
            else r.order == Without(t.order, k) + [k]
                 && QueueOf(r, k.pid) == Without(QueueOf(t, k.pid), k.address) + [k.address]
                 && forall p :: p != k.pid ==> QueueOf(r, p) == QueueOf(t, p)
  {
    if k in t.sources {
      WithoutDistinct(t.order, k);
      var q := Without(t.queues[k.pid], k.address);
      assert q == [] ==> q + [k.address] == [k.address];
    }
  }
}
