/** The heartbeat thread's state, changed in place as heartbeats arrive and expire,
    and the scans it works the order of seniority out with. */
module HeartbeatThreadObject {
  import opened Tables
  import opened Heartbeats
  import opened SeniorityOrder

  class HeartbeatThreadState {
    const localPeerID: PeerId
    const expirationTimeMicros: nat
    const versionCode: nat
    const systemKey: nat
    var sourceOrder: seq<Key>
    var onlineSources: map<Key, Source>
    var peerIDToIPAddresses: map<PeerId, seq<Address>>
    var updateOfficialPeersListPending: bool
    var forceOfficialPeersUpdate: bool
    var updateToNetworkTimeOffsetPending: bool
    /** The sources in the list last sent to the main thread, most senior peer first. */
    var lastSourcesSentToMaster: seq<Key>

    ghost function Contents(): Table
      reads this
    {
      Table(sourceOrder, onlineSources, peerIDToIPAddresses)
    }

    ghost predicate Valid()
      reads this
    {
      Indexed(Contents()) && OnlyLocalIsForever(Contents(), localPeerID)
    }

    constructor (local: PeerId, timeout: nat, version: nat, system: nat)
      ensures Valid() && Contents() == NOTHING_HEARD
      ensures localPeerID == local && expirationTimeMicros == timeout && versionCode == version && systemKey == system
      ensures !updateOfficialPeersListPending && !forceOfficialPeersUpdate && !updateToNetworkTimeOffsetPending
      ensures lastSourcesSentToMaster == []
    {
      localPeerID, expirationTimeMicros, versionCode, systemKey := local, timeout, version, system;
      sourceOrder, onlineSources, peerIDToIPAddresses := [], map[], map[];
      updateOfficialPeersListPending, forceOfficialPeersUpdate, updateToNetworkTimeOffsetPending := false, false, false;
      lastSourcesSentToMaster := [];
    }

    method ScheduleUpdateOfficialPeersList(force: bool)
      modifies this`updateOfficialPeersListPending, this`forceOfficialPeersUpdate
      ensures updateOfficialPeersListPending
      ensures forceOfficialPeersUpdate == (old(forceOfficialPeersUpdate) || force)
    {
      updateOfficialPeersListPending := true;
      if force {
        forceOfficialPeersUpdate := true;
      }
    }

    // ----- Sources come and go -----

    method ExpireSource(k: Key)
      requires Valid()
      modifies this`sourceOrder, this`onlineSources, this`peerIDToIPAddresses
      modifies this`updateOfficialPeersListPending, this`forceOfficialPeersUpdate
      ensures Valid() && Contents() == Expire(old(Contents()), k)
      ensures forceOfficialPeersUpdate == (old(forceOfficialPeersUpdate) || k in old(onlineSources))
      ensures updateOfficialPeersListPending == (old(updateOfficialPeersListPending) || k in old(onlineSources))
    {
      hide Indexed;
      ExpireIndexed(Contents(), k);
      if k in onlineSources {
        var pid := onlineSources[k].packet.pid;
        if pid in peerIDToIPAddresses && k.address in peerIDToIPAddresses[pid] {
          var q := Without(peerIDToIPAddresses[pid], k.address);
          if q == [] {
            peerIDToIPAddresses := peerIDToIPAddresses - {pid};
          } else {
            peerIDToIPAddresses := peerIDToIPAddresses[pid := q];
          }
        }
        onlineSources := onlineSources - {k};
        sourceOrder := Without(sourceOrder, k);
        ScheduleUpdateOfficialPeersList(true);
      }
    }

    method IntroduceSource(k: Key, packet: Packet, expires: Option<nat>)
      requires Valid() && k !in onlineSources && packet.pid == k.pid && (expires == None <==> k.pid == localPeerID)
      modifies this`sourceOrder, this`onlineSources, this`peerIDToIPAddresses
      modifies this`updateOfficialPeersListPending, this`forceOfficialPeersUpdate
      ensures Valid() && Contents() == Introduce(old(Contents()), k, Source(packet, expires))
      ensures updateOfficialPeersListPending && forceOfficialPeersUpdate
    {
      hide Indexed, OnlyLocalIsForever;
      IntroduceIndexed(Contents(), k, Source(packet, expires));
      IntroduceForever(Contents(), k, Source(packet, expires), localPeerID);
      onlineSources := onlineSources[k := Source(packet, expires)];
      sourceOrder := sourceOrder + [k];
      var q := if packet.pid in peerIDToIPAddresses then peerIDToIPAddresses[packet.pid] else [];
      peerIDToIPAddresses := peerIDToIPAddresses[packet.pid := q + [k.address]];
      ScheduleUpdateOfficialPeersList(true);
    }

    /** The tables' part of hearing a heartbeat. */
    method RecordHeartbeat(k: Key, packet: Packet, expires: Option<nat>)
      requires Valid() && packet.pid == k.pid && (expires == None <==> k.pid == localPeerID)
      modifies this`sourceOrder, this`onlineSources, this`peerIDToIPAddresses
      modifies this`updateOfficialPeersListPending, this`forceOfficialPeersUpdate
      ensures Valid() && Contents() == Heard(old(Contents()), k, Source(packet, expires))
      ensures forceOfficialPeersUpdate == (old(forceOfficialPeersUpdate) || IsNews(old(onlineSources), k, packet))
      ensures updateOfficialPeersListPending == (old(updateOfficialPeersListPending) || IsNews(old(onlineSources), k, packet))
    {
      hide Expire, Introduce, Indexed;
      HeardIndexed(Contents(), k, Source(packet, expires));
      if k in onlineSources && SameIdentity(packet, onlineSources[k].packet) {
        if onlineSources[k].packet.attached != packet.attached {
          ScheduleUpdateOfficialPeersList(true);
        }
        onlineSources := onlineSources[k := Source(packet, expires)];
      } else {
        ExpireIndexed(Contents(), k);
        if k in onlineSources {
          ExpireSource(k);
        } else {
          ExpireNothing(Contents(), k);
        }
        IntroduceSource(k, packet, expires);
      }
    }

    /** An accepted heartbeat: recorded, and if it is the kingmaker's, a reason to
        work the list out again, if it is the senior's, to set the clock again. */
    method HeartbeatReceived(address: Address, packet: Packet, receivedAt: nat)
      requires Valid()
      modifies this
      ensures Valid()
      ensures Contents() == Next(old(Contents()), localPeerID, expirationTimeMicros, Arrival(address, packet, receivedAt))
      ensures var news := IsNews(old(onlineSources), Key(address, packet.pid), packet);
              && forceOfficialPeersUpdate == (old(forceOfficialPeersUpdate) || news)
              && updateOfficialPeersListPending ==
                   (old(updateOfficialPeersListPending) || news || packet.pid == Kingmaker(Contents()).pid)
      ensures lastSourcesSentToMaster == old(lastSourcesSentToMaster)
      ensures updateToNetworkTimeOffsetPending ==
                (old(updateToNetworkTimeOffsetPending) || packet.pid == SeniorPeer(lastSourcesSentToMaster))
    {
      hide Heard, Indexed, Matches;
      var k := Key(address, packet.pid);
      var expires := if packet.pid == localPeerID then None else Some(receivedAt + expirationTimeMicros);
      RecordHeartbeat(k, packet, expires);
      if !updateOfficialPeersListPending {
        var kingmaker := GetKingmakerPeerID();
        if packet.pid == kingmaker {
          ScheduleUpdateOfficialPeersList(false);
        }
      }
      if packet.pid == SeniorPeer(lastSourcesSentToMaster) {
        updateToNetworkTimeOffsetPending := true;
      }
    }

    /** A heartbeat of another version or another system changes nothing. */
    method HeartbeatParsed(address: Address, packet: Packet, version: nat, system: nat, receivedAt: nat)
      requires Valid()
      modifies this
      ensures Valid()
      ensures !(version == versionCode && system == systemKey) ==> unchanged(this)
      ensures version == versionCode && system == systemKey ==>
                var news := IsNews(old(onlineSources), Key(address, packet.pid), packet);
                && Contents() == Next(old(Contents()), localPeerID, expirationTimeMicros, Arrival(address, packet, receivedAt))
                && forceOfficialPeersUpdate == (old(forceOfficialPeersUpdate) || news)
                && updateOfficialPeersListPending ==
                     (old(updateOfficialPeersListPending) || news || packet.pid == Kingmaker(Contents()).pid)
                && updateToNetworkTimeOffsetPending ==
                     (old(updateToNetworkTimeOffsetPending) || packet.pid == SeniorPeer(lastSourcesSentToMaster))
    {
      hide Next, Indexed, IsNews, Kingmaker;
      if version == versionCode && system == systemKey {
        HeartbeatReceived(address, packet, receivedAt);
      }
    }

    /** The pulse's pass over the sources. */
    method ExpireOldSources(now: nat)
      requires Valid()
      modifies this
      ensures Valid() && Contents() == Sweep(old(Contents()), now)
      ensures var lost := onlineSources != old(onlineSources);
              && forceOfficialPeersUpdate == (old(forceOfficialPeersUpdate) || lost)
              && updateOfficialPeersListPending == (old(updateOfficialPeersListPending) || lost)
      ensures lastSourcesSentToMaster == old(lastSourcesSentToMaster)
      ensures updateToNetworkTimeOffsetPending == old(updateToNetworkTimeOffsetPending)
    {
      hide Indexed;
      var keys := sourceOrder;
      for i := 0 to |keys|
        invariant Valid() && Contents() == SweepFirst(old(Contents()), keys, now, i)
        invariant onlineSources.Keys <= old(onlineSources).Keys
        invariant forceOfficialPeersUpdate == (old(forceOfficialPeersUpdate) || onlineSources != old(onlineSources))
        invariant updateOfficialPeersListPending == (old(updateOfficialPeersListPending) || onlineSources != old(onlineSources))
        invariant lastSourcesSentToMaster == old(lastSourcesSentToMaster)
        invariant updateToNetworkTimeOffsetPending == old(updateToNetworkTimeOffsetPending)
      {
        if keys[i] in onlineSources && Expired(onlineSources[keys[i]], now) {
          ExpireSource(keys[i]);
        }
      }
    }

    // ----- Reading the tables -----

    method PeersListMatchesIgnoreOrdering(peers: seq<PeerId>) returns (r: bool)
      ensures r == Matches(Contents(), peers)
    {
      if |peers| != |peerIDToIPAddresses| {
        return false;
      }
      for i := 0 to |peers|
        invariant forall j :: 0 <= j < i ==> peers[j] in peerIDToIPAddresses
      {
        if peers[i] !in peerIDToIPAddresses {
          return false;
        }
      }
      return true;
    }

    method GetKingmakerPeerID() returns (minPeerID: PeerId)
      requires Valid()
      ensures minPeerID == Kingmaker(Contents()).pid
    {
      hide Matches;
      minPeerID := NO_PEER;
      for i := 0 to |sourceOrder|
        invariant minPeerID == KingmakerScan(Contents(), i).pid
      {
        var k := sourceOrder[i];
        assert k in Contents().order;
        var packet := onlineSources[k].packet;
        if minPeerID == NO_PEER || packet.pid < minPeerID {
          var matches := PeersListMatchesIgnoreOrdering(packet.peers);
          if matches {
            minPeerID := packet.pid;
          }
        }
      }
    }

    method GetKingmakerPeerSource() returns (source: Key)
      requires Valid()
      ensures source == Kingmaker(Contents())
    {
      hide Matches;
      source := NO_KEY;
      var minPeerID := NO_PEER;
      for i := 0 to |sourceOrder|
        invariant source == KingmakerScan(Contents(), i) && minPeerID == source.pid
      {
        var k := sourceOrder[i];
        assert k in Contents().order;
        var packet := onlineSources[k].packet;
        if minPeerID == NO_PEER || packet.pid < minPeerID {
          var matches := PeersListMatchesIgnoreOrdering(packet.peers);
          if matches {
            source, minPeerID := k, packet.pid;
          }
        }
      }
    }

    method GetPeerTypeFromQueue(pid: PeerId, q: seq<Address>) returns (r: nat)
      ensures r == MaxOver(Contents(), pid, q, KIND)
    {
      r := 0;
      for i := 0 to |q|
        invariant r == MaxOver(Contents(), pid, q[..i], KIND)
      {
        assert q[..i + 1][..i] == q[..i];
        if Key(q[i], pid) in onlineSources {
          r := Max(r, onlineSources[Key(q[i], pid)].packet.kind);
        }
      }
      assert q[..|q|] == q;
    }

    method GetPeerUptimeSecondsFromQueue(pid: PeerId, q: seq<Address>) returns (r: nat)
      ensures r == MaxOver(Contents(), pid, q, UPTIME)
    {
      r := 0;
      for i := 0 to |q|
        invariant r == MaxOver(Contents(), pid, q[..i], UPTIME)
      {
        assert q[..i + 1][..i] == q[..i];
        if Key(q[i], pid) in onlineSources {
          r := Max(r, onlineSources[Key(q[i], pid)].packet.uptime);
        }
      }
      assert q[..|q|] == q;
    }

    method ComparePeerIDsBySeniority(pid1: PeerId, pid2: PeerId) returns (r: int)
      ensures r == CompareBySeniority(Contents(), pid1, pid2)
    {
      hide MaxOver;
      if pid1 !in peerIDToIPAddresses || pid2 !in peerIDToIPAddresses {
        return 0;
      }
      var pt1 := GetPeerTypeFromQueue(pid1, peerIDToIPAddresses[pid1]);
      var pt2 := GetPeerTypeFromQueue(pid2, peerIDToIPAddresses[pid2]);
      if pt1 != pt2 {
        return -Compare(pt1, pt2);
      }
      var ut1 := GetPeerUptimeSecondsFromQueue(pid1, peerIDToIPAddresses[pid1]);
      var ut2 := GetPeerUptimeSecondsFromQueue(pid2, peerIDToIPAddresses[pid2]);
      if ut1 != ut2 {
        return -Compare(ut1, ut2);
      }
      return -Compare(pid1, pid2);
    }

    method CalculateOrderedPeersList() returns (r: seq<PeerId>)
      requires Valid()
      ensures r == OrderedPeers(Contents())
    {
      hide Kingmaker;
      var kmSource := GetKingmakerPeerSource();
      r := [];
      if kmSource.pid != NO_PEER && kmSource.address != 0 {
        if kmSource in onlineSources {
          var kmq := onlineSources[kmSource].packet.peers;
          for i := 0 to |kmq|
            invariant r == kmq[..i]
          {
            r := r + [kmq[i]];
          }
        }
      } else {
        r := BySeniority(Table(sourceOrder, onlineSources, peerIDToIPAddresses), peerIDToIPAddresses.Keys);
      }
    }
  }

  /** GetSeniorPeerID. */
  function SeniorPeer(sources: seq<Key>): PeerId {
    if sources == [] then NO_PEER else sources[0].pid
  }

  /** The heartbeat is from a new source, or shows that its peer is not what it was
      or that it has become attached. */
  predicate IsNews(sources: map<Key, Source>, k: Key, packet: Packet) {
    k !in sources || !SameIdentity(packet, sources[k].packet) || sources[k].packet.attached != packet.attached
  }

  lemma IntroduceForever(t: Table, k: Key, s: Source, local: PeerId)
    requires OnlyLocalIsForever(t, local) && (s.expires == None <==> k.pid == local)
    ensures OnlyLocalIsForever(Introduce(t, k, s), local)
  {
  }

  lemma ExpireNothing(t: Table, k: Key)
    requires k !in t.sources
    ensures Expire(t, k) == t
  {
  }

  /** A heartbeat is no news exactly if it is what is on record but for the uptime and the
      list of peers, which change all the time. */
  lemma NoNewsIff(sources: map<Key, Source>, k: Key, packet: Packet)
    requires k in sources ==> sources[k].packet.pid == packet.pid
    ensures !IsNews(sources, k, packet) <==>
            k in sources && sources[k].packet == packet.(uptime := sources[k].packet.uptime, peers := sources[k].packet.peers)
  {
  }
}
