/** The session object that keeps the roster: the list of a message is grouped by
    peer, then two loops change the table in place and make the callbacks. */
module RosterObject {
  import opened Tables
  import opened Heartbeats
  import opened Roster

  class HeartbeatSession {
    var peerOrder: seq<PeerId>
    var mainThreadPeers: map<PeerId, seq<Packet>>
    /** The callbacks made to the master session. */
    var callbacks: seq<Callback>

    ghost function Contents(): Session
      reads this
    {
      Session(peerOrder, mainThreadPeers, callbacks)
    }

    ghost predicate Valid()
      reads this
    {
      Proper(Contents()) && InStep(Contents())
    }

    constructor ()
      ensures Valid() && Contents() == NEW_SESSION
    {
      peerOrder, mainThreadPeers, callbacks := [], map[], [];
      new;
      NewSessionInStep();
    }

    method GetSeniorPeerID() returns (p: PeerId)
      requires Proper(Contents())
      ensures p == SeniorOf(Contents())
    {
      if peerOrder == [] {
        return NO_PEER;
      }
      var first := peerOrder[0];
      assert first in peerOrder;
      return if mainThreadPeers[first][0].kind == FULL_PEER then first else NO_PEER;
    }

    method DropPeersGone(newPeers: map<PeerId, seq<Packet>>, ghost news: Session)
      requires newPeers == news.infos
      modifies this
      ensures Contents() == DropGone(old(Contents()), news, old(peerOrder), |old(peerOrder)|)
    {
      hide IdentOf;
      var keys := peerOrder;
      for i := 0 to |keys|
        invariant Contents() == DropGone(old(Contents()), news, keys, i)
      {
        var p := keys[i];
        if p in mainThreadPeers && (p !in newPeers || IdentOf(newPeers[p]) != IdentOf(mainThreadPeers[p])) {
          peerOrder := Without(peerOrder, p);
          mainThreadPeers := mainThreadPeers - {p};
          callbacks := callbacks + [PeerHasGoneOffline(p)];
        }
      }
    }

    method AddNewPeers(newOrder: seq<PeerId>, newPeers: map<PeerId, seq<Packet>>, ghost news: Session)
      requires newOrder == news.order && newPeers == news.infos
      requires forall i :: 0 <= i < |newOrder| ==> newOrder[i] in newPeers
      modifies this
      ensures Contents() == AddNew(old(Contents()), news, |newOrder|)
    {
      hide IdentOf, InsertBehind;
      var previous: Option<PeerId> := None;
      for i := 0 to |newOrder|
        invariant previous == if i == 0 then None else Some(newOrder[i - 1])
        invariant Contents() == AddNew(old(Contents()), news, i)
      {
        var p := newOrder[i];
        if p in mainThreadPeers {
          mainThreadPeers := mainThreadPeers[p := newPeers[p]];
        } else {
          mainThreadPeers := mainThreadPeers[p := newPeers[p]];
          peerOrder := InsertBehind(peerOrder, p, previous);
          callbacks := callbacks + [PeerHasComeOnline(p, IdentOf(newPeers[p]))];
        }
        previous := Some(p);
      }
    }

    /** MessageReceivedFromInternalThread, for a list of peers. */
    method PeersUpdateReceived(packets: seq<Packet>)
      requires Valid()
      modifies this
      ensures Valid() && Contents() == Update(old(Contents()), packets)
    {
      hide DropGone, AddNew, Group, InStep, Proper;
      UpdateFollows(Contents(), packets);
      GroupProper(packets, |packets|);
      var newOrder, newPeers := GroupByPeer(packets);
      ghost var news := Group(packets, |packets|);
      ghost var s := Contents();
      var oldSenior := GetSeniorPeerID();
      DropPeersGone(newPeers, news);
      AddNewPeers(newOrder, newPeers, news);
      Updated(s, packets, Contents());
      var newSenior := GetSeniorPeerID();
      if newSenior != oldSenior {
        callbacks := callbacks + [SeniorPeerChanged(oldSenior, newSenior)];
      }
    }
  }

  lemma Updated(s: Session, packets: seq<Packet>, r: Session)
    requires Proper(s) && InStep(s)
    requires var news := Group(packets, |packets|);
             && (forall i :: 0 <= i < |news.order| ==> news.order[i] in news.infos)
             && r == AddNew(DropGone(s, news, s.order, |s.order|), news, |news.order|)
    ensures Update(s, packets) == TellSenior(r, SeniorOf(s)) && Proper(r)
  {
    hide DropGone, AddNew, Group, InStep;
    UpdateFollows(s, packets);
  }

  method GroupByPeer(packets: seq<Packet>) returns (order: seq<PeerId>, infos: map<PeerId, seq<Packet>>)
    ensures order == Group(packets, |packets|).order && infos == Group(packets, |packets|).infos
  {
    order, infos := [], map[];
    for i := 0 to |packets|
      invariant order == Group(packets, i).order && infos == Group(packets, i).infos
    {
      var p := packets[i].pid;
      if p !in infos {
        order, infos := order + [p], infos[p := []];
      }
      infos := infos[p := infos[p] + [packets[i]]];
    }
  }
}
