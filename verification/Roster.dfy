/** The main thread's roster of peers (PZGHeartbeatSession): each list from the
    heartbeat thread becomes callbacks to the user, and the roster is put in the
    order of the list, as far as only newcomers are moved. */
module Roster {
  import opened Tables
  import opened Heartbeats
  import SeniorityOrder

  /** What a user can tell two incarnations of a peer apart by. */
  datatype Ident = Ident(kind: nat, identity: nat)

  datatype Callback =
    | PeerHasComeOnline(peer: PeerId, ident: Ident)
    | PeerHasGoneOffline(peer: PeerId)
    | SeniorPeerChanged(oldSenior: PeerId, newSenior: PeerId)

  /** _mainThreadPeers, in its order, and every callback made so far. */
  datatype Session = Session(order: seq<PeerId>, infos: map<PeerId, seq<Packet>>, log: seq<Callback>)

  const NEW_SESSION := Session([], map[], [])

  ghost predicate Proper(s: Session) {
    && Distinct(s.order)
    && (forall p :: p in s.order <==> p in s.infos)
    && (forall p :: p in s.infos ==> s.infos[p] != [] && s.infos[p][0].pid == p)
  }

  function IdentOf(packets: seq<Packet>): Ident {
    if packets == [] then Ident(0, 0) else Ident(packets[0].kind, packets[0].identity)
  }

  /** GetSeniorPeerID: the first peer, if it is a full one. */
  function SeniorOf(s: Session): PeerId {
    if s.order == [] || s.order[0] !in s.infos || IdentOf(s.infos[s.order[0]]).kind != FULL_PEER then NO_PEER
    else s.order[0]
  }

  // ----- What one message does -----

  /** The packets of the message by peer, the peers in order of first mention. */
  function Group(packets: seq<Packet>, n: nat): Session
    requires n <= |packets|
  {
    if n == 0 then NEW_SESSION else Mention(Group(packets, n - 1), packets[n - 1])
  }

  function Mention(s: Session, p: Packet): Session {
    s.(order := if p.pid in s.infos then s.order else s.order + [p.pid],
       infos := s.infos[p.pid := (if p.pid in s.infos then s.infos[p.pid] else []) + [p]])
  }

  /** The peer is gone, or is not what it was. */
  predicate Departs(s: Session, news: Session, p: PeerId) {
    p in s.infos && (p !in news.infos || IdentOf(news.infos[p]) != IdentOf(s.infos[p]))
  }

  function Drop(s: Session, p: PeerId): Session {
    Session(Without(s.order, p), s.infos - {p}, s.log + [PeerHasGoneOffline(p)])
  }

  function DropGone(s: Session, news: Session, keys: seq<PeerId>, n: nat): Session
    requires n <= |keys|
  {
    if n == 0 then s
    else
      var r := DropGone(s, news, keys, n - 1);
      if Departs(r, news, keys[n - 1]) then Drop(r, keys[n - 1]) else r
  }

  function IndexOf(order: seq<PeerId>, p: PeerId): (r: nat)
    ensures p in order ==> r < |order| && order[r] == p
    ensures r <= |order|
  {
    if order == [] || order[0] == p then 0 else 1 + IndexOf(order[1..], p)
  }

  /** Where MoveToBehind puts a peer that comes after `previous`, and MoveToFront
      one that comes after nobody. */
  function PlaceBehind(order: seq<PeerId>, previous: Option<PeerId>): (i: nat)
    ensures i <= |order|
  {
    if previous.None? then 0 else if previous.value !in order then |order| else IndexOf(order, previous.value) + 1
  }

  function InsertBehind(order: seq<PeerId>, p: PeerId, previous: Option<PeerId>): seq<PeerId> {
    var i := PlaceBehind(order, previous);
    order[..i] + ([p] + order[i..])
  }

  function Add(s: Session, news: Session, i: nat): Session
    requires i < |news.order| && news.order[i] in news.infos
  {
    var p := news.order[i];
    var infos := s.infos[p := news.infos[p]];
    if p in s.infos then s.(infos := infos)
    else
      Session(InsertBehind(s.order, p, if i == 0 then None else Some(news.order[i - 1])), infos,
              s.log + [PeerHasComeOnline(p, IdentOf(news.infos[p]))])
  }

  function AddNew(s: Session, news: Session, n: nat): Session
    requires n <= |news.order| && forall i :: 0 <= i < n ==> news.order[i] in news.infos
  {
    if n == 0 then s else Add(AddNew(s, news, n - 1), news, n - 1)
  }

  function TellSenior(s: Session, oldSenior: PeerId): Session {
    if SeniorOf(s) == oldSenior then s else s.(log := s.log + [SeniorPeerChanged(oldSenior, SeniorOf(s))])
  }

  lemma MentionProper(s: Session, p: Packet)
    requires Proper(s)
    ensures Proper(Mention(s, p)) && Mention(s, p).log == s.log
    ensures Mention(s, p).infos.Keys == s.infos.Keys + {p.pid}
  {
  }

  lemma {:induction false} GroupProper(packets: seq<Packet>, n: nat)
    requires n <= |packets|
    ensures Proper(Group(packets, n))
    ensures forall i :: 0 <= i < |Group(packets, n).order| ==> Group(packets, n).order[i] in Group(packets, n).infos
  {
    if n > 0 {
      hide Mention;
      GroupProper(packets, n - 1);
      MentionProper(Group(packets, n - 1), packets[n - 1]);
    }
  }

  /** One of the first `n` packets is from the peer. */
  ghost predicate Sent(packets: seq<Packet>, n: nat, p: PeerId) {
    exists i :: 0 <= i < n && i < |packets| && packets[i].pid == p
  }

  lemma SentNext(packets: seq<Packet>, n: nat, p: PeerId)
    requires n < |packets|
    ensures Sent(packets, n + 1, p) <==> Sent(packets, n, p) || packets[n].pid == p
  {
  }

  /** The peers of the list are those that sent its packets. */
  lemma {:induction false} GroupNames(packets: seq<Packet>, n: nat, p: PeerId)
    requires n <= |packets|
    ensures p in Group(packets, n).infos <==> Sent(packets, n, p)
  {
    if n > 0 {
      hide Mention, Proper, Sent;
      SentNext(packets, n - 1, p);
      GroupProper(packets, n - 1);
      GroupNames(packets, n - 1, p);
      MentionProper(Group(packets, n - 1), packets[n - 1]);
    }
  }

  function Update(s: Session, packets: seq<Packet>): Session {
    GroupProper(packets, |packets|);
    var news := Group(packets, |packets|);
    TellSenior(AddNew(DropGone(s, news, s.order, |s.order|), news, |news.order|), SeniorOf(s))
  }

  // ----- What the user makes of the callbacks -----

  /** The online-peers table and the senior that the callbacks add up to, and
      whether each made sense: nobody comes online twice or goes offline without
      having been online, and each change of senior starts from the last one. */
  datatype Told = Told(online: map<PeerId, Ident>, senior: PeerId, sensible: bool)

  function Hear(t: Told, c: Callback): Told {
    match c
    case PeerHasComeOnline(p, ident) => Told(t.online[p := ident], t.senior, t.sensible && p !in t.online)
    case PeerHasGoneOffline(p) => Told(t.online - {p}, t.senior, t.sensible && p in t.online)
    case SeniorPeerChanged(a, b) => Told(t.online, b, t.sensible && t.senior == a && a != b)
  }

  function HearAll(log: seq<Callback>): Told {
    if log == [] then Told(map[], NO_PEER, true) else Hear(HearAll(log[..|log| - 1]), log[|log| - 1])
  }

  lemma HearOneMore(log: seq<Callback>, c: Callback)
    ensures HearAll(log + [c]) == Hear(HearAll(log), c)
  {
    assert (log + [c])[..|log|] == log;
  }

  function Idents(infos: map<PeerId, seq<Packet>>): map<PeerId, Ident> {
    map p | p in infos :: IdentOf(infos[p])
  }

  // ----- Dropping -----

  ghost function Survivors(s: Session, news: Session): set<PeerId> {
    set p | p in s.infos && !Departs(s, news, p)
  }

  /** Removing one element is keeping all the others. */
  lemma {:induction false} WithoutIsKeeping(order: seq<PeerId>, keys: set<PeerId>, p: PeerId)
    requires Distinct(order)
    ensures Without(Keeping(order, keys), p) == Keeping(order, keys - {p})
  {
    if order != [] {
      var n := |order| - 1;
      assert order == order[..n] + [order[n]];
      WithoutIsKeeping(order[..n], keys, p);
      KeepingSnoc(order[..n], order[n], keys);
      KeepingSnoc(order[..n], order[n], keys - {p});
      WithoutSnoc(Keeping(order[..n], keys), order[n], p);
    }
  }

  lemma {:induction false} WithoutSnoc(q: seq<PeerId>, x: PeerId, p: PeerId)
    requires x !in q
    ensures Without(q + [x], p) == if x == p then q else Without(q, p) + [x]
  {
    if q == [] {
      assert q + [x] == [x];
    } else {
      assert (q + [x])[1..] == q[1..] + [x];
      WithoutSnoc(q[1..], x, p);
    }
  }

  /** A smaller roster: fewer peers, in the same order, and the user knows. */
  ghost predicate Smaller(s: Session, r: Session, senior: PeerId) {
    && (forall p :: p in r.infos ==> p in s.infos && r.infos[p] == s.infos[p])
    && r.order == Keeping(s.order, r.infos.Keys)
    && HearAll(r.log) == Told(Idents(r.infos), senior, true)
  }

  lemma SmallerProper(s: Session, r: Session, senior: PeerId)
    requires Proper(s) && Smaller(s, r, senior)
    ensures Proper(r)
  {
  }

  lemma DropHeard(r: Session, p: PeerId, senior: PeerId)
    requires p in r.infos && HearAll(r.log) == Told(Idents(r.infos), senior, true)
    ensures HearAll(Drop(r, p).log) == Told(Idents(r.infos - {p}), senior, true)
  {
    HearOneMore(r.log, PeerHasGoneOffline(p));
    assert Idents(r.infos) - {p} == Idents(r.infos - {p});
  }

  lemma DropSmaller(s: Session, r: Session, p: PeerId, senior: PeerId)
    requires Proper(s) && Smaller(s, r, senior) && p in r.infos
    ensures Smaller(s, Drop(r, p), senior)
  {
    hide HearAll, Idents, Keeping, Without;
    DropHeard(r, p, senior);
    WithoutIsKeeping(s.order, r.infos.Keys, p);
    assert (r.infos - {p}).Keys == r.infos.Keys - {p};
  }

  /** Nobody left who should have stayed; of the first `n`, nobody stayed who
      should have left. */
  ghost predicate Dropped(s: Session, news: Session, r: Session, n: nat)
    requires n <= |s.order|
  {
    && (forall p :: p in s.infos && p !in r.infos ==> Departs(s, news, p))
    && (forall i :: 0 <= i < n ==> Departs(s, news, s.order[i]) ==> s.order[i] !in r.infos)
  }

  lemma DropOneMore(s: Session, news: Session, r: Session, n: nat, senior: PeerId)
    requires n < |s.order| && Smaller(s, r, senior) && Dropped(s, news, r, n)
    ensures Dropped(s, news, if Departs(r, news, s.order[n]) then Drop(r, s.order[n]) else r, n + 1)
  {
    hide IdentOf, Without, Keeping, HearAll, Idents;
  }

  lemma DepartsIsKnown(r: Session, news: Session, p: PeerId)
    requires Departs(r, news, p)
    ensures p in r.infos
  {
  }

  lemma NothingDropped(s: Session, news: Session, senior: PeerId)
    requires Proper(s) && HearAll(s.log) == Told(Idents(s.infos), senior, true)
    ensures Smaller(s, s, senior) && Dropped(s, news, s, 0)
  {
    hide HearAll, Idents;
    KeepingAll(s.order, s.infos.Keys);
  }

  lemma {:induction false} DropGoneDrops(s: Session, news: Session, n: nat, senior: PeerId)
    requires Proper(s) && n <= |s.order| && HearAll(s.log) == Told(Idents(s.infos), senior, true)
    ensures var r := DropGone(s, news, s.order, n);
            Smaller(s, r, senior) && Dropped(s, news, r, n)
  {
    hide Smaller, Dropped, Proper, Departs, Drop, HearAll, Idents;
    if n == 0 {
      NothingDropped(s, news, senior);
    } else {
      var r, p := DropGone(s, news, s.order, n - 1), s.order[n - 1];
      DropGoneDrops(s, news, n - 1, senior);
      DropOneMore(s, news, r, n - 1, senior);
      if Departs(r, news, p) {
        DepartsIsKnown(r, news, p);
        DropSmaller(s, r, p, senior);
      }
    }
  }

  /** All of them done: the survivors are left, in the order they were in. */
  lemma DroppedAll(s: Session, news: Session, senior: PeerId)
    requires Proper(s) && HearAll(s.log) == Told(Idents(s.infos), senior, true)
    ensures var r := DropGone(s, news, s.order, |s.order|);
            Smaller(s, r, senior) && Proper(r) && r.infos.Keys == Survivors(s, news)
  {
    hide HearAll, Idents, Departs, Keeping;
    var r := DropGone(s, news, s.order, |s.order|);
    DropGoneDrops(s, news, |s.order|, senior);
    SmallerProper(s, r, senior);
    forall p
      ensures p in r.infos <==> p in Survivors(s, news)
    {
      if p in r.infos {
        assert p in s.order;
        var i :| 0 <= i < |s.order| && s.order[i] == p;
      }
    }
  }

  // ----- Adding -----

  /** The roster while the list is gone through: the survivors stand as they did,
      and everyone in it is in the list and is what the list says. */
  ghost predicate Joining(stay: set<PeerId>, news: Session, was: seq<PeerId>, r: Session, senior: PeerId) {
    && Proper(r)
    && (forall p :: p in stay ==> p in r.infos)
    && (forall p :: p in r.infos ==> p in news.infos && IdentOf(r.infos[p]) == IdentOf(news.infos[p]))
    && Keeping(r.order, stay) == was
    && HearAll(r.log) == Told(Idents(r.infos), senior, true)
  }

  ghost predicate Current(news: Session, r: Session, p: PeerId) {
    p in news.infos && p in r.infos && r.infos[p] == news.infos[p]
  }

  /** The first `n` of the list are in, with their new packets; of the others only
      the survivors are. */
  ghost predicate Added(stay: set<PeerId>, news: Session, r: Session, n: nat)
    requires n <= |news.order|
  {
    && (forall i :: 0 <= i < n ==> Current(news, r, news.order[i]))
    && (forall i :: n <= i < |news.order| && news.order[i] in r.infos ==> news.order[i] in stay)
  }

  lemma InsertedDistinct(a: seq<PeerId>, b: seq<PeerId>, p: PeerId)
    requires Distinct(a + b) && p !in a + b
    ensures Distinct(a + ([p] + b)) && forall q :: q in a + ([p] + b) <==> q in a + b || q == p
  {
    var r, s := a + ([p] + b), a + b;
    forall i, j | 0 <= i < j < |r|
      ensures r[i] != r[j]
    {
      assert forall k :: 0 <= k < |a| ==> s[k] == a[k];
      assert forall k :: 0 <= k < |b| ==> s[|a| + k] == b[k];
      assert i != |a| ==> r[i] == s[if i < |a| then i else i - 1];
      assert j != |a| ==> r[j] == s[if j < |a| then j else j - 1];
    }
  }

  lemma InsertedKeeping(a: seq<PeerId>, b: seq<PeerId>, p: PeerId, stay: set<PeerId>)
    requires p !in stay
    ensures Keeping(a + ([p] + b), stay) == Keeping(a + b, stay)
  {
    hide Keeping;
    KeepingConcat(a, b, stay);
    KeepingConcat(a, [p] + b, stay);
    KeepingConcat([p], b, stay);
    KeepingOne(p, stay);
  }

  lemma KeepingOne(p: PeerId, stay: set<PeerId>)
    ensures Keeping([p], stay) == if p in stay then [p] else []
  {
    assert [p] == [] + [p];
    KeepingSnoc([], p, stay);
  }

  lemma InsertBehindFacts(order: seq<PeerId>, p: PeerId, previous: Option<PeerId>, stay: set<PeerId>)
    requires p !in order && p !in stay && Distinct(order)
    ensures var r := InsertBehind(order, p, previous);
            && Distinct(r) && (forall q :: q in r <==> q in order || q == p)
            && Keeping(r, stay) == Keeping(order, stay)
  {
    hide Keeping, Distinct, PlaceBehind;
    var i := PlaceBehind(order, previous);
    assert order == order[..i] + order[i..];
    InsertedDistinct(order[..i], order[i..], p);
    InsertedKeeping(order[..i], order[i..], p, stay);
  }

  lemma AddHeard(r: Session, p: PeerId, packets: seq<Packet>, senior: PeerId)
    requires HearAll(r.log) == Told(Idents(r.infos), senior, true)
    ensures p !in r.infos ==>
              HearAll(r.log + [PeerHasComeOnline(p, IdentOf(packets))]) == Told(Idents(r.infos[p := packets]), senior, true)
    ensures p in r.infos && IdentOf(packets) == IdentOf(r.infos[p]) ==> Idents(r.infos[p := packets]) == Idents(r.infos)
  {
    if p !in r.infos {
      HearOneMore(r.log, PeerHasComeOnline(p, IdentOf(packets)));
      assert Idents(r.infos)[p := IdentOf(packets)] == Idents(r.infos[p := packets]);
    }
  }

  lemma AddJoins(stay: set<PeerId>, news: Session, was: seq<PeerId>, r: Session, n: nat, senior: PeerId)
    requires Proper(news) && n < |news.order| && Joining(stay, news, was, r, senior)
    requires news.order[n] in news.infos
    ensures Joining(stay, news, was, Add(r, news, n), senior)
  {
    hide HearAll, Idents, IdentOf, InsertBehind, Keeping, Distinct;
    var p := news.order[n];
    AddHeard(r, p, news.infos[p], senior);
    if p !in r.infos {
      InsertBehindFacts(r.order, p, if n == 0 then None else Some(news.order[n - 1]), stay);
    }
  }

  lemma AddAdds(stay: set<PeerId>, news: Session, r: Session, n: nat)
    requires Distinct(news.order) && n < |news.order| && Added(stay, news, r, n)
    requires news.order[n] in news.infos
    ensures Added(stay, news, Add(r, news, n), n + 1)
  {
    hide InsertBehind, IdentOf;
  }

  lemma ProperOrder(s: Session)
    requires Proper(s)
    ensures Distinct(s.order)
  {
  }

  lemma {:induction false} AddNewAdds(stay: set<PeerId>, news: Session, before: Session, n: nat, senior: PeerId)
    requires Proper(news) && Joining(stay, news, before.order, before, senior) && Added(stay, news, before, 0)
    requires n <= |news.order| && forall i :: 0 <= i < |news.order| ==> news.order[i] in news.infos
    ensures var r := AddNew(before, news, n);
            Joining(stay, news, before.order, r, senior) && Added(stay, news, r, n)
  {
    hide Joining, Added, Add, Proper, Distinct;
    if n > 0 {
      AddNewAdds(stay, news, before, n - 1, senior);
      ProperOrder(news);
      AddAdds(stay, news, AddNew(before, news, n - 1), n - 1);
      AddJoins(stay, news, before.order, AddNew(before, news, n - 1), n - 1, senior);
    }
  }

  lemma StartAdding(s: Session, news: Session, before: Session, senior: PeerId)
    requires Smaller(s, before, senior) && Proper(before) && before.infos.Keys == Survivors(s, news)
    ensures Joining(Survivors(s, news), news, before.order, before, senior) && Added(Survivors(s, news), news, before, 0)
  {
    hide HearAll, Idents, IdentOf, Keeping;
    KeepingAll(before.order, Survivors(s, news));
  }

  // ----- The order -----

  /** If the survivors stand in the list as they stood in the roster, newcomers
      put behind their predecessors make the roster's order that of the list. */
  lemma {:induction false} OrderBuilds(stay: set<PeerId>, news: Session, before: Session, n: nat, senior: PeerId)
    requires Proper(news) && Joining(stay, news, before.order, before, senior) && Added(stay, news, before, 0)
    requires n <= |news.order| && forall i :: 0 <= i < |news.order| ==> news.order[i] in news.infos
    requires before.order == Keeping(news.order, stay)
    ensures AddNew(before, news, n).order == news.order[..n] + Keeping(news.order[n..], stay)
  {
    hide Joining, Added, InsertBehind, Keeping, Proper, Distinct;
    if n == 0 {
      assert news.order[0..] == news.order && news.order[..0] == [];
    } else {
      OrderBuilds(stay, news, before, n - 1, senior);
      AddNewAdds(stay, news, before, n - 1, senior);
      NextIsSurvivor(stay, news, before.order, AddNew(before, news, n - 1), n - 1, senior);
      ProperOrder(news);
      OneMorePlaced(news.order, stay, n - 1);
    }
  }

  lemma NextIsSurvivor(stay: set<PeerId>, news: Session, was: seq<PeerId>, r: Session, n: nat, senior: PeerId)
    requires n < |news.order| && Joining(stay, news, was, r, senior) && Added(stay, news, r, n)
    ensures news.order[n] in r.infos <==> news.order[n] in stay
  {
  }

  lemma OneMorePlaced(order: seq<PeerId>, stay: set<PeerId>, n: nat)
    requires Distinct(order) && n < |order|
    ensures var r, p := order[..n] + Keeping(order[n..], stay), order[n];
            (if p in stay then r else InsertBehind(r, p, if n == 0 then None else Some(order[n - 1])))
              == order[..n + 1] + Keeping(order[n + 1..], stay)
  {
    hide Keeping, InsertBehind;
    var p, front, tail := order[n], order[..n], order[n + 1..];
    assert order[n..] == [p] + tail && order[..n + 1] == front + [p];
    KeepingConcat([p], tail, stay);
    KeepingOne(p, stay);
    if p !in stay {
      assert [] + Keeping(tail, stay) == Keeping(tail, stay);
      PlacedBehind(front, Keeping(tail, stay), p);
    }
  }

  lemma PlacedBehind(front: seq<PeerId>, back: seq<PeerId>, p: PeerId)
    requires Distinct(front)
    ensures InsertBehind(front + back, p, if front == [] then None else Some(front[|front| - 1])) == front + [p] + back
  {
    if front != [] {
      IndexOfLast(front, back);
      assert front[|front| - 1] in front + back;
    }
    assert (front + back)[..|front|] == front && (front + back)[|front|..] == back;
  }

  lemma {:induction false} IndexOfLast(front: seq<PeerId>, back: seq<PeerId>)
    requires Distinct(front) && front != []
    ensures IndexOf(front + back, front[|front| - 1]) == |front| - 1
  {
    if |front| > 1 {
      assert (front + back)[1..] == front[1..] + back;
      IndexOfLast(front[1..], back);
    }
  }

  // ----- One message -----

  /** The callbacks so far add up to the roster and its senior. */
  ghost predicate InStep(s: Session) {
    HearAll(s.log) == Told(Idents(s.infos), SeniorOf(s), true)
  }

  lemma JoinedAll(stay: set<PeerId>, news: Session, was: seq<PeerId>, r: Session, senior: PeerId)
    requires Proper(news) && Joining(stay, news, was, r, senior) && Added(stay, news, r, |news.order|)
    ensures r.infos == news.infos
  {
    hide HearAll, Idents, IdentOf, Keeping;
    forall p | p in news.infos
      ensures Current(news, r, p)
    {
      assert p in news.order;
      var i :| 0 <= i < |news.order| && news.order[i] == p;
    }
  }

  lemma TellSeniorInStep(r: Session, senior: PeerId)
    requires HearAll(r.log) == Told(Idents(r.infos), senior, true)
    ensures InStep(TellSenior(r, senior))
  {
    HearOneMore(r.log, SeniorPeerChanged(senior, SeniorOf(r)));
  }

  /** The survivors stand in the list as they stand in the roster. */
  ghost predicate SameRelativeOrder(s: Session, news: Session) {
    Keeping(s.order, Survivors(s, news)) == Keeping(news.order, Survivors(s, news))
  }

  lemma OrderFollowsIff(s: Session, news: Session, before: Session, senior: PeerId)
    requires Proper(news) && Smaller(s, before, senior) && before.infos.Keys == Survivors(s, news)
    requires Joining(Survivors(s, news), news, before.order, before, senior) && Added(Survivors(s, news), news, before, 0)
    requires forall i :: 0 <= i < |news.order| ==> news.order[i] in news.infos
    ensures AddNew(before, news, |news.order|).order == news.order <==> SameRelativeOrder(s, news)
  {
    hide HearAll, Idents, IdentOf, Keeping, Added, Survivors, Proper;
    var stay, n := Survivors(s, news), |news.order|;
    AddNewAdds(stay, news, before, n, senior);
    if SameRelativeOrder(s, news) {
      OrderBuilds(stay, news, before, n, senior);
      assert news.order[..n] == news.order && news.order[n..] == [];
      KeepingAll([], stay);
    }
  }

  /** After a message the roster holds exactly the listed peers with their packets,
      the callbacks add up to it, and the survivors stand as they stood: only
      newcomers are moved. So it is in the list's order exactly when the survivors
      stand in the list as they stood in the roster. */
  lemma UpdateFollows(s: Session, packets: seq<Packet>)
    requires Proper(s) && InStep(s)
    ensures var r, news := Update(s, packets), Group(packets, |packets|);
            && Proper(r) && InStep(r)
            && r.infos == news.infos
            && Keeping(r.order, Survivors(s, news)) == Keeping(s.order, Survivors(s, news))
            && (r.order == news.order <==> SameRelativeOrder(s, news))
  {
    hide HearAll, Idents, IdentOf, Keeping, Proper, Joining, Added, Survivors, Departs, Group;
    var news, senior := Group(packets, |packets|), SeniorOf(s);
    GroupProper(packets, |packets|);
    DroppedAll(s, news, senior);
    var before := DropGone(s, news, s.order, |s.order|);
    StartAdding(s, news, before, senior);
    AddNewAdds(Survivors(s, news), news, before, |news.order|, senior);
    var r := AddNew(before, news, |news.order|);
    JoinedAll(Survivors(s, news), news, before.order, r, senior);
    OrderFollowsIff(s, news, before, senior);
    JoiningMeans(Survivors(s, news), news, before.order, r, senior);
    SmallerMeans(s, before, news, senior);
    TellSeniorInStep(r, senior);
    TellSeniorKeeps(r, senior);
  }

  lemma JoiningMeans(stay: set<PeerId>, news: Session, was: seq<PeerId>, r: Session, senior: PeerId)
    requires Joining(stay, news, was, r, senior)
    ensures Proper(r) && HearAll(r.log) == Told(Idents(r.infos), senior, true)
    ensures Keeping(r.order, stay) == was
  {
  }

  lemma SmallerMeans(s: Session, before: Session, news: Session, senior: PeerId)
    requires Smaller(s, before, senior) && before.infos.Keys == Survivors(s, news)
    ensures before.order == Keeping(s.order, Survivors(s, news))
  {
  }

  lemma TellSeniorKeeps(r: Session, senior: PeerId)
    ensures TellSenior(r, senior).infos == r.infos && TellSenior(r, senior).order == r.order
    ensures Proper(r) ==> Proper(TellSenior(r, senior))
  {
  }

  /** The head of the list is a newcomer, or was the first of the survivors. */
  ghost predicate HeadLeads(s: Session, news: Session)
    requires news.order != []
  {
    var stay := Survivors(s, news);
    news.order[0] in stay ==> Keeping(s.order, stay) != [] && Keeping(s.order, stay)[0] == news.order[0]
  }

  /** The front of the roster is settled with the first peer of the list: nobody is
      put before it later. */
  lemma {:induction false} FrontSettled(before: Session, news: Session, n: nat)
    requires 0 < n <= |news.order| && forall i :: 0 <= i < |news.order| ==> news.order[i] in news.infos
    requires news.order[0] in before.infos ==> before.order != []
    ensures var r := AddNew(before, news, n);
            r.order != [] && r.order[0] == if news.order[0] in before.infos then before.order[0] else news.order[0]
  {
    if n > 1 {
      FrontSettled(before, news, n - 1);
      InsertKeepsFront(AddNew(before, news, n - 1).order, news.order[n - 1], news.order[n - 2]);
    } else {
      assert AddNew(before, news, 0) == before;
    }
  }

  lemma InsertKeepsFront(order: seq<PeerId>, p: PeerId, previous: PeerId)
    requires order != []
    ensures InsertBehind(order, p, Some(previous)) != [] && InsertBehind(order, p, Some(previous))[0] == order[0]
  {
  }

  /** The front of the roster is the head of the list exactly in that case, whatever
      the order of the others; it is then the senior, if it is a full peer. */
  lemma FrontIsHeadIff(s: Session, packets: seq<Packet>)
    requires Proper(s) && InStep(s) && packets != []
    ensures var r, news := Update(s, packets), Group(packets, |packets|);
            && news.order != [] && news.order[0] == packets[0].pid && r.order != []
            && (r.order[0] == packets[0].pid <==> HeadLeads(s, news))
            && (HeadLeads(s, news) ==>
                  SeniorOf(r) == if packets[0].kind == FULL_PEER then packets[0].pid else NO_PEER)
  {
    hide HearAll, Idents, Keeping, Joining, Added, Departs, Group, InsertBehind, DropGone, AddNew;
    var news, senior := Group(packets, |packets|), SeniorOf(s);
    GroupProper(packets, |packets|);
    GroupHead(packets, |packets|);
    DroppedAll(s, news, senior);
    var before := DropGone(s, news, s.order, |s.order|);
    SmallerMeans(s, before, news, senior);
    assert news.order[0] in before.infos ==> news.order[0] in before.order;
    FrontSettled(before, news, |news.order|);
    TellSeniorKeeps(AddNew(before, news, |news.order|), senior);
    UpdateFollows(s, packets);
  }

  lemma {:induction false} GroupHead(packets: seq<Packet>, n: nat)
    requires 0 < n <= |packets|
    ensures var g := Group(packets, n);
            && g.order != [] && g.order[0] == packets[0].pid
            && packets[0].pid in g.infos && g.infos[packets[0].pid] != [] && g.infos[packets[0].pid][0] == packets[0]
  {
    if n > 1 {
      GroupHead(packets, n - 1);
    }
  }

  // ----- Every run -----

  function SessionAfter(messages: seq<seq<Packet>>): Session {
    if messages == [] then NEW_SESSION
    else Update(SessionAfter(messages[..|messages| - 1]), messages[|messages| - 1])
  }

  lemma NewSessionInStep()
    ensures Proper(NEW_SESSION) && InStep(NEW_SESSION)
  {
    assert Idents(NEW_SESSION.infos) == map[];
  }

  lemma {:induction false} RunInStep(messages: seq<seq<Packet>>)
    ensures Proper(SessionAfter(messages)) && InStep(SessionAfter(messages))
    decreases |messages|
  {
    hide Proper, InStep, Update;
    if messages == [] {
      NewSessionInStep();
    } else {
      RunInStep(messages[..|messages| - 1]);
      UpdateFollows(SessionAfter(messages[..|messages| - 1]), messages[|messages| - 1]);
    }
  }

  /** In every run the callbacks are sensible and add up to exactly the peers of the
      latest list, each as it is described there, and to the roster's senior. */
  lemma CallbacksReplay(messages: seq<seq<Packet>>)
    requires messages != []
    ensures var s, latest := SessionAfter(messages), messages[|messages| - 1];
            HearAll(s.log) == Told(Idents(Group(latest, |latest|).infos), SeniorOf(s), true)
  {
    hide Proper, Update, HearAll, Idents;
    RunInStep(messages);
    RunInStep(messages[..|messages| - 1]);
    UpdateFollows(SessionAfter(messages[..|messages| - 1]), messages[|messages| - 1]);
  }

  // ----- Where the roster and the list part -----

  const ONE := Packet(1, FULL_PEER, 0, 9, true, [])
  const TWO := Packet(2, FULL_PEER, 0, 9, true, [])

  lemma TwoGrouped(a: Packet, b: Packet)
    requires a.pid != b.pid
    ensures Group([a, b], 2) == Session([a.pid, b.pid], map[a.pid := [a], b.pid := [b]], [])
  {
    var one := Group([a, b], 1);
    assert Group([a, b], 0) == NEW_SESSION;
    assert one == Mention(NEW_SESSION, a);
    assert [] + [a] == [a] && [] + [b] == [b];
    assert one.order == [a.pid] && one.infos == map[a.pid := [a]];
    var two := Mention(one, b);
    assert two.order == [a.pid, b.pid] && two.infos == map[a.pid := [a], b.pid := [b]];
  }

  lemma {:induction false} KeepingNone(order: seq<PeerId>)
    ensures Keeping(order, {}) == []
  {
    if order != [] {
      KeepingNone(order[..|order| - 1]);
    }
  }

  /** A first list is followed to the letter. */
  lemma FirstListFollowed(packets: seq<Packet>)
    ensures Update(NEW_SESSION, packets).order == Group(packets, |packets|).order
  {
    hide Group, Update, Keeping;
    var news := Group(packets, |packets|);
    NewSessionInStep();
    UpdateFollows(NEW_SESSION, packets);
    assert Survivors(NEW_SESSION, news) == {};
    KeepingNone([]);
    KeepingNone(news.order);
  }

  lemma TwoSurvive(s: Session, news: Session)
    requires s.infos == map[1 := [ONE], 2 := [TWO]] && news.infos == map[2 := [TWO], 1 := [ONE]]
    ensures Survivors(s, news) == {1, 2}
  {
  }

  /** Two peers that change places in the list do not in the roster: its senior is
      still the first one, though the list now names the second. */
  lemma ReorderExample()
    ensures var s := SessionAfter([[ONE, TWO], [TWO, ONE]]);
            s.order == [1, 2] && SeniorOf(s) == 1 && Group([TWO, ONE], 2).order == [2, 1]
  {
    hide Update, HearAll, Keeping, InStep;
    var a, b := [ONE, TWO], [TWO, ONE];
    TwoGrouped(ONE, TWO);
    TwoGrouped(TWO, ONE);
    assert [a, b][..1] == [a] && [a][..0] == [];
    var s := SessionAfter([a]);
    assert SessionAfter([]) == NEW_SESSION;
    assert s == Update(NEW_SESSION, a);
    NewSessionInStep();
    UpdateFollows(NEW_SESSION, a);
    FirstListFollowed(a);
    UpdateFollows(s, b);
    var r, news := Update(s, b), Group(b, 2);
    TwoSurvive(s, news);
    KeepingAll(s.order, {1, 2});
    KeepingAll(r.order, {1, 2});
    assert SessionAfter([a, b]) == r;
  }

  /** A full peer and a junior-only one are online: the list worked out puts the
      junior-only one first, so the roster names no senior at all. */
  lemma NoSeniorExample()
    ensures var t := SeniorityOrder.MIXED_PEERS;
            var packets := [t.sources[Key(6, 2)].packet, t.sources[Key(5, 1)].packet];
            && SeniorityOrder.OrderedPeers(t) == [packets[0].pid, packets[1].pid]
            && packets[1].kind == FULL_PEER
            && SeniorOf(Update(NEW_SESSION, packets)) == NO_PEER
  {
    hide Update, Keeping, SeniorityOrder.OrderedPeers;
    SeniorityOrder.JuniorOnlyFirstExample();
    var t := SeniorityOrder.MIXED_PEERS;
    var packets := [t.sources[Key(6, 2)].packet, t.sources[Key(5, 1)].packet];
    NewSessionInStep();
    TwoGrouped(packets[0], packets[1]);
    UpdateFollows(NEW_SESSION, packets);
    FirstListFollowed(packets);
  }

  // ----- Sensible means alternating -----

  /** The callback says that the peer came online, or that it went offline. */
  predicate Says(c: Callback, p: PeerId, online: bool) {
    if online then c.PeerHasComeOnline? && c.peer == p else c.PeerHasGoneOffline? && c.peer == p
  }

  lemma {:induction false} SensiblePrefix(log: seq<Callback>, n: nat)
    requires n <= |log| && HearAll(log).sensible
    ensures HearAll(log[..n]).sensible
    decreases |log|
  {
    if n < |log| {
      var front := log[..|log| - 1];
      SensiblePrefix(front, n);
      assert front[..n] == log[..n];
    } else {
      assert log[..n] == log;
    }
  }

  lemma {:induction false} StaysUntilTold(log: seq<Callback>, i: nat, j: nat, p: PeerId, online: bool)
    requires i < j <= |log| && Says(log[i], p, online)
    requires forall k :: i < k < j ==> !Says(log[k], p, !online)
    ensures p in HearAll(log[..j]).online <==> online
  {
    assert log[..j][..j - 1] == log[..j - 1];
    if i < j - 1 {
      StaysUntilTold(log, i, j - 1, p, online);
      assert !Says(log[j - 1], p, !online);
    }
  }

  /** In a sensible log the callbacks about a peer alternate: between two that say
      the same there is one that says the opposite. */
  lemma SensibleAlternates(log: seq<Callback>, i: nat, j: nat, p: PeerId, online: bool)
    requires HearAll(log).sensible && i < j < |log| && Says(log[i], p, online) && Says(log[j], p, online)
    ensures exists k :: i < k < j && Says(log[k], p, !online)
  {
    SensiblePrefix(log, j + 1);
    assert log[..j + 1][..j] == log[..j];
    if forall k :: i < k < j ==> !Says(log[k], p, !online) {
      StaysUntilTold(log, i, j, p, online);
    }
  }

  // ----- What the roster shows of each peer -----

  /** The packets of one peer, in their order. */
  ghost function OfPeer(packets: seq<Packet>, p: PeerId): seq<Packet> {
    if packets == [] then []
    else
      var n := |packets| - 1;
      OfPeer(packets[..n], p) + if packets[n].pid == p then [packets[n]] else []
  }

  lemma {:induction false} GroupHolds(packets: seq<Packet>, n: nat, p: PeerId)
    requires n <= |packets|
    ensures var infos := Group(packets, n).infos;
            && (p in infos <==> OfPeer(packets[..n], p) != [])
            && (p in infos ==> infos[p] == OfPeer(packets[..n], p))
  {
    if n > 0 {
      GroupHolds(packets, n - 1, p);
      assert packets[..n][..n - 1] == packets[..n - 1];
    }
  }

  /** Peers are listed in the order in which they are first mentioned. */
  lemma {:induction false} GroupOrder(packets: seq<Packet>, n: nat, i: nat, j: nat) returns (k: nat)
    requires n <= |packets| && i < j < |Group(packets, n).order|
    ensures k < n && packets[k].pid == Group(packets, n).order[i]
    ensures forall o :: 0 <= o <= k ==> packets[o].pid != Group(packets, n).order[j]
  {
    hide Proper, Mention;
    var before, p := Group(packets, n - 1), packets[n - 1].pid;
    MentionOrder(before, packets[n - 1]);
    if j < |before.order| {
      k := GroupOrder(packets, n - 1, i, j);
    } else {
      GroupProper(packets, n - 1);
      k := MentionedBefore(packets, n - 1, before.order[i], p);
    }
  }

  lemma MentionOrder(s: Session, p: Packet)
    ensures Mention(s, p).order == if p.pid in s.infos then s.order else s.order + [p.pid]
  {
  }

  lemma MentionedBefore(packets: seq<Packet>, n: nat, q: PeerId, p: PeerId) returns (k: nat)
    requires n <= |packets| && q in Group(packets, n).infos && p !in Group(packets, n).infos
    ensures k < n && packets[k].pid == q && forall o :: 0 <= o < n ==> packets[o].pid != p
  {
    hide Group;
    GroupNames(packets, n, p);
    GroupNames(packets, n, q);
    k :| 0 <= k < n && packets[k].pid == q;
  }

  // ----- Nobody is told what has not happened -----

  /** The callback is of a peer that is gone, or is not what it was, or of one that is
      listed and was not in the roster as it is. */
  ghost predicate Justified(s: Session, news: Session, c: Callback) {
    match c
    case PeerHasGoneOffline(p) => Departs(s, news, p)
    case PeerHasComeOnline(p, ident) =>
      p !in Survivors(s, news) && p in news.infos && ident == IdentOf(news.infos[p])
    case SeniorPeerChanged(_, _) => false
  }

  ghost predicate OnlyJustified(s: Session, news: Session, log: seq<Callback>) {
    s.log <= log && forall i :: |s.log| <= i < |log| ==> Justified(s, news, log[i])
  }

  lemma DropJustified(s: Session, news: Session, r: Session, p: PeerId, senior: PeerId)
    requires Smaller(s, r, senior) && Departs(r, news, p) && OnlyJustified(s, news, r.log)
    ensures OnlyJustified(s, news, Drop(r, p).log)
  {
    hide HearAll, Idents, Survivors, Keeping, Without;
    assert Departs(s, news, p);
  }

  lemma NothingToJustify(s: Session, news: Session)
    ensures OnlyJustified(s, news, s.log)
  {
  }

  lemma {:induction false} DropsJustified(s: Session, news: Session, n: nat, senior: PeerId)
    requires Proper(s) && n <= |s.order| && HearAll(s.log) == Told(Idents(s.infos), senior, true)
    ensures OnlyJustified(s, news, DropGone(s, news, s.order, n).log)
  {
    hide Smaller, Dropped, Proper, Departs, HearAll, Idents, OnlyJustified, Drop;
    if n == 0 {
      NothingToJustify(s, news);
    } else {
      DropsJustified(s, news, n - 1, senior);
      DropGoneDrops(s, news, n - 1, senior);
      var r, p := DropGone(s, news, s.order, n - 1), s.order[n - 1];
      if Departs(r, news, p) {
        DropJustified(s, news, r, p, senior);
      }
    }
  }

  lemma AddJustified(s: Session, news: Session, was: seq<PeerId>, r: Session, n: nat, senior: PeerId)
    requires n < |news.order| && news.order[n] in news.infos
    requires Joining(Survivors(s, news), news, was, r, senior) && OnlyJustified(s, news, r.log)
    ensures OnlyJustified(s, news, Add(r, news, n).log)
  {
    hide Survivors, Proper, HearAll, Idents, IdentOf, Keeping, InsertBehind;
  }

  lemma {:induction false} AddsJustified(s: Session, news: Session, before: Session, n: nat, senior: PeerId)
    requires Proper(news) && OnlyJustified(s, news, before.log)
    requires Joining(Survivors(s, news), news, before.order, before, senior) && Added(Survivors(s, news), news, before, 0)
    requires n <= |news.order| && forall i :: 0 <= i < |news.order| ==> news.order[i] in news.infos
    ensures OnlyJustified(s, news, AddNew(before, news, n).log)
  {
    hide Joining, Added, Add, Proper, Survivors, OnlyJustified, Distinct, HearAll;
    if n > 0 {
      AddsJustified(s, news, before, n - 1, senior);
      AddNewAdds(Survivors(s, news), news, before, n - 1, senior);
      AddJustified(s, news, before.order, AddNew(before, news, n - 1), n - 1, senior);
    }
  }

  /** The callbacks of one message: offline only for peers that are gone or are not what
      they were, online only for listed peers that did not stay as they were, and last,
      exactly if the senior is another one, the change of senior. */
  lemma OnlyWhatHappened(s: Session, packets: seq<Packet>)
    requires Proper(s) && InStep(s)
    ensures var r, news := Update(s, packets), Group(packets, |packets|);
            if SeniorOf(r) == SeniorOf(s) then OnlyJustified(s, news, r.log)
            else
              && r.log != [] && r.log[|r.log| - 1] == SeniorPeerChanged(SeniorOf(s), SeniorOf(r))
              && OnlyJustified(s, news, r.log[..|r.log| - 1])
  {
    hide HearAll, Idents, Proper, Joining, Added, Survivors, Group, Smaller, OnlyJustified, SeniorOf;
    var news, senior := Group(packets, |packets|), SeniorOf(s);
    GroupProper(packets, |packets|);
    DroppedAll(s, news, senior);
    DropsJustified(s, news, |s.order|, senior);
    var before := DropGone(s, news, s.order, |s.order|);
    StartAdding(s, news, before, senior);
    AddsJustified(s, news, before, |news.order|, senior);
    var r := AddNew(before, news, |news.order|);
    SameSenior(r, senior);
    assert (r.log + [SeniorPeerChanged(senior, SeniorOf(r))])[..|r.log|] == r.log;
  }

  lemma SameSenior(r: Session, senior: PeerId)
    ensures SeniorOf(TellSenior(r, senior)) == SeniorOf(r)
  {
  }
}
