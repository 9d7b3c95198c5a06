/** The replication protocol: one senior, any number of juniors, and a network
    that may lose, duplicate and reorder multicast updates and beacons. */
module Replication {
  import opened Tables
  import opened Database
  import Rescan

  type PeerId = nat

  /** An order on its way: the request is travelling, or its reply is, or the
      unicast session that carried it has died and no reply will ever come. */
  datatype Transit<M> = Requested | Answered(reply: Option<Update<M>>) | Dead

  datatype Junior<D, M> = Junior(db: Db<D, M>, link: map<OrderKey, Transit<M>>)

  /** `multicast` and `beacons` hold everything ever handed to the network: a
      message may be delivered at any later time, any number of times, or never.
      `start` is the state at which this senior's tenure began. The remaining
      fields are history: the senior's content at every state, the (state,
      checksum) pairs it has put on record, and whether a multicast send failed. */
  datatype System<D, M> = System(
    senior: Db<D, M>,
    juniors: map<PeerId, Junior<D, M>>,
    multicast: seq<Update<M>>,
    beacons: set<Beacon>,
    start: nat,
    history: seq<D>,
    recorded: set<(nat, nat)>,
    sendFailed: bool)

  datatype Event<M> =
    | Submit(request: Request<M>)
    | SeniorPulse(canSend: nat -> bool)
    | Publish(canSend: nat -> bool)
    | Join(peer: PeerId, maxPayloadBytes: nat)
    | Attach(peer: PeerId)
    | UpdateArrives(peer: PeerId, index: nat)
    | BeaconArrives(peer: PeerId, beacon: Beacon)
    | JuniorPulse(peer: PeerId, env: Env)
    | ServeOrder(peer: PeerId, key: OrderKey, verify: bool)
    | ReplyArrives(peer: PeerId, key: OrderKey, env: Env)
    | LoseLink(peer: PeerId)
    | ResolveLost(peer: PeerId, key: OrderKey, env: Env)

  predicate Enabled<D, M>(s: System<D, M>, e: Event<M>) {
    match e
    case Submit(_) | SeniorPulse(_) | Publish(_) => true
    case Join(p, _) => p !in s.juniors
    case Attach(p) => p in s.juniors && !s.juniors[p].db.attached
    case UpdateArrives(p, i) => p in s.juniors && i < |s.multicast|
    case BeaconArrives(p, b) => p in s.juniors && b in s.beacons
    case JuniorPulse(p, _) => p in s.juniors
    case ServeOrder(p, key, _) => p in s.juniors && key in s.juniors[p].link && s.juniors[p].link[key] == Requested
    case ReplyArrives(p, key, _) => p in s.juniors && key in s.juniors[p].link && s.juniors[p].link[key].Answered?
    case LoseLink(p) => p in s.juniors
    case ResolveLost(p, key, _) => p in s.juniors && key in s.juniors[p].link && s.juniors[p].link[key] == Dead
  }

  // ----- The senior's steps -----

  function SubmitStep<D, M>(app: App<D, M>, s: System<D, M>, request: Request<M>): System<D, M> {
    var (db, status) := HandleRequest(app, s.senior, request);
    if status == Ok then
      s.(senior := db, history := s.history + [db.content], recorded := s.recorded + {(db.localId, db.checksum)})
    else s.(senior := db)
  }

  function Lookup<M>(log: map<nat, Update<M>>, ids: seq<nat>): (r: seq<Update<M>>)
    requires forall i :: 0 <= i < |ids| ==> ids[i] in log
    ensures |r| == |ids|
    ensures forall i :: 0 <= i < |ids| ==> r[i] == log[ids[i]]
  {
    if ids == [] then [] else Lookup(log, ids[..|ids| - 1]) + [log[ids[|ids| - 1]]]
  }

  lemma {:induction false} SentInLog(keys: seq<nat>, from: nat, canSend: nat -> bool)
    ensures forall i :: 0 <= i < |SentOf(keys, from, canSend)| ==> SentOf(keys, from, canSend)[i] in keys
  {
    if keys != [] {
      SentInLog(keys[..|keys| - 1], from, canSend);
    }
  }

  function PulseSenior<D, M>(app: App<D, M>, s: System<D, M>, canSend: nat -> bool): System<D, M> {
    if s.senior.rescanPending then
      SentInLog(SortedKeys(s.senior.log.Keys), s.senior.firstUnsent, canSend);
      s.(senior := SeniorRescan(app, s.senior, canSend),
         multicast := s.multicast + Lookup(s.senior.log, SentIds(s.senior, canSend)),
         sendFailed := s.sendFailed || exists k :: k in s.senior.log && k >= s.senior.firstUnsent && !canSend(k))
    else s
  }

  /** ZGPeerSession::Pulse: the log is rescanned first, then the beacon goes out. */
  function PublishStep<D, M>(app: App<D, M>, s: System<D, M>, canSend: nat -> bool): System<D, M> {
    var s' := PulseSenior(app, s, canSend);
    s'.(beacons := s'.beacons + {Advertise(s'.senior)})
  }

  function ServeStep<D, M>(app: App<D, M>, s: System<D, M>, p: PeerId, key: OrderKey, verify: bool): System<D, M>
    requires p in s.juniors
  {
    var db := if verify && key == FullDatabase then VerifyChecksum(app, s.senior) else s.senior;
    var reply := Serve(app, db, key);
    var j := s.juniors[p];
    s.(senior := db,
       juniors := s.juniors[p := j.(link := j.link[key := Answered(reply)])],
       recorded := if reply.Some? then s.recorded + {(reply.value.id, reply.value.post)} else s.recorded)
  }

  // ----- A junior's steps -----

  /** Orders that are new in `orders` go out as requests; the others stay as they were. */
  function Relink<M>(link: map<OrderKey, Transit<M>>, orders: set<OrderKey>): map<OrderKey, Transit<M>> {
    map key | key in orders :: if key in link then link[key] else Requested
  }

  function Pulse<D, M>(app: App<D, M>, db: Db<D, M>, env: Env): Db<D, M> {
    if db.rescanPending then JuniorRescan(app, db, env) else db
  }

  function JuniorStep<D, M>(app: App<D, M>, s: System<D, M>, j: Junior<D, M>, e: Event<M>): Junior<D, M> {
    match e
    case Attach(_) => j.(db := Schedule(j.db.(attached := true)))
    case UpdateArrives(_, i) => if i < |s.multicast| then j.(db := AddUpdate(app, j.db, s.multicast[i], false)) else j
    case BeaconArrives(_, b) => j.(db := HearBeacon(j.db, b))
    case JuniorPulse(_, env) =>
      var db := Pulse(app, j.db, env);
      Junior(db, Relink(j.link, db.orders))
    case ReplyArrives(_, key, env) =>
      if key in j.link && j.link[key].Answered? then
        var db := OrderResult(app, j.db, key, j.link[key].reply, true, env);
        Junior(db, Relink(j.link - {key}, db.orders))
      else j
    case LoseLink(_) => j.(link := map key | key in j.link :: Dead)
    case ResolveLost(_, key, env) =>
      var db := OrderResult(app, j.db, key, None, true, env);
      Junior(db, Relink(j.link - {key}, db.orders))
    case _ => j
  }

  ghost predicate IsJuniorEvent<M>(e: Event<M>) {
    !e.Submit? && !e.SeniorPulse? && !e.Publish? && !e.Join? && !e.ServeOrder?
  }

  function Step<D, M>(app: App<D, M>, s: System<D, M>, e: Event<M>): System<D, M>
    requires Enabled(s, e)
  {
    match e
    case Submit(request) => SubmitStep(app, s, request)
    case SeniorPulse(canSend) => PulseSenior(app, s, canSend)
    case Publish(canSend) => PublishStep(app, s, canSend)
    case Join(p, maxBytes) => s.(juniors := s.juniors[p := Junior(Fresh(app, maxBytes, false), map[])])
    case ServeOrder(p, key, verify) => ServeStep(app, s, p, key, verify)
    case _ => s.(juniors := s.juniors[e.peer := JuniorStep(app, s, s.juniors[e.peer], e)])
  }

  // ----- Runs -----

  ghost predicate IsRun<D, M>(app: App<D, M>, s: System<D, M>, events: seq<Event<M>>)
    decreases |events|
  {
    events == [] || (Enabled(s, events[0]) && IsRun(app, Step(app, s, events[0]), events[1..]))
  }

  ghost function After<D, M>(app: App<D, M>, s: System<D, M>, events: seq<Event<M>>): System<D, M>
    requires IsRun(app, s, events)
    decreases |events|
  {
    if events == [] then s else After(app, Step(app, s, events[0]), events[1..])
  }

  /** A system at birth: everyone fresh, nothing sent yet. */
  ghost predicate Birth<D, M>(app: App<D, M>, s: System<D, M>) {
    && (exists n: nat :: s.senior == Fresh(app, n, true))
    && s.juniors == map[] && s.multicast == [] && s.beacons == {} && s.start == 0
    && s.history == [app.initial] && s.recorded == {} && !s.sendFailed
  }

  lemma {:induction false} RunSplits<D, M>(app: App<D, M>, s: System<D, M>, first: seq<Event<M>>, second: seq<Event<M>>)
    requires IsRun(app, s, first + second)
    ensures IsRun(app, s, first) && IsRun(app, After(app, s, first), second)
    ensures After(app, s, first + second) == After(app, After(app, s, first), second)
    decreases |first|
  {
    if first == [] {
      assert first + second == second;
    } else {
      assert (first + second)[1..] == first[1..] + second;
      RunSplits(app, Step(app, s, first[0]), first[1..], second);
    }
  }

  lemma {:induction false} RunExtends<D, M>(app: App<D, M>, s: System<D, M>, events: seq<Event<M>>, e: Event<M>)
    requires IsRun(app, s, events) && Enabled(After(app, s, events), e)
    ensures IsRun(app, s, events + [e]) && After(app, s, events + [e]) == Step(app, After(app, s, events), e)
    decreases |events|
  {
    if events == [] {
      var all := events + [e];
      assert all == [e] && all[1..] == [];
    } else {
      var all := events + [e];
      assert all[0] == events[0] && all[1..] == events[1..] + [e];
      RunExtends(app, Step(app, s, events[0]), events[1..], e);
    }
  }

  /** Some run leads from `s` to `t`. */
  ghost predicate Reaches<D(!new), M(!new)>(app: App<D, M>, s: System<D, M>, t: System<D, M>) {
    exists events :: IsRun(app, s, events) && After(app, s, events) == t
  }

  lemma ReachesItself<D(!new), M(!new)>(app: App<D, M>, s: System<D, M>)
    ensures Reaches(app, s, s)
  {
    assert IsRun(app, s, []) && After(app, s, []) == s;
  }

  lemma ReachesNext<D(!new), M(!new)>(app: App<D, M>, s: System<D, M>, t: System<D, M>, e: Event<M>)
    requires Reaches(app, s, t) && Enabled(t, e)
    ensures Reaches(app, s, Step(app, t, e))
  {
    var events :| IsRun(app, s, events) && After(app, s, events) == t;
    RunExtends(app, s, events, e);
    assert IsRun(app, s, events + [e]) && After(app, s, events + [e]) == Step(app, t, e);
  }

  lemma PulseSeniorFrame<D, M>(app: App<D, M>, s: System<D, M>, canSend: nat -> bool)
    ensures var s' := PulseSenior(app, s, canSend);
            var r := s'.senior;
            && r == s.senior.(log := r.log, payloadBytes := r.payloadBytes, seniorOldest := r.seniorOldest,
                              firstUnsent := r.firstUnsent, rescanPending := r.rescanPending)
            && r.log.Keys <= s.senior.log.Keys
            && (forall k :: k in r.log ==> r.log[k] == s.senior.log[k])
            && s' == s.(senior := r, multicast := s'.multicast, sendFailed := s'.sendFailed)
            && |s.multicast| <= |s'.multicast|
            && (forall i :: 0 <= i < |s.multicast| ==> s'.multicast[i] == s.multicast[i])
            && (forall i :: |s.multicast| <= i < |s'.multicast| ==>
                  exists k :: k in s.senior.log && s'.multicast[i] == s.senior.log[k])
  {
    if s.senior.rescanPending {
      SentInLog(SortedKeys(s.senior.log.Keys), s.senior.firstUnsent, canSend);
      Rescan.SeniorTrimFrame(app, s.senior.(
        rescanPending := false,
        firstUnsent := AfterLast(SentIds(s.senior, canSend), s.senior.firstUnsent)));
    }
  }
}
