/** Where the protocol can stop short: exactly which steps leave a junior behind
    with nothing on order and nothing scheduled, and that only an arriving update
    or a beacon that says something new gets it going again. */
module Stall {
  import opened Tables
  import opened Database
  import opened Replication
  import Rescan

  /** Behind the senior, nothing on order, nothing scheduled. */
  ghost predicate Stalled<D, M>(s: System<D, M>, p: PeerId) {
    && p in s.juniors
    && s.juniors[p].db.orders == {}
    && !s.juniors[p].db.rescanPending
    && s.juniors[p].db.localId < s.senior.localId
  }

  /** Every order is on its way somewhere. */
  ghost predicate Linked<D, M>(j: Junior<D, M>) {
    j.link.Keys == j.db.orders
  }

  // ----- Where a rescan stops -----

  /** The state to which the logged updates take the database, as far as they are
      consecutive and succeed. */
  ghost function Reach<D, M>(app: App<D, M>, db: Db<D, M>, target: nat): nat
    decreases target - db.localId
  {
    if db.localId >= target || db.localId + 1 !in db.log then db.localId
    else
      var (r, ok) := ExecuteUpdate(app, db, db.log[db.localId + 1]);
      if ok && r.localId == db.localId + 1 then Reach(app, r, target) else db.localId
  }

  /** The guard of the branch in which a rescan that cannot go on to `next` places no
      order: the update there failed and the full database cannot be ordered, or it
      is missing and neither can the update, or there is nobody to order from. */
  predicate NothingToOrder<D, M>(db: Db<D, M>, next: nat, env: Env) {
    if next in db.log then !env.canOrder(FullDatabase)
    else
      || !env.hasSenior
      || (!env.canOrder(FullDatabase) && (next < db.seniorOldest || !env.canOrder(UpdateId(next))))
  }

  lemma OrderMissingNothing<D, M>(db: Db<D, M>, next: nat, target: nat, env: Env)
    requires db.orders == {} && next <= target && next !in db.log
    ensures OrderMissing(db, next, target, env).orders == {} <==>
              !env.canOrder(UpdateId(next)) && !env.canOrder(FullDatabase)
  {
    if env.canOrder(UpdateId(next)) {
      var asked := RequestOrder(db, UpdateId(next), env);
      assert UpdateId(next) in asked.orders;
      OrderMissingFrame(asked, next + 1, target, env);
    }
  }

  lemma StepStops<D, M>(app: App<D, M>, db: Db<D, M>, target: nat, env: Env)
    requires db.orders == {} && db.localId < target && !ReplayStep(app, db, target, env).1
    ensures var r := ReplayStep(app, db, target, env).0;
            && r.localId == db.localId == Reach(app, db, target)
            && (r.orders == {} <==> NothingToOrder(db, db.localId + 1, env))
  {
    var next := db.localId + 1;
    if next in db.log {
      ExecuteFrame(app, db, db.log[next]);
    } else {
      OrderMissingFrame(db, next, target, env);
      OrderMissingNothing(db, next, target, env);
    }
  }

  lemma StepGoes<D, M>(app: App<D, M>, db: Db<D, M>, target: nat, env: Env)
    requires db.orders == {} && db.localId < target && ReplayStep(app, db, target, env).1
    ensures var r := ReplayStep(app, db, target, env).0;
            && r.orders == {} && r.log == db.log && r.seniorOldest == db.seniorOldest
            && r.localId == db.localId + 1 && Reach(app, db, target) == Reach(app, r, target)
  {
    ExecuteFrame(app, db, db.log[db.localId + 1]);
  }

  lemma {:induction false} ReplayStops<D, M>(app: App<D, M>, db: Db<D, M>, target: nat, env: Env)
    requires db.orders == {}
    ensures var r, stop := Replay(app, db, target, env), Reach(app, db, target);
            && r.localId == stop
            && (r.orders == {} <==> stop >= target || NothingToOrder(db, stop + 1, env))
    decreases target - db.localId
  {
    if db.localId < target {
      hide ReplayStep, Reach;
      var (r, more) := ReplayStep(app, db, target, env);
      if more {
        StepGoes(app, db, target, env);
        ReplayStops(app, r, target, env);
      } else {
        StepStops(app, db, target, env);
      }
    }
  }

  // ----- The guards -----

  /** A pulse with nothing on order places none and ends behind `top`: no beacon was
      heard yet, or a newcomer cannot order the full database, or the log leads as
      far as is known to exist, or it does not and nothing can be ordered. */
  ghost predicate PulseStalls<D, M>(app: App<D, M>, db: Db<D, M>, top: nat, env: Env) {
    && db.rescanPending && db.orders == {}
    && if !db.seniorKnown then true
       else if db.localId == 0 && Target(db) > 1 then !env.canOrder(FullDatabase)
       else
         var stop := Reach(app, BeginRescan(db), Target(db));
         stop < top && (stop >= Target(db) || NothingToOrder(db, stop + 1, env))
  }

  /** The junior's application takes the update, and ends with its checksum. */
  ghost predicate Accepts<D, M>(app: App<D, M>, db: Db<D, M>, u: Update<M>) {
    var (content, ok) := Outcome(app, db.content, u);
    ok && u.post == if Executable(u) then app.running(content) else db.checksum
  }

  /** The answer to the only order leaves nothing to do: the full database does not
      come or is refused, or an update does not come and the full database cannot
      be ordered instead. (A peer not attached schedules nothing in any case.) */
  ghost predicate AnswerStalls<D, M>(app: App<D, M>, db: Db<D, M>, top: nat, key: OrderKey, reply: Option<Update<M>>, env: Env) {
    && !db.rescanPending && db.orders == {key}
    && match (key, reply)
       case (FullDatabase, None) => true
       case (FullDatabase, Some(u)) => if Accepts(app, db, u) then !db.attached && u.id < top else true
       case (UpdateId(_), Some(_)) => !db.attached
       case (UpdateId(_), None) => !env.canOrder(FullDatabase)
  }

  ghost predicate StallGuard<D, M>(app: App<D, M>, s: System<D, M>, p: PeerId, e: Event<M>)
    requires p in s.juniors && Enabled(s, e)
  {
    var j, top := s.juniors[p], s.senior.localId;
    match e
    case JuniorPulse(q, env) => q == p && PulseStalls(app, j.db, top, env)
    case ReplyArrives(q, key, env) => q == p && AnswerStalls(app, j.db, top, key, j.link[key].reply, env)
    case ResolveLost(q, key, env) => q == p && AnswerStalls(app, j.db, top, key, None, env)
    case _ => false
  }

  // ----- They are exact -----

  lemma PulseStallsIff<D, M>(app: App<D, M>, db: Db<D, M>, top: nat, env: Env)
    requires db.localId < top && (db.rescanPending || db.orders != {})
    ensures var r := Pulse(app, db, env);
            (r.orders == {} && !r.rescanPending && r.localId < top) <==> PulseStalls(app, db, top, env)
  {
    if db.rescanPending && db.seniorKnown {
      RescanStalls(app, db, top, env);
    }
  }

  lemma RescanStalls<D, M>(app: App<D, M>, db: Db<D, M>, top: nat, env: Env)
    requires db.localId < top && db.rescanPending && db.seniorKnown
    ensures var r := JuniorRescan(app, db, env);
            (r.orders == {} && !r.rescanPending && r.localId < top) <==> PulseStalls(app, db, top, env)
  {
    hide JuniorRescan, CatchUp, PulseStalls;
    Rescan.JuniorRescanFrame(app, db, env);
    if db.orders == {} {
      CatchUpStalls(app, db, top, env);
    } else {
      assert !PulseStalls(app, db, top, env) by { BusyDoesNotStall(app, db, top, env); }
    }
  }

  lemma BusyDoesNotStall<D, M>(app: App<D, M>, db: Db<D, M>, top: nat, env: Env)
    requires db.orders != {}
    ensures !PulseStalls(app, db, top, env)
  {
  }

  lemma CatchUpStalls<D, M>(app: App<D, M>, db: Db<D, M>, top: nat, env: Env)
    requires db.localId < top && db.rescanPending && db.seniorKnown && db.orders == {}
    ensures var r := CatchUp(app, BeginRescan(db), env);
            (r.orders == {} && r.localId < top) <==> PulseStalls(app, db, top, env)
  {
    hide Replay, Reach, Target;
    SameTarget(db);
    ReplayStops(app, BeginRescan(db), Target(db), env);
  }

  lemma SameTarget<D, M>(db: Db<D, M>)
    ensures Target(BeginRescan(db)) == Target(db)
  {
  }

  lemma AnswerStallsIff<D, M>(app: App<D, M>, db: Db<D, M>, top: nat, key: OrderKey, reply: Option<Update<M>>, env: Env)
    requires db.localId < top && key in db.orders
    ensures var r := OrderResult(app, db, key, reply, true, env);
            (r.orders == {} && !r.rescanPending && r.localId < top) <==> AnswerStalls(app, db, top, key, reply, env)
  {
    assert db.orders - {key} == {} <==> db.orders == {key};
    if key == FullDatabase && reply.Some? {
      ApplyFrame(app, db.(orders := db.orders - {key}), reply.value);
    }
  }

  lemma OthersDoNotStall<D, M>(app: App<D, M>, s: System<D, M>, p: PeerId, e: Event<M>)
    requires p in s.juniors && Linked(s.juniors[p]) && Enabled(s, e)
    requires s.juniors[p].db.rescanPending || s.juniors[p].db.orders != {}
    requires (e.JuniorPulse? || e.ReplyArrives? || e.ResolveLost?) ==> e.peer != p
    ensures p in Step(app, s, e).juniors
    ensures var r := Step(app, s, e).juniors[p].db;
            r.rescanPending || r.orders != {}
  {
    if e.SeniorPulse? || e.Publish? {
      PulseSeniorFrame(app, s, e.canSend);
    }
  }

  /** A junior that is behind and not stalled becomes stalled by exactly the steps
      whose guards are given above. */
  lemma StallsIff<D, M>(app: App<D, M>, s: System<D, M>, p: PeerId, e: Event<M>)
    requires p in s.juniors && Linked(s.juniors[p]) && Enabled(s, e)
    requires s.juniors[p].db.localId < s.senior.localId && !Stalled(s, p)
    ensures Stalled(Step(app, s, e), p) <==> StallGuard(app, s, p, e)
  {
    var db, top := s.juniors[p].db, s.senior.localId;
    if e.JuniorPulse? && e.peer == p {
      PulseStallsIff(app, db, top, e.env);
    } else if e.ReplyArrives? && e.peer == p {
      AnswerStallsIff(app, db, top, e.key, s.juniors[p].link[e.key].reply, e.env);
    } else if e.ResolveLost? && e.peer == p {
      AnswerStallsIff(app, db, top, e.key, None, e.env);
    } else {
      OthersDoNotStall(app, s, p, e);
    }
  }

  /** In particular, losing the order for the full database. */
  lemma LosingFullOrderStalls<D, M>(app: App<D, M>, s: System<D, M>, p: PeerId, env: Env)
    requires p in s.juniors && Linked(s.juniors[p])
    requires s.juniors[p].db.orders == {FullDatabase} && s.juniors[p].link[FullDatabase] == Dead
    requires !s.juniors[p].db.rescanPending && s.juniors[p].db.localId < s.senior.localId
    ensures Enabled(s, ResolveLost(p, FullDatabase, env))
    ensures Stalled(Step(app, s, ResolveLost(p, FullDatabase, env)), p)
  {
    hide Step;
    StallsIff(app, s, p, ResolveLost(p, FullDatabase, env));
  }

  // ----- Only news gets it going again -----

  ghost predicate Wakes<D, M>(db: Db<D, M>, p: PeerId, e: Event<M>) {
    || e == Attach(p)
    || (e.UpdateArrives? && e.peer == p)
    || (e.BeaconArrives? && e.peer == p && (e.beacon.id != db.seniorId || e.beacon.oldest != db.seniorOldest))
  }

  lemma SeniorOnlyGrows<D, M>(app: App<D, M>, s: System<D, M>, e: Event<M>)
    requires Enabled(s, e)
    ensures s.senior.localId <= Step(app, s, e).senior.localId
  {
    if e.Submit? {
      RequestShape(app, s.senior, e.request);
    } else if e.SeniorPulse? || e.Publish? {
      PulseSeniorFrame(app, s, e.canSend);
    }
  }

  /** Whatever else happens, a stalled junior does nothing. */
  lemma StalledStep<D, M>(app: App<D, M>, s: System<D, M>, p: PeerId, e: Event<M>)
    requires Stalled(s, p) && Linked(s.juniors[p]) && Enabled(s, e) && !Wakes(s.juniors[p].db, p, e)
    ensures Stalled(Step(app, s, e), p) && Step(app, s, e).juniors[p] == s.juniors[p]
  {
    SeniorOnlyGrows(app, s, e);
    var j := s.juniors[p];
    assert j.link == map[];
    if e.SeniorPulse? || e.Publish? {
      PulseSeniorFrame(app, s, e.canSend);
    } else if e.LoseLink? && e.peer == p {
      assert Step(app, s, e).juniors[p].link == j.link;
    } else if e.JuniorPulse? && e.peer == p {
      assert Relink(j.link, j.db.orders) == j.link;
    }
  }

  /** Exactly two things wake a stalled junior that is attached: an update that
      reaches it, and a beacon that says something new. */
  lemma WakesIff<D, M>(app: App<D, M>, s: System<D, M>, p: PeerId, e: Event<M>)
    requires Stalled(s, p) && Linked(s.juniors[p]) && s.juniors[p].db.attached && Enabled(s, e)
    ensures Step(app, s, e).juniors[p].db.rescanPending <==>
              || (e.UpdateArrives? && e.peer == p)
              || (e.BeaconArrives? && e.peer == p
                  && (e.beacon.id != s.juniors[p].db.seniorId || e.beacon.oldest != s.juniors[p].db.seniorOldest))
  {
    if !Wakes(s.juniors[p].db, p, e) {
      StalledStep(app, s, p, e);
    }
  }

  /** Over every run in which none of that happens the junior stays as it is, behind:
      new requests, repeated beacons, pulses and reconnections do not help it. */
  lemma {:induction false} StaysStalled<D, M>(app: App<D, M>, s: System<D, M>, p: PeerId, events: seq<Event<M>>)
    requires Stalled(s, p) && Linked(s.juniors[p]) && IsRun(app, s, events)
    requires forall i :: 0 <= i < |events| ==> !Wakes(s.juniors[p].db, p, events[i])
    ensures Stalled(After(app, s, events), p) && After(app, s, events).juniors[p] == s.juniors[p]
    decreases |events|
  {
    if events != [] {
      StalledStep(app, s, p, events[0]);
      StaysStalled(app, Step(app, s, events[0]), p, events[1..]);
    }
  }

  // ----- It happens -----

  const ALL_SENDS := Env(true, (key: OrderKey) => true)

  /** A newcomer that has heard of a state beyond the first orders the full database. */
  lemma NewcomerOrders<D, M>(app: App<D, M>, db: Db<D, M>)
    requires db.rescanPending && db.seniorKnown && db.log == map[] && db.localId == 0 && db.seniorId > 1 && db.orders == {}
    ensures var r := Pulse(app, db, ALL_SENDS);
            r.orders == {FullDatabase} && !r.rescanPending && r.localId == 0
  {
  }

  /** The second request of a new system's life reaches a beacon and a newcomer, and
      the newcomer's connection is lost before the full database comes. */
  lemma StallIsReachable<D(!new), M(!new)>(app: App<D, M>, s: System<D, M>)
    requires Birth(app, s)
    ensures exists t :: Reaches(app, s, t) && Stalled(t, 1) && Linked(t.juniors[1]) && t.juniors[1].db.attached
  {
    ReachesItself(app, s);
    var informed := NewcomerInformed(app, s);
    hide Reaches, Pulse;
    ReachesNext(app, s, informed, JuniorPulse(1, ALL_SENDS));
    var ordered := Step(app, informed, JuniorPulse(1, ALL_SENDS));
    NewcomerOrders(app, informed.juniors[1].db);
    PulseKeepsAttached(app, informed.juniors[1].db, ALL_SENDS);
    assert FullDatabase in ordered.juniors[1].link;
    ReachesNext(app, s, ordered, LoseLink(1));
    var lost := Step(app, ordered, LoseLink(1));
    assert lost.juniors[1].link[FullDatabase] == Dead;
    ReachesNext(app, s, lost, ResolveLost(1, FullDatabase, ALL_SENDS));
    var t := Step(app, lost, ResolveLost(1, FullDatabase, ALL_SENDS));
    assert t.juniors[1].db.orders == {};
    assert Stalled(t, 1) && Linked(t.juniors[1]);
  }

  lemma PulseKeepsAttached<D, M>(app: App<D, M>, db: Db<D, M>, env: Env)
    ensures Pulse(app, db, env).attached == db.attached
  {
    if db.rescanPending && db.seniorKnown {
      Rescan.JuniorRescanFrame(app, db, env);
    }
  }

  /** From birth to a newcomer that has heard of the senior's second state. */
  lemma NewcomerInformed<D(!new), M(!new)>(app: App<D, M>, s: System<D, M>) returns (t: System<D, M>)
    requires Birth(app, s)
    ensures Reaches(app, s, t) && t.senior.localId == 2 && 1 in t.juniors && t.juniors[1].link == map[]
    ensures var db := t.juniors[1].db;
            && db.rescanPending && db.attached && db.seniorKnown && db.log == map[]
            && db.localId == 0 && db.seniorId == 2 && db.orders == {}
  {
    ReachesItself(app, s);
    hide Reaches;
    ReachesNext(app, s, s, Join(1, 0));
    var joined := Step(app, s, Join(1, 0));
    ReachesNext(app, s, joined, Attach(1));
    var attached := Step(app, joined, Attach(1));
    var twice := ResetTwice(app, s, attached);
    ReachesNext(app, s, twice, Publish((k: nat) => true));
    var published := Step(app, twice, Publish((k: nat) => true));
    PulseSeniorFrame(app, twice, (k: nat) => true);
    var b := Advertise(PulseSenior(app, twice, (k: nat) => true).senior);
    assert b in published.beacons && b.id == 2;
    ReachesNext(app, s, published, BeaconArrives(1, b));
    t := Step(app, published, BeaconArrives(1, b));
  }

  lemma ResetTwice<D(!new), M(!new)>(app: App<D, M>, s: System<D, M>, t: System<D, M>) returns (r: System<D, M>)
    requires Reaches(app, s, t) && t.senior.localId == 0
    ensures Reaches(app, s, r) && r.senior.localId == 2 && r.juniors == t.juniors
  {
    hide Reaches;
    ReachesNext(app, s, t, Submit(ResetRequest));
    var once := Step(app, t, Submit(ResetRequest));
    RequestShape(app, t.senior, ResetRequest);
    ReachesNext(app, s, once, Submit(ResetRequest));
    r := Step(app, once, Submit(ResetRequest));
    RequestShape(app, once.senior, ResetRequest);
  }
}
