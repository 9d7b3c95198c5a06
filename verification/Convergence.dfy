/** Convergence: a junior whose orders go out and are answered is never left behind
    with nothing to do, so whenever it is idle and has heard of the senior's current
    state, it is there; and a fresh beacon, two pulses and an answer to each order
    are enough to get it there. */
module Convergence {
  import opened Tables
  import opened Database
  import opened Replication
  import opened Rescan
  import opened ReplicaSafety
  import opened Stall
  import Numbering
  import SeniorLog

  // ----- Idle means caught up -----

  /** A junior that knows of a state beyond its own has a rescan pending or something
      on order. */
  ghost predicate Awake<D, M>(db: Db<D, M>) {
    db.attached && db.seniorKnown && db.localId < Target(db) ==> db.rescanPending || db.orders != {}
  }

  /** Orders of `p` can be placed, and one for the full database is answered with it:
      its connection is not lost and the senior can save its database. */
  ghost predicate Fair<D, M>(s: System<D, M>, p: PeerId, e: Event<M>) {
    match e
    case JuniorPulse(q, env) => q == p ==> SendsSucceed(env)
    case ReplyArrives(q, key, env) =>
      q == p && q in s.juniors && key in s.juniors[q].link && s.juniors[q].link[key].Answered? ==>
        SendsSucceed(env) && (key == FullDatabase ==> s.juniors[q].link[key].reply.Some?)
    case ResolveLost(q, key, env) => q == p ==> SendsSucceed(env) && key != FullDatabase
    case _ => true
  }

  ghost predicate FairRun<D, M>(app: App<D, M>, s: System<D, M>, events: seq<Event<M>>, p: PeerId)
    requires IsRun(app, s, events)
    decreases |events|
  {
    events == [] || (Fair(s, p, events[0]) && FairRun(app, Step(app, s, events[0]), events[1..], p))
  }

  /** Sound updates do not fail, so a replay stops at its target or before a gap. */
  lemma {:induction false} SoundReplayStops<D, M>(app: App<D, M>, history: seq<D>, db: Db<D, M>, target: nat, env: Env)
    requires Faithful(app, history, db) && LogSound(app, history, db.log)
    ensures var r := Replay(app, db, target, env);
            r.localId >= target || r.localId + 1 !in db.log
    decreases target - db.localId
  {
    if db.localId < target {
      var next := db.localId + 1;
      ReplayStepFrame(app, db, target, env);
      if next in db.log {
        ExecuteSound(app, history, db, db.log[next]);
        SoundReplayStops(app, history, ReplayStep(app, db, target, env).0, target, env);
      } else {
        OrderMissingFrame(db, next, target, env);
      }
    }
  }

  lemma TargetShrinks<D, M>(db: Db<D, M>, r: Db<D, M>)
    requires r.log.Keys <= db.log.Keys && r.seniorId == db.seniorId
    ensures Target(r) <= Target(db)
  {
    assert r.log.Keys != {} ==> LastKey(r.log.Keys) in db.log.Keys;
  }

  /** A rescan that goes well ends at its target or with something on order. */
  lemma RescanAsks<D, M>(app: App<D, M>, history: seq<D>, db: Db<D, M>, env: Env)
    requires SendsSucceed(env) && db.seniorKnown && Faithful(app, history, db) && LogSound(app, history, db.log)
    ensures var r := JuniorRescan(app, db, env);
            r.localId >= Target(db) || r.orders != {}
  {
    var begun := BeginRescan(db);
    RescanCompletes(app, db, env);
    JuniorRescanFrame(app, db, env);
    var r := JuniorRescan(app, db, env);
    if FullDatabase !in begun.orders && !(begun.localId == 0 && Target(begun) > 1) {
      SoundReplayStops(app, history, begun, Target(begun), env);
      assert r.localId < Target(db) && FullDatabase !in r.orders ==> UpdateId(r.localId + 1) in r.orders;
    }
  }

  lemma PulseAwake<D, M>(app: App<D, M>, history: seq<D>, db: Db<D, M>, env: Env)
    requires SendsSucceed(env) && Awake(db) && Faithful(app, history, db) && LogSound(app, history, db.log)
    ensures Awake(Pulse(app, db, env))
  {
    if db.rescanPending && db.seniorKnown {
      RescanAsks(app, history, db, env);
      JuniorRescanFrame(app, db, env);
      TargetShrinks(db, JuniorRescan(app, db, env));
    }
  }

  lemma AnswerAwake<D(!new), M>(app: App<D, M>, history: seq<D>, db: Db<D, M>, key: OrderKey, reply: Option<Update<M>>, env: Env)
    requires SendsSucceed(env) && Awake(db) && HistoryGood(app, history) && Faithful(app, history, db)
    requires ReplySound(app, history, key, Answered(reply)) && (key == FullDatabase ==> reply.Some?)
    ensures Awake(OrderResult(app, db, key, reply, true, env))
  {
    if key in db.orders && key == FullDatabase {
      ReplaceSound(app, history, db.(orders := db.orders - {key}), reply.value);
    }
  }

  lemma JuniorStepAwake<D(!new), M>(app: App<D, M>, s: System<D, M>, e: Event<M>)
    requires Replicated(app, s) && Enabled(s, e) && IsJuniorEvent(e) && Fair(s, e.peer, e)
    requires Awake(s.juniors[e.peer].db)
    ensures Awake(JuniorStep(app, s, s.juniors[e.peer], e).db)
  {
    var j := s.juniors[e.peer];
    assert JuniorSound(app, s.history, j);
    match e {
      case JuniorPulse(_, env) => PulseAwake(app, s.history, j.db, env);
      case ReplyArrives(_, key, env) =>
        assert j.link[key] == Answered(j.link[key].reply);
        AnswerAwake(app, s.history, j.db, key, j.link[key].reply, env);
      case ResolveLost(_, key, env) => AnswerAwake(app, s.history, j.db, key, None, env);
      case _ =>
    }
  }

  lemma StepAwake<D(!new), M>(app: App<D, M>, s: System<D, M>, p: PeerId, e: Event<M>)
    requires Replicated(app, s) && Enabled(s, e) && Fair(s, p, e)
    requires p in s.juniors ==> Awake(s.juniors[p].db)
    ensures p in Step(app, s, e).juniors ==> Awake(Step(app, s, e).juniors[p].db)
  {
    hide Replicated, Awake;
    if IsJuniorEvent(e) {
      if e.peer == p {
        JuniorStepAwake(app, s, e);
      }
    } else {
      SeniorStepAwake(app, s, p, e);
    }
  }

  lemma SeniorStepAwake<D, M>(app: App<D, M>, s: System<D, M>, p: PeerId, e: Event<M>)
    requires Enabled(s, e) && !IsJuniorEvent(e)
    requires p in s.juniors ==> Awake(s.juniors[p].db)
    ensures p in Step(app, s, e).juniors ==> Awake(Step(app, s, e).juniors[p].db)
  {
    if e.SeniorPulse? || e.Publish? {
      PulseSeniorFrame(app, s, e.canSend);
    }
  }

  lemma {:induction false} RunAwake<D(!new), M(!new)>(app: App<D, M>, s: System<D, M>, events: seq<Event<M>>, p: PeerId)
    requires Correct(app) && Replicated(app, s) && IsRun(app, s, events) && FairRun(app, s, events, p)
    requires p in s.juniors ==> Awake(s.juniors[p].db)
    ensures p in After(app, s, events).juniors ==> Awake(After(app, s, events).juniors[p].db)
    decreases |events|
  {
    if events != [] {
      hide Replicated, Correct, Awake, Step;
      StepAwake(app, s, p, events[0]);
      StepSound(app, s, events[0]);
      RunAwake(app, Step(app, s, events[0]), events[1..], p);
    }
  }

  /** In every run from birth in which a junior's orders go out and the full database
      comes when ordered, however messages are lost, repeated and reordered: whenever
      the junior has nothing pending and nothing on order, and the last beacon it
      heard is of the senior's current state, it is at that state and holds the
      senior's content. */
  lemma IdleMeansCaughtUp<D(!new), M(!new)>(app: App<D, M>, s: System<D, M>, events: seq<Event<M>>, p: PeerId)
    requires Correct(app) && Birth(app, s) && IsRun(app, s, events) && FairRun(app, s, events, p)
    requires var now := After(app, s, events);
             && p in now.juniors
             && now.juniors[p].db.attached && now.juniors[p].db.seniorKnown
             && now.juniors[p].db.seniorId == now.senior.localId
             && !now.juniors[p].db.rescanPending && now.juniors[p].db.orders == {}
    ensures var now := After(app, s, events);
            && now.juniors[p].db.localId == now.senior.localId
            && now.juniors[p].db.content == now.senior.content
            && now.juniors[p].db.checksum == app.running(now.senior.content)
  {
    BirthIsReplicated(app, s);
    RunAwake(app, s, events, p);
    ReplicasAreFaithful(app, s, events, p);
  }

  // ----- A beacon, two pulses and the answers are enough -----

  /** Every good database can be saved. */
  ghost predicate Saves<D(!new), M>(app: App<D, M>) {
    forall d {:trigger app.save(d)} :: app.good(d) ==> app.save(d).Some?
  }

  /** What every reachable state satisfies. */
  ghost predicate Healthy<D(!new), M>(app: App<D, M>, s: System<D, M>) {
    && Replicated(app, s) && Numbering.Numbered(s) && SeniorLog.SeniorLogOk(app, s)
    && (s.senior.localId > 0 ==> s.senior.log != map[])
  }

  lemma SeniorLogStays<D, M>(app: App<D, M>, s: System<D, M>, e: Event<M>)
    requires Enabled(s, e) && SeniorLog.SeniorLogOk(app, s) && (s.senior.localId > 0 ==> s.senior.log != map[])
    ensures Step(app, s, e).senior.localId > 0 ==> Step(app, s, e).senior.log != map[]
  {
    if e.Submit? {
      RequestShape(app, s.senior, e.request);
      assert s.senior.log - {s.senior.localId + 1} == s.senior.log;
    } else if (e.SeniorPulse? || e.Publish?) && s.senior.rescanPending {
      SeniorTrimKeeps(app, s.senior.(rescanPending := false,
                                     firstUnsent := AfterLast(SentIds(s.senior, e.canSend), s.senior.firstUnsent)));
      PulseSeniorFrame(app, s, e.canSend);
    }
  }

  lemma StepHealthy<D(!new), M(!new)>(app: App<D, M>, s: System<D, M>, e: Event<M>)
    requires Correct(app) && Healthy(app, s) && Enabled(s, e)
    ensures Healthy(app, Step(app, s, e))
  {
    hide Correct, Replicated, Numbering.Numbered, SeniorLog.SeniorLogOk, Step;
    StepSound(app, s, e);
    Numbering.StepNumbered(app, s, e);
    SeniorLog.StepLog(app, s, e);
    SeniorLogStays(app, s, e);
  }

  lemma {:induction false} RunHealthy<D(!new), M(!new)>(app: App<D, M>, s: System<D, M>, events: seq<Event<M>>)
    requires Correct(app) && Healthy(app, s) && IsRun(app, s, events)
    ensures Healthy(app, After(app, s, events))
    decreases |events|
  {
    if events != [] {
      hide Correct, Healthy, Step;
      StepHealthy(app, s, events[0]);
      RunHealthy(app, Step(app, s, events[0]), events[1..]);
    }
  }

  lemma BirthHealthy<D(!new), M(!new)>(app: App<D, M>, s: System<D, M>)
    requires Correct(app) && Birth(app, s)
    ensures Healthy(app, s)
  {
    BirthIsReplicated(app, s);
    Numbering.BirthIsNumbered(app, s);
    SeniorLog.BirthLogOk(app, s);
  }

  /** The junior rescans, the senior serves an order of it, or an answer reaches it. */
  predicate Helps<M>(p: PeerId, e: Event<M>) {
    (e.JuniorPulse? || e.ServeOrder? || e.ReplyArrives?) && e.peer == p
  }

  function Pulses<M>(events: seq<Event<M>>): nat {
    if events == [] then 0
    else Pulses(events[..|events| - 1]) + if events[|events| - 1].JuniorPulse? then 1 else 0
  }

  /** A run from `s` to `t` of nothing but that, with `n` rescans. */
  ghost predicate HelpedTo<D(!new), M(!new)>(app: App<D, M>, s: System<D, M>, t: System<D, M>, p: PeerId, n: nat) {
    exists events :: IsRun(app, s, events) && After(app, s, events) == t
      && (forall e :: e in events ==> Helps(p, e)) && Pulses(events) == n
  }

  /** A healthy state on such a run, with junior `p` in it. */
  ghost predicate OnTheWay<D(!new), M(!new)>(app: App<D, M>, s: System<D, M>, t: System<D, M>, p: PeerId, n: nat) {
    HelpedTo(app, s, t, p, n) && Healthy(app, t) && p in t.juniors
  }

  lemma HelpedNext<D(!new), M(!new)>(app: App<D, M>, s: System<D, M>, t: System<D, M>, p: PeerId, n: nat, e: Event<M>)
    requires HelpedTo(app, s, t, p, n) && Enabled(t, e) && Helps(p, e)
    ensures HelpedTo(app, s, Step(app, t, e), p, if e.JuniorPulse? then n + 1 else n)
  {
    hide Step;
    var events :| IsRun(app, s, events) && After(app, s, events) == t
      && (forall e :: e in events ==> Helps(p, e)) && Pulses(events) == n;
    RunExtends(app, s, events, e);
    var more := events + [e];
    assert more[..|events|] == events;
    assert Pulses(more) == if e.JuniorPulse? then n + 1 else n;
  }

  lemma Onward<D(!new), M(!new)>(app: App<D, M>, s: System<D, M>, t: System<D, M>, p: PeerId, n: nat, e: Event<M>)
    requires Correct(app) && OnTheWay(app, s, t, p, n) && Enabled(t, e) && Helps(p, e)
    ensures OnTheWay(app, s, Step(app, t, e), p, if e.JuniorPulse? then n + 1 else n)
  {
    hide Correct, Healthy, HelpedTo;
    HelpedNext(app, s, t, p, n, e);
    StepHealthy(app, t, e);
    JuniorsStay(app, t, e, p);
  }

  lemma JuniorsStay<D, M>(app: App<D, M>, t: System<D, M>, e: Event<M>, p: PeerId)
    requires Enabled(t, e) && p in t.juniors
    ensures p in Step(app, t, e).juniors
  {
    if e.SeniorPulse? || e.Publish? {
      PulseSeniorFrame(app, t, e.canSend);
    }
  }

  ghost predicate CaughtUp<D, M>(s: System<D, M>, p: PeerId) {
    && p in s.juniors
    && s.juniors[p].db.localId == s.senior.localId
    && s.juniors[p].db.content == s.senior.content
  }

  lemma AtTheTop<D(!new), M>(app: App<D, M>, s: System<D, M>, p: PeerId)
    requires Healthy(app, s) && p in s.juniors && s.juniors[p].db.localId >= s.senior.localId
    ensures CaughtUp(s, p)
  {
    assert JuniorSound(app, s.history, s.juniors[p]);
    assert Numbering.JuniorNumbered(s.senior.localId, s.recorded, s.juniors[p]);
  }

  // ----- An order and its answer -----

  lemma ServeEffect<D, M>(app: App<D, M>, t: System<D, M>, p: PeerId, key: OrderKey)
    requires Enabled(t, ServeOrder(p, key, false))
    ensures var r, j := Step(app, t, ServeOrder(p, key, false)), t.juniors[p];
            && r.senior == t.senior && r.history == t.history && p in r.juniors
            && r.juniors[p] == j.(link := j.link[key := Answered(Serve(app, t.senior, key))])
  {
  }

  lemma ReplyEffect<D, M>(app: App<D, M>, t: System<D, M>, p: PeerId, key: OrderKey)
    requires Enabled(t, ReplyArrives(p, key, ALL_SENDS))
    ensures var r, j := Step(app, t, ReplyArrives(p, key, ALL_SENDS)), t.juniors[p];
            var db := OrderResult(app, j.db, key, j.link[key].reply, true, ALL_SENDS);
            && r.senior == t.senior && p in r.juniors
            && r.juniors[p] == Junior(db, Relink(j.link - {key}, db.orders))
  {
  }

  lemma Answer<D(!new), M(!new)>(app: App<D, M>, s: System<D, M>, t: System<D, M>, p: PeerId, n: nat, key: OrderKey)
    returns (served: System<D, M>, r: System<D, M>)
    requires Correct(app) && OnTheWay(app, s, t, p, n) && key in t.juniors[p].link && t.juniors[p].link[key] == Requested
    ensures OnTheWay(app, s, served, p, n) && served.history == t.history && served.juniors[p].db == t.juniors[p].db
    ensures key in served.juniors[p].link && served.juniors[p].link[key] == Answered(Serve(app, t.senior, key))
    ensures OnTheWay(app, s, r, p, n) && r.senior == t.senior
    ensures var j := t.juniors[p];
            var db := OrderResult(app, j.db, key, Serve(app, t.senior, key), true, ALL_SENDS);
            r.juniors[p] == Junior(db, Relink(j.link - {key}, db.orders))
  {
    hide Correct, HelpedTo, Healthy, Step, OrderResult, Serve, Relink;
    var j := t.juniors[p];
    Onward(app, s, t, p, n, ServeOrder(p, key, false));
    served := Step(app, t, ServeOrder(p, key, false));
    ServeEffect(app, t, p, key);
    Onward(app, s, served, p, n, ReplyArrives(p, key, ALL_SENDS));
    r := Step(app, served, ReplyArrives(p, key, ALL_SENDS));
    ReplyEffect(app, served, p, key);
    assert served.juniors[p].link - {key} == j.link - {key};
  }

  // ----- The full database comes -----

  lemma FullTaken<D(!new), M>(app: App<D, M>, history: seq<D>, db: Db<D, M>, u: Update<M>)
    requires HistoryGood(app, history) && Faithful(app, history, db) && FullSound(app, history, u)
    requires FullDatabase in db.orders
    ensures OrderResult(app, db, FullDatabase, Some(u), true, ALL_SENDS).localId == u.id
  {
    var rest := db.(orders := db.orders - {FullDatabase});
    ReplaceSound(app, history, rest, u);
    Numbering.ReplaceFrame(app, rest, u);
  }

  lemma HealthyJunior<D(!new), M>(app: App<D, M>, t: System<D, M>, p: PeerId)
    requires Healthy(app, t) && p in t.juniors
    ensures HistoryGood(app, t.history) && JuniorSound(app, t.history, t.juniors[p])
    ensures Numbering.JuniorNumbered(t.senior.localId, t.recorded, t.juniors[p])
  {
  }

  lemma FullComes<D(!new), M(!new)>(app: App<D, M>, s: System<D, M>, t: System<D, M>, p: PeerId, n: nat) returns (r: System<D, M>)
    requires Correct(app) && Saves(app) && OnTheWay(app, s, t, p, n)
    requires t.juniors[p].db.orders == {FullDatabase} && FullDatabase in t.juniors[p].link
    requires t.juniors[p].link[FullDatabase] == Requested
    ensures OnTheWay(app, s, r, p, n) && CaughtUp(r, p) && r.senior == t.senior
  {
    hide Correct, HelpedTo, Healthy, OrderResult, Serve, Relink, Saves, HistoryGood, Faithful, LogSound, FullSound;
    var served;
    served, r := Answer(app, s, t, p, n, FullDatabase);
    FullIsServed(app, t);
    var u := Serve(app, t.senior, FullDatabase).value;
    HealthyJunior(app, served, p);
    assert ReplySound(app, served.history, FullDatabase, served.juniors[p].link[FullDatabase]);
    FullTaken(app, t.history, t.juniors[p].db, u);
    AtTheTop(app, r, p);
  }

  lemma FullIsServed<D(!new), M>(app: App<D, M>, t: System<D, M>)
    requires Saves(app) && Healthy(app, t)
    ensures Serve(app, t.senior, FullDatabase).Some? && Serve(app, t.senior, FullDatabase).value.id == t.senior.localId
  {
    assert app.good(t.senior.content);
  }

  // ----- The missing updates come -----

  /** Everything the junior lacks up to the senior's state is in its log or on order,
      as updates the senior has. */
  ghost predicate Ordered<D, M>(t: System<D, M>, p: PeerId)
    requires p in t.juniors
  {
    var db, link := t.juniors[p].db, t.juniors[p].link;
    && db.attached && db.seniorKnown && db.seniorId == t.senior.localId
    && (db.rescanPending || db.orders != {})
    && !(db.localId == 0 && t.senior.localId > 1)
    && AllAskedFor(db, db.localId + 1, t.senior.localId)
    && (forall key :: key in db.orders ==> key.UpdateId? && key.id in t.senior.log)
    && link.Keys == db.orders && (forall key :: key in link ==> link[key] == Requested)
  }

  lemma OneFiled<D, M>(app: App<D, M>, t: System<D, M>, r: System<D, M>, p: PeerId, key: OrderKey)
    requires p in t.juniors && Ordered(t, p) && key in t.juniors[p].db.orders && Keyed(t.senior.log)
    requires r.senior == t.senior && p in r.juniors
    requires var j := t.juniors[p];
             var db := OrderResult(app, j.db, key, Serve(app, t.senior, key), true, ALL_SENDS);
             r.juniors[p] == Junior(db, Relink(j.link - {key}, db.orders))
    ensures Ordered(r, p)
    ensures r.juniors[p].db.orders == t.juniors[p].db.orders - {key} && r.juniors[p].db.localId == t.juniors[p].db.localId
  {
    var db, u := t.juniors[p].db, t.senior.log[key.id];
    assert r.juniors[p].db == AddUpdate(app, db.(orders := db.orders - {key}), u, false);
  }

  lemma OneComes<D(!new), M(!new)>(app: App<D, M>, s: System<D, M>, t: System<D, M>, p: PeerId, n: nat, key: OrderKey)
    returns (r: System<D, M>)
    requires Correct(app) && OnTheWay(app, s, t, p, n) && Ordered(t, p) && key in t.juniors[p].db.orders
    ensures OnTheWay(app, s, r, p, n) && Ordered(r, p) && r.senior == t.senior
    ensures r.juniors[p].db.orders == t.juniors[p].db.orders - {key} && r.juniors[p].db.localId == t.juniors[p].db.localId
  {
    hide Correct, HelpedTo, OrderResult, Serve, Relink;
    var served;
    served, r := Answer(app, s, t, p, n, key);
    hide Healthy;
    SeniorIsKeyed(app, t);
    OneFiled(app, t, r, p, key);
  }

  lemma SeniorIsKeyed<D(!new), M>(app: App<D, M>, t: System<D, M>)
    requires Healthy(app, t)
    ensures Keyed(t.senior.log)
  {
  }

  lemma {:induction false} AllCome<D(!new), M(!new)>(app: App<D, M>, s: System<D, M>, t: System<D, M>, p: PeerId, n: nat)
    returns (r: System<D, M>)
    requires Correct(app) && OnTheWay(app, s, t, p, n) && Ordered(t, p)
    ensures OnTheWay(app, s, r, p, n) && Ordered(r, p) && r.senior == t.senior && r.juniors[p].db.orders == {}
    decreases |t.juniors[p].db.orders|
  {
    hide Correct, Healthy, HelpedTo, Ordered;
    if t.juniors[p].db.orders == {} {
      r := t;
    } else {
      var key :| key in t.juniors[p].db.orders;
      var next := OneComes(app, s, t, p, n, key);
      r := AllCome(app, s, next, p, n);
    }
  }

  lemma TargetIsTop<D(!new), M>(app: App<D, M>, t: System<D, M>, p: PeerId)
    requires Healthy(app, t) && p in t.juniors && t.juniors[p].db.seniorId == t.senior.localId
    ensures Target(t.juniors[p].db) == t.senior.localId
  {
    assert Numbering.JuniorNumbered(t.senior.localId, t.recorded, t.juniors[p]);
  }

  lemma PulseReplaysAll<D, M>(app: App<D, M>, history: seq<D>, db: Db<D, M>, top: nat)
    requires Faithful(app, history, db) && LogSound(app, history, db.log)
    requires db.rescanPending && db.seniorKnown && db.orders == {} && Target(db) == top
    requires !(db.localId == 0 && top > 1) && AllAskedFor(db, db.localId + 1, top)
    ensures Pulse(app, db, ALL_SENDS).localId >= top
  {
    var begun := BeginRescan(db);
    SoundReplayStops(app, history, begun, top, ALL_SENDS);
    JuniorRescanFrame(app, db, ALL_SENDS);
    ReplayFrame(app, begun, top, ALL_SENDS);
  }

  lemma PulseEffect<D, M>(app: App<D, M>, t: System<D, M>, p: PeerId)
    requires p in t.juniors
    ensures var r, j := Step(app, t, JuniorPulse(p, ALL_SENDS)), t.juniors[p];
            var db := Pulse(app, j.db, ALL_SENDS);
            && r.senior == t.senior && p in r.juniors
            && r.juniors[p] == Junior(db, Relink(j.link, db.orders))
  {
  }

  /** With the whole range in the log, a pulse replays it to the end. */
  lemma LogIsReplayed<D(!new), M(!new)>(app: App<D, M>, s: System<D, M>, t: System<D, M>, p: PeerId, n: nat)
    returns (r: System<D, M>)
    requires Correct(app) && OnTheWay(app, s, t, p, n) && Ordered(t, p) && t.juniors[p].db.orders == {}
    ensures OnTheWay(app, s, r, p, n + 1) && CaughtUp(r, p) && r.senior == t.senior
  {
    hide Correct, HelpedTo, Healthy, Step, Pulse, Faithful, LogSound, AllAskedFor, Target;
    Onward(app, s, t, p, n, JuniorPulse(p, ALL_SENDS));
    r := Step(app, t, JuniorPulse(p, ALL_SENDS));
    PulseEffect(app, t, p);
    TargetIsTop(app, t, p);
    HealthyJunior(app, t, p);
    PulseReplaysAll(app, t.history, t.juniors[p].db, t.senior.localId);
    AtTheTop(app, r, p);
  }

  // ----- The first pulse after a beacon -----

  /** All orders are for single updates, between `low` and `high`. */
  ghost predicate OrdersWithin(orders: set<OrderKey>, low: nat, high: nat) {
    forall key :: key in orders ==> key.UpdateId? && low <= key.id <= high
  }

  lemma {:induction false} OrderMissingWithin<D, M>(db: Db<D, M>, id: nat, low: nat, target: nat)
    requires OrdersWithin(db.orders, low, target) && low <= id
    ensures OrdersWithin(OrderMissing(db, id, target, ALL_SENDS).orders, low, target)
    decreases target + 1 - id
  {
    if id <= target {
      OrderMissingWithin(db, id + 1, low, target);
      OrderMissingWithin(RequestOrder(db, UpdateId(id), ALL_SENDS), id + 1, low, target);
    }
  }

  lemma {:induction false} ReplayOrders<D, M>(app: App<D, M>, history: seq<D>, db: Db<D, M>, target: nat)
    requires Faithful(app, history, db) && LogSound(app, history, db.log) && db.orders == {}
    ensures var r := Replay(app, db, target, ALL_SENDS);
            r.orders == {FullDatabase} || OrdersWithin(r.orders, db.seniorOldest, target)
    decreases target - db.localId
  {
    if db.localId < target {
      var next := db.localId + 1;
      ReplayStepFrame(app, db, target, ALL_SENDS);
      if next in db.log {
        ExecuteSound(app, history, db, db.log[next]);
        ReplayOrders(app, history, ReplayStep(app, db, target, ALL_SENDS).0, target);
      } else if next >= db.seniorOldest {
        OrderMissingWithin(db, next, db.seniorOldest, target);
      }
    }
  }

  /** It ends the matter, or orders the full database, or orders all that is missing
      and nothing that the beacon's sender no longer has. */
  lemma FirstPulse<D, M>(app: App<D, M>, history: seq<D>, db: Db<D, M>, top: nat)
    requires Faithful(app, history, db) && LogSound(app, history, db.log)
    requires db.rescanPending && db.seniorKnown && db.orders == {} && Target(db) == top && db.localId < top
    ensures var r := Pulse(app, db, ALL_SENDS);
            || r.localId >= top
            || r.orders == {FullDatabase}
            || (r.orders != {} && OrdersWithin(r.orders, db.seniorOldest, top)
                && AllAskedFor(r, r.localId + 1, top) && !(r.localId == 0 && top > 1))
  {
    var begun := BeginRescan(db);
    RescanAsks(app, history, db, ALL_SENDS);
    RescanCompletes(app, db, ALL_SENDS);
    JuniorRescanFrame(app, db, ALL_SENDS);
    if !(db.localId == 0 && top > 1) {
      ReplayOrders(app, history, begun, top);
    }
  }

  lemma PulseFields<D, M>(app: App<D, M>, db: Db<D, M>)
    ensures var r := Pulse(app, db, ALL_SENDS);
            r.attached == db.attached && r.seniorKnown == db.seniorKnown && r.seniorId == db.seniorId
  {
    if db.rescanPending && db.seniorKnown {
      JuniorRescanFrame(app, db, ALL_SENDS);
    }
  }

  // ----- From the beacon to the senior's state -----

  /** The junior has just heard the senior's current beacon, and waits for nothing. */
  ghost predicate Informed<D, M>(t: System<D, M>, p: PeerId)
    requires p in t.juniors
  {
    var j := t.juniors[p];
    && j.db.attached && j.db.rescanPending && j.db.seniorKnown && j.db.orders == {} && j.link == map[]
    && j.db.seniorId == t.senior.localId && j.db.seniorOldest == Advertise(t.senior).oldest
  }

  lemma SeniorHas<D(!new), M>(app: App<D, M>, t: System<D, M>, id: nat)
    requires Healthy(app, t) && 0 < t.senior.localId && Advertise(t.senior).oldest <= id <= t.senior.localId
    ensures id in t.senior.log
  {
  }

  lemma FirstPulseOrders<D(!new), M(!new)>(app: App<D, M>, t: System<D, M>, r: System<D, M>, p: PeerId)
    requires Healthy(app, t) && p in t.juniors && Informed(t, p) && t.juniors[p].db.localId < t.senior.localId
    requires r.senior == t.senior && p in r.juniors
    requires var db := Pulse(app, t.juniors[p].db, ALL_SENDS);
             r.juniors[p] == Junior(db, Relink(t.juniors[p].link, db.orders))
    ensures || r.juniors[p].db.localId >= r.senior.localId
            || r.juniors[p].db.orders == {FullDatabase}
            || Ordered(r, p)
  {
    hide Healthy, Pulse, Faithful, LogSound, AllAskedFor, Target, Advertise;
    var db, top := t.juniors[p].db, t.senior.localId;
    HealthyJunior(app, t, p);
    TargetIsTop(app, t, p);
    FirstPulse(app, t.history, db, top);
    PulseFields(app, db);
    var now := r.juniors[p].db;
    if OrdersWithin(now.orders, db.seniorOldest, top) {
      forall key | key in now.orders
        ensures key.id in t.senior.log
      {
        SeniorHas(app, t, key.id);
      }
    }
  }

  lemma FromBeacon<D(!new), M(!new)>(app: App<D, M>, s: System<D, M>, p: PeerId) returns (r: System<D, M>, n: nat)
    requires Correct(app) && Saves(app) && Healthy(app, s) && p in s.juniors && Informed(s, p)
    ensures OnTheWay(app, s, r, p, n) && n <= 2 && CaughtUp(r, p) && r.senior == s.senior
  {
    NoHelpYet(app, s, p);
    hide Correct, Saves, HelpedTo, Healthy, Step, Pulse, Ordered, Informed;
    if s.juniors[p].db.localId >= s.senior.localId {
      AtTheTop(app, s, p);
      r, n := s, 0;
    } else {
      Onward(app, s, s, p, 0, JuniorPulse(p, ALL_SENDS));
      var asked := Step(app, s, JuniorPulse(p, ALL_SENDS));
      PulseEffect(app, s, p);
      InformedLink(s, p);
      FirstPulseOrders(app, s, asked, p);
      if asked.juniors[p].db.localId >= asked.senior.localId {
        AtTheTop(app, asked, p);
        r, n := asked, 1;
      } else if asked.juniors[p].db.orders == {FullDatabase} {
        n := 1;
        r := FullComes(app, s, asked, p, 1);
      } else {
        var filed := AllCome(app, s, asked, p, 1);
        n := 2;
        r := LogIsReplayed(app, s, filed, p, 1);
      }
    }
  }

  lemma NoHelpYet<D(!new), M(!new)>(app: App<D, M>, s: System<D, M>, p: PeerId)
    ensures HelpedTo(app, s, s, p, 0)
  {
    assert IsRun(app, s, []) && After(app, s, []) == s && Pulses<M>([]) == 0;
  }

  lemma InformedLink<D, M>(t: System<D, M>, p: PeerId)
    requires p in t.juniors && Informed(t, p)
    ensures t.juniors[p].link == map[]
  {
  }

  const ALL_MULTICAST := (k: nat) => true

  /** The beacon the senior would publish now. */
  ghost function FreshBeacon<D, M>(app: App<D, M>, t: System<D, M>): Beacon {
    Advertise(PulseSenior(app, t, ALL_MULTICAST).senior)
  }

  lemma BeaconInforms<D, M>(app: App<D, M>, t: System<D, M>, p: PeerId)
    requires p in t.juniors && t.juniors[p].db.attached && t.juniors[p].db.orders == {} && t.juniors[p].link == map[]
    requires FreshBeacon(app, t).id != t.juniors[p].db.seniorId || FreshBeacon(app, t).oldest != t.juniors[p].db.seniorOldest
    ensures var published := Step(app, t, Publish(ALL_MULTICAST));
            var e := BeaconArrives(p, FreshBeacon(app, t));
            && Enabled(published, e) && p in Step(app, published, e).juniors && Informed(Step(app, published, e), p)
            && Step(app, published, e).senior.localId == t.senior.localId
            && Step(app, published, e).senior.content == t.senior.content
  {
    PulseSeniorFrame(app, t, ALL_MULTICAST);
  }

  /** From every state reachable from birth: a junior that is attached, waits for no
      order and has not heard the senior's current beacon yet is taken to the senior's
      state and content by a run of that beacon, at most two rescans, and orders
      served and answered. */
  lemma Converges<D(!new), M(!new)>(app: App<D, M>, s: System<D, M>, events: seq<Event<M>>, p: PeerId)
    requires Correct(app) && Saves(app) && Birth(app, s) && IsRun(app, s, events)
    requires var t := After(app, s, events);
             && p in t.juniors && t.juniors[p].db.attached && t.juniors[p].db.orders == {}
             && (FreshBeacon(app, t).id != t.juniors[p].db.seniorId || FreshBeacon(app, t).oldest != t.juniors[p].db.seniorOldest)
    ensures var t := After(app, s, events);
            exists help :: (forall e :: e in help ==> Helps(p, e)) && Pulses(help) <= 2
              && ConvergesBy(app, t, [Publish(ALL_MULTICAST), BeaconArrives(p, FreshBeacon(app, t))] + help, p)
  {
    hide Correct, Saves, Healthy, Birth, FreshBeacon, ConvergesBy, Helps, Pulses, Step, Enabled, IsRun, After;
    BirthHealthy(app, s);
    RunHealthy(app, s, events);
    var help := BeaconThenHelp(app, After(app, s, events), p);
  }

  lemma BeaconThenHelp<D(!new), M(!new)>(app: App<D, M>, t: System<D, M>, p: PeerId) returns (help: seq<Event<M>>)
    requires Correct(app) && Saves(app) && Healthy(app, t)
    requires p in t.juniors && t.juniors[p].db.attached && t.juniors[p].db.orders == {}
    requires FreshBeacon(app, t).id != t.juniors[p].db.seniorId || FreshBeacon(app, t).oldest != t.juniors[p].db.seniorOldest
    ensures (forall e :: e in help ==> Helps(p, e)) && Pulses(help) <= 2
    ensures ConvergesBy(app, t, [Publish(ALL_MULTICAST), BeaconArrives(p, FreshBeacon(app, t))] + help, p)
  {
    hide Correct, Saves, Healthy, Step, Informed, FreshBeacon, CaughtUp, Enabled, Helps;
    NoOrderNoLink(app, t, p);
    BeaconInforms(app, t, p);
    var b := FreshBeacon(app, t);
    PublishEnabled(t);
    StepHealthy(app, t, Publish(ALL_MULTICAST));
    var published := Step(app, t, Publish(ALL_MULTICAST));
    StepHealthy(app, published, BeaconArrives(p, b));
    var informed := Step(app, published, BeaconArrives(p, b));
    var r, n := FromBeacon(app, informed, p);
    help :| IsRun(app, informed, help) && After(app, informed, help) == r
      && (forall e :: e in help ==> Helps(p, e)) && Pulses(help) == n;
    TwoThenRun(app, t, Publish(ALL_MULTICAST), BeaconArrives(p, b), help);
  }

  /** The run leads there, and the senior has stayed where it was. */
  ghost predicate ConvergesBy<D, M>(app: App<D, M>, t: System<D, M>, events: seq<Event<M>>, p: PeerId) {
    && IsRun(app, t, events) && CaughtUp(After(app, t, events), p)
    && After(app, t, events).senior.localId == t.senior.localId
    && After(app, t, events).senior.content == t.senior.content
  }

  lemma PublishEnabled<D, M>(t: System<D, M>)
    ensures Enabled(t, Publish(ALL_MULTICAST))
  {
  }

  lemma TwoThenRun<D, M>(app: App<D, M>, t: System<D, M>, a: Event<M>, b: Event<M>, rest: seq<Event<M>>)
    requires Enabled(t, a) && Enabled(Step(app, t, a), b) && IsRun(app, Step(app, Step(app, t, a), b), rest)
    ensures IsRun(app, t, [a, b] + rest)
    ensures After(app, t, [a, b] + rest) == After(app, Step(app, Step(app, t, a), b), rest)
  {
    hide Step, Enabled;
    var all := [a, b] + rest;
    assert all[0] == a && all[1..][0] == b && all[1..][1..] == rest;
  }

  lemma NoOrderNoLink<D(!new), M>(app: App<D, M>, t: System<D, M>, p: PeerId)
    requires Healthy(app, t) && p in t.juniors && t.juniors[p].db.orders == {}
    ensures t.juniors[p].link == map[]
  {
    HealthyJunior(app, t, p);
    assert t.juniors[p].link.Keys == {};
  }
}
