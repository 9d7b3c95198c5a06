/** Replica safety: when the application keeps its part of the bargain, a junior
    at state k holds exactly what the senior held at state k, in every run. */
module ReplicaSafety {
  import opened Tables
  import opened Database
  import opened Replication
  import Rescan

  /** The bargain: the junior update redoes what the senior update did, a saved
      database loads back as it was, a failed call changes nothing, and the
      running checksum is the recalculated one. */
  ghost predicate Correct<D(!new), M(!new)>(app: App<D, M>) {
    && app.good(app.initial)
    && (forall d, m {:trigger app.senior(d, m)} :: app.good(d) ==> SeniorKept(app, d, m))
    && (forall d, m {:trigger app.load(d, m)} :: app.good(d) ==>
          app.good(app.load(d, m).0) && (!app.load(d, m).1 ==> app.load(d, m).0 == d))
    && (forall d {:trigger app.save(d)} :: app.good(d) && app.save(d).Some? ==> LoadsAs(app, app.save(d).value, d))
    && (forall d {:trigger app.recompute(d)} :: app.good(d) ==> app.recompute(d) == app.running(d))
  }

  ghost predicate SeniorKept<D, M>(app: App<D, M>, d: D, m: M) {
    var (d', reply) := app.senior(d, m);
    && app.good(d')
    && (reply.None? ==> d' == d)
    && (reply.Some? ==> app.junior(d, reply.value) == (d', true))
  }

  ghost predicate LoadsAs<D(!new), M>(app: App<D, M>, m: M, d: D) {
    forall d0 {:trigger app.load(d0, m)} :: app.good(d0) ==> app.load(d0, m) == (d, true)
  }

  // ----- What every message and every peer says about the senior's history -----

  ghost predicate UpdateSound<D, M>(app: App<D, M>, history: seq<D>, u: Update<M>) {
    && 0 < u.id < |history|
    && u.pre == app.running(history[u.id - 1])
    && u.post == app.running(history[u.id])
    && Outcome(app, history[u.id - 1], u) == (history[u.id], true)
    && (!Executable(u) ==> history[u.id - 1] == history[u.id])
  }

  ghost predicate LogSound<D, M>(app: App<D, M>, history: seq<D>, log: map<nat, Update<M>>) {
    forall k :: k in log ==> log[k].id == k && UpdateSound(app, history, log[k])
  }

  ghost predicate FullSound<D(!new), M>(app: App<D, M>, history: seq<D>, u: Update<M>) {
    && u.kind == Replace
    && u.id < |history|
    && u.post == app.running(history[u.id])
    && u.payload.Some?
    && LoadsAs(app, u.payload.value, history[u.id])
  }

  ghost predicate ReplySound<D(!new), M>(app: App<D, M>, history: seq<D>, key: OrderKey, t: Transit<M>) {
    t.Answered? && t.reply.Some? ==>
      if key == FullDatabase then FullSound(app, history, t.reply.value) else UpdateSound(app, history, t.reply.value)
  }

  /** The replica itself: at state k, the senior's content of state k. */
  ghost predicate Faithful<D, M>(app: App<D, M>, history: seq<D>, db: Db<D, M>) {
    && db.localId < |history|
    && db.content == history[db.localId]
    && db.checksum == app.running(db.content)
  }

  ghost predicate JuniorSound<D(!new), M>(app: App<D, M>, history: seq<D>, j: Junior<D, M>) {
    && Faithful(app, history, j.db)
    && LogSound(app, history, j.db.log)
    && (forall key :: key in j.link ==> ReplySound(app, history, key, j.link[key]))
  }

  ghost predicate HistoryGood<D, M>(app: App<D, M>, history: seq<D>) {
    && history != [] && history[0] == app.initial
    && (forall k :: 0 <= k < |history| ==> app.good(history[k]))
  }

  ghost predicate SeniorSound<D, M>(app: App<D, M>, history: seq<D>, db: Db<D, M>) {
    && |history| == db.localId + 1
    && Faithful(app, history, db)
    && LogSound(app, history, db.log)
  }

  ghost predicate Replicated<D(!new), M>(app: App<D, M>, s: System<D, M>) {
    && HistoryGood(app, s.history)
    && SeniorSound(app, s.history, s.senior)
    && (forall i :: 0 <= i < |s.multicast| ==> UpdateSound(app, s.history, s.multicast[i]))
    && (forall p :: p in s.juniors ==> JuniorSound(app, s.history, s.juniors[p]))
  }

  // ----- A junior's operations -----

  lemma ExecuteSound<D, M>(app: App<D, M>, history: seq<D>, db: Db<D, M>, u: Update<M>)
    requires Faithful(app, history, db)
    requires UpdateSound(app, history, u) && u.id == db.localId + 1
    ensures ExecuteUpdate(app, db, u).1
    ensures Faithful(app, history, ExecuteUpdate(app, db, u).0)
  {
  }

  lemma {:induction false} ReplaySound<D, M>(app: App<D, M>, history: seq<D>, db: Db<D, M>, target: nat, env: Env)
    requires Faithful(app, history, db) && LogSound(app, history, db.log)
    ensures Faithful(app, history, Replay(app, db, target, env))
    decreases target - db.localId
  {
    if db.localId < target {
      var next := db.localId + 1;
      ReplayStepFrame(app, db, target, env);
      if next in db.log {
        ExecuteSound(app, history, db, db.log[next]);
        ReplaySound(app, history, ReplayStep(app, db, target, env).0, target, env);
      } else {
        OrderMissingFrame(db, next, target, env);
      }
    }
  }

  lemma CatchUpSound<D, M>(app: App<D, M>, history: seq<D>, db: Db<D, M>, env: Env)
    requires Faithful(app, history, db) && LogSound(app, history, db.log)
    ensures Faithful(app, history, CatchUp(app, db, env))
  {
    ReplaySound(app, history, db, Target(db), env);
  }

  lemma PulseSound<D, M>(app: App<D, M>, history: seq<D>, db: Db<D, M>, env: Env)
    requires Faithful(app, history, db) && LogSound(app, history, db.log)
    ensures Faithful(app, history, Pulse(app, db, env)) && LogSound(app, history, Pulse(app, db, env).log)
  {
    if db.rescanPending && db.seniorKnown {
      CatchUpSound(app, history, BeginRescan(db), env);
      Rescan.JuniorRescanFrame(app, db, env);
    }
  }

  lemma ReplaceSound<D(!new), M>(app: App<D, M>, history: seq<D>, db: Db<D, M>, u: Update<M>)
    requires HistoryGood(app, history)
    requires Faithful(app, history, db) && FullSound(app, history, u)
    ensures ExecuteReplace(app, db, u).1
    ensures Faithful(app, history, ExecuteReplace(app, db, u).0)
    ensures ExecuteReplace(app, db, u).0.log == db.log
  {
    assert app.good(db.content);
    assert app.load(db.content, u.payload.value) == (history[u.id], true);
  }

  lemma OrderResultSound<D(!new), M>(app: App<D, M>, history: seq<D>, db: Db<D, M>, key: OrderKey,
                                     result: Option<Update<M>>, env: Env)
    requires HistoryGood(app, history)
    requires Faithful(app, history, db) && LogSound(app, history, db.log)
    requires ReplySound(app, history, key, Answered(result))
    ensures var r := OrderResult(app, db, key, result, true, env);
            Faithful(app, history, r) && LogSound(app, history, r.log)
  {
    if key in db.orders && key == FullDatabase && result.Some? {
      ReplaceSound(app, history, db.(orders := db.orders - {key}), result.value);
    }
  }

  lemma JuniorStepSound<D(!new), M>(app: App<D, M>, s: System<D, M>, j: Junior<D, M>, e: Event<M>)
    requires Replicated(app, s) && JuniorSound(app, s.history, j)
    ensures JuniorSound(app, s.history, JuniorStep(app, s, j, e))
  {
    match e {
      case JuniorPulse(_, env) => PulseSound(app, s.history, j.db, env);
      case ReplyArrives(_, key, env) =>
        if key in j.link && j.link[key].Answered? {
          assert j.link[key] == Answered(j.link[key].reply);
          OrderResultSound(app, s.history, j.db, key, j.link[key].reply, env);
        }
      case ResolveLost(_, key, env) => OrderResultSound(app, s.history, j.db, key, None, env);
      case _ =>
    }
  }

  // ----- The senior's operations -----

  /** What is sound stays sound as the history grows. */
  lemma JuniorStaysSound<D(!new), M>(app: App<D, M>, history: seq<D>, d: D, j: Junior<D, M>)
    requires JuniorSound(app, history, j)
    ensures JuniorSound(app, history + [d], j)
  {
    forall key | key in j.link
      ensures ReplySound(app, history + [d], key, j.link[key])
    {
      assert ReplySound(app, history, key, j.link[key]);
    }
  }

  lemma RequestSound<D(!new), M(!new)>(app: App<D, M>, history: seq<D>, db: Db<D, M>, request: Request<M>)
    requires Correct(app) && HistoryGood(app, history) && SeniorSound(app, history, db)
    ensures var (r, status) := HandleRequest(app, db, request);
            if status == Ok then app.good(r.content) && SeniorSound(app, history + [r.content], r)
            else SeniorSound(app, history, r)
  {
    RequestShape(app, db, request);
    assert app.good(db.content);
    var (r, status) := HandleRequest(app, db, request);
    if status == Ok {
      var id := db.localId + 1;
      NewUpdateSound(app, history, db, request);
      forall k | k in r.log
        ensures r.log[k].id == k && UpdateSound(app, history + [r.content], r.log[k])
      {
        if k != id {
          assert UpdateSound(app, history, db.log[k]);
        }
      }
    } else {
      FailedRequestKeepsContent(app, db, request);
    }
  }

  lemma NewUpdateSound<D(!new), M(!new)>(app: App<D, M>, history: seq<D>, db: Db<D, M>, request: Request<M>)
    requires Correct(app) && HistoryGood(app, history) && SeniorSound(app, history, db)
    requires HandleRequest(app, db, request).1 == Ok
    ensures var r := HandleRequest(app, db, request).0;
            && app.good(r.content)
            && r.checksum == app.running(r.content)
            && db.localId + 1 in r.log
            && UpdateSound(app, history + [r.content], r.log[db.localId + 1])
  {
    hide AddUpdate, SetContent, Complete, RemoveUpdate;
    assert app.good(db.content);
    match request {
      case ResetRequest => FiledUpdate(app, history, db, Reset, app.initial, None);
      case ReplaceRequest(m) => FiledUpdate(app, history, db, Replace, app.load(db.content, m.value).0, m);
      case UpdateRequest(m) =>
        assert SeniorKept(app, db.content, m.value);
        FiledUpdate(app, history, db, Incremental, app.senior(db.content, m.value).0, app.senior(db.content, m.value).1);
    }
  }

  /** A filed and completed update takes the content before it to the one after it. */
  lemma FiledUpdate<D, M>(app: App<D, M>, history: seq<D>, db: Db<D, M>, kind: Kind, content: D, payload: Option<M>)
    requires SeniorSound(app, history, db) && Executable(Update(kind, 0, 0, 0, payload))
    requires Outcome(app, db.content, Update(kind, 0, 0, 0, payload)) == (content, true)
    ensures var id := db.localId + 1;
            var executed := SetContent(app, AddUpdate(app, db, Update(kind, id, db.checksum, 0, None), true), content);
            && id in executed.log
            && var r := Complete(app, executed, id, payload);
               && r.content == content && r.checksum == app.running(content) && id in r.log
               && UpdateSound(app, history + [content], r.log[id])
  {
    var id := db.localId + 1;
    var u := Update(kind, id, db.checksum, app.running(content), payload);
    assert (history + [content])[id - 1] == db.content && (history + [content])[id] == content;
    assert Outcome(app, db.content, u) == (content, true);
    assert UpdateSound(app, history + [content], u);
  }

  lemma FailedRequestKeepsContent<D(!new), M(!new)>(app: App<D, M>, db: Db<D, M>, request: Request<M>)
    requires Correct(app) && app.good(db.content) && db.checksum == app.running(db.content)
    requires HandleRequest(app, db, request).1 != Ok
    ensures HandleRequest(app, db, request).0.content == db.content
    ensures HandleRequest(app, db, request).0.checksum == db.checksum
  {
    if request.UpdateRequest? && request.change.Some? {
      assert SeniorKept(app, db.content, request.change.value);
    }
  }

  lemma SubmitSound<D(!new), M(!new)>(app: App<D, M>, s: System<D, M>, request: Request<M>)
    requires Correct(app) && Replicated(app, s)
    ensures Replicated(app, SubmitStep(app, s, request))
    ensures s.history <= SubmitStep(app, s, request).history
  {
    RequestSound(app, s.history, s.senior, request);
    var s' := SubmitStep(app, s, request);
    forall p | p in s'.juniors
      ensures JuniorSound(app, s'.history, s'.juniors[p])
    {
      JuniorStaysSound(app, s.history, s'.senior.content, s.juniors[p]);
    }
  }

  lemma PulseSeniorSound<D(!new), M>(app: App<D, M>, s: System<D, M>, canSend: nat -> bool)
    requires Replicated(app, s)
    ensures Replicated(app, PulseSenior(app, s, canSend))
    ensures PulseSenior(app, s, canSend).history == s.history
  {
    hide PulseSenior, Faithful;
    PulseSeniorFrame(app, s, canSend);
    PulseMulticastSound(app, s, canSend);
    SeniorStaysSound(app, s.history, s.senior, PulseSenior(app, s, canSend).senior);
  }

  lemma PulseMulticastSound<D(!new), M>(app: App<D, M>, s: System<D, M>, canSend: nat -> bool)
    requires Replicated(app, s)
    ensures forall i :: 0 <= i < |PulseSenior(app, s, canSend).multicast| ==>
              UpdateSound(app, s.history, PulseSenior(app, s, canSend).multicast[i])
  {
    PulseSeniorFrame(app, s, canSend);
    hide PulseSenior;
  }

  lemma SeniorStaysSound<D, M>(app: App<D, M>, history: seq<D>, db: Db<D, M>, r: Db<D, M>)
    requires SeniorSound(app, history, db)
    requires r.localId == db.localId && r.content == db.content && r.checksum == db.checksum
    requires forall k :: k in r.log ==> k in db.log && r.log[k] == db.log[k]
    ensures SeniorSound(app, history, r)
  {
  }

  lemma ServeSound<D(!new), M(!new)>(app: App<D, M>, s: System<D, M>, p: PeerId, key: OrderKey, verify: bool)
    requires Correct(app) && Replicated(app, s) && p in s.juniors && key in s.juniors[p].link
    ensures Replicated(app, ServeStep(app, s, p, key, verify))
  {
    assert app.good(s.senior.content);
    assert app.recompute(s.senior.content) == app.running(s.senior.content);
    var _ := app.save(s.senior.content);
    var s' := ServeStep(app, s, p, key, verify);
    assert s'.senior == s.senior;
    assert ReplySound(app, s.history, key, s'.juniors[p].link[key]);
  }

  lemma StepSound<D(!new), M(!new)>(app: App<D, M>, s: System<D, M>, e: Event<M>)
    requires Correct(app) && Replicated(app, s) && Enabled(s, e)
    ensures Replicated(app, Step(app, s, e))
    ensures s.history <= Step(app, s, e).history
  {
    hide Correct, Replicated, SubmitStep, PulseSenior, ServeStep, JuniorStep;
    match e {
      case Submit(request) => SubmitSound(app, s, request);
      case SeniorPulse(canSend) => PulseSeniorSound(app, s, canSend);
      case Publish(canSend) => PublishSound(app, s, canSend);
      case ServeOrder(p, key, verify) =>
        ServeSound(app, s, p, key, verify);
        ServeKeepsHistory(app, s, p, key, verify);
      case Join(p, n) => JoinSound(app, s, p, n);
      case _ => JuniorEventSound(app, s, e);
    }
  }

  lemma PublishSound<D(!new), M>(app: App<D, M>, s: System<D, M>, canSend: nat -> bool)
    requires Replicated(app, s)
    ensures Replicated(app, PublishStep(app, s, canSend)) && PublishStep(app, s, canSend).history == s.history
  {
    hide PulseSenior;
    PulseSeniorSound(app, s, canSend);
  }

  lemma ServeKeepsHistory<D, M>(app: App<D, M>, s: System<D, M>, p: PeerId, key: OrderKey, verify: bool)
    requires p in s.juniors
    ensures ServeStep(app, s, p, key, verify).history == s.history
  {
  }

  lemma JoinSound<D(!new), M(!new)>(app: App<D, M>, s: System<D, M>, p: PeerId, maxPayloadBytes: nat)
    requires Correct(app) && Replicated(app, s) && p !in s.juniors
    ensures Replicated(app, s.(juniors := s.juniors[p := Junior(Fresh(app, maxPayloadBytes, false), map[])]))
  {
  }

  lemma JuniorEventSound<D(!new), M>(app: App<D, M>, s: System<D, M>, e: Event<M>)
    requires Replicated(app, s) && Enabled(s, e) && IsJuniorEvent(e)
    ensures Replicated(app, Step(app, s, e)) && Step(app, s, e).history == s.history
  {
    hide JuniorStep;
    JuniorStepSound(app, s, s.juniors[e.peer], e);
  }

  lemma {:induction false} RunSound<D(!new), M(!new)>(app: App<D, M>, s: System<D, M>, events: seq<Event<M>>)
    requires Correct(app) && Replicated(app, s) && IsRun(app, s, events)
    ensures Replicated(app, After(app, s, events))
    ensures s.history <= After(app, s, events).history
    decreases |events|
  {
    if events != [] {
      StepSound(app, s, events[0]);
      RunSound(app, Step(app, s, events[0]), events[1..]);
    }
  }

  // ----- Main results -----

  /** In every run, with any loss, duplication and reordering of updates and
      beacons and any loss of connections, each junior at state k holds exactly
      the senior's content of state k, and shows that content's checksum. */
  lemma ReplicasAreFaithful<D(!new), M(!new)>(app: App<D, M>, s: System<D, M>, events: seq<Event<M>>, p: PeerId)
    requires Correct(app) && Replicated(app, s) && IsRun(app, s, events)
    requires p in After(app, s, events).juniors
    ensures var now := After(app, s, events);
            var db := now.juniors[p].db;
            && db.localId <= now.senior.localId
            && |now.history| == now.senior.localId + 1
            && now.history[now.senior.localId] == now.senior.content
            && db.content == now.history[db.localId]
            && db.checksum == app.running(now.history[db.localId])
  {
    RunSound(app, s, events);
    var now := After(app, s, events);
    assert JuniorSound(app, now.history, now.juniors[p]);
  }

  /** Replicas agree across time: whenever two juniors, at two moments of one run,
      are at the same state ID, they hold the same database. */
  lemma ReplicasAgree<D(!new), M(!new)>(app: App<D, M>, s: System<D, M>, first: seq<Event<M>>, second: seq<Event<M>>,
                                        p: PeerId, q: PeerId)
    requires Correct(app) && Replicated(app, s) && IsRun(app, s, first + second)
    requires IsRun(app, s, first) && p in After(app, s, first).juniors
    requires q in After(app, s, first + second).juniors
    requires After(app, s, first).juniors[p].db.localId == After(app, s, first + second).juniors[q].db.localId
    ensures After(app, s, first).juniors[p].db.content == After(app, s, first + second).juniors[q].db.content
  {
    RunSplits(app, s, first, second);
    var early, late := After(app, s, first), After(app, s, first + second);
    RunSound(app, s, first);
    RunSound(app, early, second);
    assert JuniorSound(app, early.history, early.juniors[p]);
    assert JuniorSound(app, late.history, late.juniors[q]);
  }

  /** The checksums in the senior's log chain up: each update's post-update checksum is
      the next one's pre-update checksum, and the last one's is the current one. */
  lemma SeniorLogIsChained<D(!new), M(!new)>(app: App<D, M>, s: System<D, M>, events: seq<Event<M>>, k: nat)
    requires Correct(app) && Replicated(app, s) && IsRun(app, s, events)
    ensures var now := After(app, s, events);
            var log := now.senior.log;
            && (k in log && k + 1 in log ==> log[k].post == log[k + 1].pre)
            && (now.senior.localId in log ==> log[now.senior.localId].post == now.senior.checksum)
  {
    RunSound(app, s, events);
    var now := After(app, s, events);
    SoundLogsChain(app, now.history, now.senior.log, now.senior.log, k);
  }

  /** So do those in every junior's log, and they are the senior's. */
  lemma LogsAreChained<D(!new), M(!new)>(app: App<D, M>, s: System<D, M>, events: seq<Event<M>>, p: PeerId, k: nat)
    requires Correct(app) && Replicated(app, s) && IsRun(app, s, events)
    requires p in After(app, s, events).juniors
    ensures var now := After(app, s, events);
            var log, other := now.senior.log, now.juniors[p].db.log;
            && (k in other && k + 1 in other ==> other[k].post == other[k + 1].pre)
            && (k in log && k in other ==> log[k].pre == other[k].pre && log[k].post == other[k].post)
            && (k in log && k + 1 in other ==> log[k].post == other[k + 1].pre)
  {
    RunSound(app, s, events);
    var now := After(app, s, events);
    assert JuniorSound(app, now.history, now.juniors[p]);
    SoundLogsChain(app, now.history, now.senior.log, now.juniors[p].db.log, k);
  }

  lemma SoundLogsChain<D, M>(app: App<D, M>, history: seq<D>, log: map<nat, Update<M>>, other: map<nat, Update<M>>, k: nat)
    requires LogSound(app, history, log) && LogSound(app, history, other)
    ensures k in log && k + 1 in other ==> log[k].post == other[k + 1].pre
    ensures k in log && k + 1 in log ==> log[k].post == log[k + 1].pre
    ensures k in other && k + 1 in other ==> other[k].post == other[k + 1].pre
    ensures k in log && k in other ==> log[k].pre == other[k].pre && log[k].post == other[k].post
  {
  }

  lemma BirthIsReplicated<D(!new), M(!new)>(app: App<D, M>, s: System<D, M>)
    requires Correct(app) && Birth(app, s)
    ensures Replicated(app, s)
  {
  }

  // ----- Beacons tell the truth -----

  ghost predicate BeaconsTrue<D, M>(app: App<D, M>, s: System<D, M>) {
    forall b :: b in s.beacons ==> b.id < |s.history| && b.checksum == app.running(s.history[b.id])
  }

  lemma StepBeacons<D(!new), M(!new)>(app: App<D, M>, s: System<D, M>, e: Event<M>)
    requires Correct(app) && Replicated(app, s) && Enabled(s, e) && BeaconsTrue(app, s)
    ensures BeaconsTrue(app, Step(app, s, e))
  {
    assert Faithful(app, s.history, s.senior);
    hide Correct, Replicated, Step;
    StepSound(app, s, e);
    BeaconsGrow(app, s, e);
  }

  lemma BeaconsGrow<D, M>(app: App<D, M>, s: System<D, M>, e: Event<M>)
    requires Enabled(s, e)
    ensures var s' := Step(app, s, e);
            if e.Publish?
            then s'.senior.localId == s.senior.localId && s'.senior.checksum == s.senior.checksum
                 && s'.beacons == s.beacons + {Advertise(s'.senior)}
            else s'.beacons == s.beacons
  {
    hide HandleRequest, PulseSenior, JuniorStep;
    if e.Publish? || e.SeniorPulse? {
      PulseSeniorFrame(app, s, e.canSend);
    }
  }

  /** In every run each beacon ever sent names a state the senior was in and the
      checksum of what it held there. */
  lemma {:induction false} BeaconsTellTheTruth<D(!new), M(!new)>(app: App<D, M>, s: System<D, M>, events: seq<Event<M>>)
    requires Correct(app) && Replicated(app, s) && BeaconsTrue(app, s) && IsRun(app, s, events)
    ensures BeaconsTrue(app, After(app, s, events))
    decreases |events|
  {
    if events != [] {
      hide Correct, Replicated, BeaconsTrue;
      StepSound(app, s, events[0]);
      StepBeacons(app, s, events[0]);
      BeaconsTellTheTruth(app, Step(app, s, events[0]), events[1..]);
    }
  }
}
