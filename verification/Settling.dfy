/** Every run converges: once the last request is made and a junior has heard the
    senior's current beacon, there is a bound on how much it can still have to do,
    and when nothing is left to do it is at the senior's state. */
module Settling {
  import opened Tables
  import opened Database
  import opened Replication
  import opened Rescan
  import opened ReplicaSafety
  import opened Convergence
  import Numbering

  // ----- How much there is to do -----

  /** The updates up to `top` that the junior lacks and has not ordered. */
  ghost function Missing<D, M>(db: Db<D, M>, top: nat): set<nat> {
    set id: nat | db.localId < id <= top && id !in db.log && UpdateId(id) !in db.orders
  }

  ghost function Unserved<M>(link: map<OrderKey, Transit<M>>): set<OrderKey> {
    set key | key in link && link[key] == Requested
  }

  /** A pending rescan is one thing to do; an order is to be served and its answer
      taken, and may lead to a rescan or to an order for the full database. */
  ghost function Chores<D, M>(j: Junior<D, M>): nat {
    (if j.db.rescanPending then 1 else 0)
    + 4 * |j.db.orders - {FullDatabase}|
    + (if FullDatabase in j.db.orders then 2 else 0)
    + |Unserved(j.link)|
  }

  /** The full database is on its way, but an older one. */
  ghost predicate StaleFull<D, M>(j: Junior<D, M>, top: nat) {
    && FullDatabase in j.link && j.link[FullDatabase].Answered?
    && j.link[FullDatabase].reply.Some? && j.link[FullDatabase].reply.value.id < top
  }

  /** The junior is at `top`, or the full database will take it there. */
  ghost predicate Late<D, M>(j: Junior<D, M>, top: nat) {
    j.db.localId >= top || (FullDatabase in j.db.orders && !StaleFull(j, top))
  }

  ghost function Rank<D, M>(j: Junior<D, M>, top: nat): nat {
    if Late(j, top) then Chores(j)
    else if FullDatabase in j.db.orders then Chores(j) + 6 * top + 4
    else Chores(j) + 3 + 6 * |Missing(j.db, top)|
  }

  // ----- Counting -----

  lemma {:induction false} SmallerSet<T>(a: set<T>, b: set<T>)
    requires a <= b
    ensures |a| <= |b|
  {
    if x :| x in a {
      SmallerSet(a - {x}, b - {x});
    }
  }

  lemma {:induction false} CountUpTo(ids: set<nat>, top: nat)
    requires forall id :: id in ids ==> 0 < id <= top
    ensures |ids| <= top
  {
    if top == 0 {
      assert ids == {};
    } else {
      CountUpTo(ids - {top}, top - 1);
      assert ids <= (ids - {top}) + {top};
      SmallerSet(ids, (ids - {top}) + {top});
    }
  }

  ghost function Keys(ids: set<nat>): set<OrderKey> {
    set id | id in ids :: UpdateId(id)
  }

  lemma {:induction false} AsManyKeys(ids: set<nat>)
    ensures |Keys(ids)| == |ids|
  {
    if id :| id in ids {
      AsManyKeys(ids - {id});
      assert Keys(ids) == Keys(ids - {id}) + {UpdateId(id)};
      assert UpdateId(id) !in Keys(ids - {id});
    }
  }

  /** Keys for the missing updates make a set larger by no more than their number. */
  lemma GrownByKeys(a: set<OrderKey>, b: set<OrderKey>, ids: set<nat>)
    requires b <= a + Keys(ids)
    ensures |b| <= |a| + |ids|
  {
    SmallerSet(b, a + Keys(ids));
    AsManyKeys(ids);
  }

  lemma MissingCount<D, M>(db: Db<D, M>, top: nat)
    ensures |Missing(db, top)| <= top
  {
    CountUpTo(Missing(db, top), top);
  }

  // ----- A rescan -----

  lemma {:induction false} OrderMissingAdds<D, M>(db: Db<D, M>, id: nat, target: nat, env: Env)
    requires SendsSucceed(env)
    ensures forall key :: key in OrderMissing(db, id, target, env).orders && key !in db.orders ==>
              key.UpdateId? && id <= key.id <= target && key.id !in db.log
    decreases target + 1 - id
  {
    if id <= target {
      OrderMissingAdds(db, id + 1, target, env);
      OrderMissingAdds(RequestOrder(db, UpdateId(id), env), id + 1, target, env);
    }
  }

  /** The orders added are for updates that were missing. */
  ghost predicate AddsMissing<D, M>(db: Db<D, M>, orders: set<OrderKey>, top: nat) {
    && db.orders <= orders && FullDatabase !in orders
    && (forall key :: key in orders && key !in db.orders ==> key.UpdateId? && key.id in Missing(db, top))
  }

  lemma {:induction false} ReplayAdds<D, M>(app: App<D, M>, history: seq<D>, db: Db<D, M>, target: nat, env: Env)
    requires Faithful(app, history, db) && LogSound(app, history, db.log) && SendsSucceed(env) && FullDatabase !in db.orders
    ensures var r := Replay(app, db, target, env);
            r.orders == db.orders + {FullDatabase} || AddsMissing(db, r.orders, target)
    decreases target - db.localId
  {
    if db.localId < target {
      var next := db.localId + 1;
      ReplayStepFrame(app, db, target, env);
      if next in db.log {
        ExecuteSound(app, history, db, db.log[next]);
        ReplayAdds(app, history, ReplayStep(app, db, target, env).0, target, env);
      } else if next >= db.seniorOldest {
        OrderMissingAdds(db, next, target, env);
        OrderMissingFrame(db, next, target, env);
      }
    }
  }

  /** What a rescan adds to the orders: nothing if it has nothing to look for; else the
      full database, or all that is missing, unless it gets to the top. */
  lemma RescanAdds<D, M>(app: App<D, M>, history: seq<D>, db: Db<D, M>, top: nat, env: Env)
    requires Faithful(app, history, db) && LogSound(app, history, db.log) && SendsSucceed(env)
    requires db.seniorKnown && Target(db) == top
    ensures var r := JuniorRescan(app, db, env);
            if db.localId >= top || FullDatabase in db.orders then r.orders == db.orders && r.localId == db.localId
            else
              || r.orders == db.orders + {FullDatabase}
              || (AddsMissing(db, r.orders, top) && (r.localId >= top || Missing(r, top) == {}))
  {
    var begun, r := BeginRescan(db), JuniorRescan(app, db, env);
    JuniorRescanFrame(app, db, env);
    RescanCompletes(app, db, env);
    if db.localId < top && FullDatabase !in db.orders && !(db.localId == 0 && top > 1) {
      ReplayAdds(app, history, begun, top, env);
      assert Missing(begun, top) == Missing(db, top);
    }
  }

  lemma RescanRank<D, M>(j: Junior<D, M>, r: Junior<D, M>, top: nat)
    requires j.link.Keys == j.db.orders && j.db.rescanPending && !r.db.rescanPending
    requires r.link == Relink(j.link, r.db.orders)
    requires if j.db.localId >= top || FullDatabase in j.db.orders
             then r.db.orders == j.db.orders && r.db.localId == j.db.localId
             else
               || r.db.orders == j.db.orders + {FullDatabase}
               || (AddsMissing(j.db, r.db.orders, top) && (r.db.localId >= top || Missing(r.db, top) == {}))
    ensures Rank(r, top) + 1 <= Rank(j, top)
  {
    if r.db.orders == j.db.orders {
      assert r.link == j.link;
    } else if FullDatabase in r.db.orders {
      FullAdded(j, r, top);
    } else {
      MissingAdded(j, r, top);
    }
  }

  lemma FullAdded<D, M>(j: Junior<D, M>, r: Junior<D, M>, top: nat)
    requires j.link.Keys == j.db.orders && FullDatabase !in j.db.orders
    requires r.db.orders == j.db.orders + {FullDatabase} && r.link == Relink(j.link, r.db.orders)
    ensures Late(r, top)
    ensures Chores(r) - (if r.db.rescanPending then 1 else 0) == Chores(j) - (if j.db.rescanPending then 1 else 0) + 3
  {
    assert r.db.orders - {FullDatabase} == j.db.orders - {FullDatabase};
    assert Unserved(r.link) == Unserved(j.link) + {FullDatabase};
  }

  lemma MissingAdded<D, M>(j: Junior<D, M>, r: Junior<D, M>, top: nat)
    requires j.link.Keys == j.db.orders && FullDatabase !in j.db.orders
    requires AddsMissing(j.db, r.db.orders, top) && r.link == Relink(j.link, r.db.orders)
    ensures Chores(r) - (if r.db.rescanPending then 1 else 0) <=
            Chores(j) - (if j.db.rescanPending then 1 else 0) + 5 * |Missing(j.db, top)|
  {
    var ids := Missing(j.db, top);
    assert r.db.orders - {FullDatabase} <= (j.db.orders - {FullDatabase}) + Keys(ids);
    assert Unserved(r.link) <= Unserved(j.link) + Keys(ids);
    GrownByKeys(j.db.orders - {FullDatabase}, r.db.orders - {FullDatabase}, ids);
    GrownByKeys(Unserved(j.link), Unserved(r.link), ids);
  }

  // ----- An order served, and its answer -----

  lemma ServedRank<D, M>(j: Junior<D, M>, r: Junior<D, M>, top: nat, key: OrderKey, reply: Option<Update<M>>)
    requires key in j.link && j.link[key] == Requested && j.link.Keys == j.db.orders
    requires r == j.(link := j.link[key := Answered(reply)])
    requires key == FullDatabase ==> reply.Some? && reply.value.id >= top
    ensures Rank(r, top) + 1 == Rank(j, top)
  {
    assert Unserved(r.link) == Unserved(j.link) - {key};
  }

  /** An order is gone, and perhaps a rescan pending that was not. */
  lemma OrderGone<D, M>(j: Junior<D, M>, r: Junior<D, M>, key: OrderKey)
    requires key in j.link && j.link[key] != Requested && j.link.Keys == j.db.orders
    requires r.db.orders == j.db.orders - {key} && r.link == Relink(j.link - {key}, r.db.orders)
    ensures Unserved(r.link) == Unserved(j.link) && r.link == j.link - {key}
    ensures Chores(r) - (if r.db.rescanPending then 1 else 0) ==
            Chores(j) - (if j.db.rescanPending then 1 else 0) - if key == FullDatabase then 2 else 4
  {
    if key == FullDatabase {
      assert r.db.orders - {FullDatabase} == j.db.orders - {FullDatabase};
    } else {
      assert r.db.orders - {FullDatabase} == (j.db.orders - {FullDatabase}) - {key};
    }
  }

  /** The update that was ordered is filed. */
  lemma FiledRank<D, M>(app: App<D, M>, j: Junior<D, M>, top: nat, key: OrderKey, u: Update<M>, env: Env)
    requires key in j.link && j.link[key] != Requested && j.link.Keys == j.db.orders
    requires key == UpdateId(u.id)
    ensures var db := OrderResult(app, j.db, key, Some(u), true, env);
            Rank(Junior(db, Relink(j.link - {key}, db.orders)), top) + 1 <= Rank(j, top)
  {
    var db := OrderResult(app, j.db, key, Some(u), true, env);
    var r := Junior(db, Relink(j.link - {key}, db.orders));
    OrderGone(j, r, key);
    hide Chores;
    assert Late(r, top) <==> Late(j, top);
    assert Missing(r.db, top) <= Missing(j.db, top);
    SmallerSet(Missing(r.db, top), Missing(j.db, top));
  }

  /** The update did not come, and the full database is ordered instead. */
  lemma FallbackRank<D, M>(app: App<D, M>, j: Junior<D, M>, top: nat, key: OrderKey, env: Env)
    requires key in j.link && j.link[key] != Requested && j.link.Keys == j.db.orders && key.UpdateId? && SendsSucceed(env)
    ensures var db := OrderResult(app, j.db, key, None, true, env);
            Rank(Junior(db, Relink(j.link - {key}, db.orders)), top) + 1 <= Rank(j, top)
  {
    var db := OrderResult(app, j.db, key, None, true, env);
    var r := Junior(db, Relink(j.link - {key}, db.orders));
    var without := Junior(j.db.(orders := j.db.orders - {key}), j.link - {key});
    assert Relink(j.link - {key}, without.db.orders) == without.link;
    OrderGone(j, without, key);
    if FullDatabase in j.db.orders {
      assert db == without.db && r == without;
      assert Late(r, top) <==> Late(j, top);
    } else {
      assert db == without.db.(orders := without.db.orders + {FullDatabase});
      FullAdded(without, r, top);
    }
  }

  /** The full database is taken. */
  lemma TakenRank<D(!new), M>(app: App<D, M>, history: seq<D>, j: Junior<D, M>, top: nat, u: Update<M>, env: Env)
    requires HistoryGood(app, history) && Faithful(app, history, j.db) && FullSound(app, history, u)
    requires FullDatabase in j.link && j.link[FullDatabase] == Answered(Some(u)) && j.link.Keys == j.db.orders
    requires j.db.localId <= u.id <= top
    ensures var db := OrderResult(app, j.db, FullDatabase, Some(u), true, env);
            Rank(Junior(db, Relink(j.link - {FullDatabase}, db.orders)), top) + 1 <= Rank(j, top)
  {
    var rest := j.db.(orders := j.db.orders - {FullDatabase});
    ReplaceSound(app, history, rest, u);
    Numbering.ReplaceFrame(app, rest, u);
    var db := OrderResult(app, j.db, FullDatabase, Some(u), true, env);
    var r := Junior(db, Relink(j.link - {FullDatabase}, db.orders));
    OrderGone(j, r, FullDatabase);
    hide Chores;
    MissingCount(r.db, top);
  }

  /** A multicast update that arrives adds at most a rescan. */
  lemma ArrivalRank<D, M>(app: App<D, M>, j: Junior<D, M>, top: nat, u: Update<M>)
    ensures Rank(j.(db := AddUpdate(app, j.db, u, false)), top) <= Rank(j, top) + 1
  {
    var r := j.(db := AddUpdate(app, j.db, u, false));
    assert Missing(r.db, top) <= Missing(j.db, top);
    SmallerSet(Missing(r.db, top), Missing(j.db, top));
  }

  // ----- The states from which a run is watched -----

  /** An answer to the order of an update is that update. */
  ghost predicate KeyedReplies<D, M>(j: Junior<D, M>) {
    forall key :: key in j.link && key.UpdateId? && j.link[key].Answered? && j.link[key].reply.Some? ==>
      j.link[key].reply.value.id == key.id
  }

  /** An order for the full database, if there is one, is not lost. */
  ghost predicate FullComing<D, M>(j: Junior<D, M>) {
    FullDatabase in j.link ==>
      j.link[FullDatabase] == Requested || (j.link[FullDatabase].Answered? && j.link[FullDatabase].reply.Some?)
  }

  /** The junior is attached, has heard the senior's current beacon, and has something
      to do if it is not there. */
  ghost predicate Ready<D(!new), M>(app: App<D, M>, t: System<D, M>, p: PeerId) {
    && Healthy(app, t) && p in t.juniors
    && var j := t.juniors[p];
       && j.db.attached && j.db.seniorKnown && j.db.seniorId == t.senior.localId
       && Awake(j.db) && KeyedReplies(j) && FullComing(j)
  }

  /** No new request; the junior's orders go out, its connection holds, and no older
      beacon reaches it. Multicast updates may still arrive, and others may do
      anything. */
  ghost predicate Calm<M>(p: PeerId, e: Event<M>) {
    match e
    case Submit(_) => false
    case BeaconArrives(q, _) => q != p
    case LoseLink(q) => q != p
    case JuniorPulse(q, env) => q == p ==> SendsSucceed(env)
    case ReplyArrives(q, _, env) => q == p ==> SendsSucceed(env)
    case ResolveLost(q, _, env) => q == p ==> SendsSucceed(env)
    case _ => true
  }

  /** The event does something that the junior has to do. */
  ghost predicate Works<D, M>(t: System<D, M>, p: PeerId, e: Event<M>) {
    match e
    case JuniorPulse(q, _) => q == p && p in t.juniors && t.juniors[p].db.rescanPending
    case ServeOrder(q, _, _) => q == p
    case ReplyArrives(q, _, _) => q == p
    case ResolveLost(q, _, _) => q == p
    case _ => false
  }

  function Noise<M>(p: PeerId, e: Event<M>): nat {
    if e.UpdateArrives? && e.peer == p then 1 else 0
  }

  // ----- Every step -----

  lemma ReadyTarget<D(!new), M>(app: App<D, M>, t: System<D, M>, p: PeerId)
    requires Ready(app, t, p)
    ensures Target(t.juniors[p].db) == t.senior.localId && t.juniors[p].link.Keys == t.juniors[p].db.orders
  {
    TargetIsTop(app, t, p);
    HealthyJunior(app, t, p);
  }

  lemma PulseStepRank<D(!new), M>(app: App<D, M>, t: System<D, M>, p: PeerId, env: Env)
    requires Ready(app, t, p) && SendsSucceed(env) && t.juniors[p].db.rescanPending
    ensures Rank(JuniorStep(app, t, t.juniors[p], JuniorPulse(p, env)), t.senior.localId) + 1
            <= Rank(t.juniors[p], t.senior.localId)
  {
    hide Healthy, Faithful, LogSound, Rank, JuniorRescan, Target, JuniorStep, Awake, KeyedReplies, FullComing;
    var j, top := t.juniors[p], t.senior.localId;
    ReadyTarget(app, t, p);
    HealthyJunior(app, t, p);
    RescanAdds(app, t.history, j.db, top, env);
    RescanClears(app, j.db, env);
    RescanJunior(app, t, j, p, env);
    var db := JuniorRescan(app, j.db, env);
    RescanRank(j, Junior(db, Relink(j.link, db.orders)), top);
  }

  lemma RescanJunior<D, M>(app: App<D, M>, t: System<D, M>, j: Junior<D, M>, p: PeerId, env: Env)
    requires j.db.rescanPending
    ensures var db := JuniorRescan(app, j.db, env);
            JuniorStep(app, t, j, JuniorPulse(p, env)) == Junior(db, Relink(j.link, db.orders))
  {
  }

  lemma ReplyJunior<D, M>(app: App<D, M>, t: System<D, M>, j: Junior<D, M>, p: PeerId, key: OrderKey, env: Env)
    requires key in j.link && j.link[key].Answered?
    ensures var db := OrderResult(app, j.db, key, j.link[key].reply, true, env);
            JuniorStep(app, t, j, ReplyArrives(p, key, env)) == Junior(db, Relink(j.link - {key}, db.orders))
  {
  }

  lemma ResolveJunior<D, M>(app: App<D, M>, t: System<D, M>, j: Junior<D, M>, p: PeerId, key: OrderKey, env: Env)
    ensures var db := OrderResult(app, j.db, key, None, true, env);
            JuniorStep(app, t, j, ResolveLost(p, key, env)) == Junior(db, Relink(j.link - {key}, db.orders))
  {
  }

  lemma RescanClears<D, M>(app: App<D, M>, db: Db<D, M>, env: Env)
    requires db.seniorKnown
    ensures !JuniorRescan(app, db, env).rescanPending
  {
    JuniorRescanFrame(app, db, env);
  }

  lemma ReplyStepRank<D(!new), M>(app: App<D, M>, t: System<D, M>, p: PeerId, key: OrderKey, env: Env)
    requires Ready(app, t, p) && SendsSucceed(env) && key in t.juniors[p].link && t.juniors[p].link[key].Answered?
    ensures Rank(JuniorStep(app, t, t.juniors[p], ReplyArrives(p, key, env)), t.senior.localId) + 1
            <= Rank(t.juniors[p], t.senior.localId)
  {
    hide Healthy, Faithful, LogSound, Rank, OrderResult, Relink, FullSound, UpdateSound, JuniorStep, Awake, HistoryGood;
    var j, top := t.juniors[p], t.senior.localId;
    ReadyTarget(app, t, p);
    HealthyJunior(app, t, p);
    ReplyJunior(app, t, j, p, key, env);
    var reply := j.link[key].reply;
    assert j.link[key] == Answered(reply);
    assert ReplySound(app, t.history, key, j.link[key]);
    assert Numbering.ReplyNumbered(top, t.recorded, j.db.localId, key, j.link[key]);
    if key == FullDatabase {
      TakenRank(app, t.history, j, top, reply.value, env);
    } else if reply.Some? {
      FiledRank(app, j, top, key, reply.value, env);
    } else {
      FallbackRank(app, j, top, key, env);
    }
  }

  lemma ResolveStepRank<D(!new), M>(app: App<D, M>, t: System<D, M>, p: PeerId, key: OrderKey, env: Env)
    requires Ready(app, t, p) && SendsSucceed(env) && key in t.juniors[p].link && t.juniors[p].link[key] == Dead
    ensures Rank(JuniorStep(app, t, t.juniors[p], ResolveLost(p, key, env)), t.senior.localId) + 1
            <= Rank(t.juniors[p], t.senior.localId)
  {
    hide Rank, OrderResult, Relink, Healthy, JuniorStep, Awake, KeyedReplies;
    ReadyTarget(app, t, p);
    ResolveJunior(app, t, t.juniors[p], p, key, env);
    FallbackRank(app, t.juniors[p], t.senior.localId, key, env);
  }

  lemma ServeStepRank<D(!new), M>(app: App<D, M>, t: System<D, M>, p: PeerId, key: OrderKey, verify: bool)
    requires Saves(app) && Ready(app, t, p)
    requires key in t.juniors[p].link && t.juniors[p].link[key] == Requested
    ensures Rank(ServeStep(app, t, p, key, verify).juniors[p], t.senior.localId) + 1 == Rank(t.juniors[p], t.senior.localId)
    ensures ServeStep(app, t, p, key, verify).senior.localId == t.senior.localId
  {
    ReadyTarget(app, t, p);
    var j := t.juniors[p];
    var db := if verify && key == FullDatabase then VerifyChecksum(app, t.senior) else t.senior;
    ServedFull(app, t, db);
    ServedRank(j, j.(link := j.link[key := Answered(Serve(app, db, key))]), t.senior.localId, key, Serve(app, db, key));
  }

  lemma ServedFull<D(!new), M>(app: App<D, M>, t: System<D, M>, db: Db<D, M>)
    requires Saves(app) && Healthy(app, t) && db.content == t.senior.content && db.localId == t.senior.localId
    ensures Serve(app, db, FullDatabase).Some? && Serve(app, db, FullDatabase).value.id == t.senior.localId
  {
    assert app.good(t.senior.content);
  }

  /** One step: whatever the junior had to do and does leaves less to do. */
  lemma StepRank<D(!new), M(!new)>(app: App<D, M>, t: System<D, M>, p: PeerId, e: Event<M>)
    requires Correct(app) && Saves(app) && Ready(app, t, p) && Enabled(t, e) && Calm(p, e)
    ensures var r := Step(app, t, e);
            && p in r.juniors && r.senior.localId == t.senior.localId
            && Rank(r.juniors[p], t.senior.localId) + (if Works(t, p, e) then 1 else 0)
               <= Rank(t.juniors[p], t.senior.localId) + Noise(p, e)
  {
    hide Correct, Saves, Rank, PulseSenior, Healthy;
    match e {
      case SeniorPulse(canSend) => PulseSeniorFrame(app, t, canSend);
      case Publish(canSend) => PulseSeniorFrame(app, t, canSend);
      case ServeOrder(q, key, verify) =>
        if q == p {
          ServeStepRank(app, t, p, key, verify);
        }
      case Join(_, _) =>
      case JuniorPulse(q, env) =>
        if q == p {
          if t.juniors[p].db.rescanPending {
            PulseStepRank(app, t, p, env);
          } else {
            IdlePulse(app, t, p, env);
          }
        }
      case ReplyArrives(q, key, env) =>
        if q == p {
          ReplyStepRank(app, t, p, key, env);
        }
      case ResolveLost(q, key, env) =>
        if q == p {
          ResolveStepRank(app, t, p, key, env);
        }
      case UpdateArrives(q, i) =>
        if q == p {
          ArrivalRank(app, t.juniors[p], t.senior.localId, t.multicast[i]);
        }
      case _ =>
    }
  }

  lemma IdlePulse<D(!new), M>(app: App<D, M>, t: System<D, M>, p: PeerId, env: Env)
    requires Ready(app, t, p) && !t.juniors[p].db.rescanPending
    ensures JuniorStep(app, t, t.juniors[p], JuniorPulse(p, env)) == t.juniors[p]
  {
    hide Healthy, Awake, KeyedReplies, FullComing, JuniorRescan;
    ReadyTarget(app, t, p);
    var j := t.juniors[p];
    assert Relink(j.link, j.db.orders) == j.link;
  }

  // ----- ... and the junior stays ready -----

  lemma StepKeyed<D, M>(app: App<D, M>, t: System<D, M>, p: PeerId, e: Event<M>)
    requires Enabled(t, e) && Keyed(t.senior.log) && (p in t.juniors ==> KeyedReplies(t.juniors[p]))
    ensures p in Step(app, t, e).juniors ==> KeyedReplies(Step(app, t, e).juniors[p])
  {
    if e.SeniorPulse? || e.Publish? {
      PulseSeniorFrame(app, t, e.canSend);
    }
  }

  /** Its fields that nothing calm touches. */
  lemma StepFields<D, M>(app: App<D, M>, t: System<D, M>, p: PeerId, e: Event<M>)
    requires Enabled(t, e) && Calm(p, e) && p in t.juniors && t.juniors[p].db.attached
    ensures p in Step(app, t, e).juniors && Step(app, t, e).senior.localId == t.senior.localId
    ensures var db, r := t.juniors[p].db, Step(app, t, e).juniors[p].db;
            r.attached && r.seniorKnown == db.seniorKnown && r.seniorId == db.seniorId
  {
    match e {
      case SeniorPulse(canSend) => PulseSeniorFrame(app, t, canSend);
      case Publish(canSend) => PulseSeniorFrame(app, t, canSend);
      case JuniorPulse(q, env) =>
        if t.juniors[q].db.rescanPending && t.juniors[q].db.seniorKnown {
          JuniorRescanFrame(app, t.juniors[q].db, env);
        }
      case ReplyArrives(q, key, env) => AnswerFields(app, t.juniors[q].db, key, t.juniors[q].link[key].reply, env);
      case ResolveLost(q, key, env) => AnswerFields(app, t.juniors[q].db, key, None, env);
      case _ =>
    }
  }

  lemma AnswerFields<D, M>(app: App<D, M>, db: Db<D, M>, key: OrderKey, reply: Option<Update<M>>, env: Env)
    ensures var r := OrderResult(app, db, key, reply, true, env);
            r.attached == db.attached && r.seniorKnown == db.seniorKnown && r.seniorId == db.seniorId
  {
    if reply.Some? {
      ApplyFrame(app, db.(orders := db.orders - {key}), reply.value);
    }
  }

  lemma StepComing<D(!new), M(!new)>(app: App<D, M>, t: System<D, M>, p: PeerId, e: Event<M>)
    requires Saves(app) && Ready(app, t, p) && Enabled(t, e) && Calm(p, e)
    ensures p in Step(app, t, e).juniors ==> FullComing(Step(app, t, e).juniors[p])
  {
    hide Saves, Healthy, Awake, KeyedReplies;
    if IsJuniorEvent(e) {
      if e.peer == p {
        JuniorComing(app, t, p, e);
      }
    } else if e.ServeOrder? {
      var db := if e.verify && e.key == FullDatabase then VerifyChecksum(app, t.senior) else t.senior;
      ServedFull(app, t, db);
    } else if e.SeniorPulse? || e.Publish? {
      PulseSeniorFrame(app, t, e.canSend);
    }
  }

  lemma JuniorComing<D, M>(app: App<D, M>, t: System<D, M>, p: PeerId, e: Event<M>)
    requires Enabled(t, e) && Calm(p, e) && IsJuniorEvent(e) && e.peer == p && FullComing(t.juniors[p])
    ensures FullComing(JuniorStep(app, t, t.juniors[p], e))
  {
    hide JuniorRescan, OrderResult;
  }

  lemma CalmIsFair<D(!new), M>(app: App<D, M>, t: System<D, M>, p: PeerId, e: Event<M>)
    requires Ready(app, t, p) && Enabled(t, e) && Calm(p, e)
    ensures Fair(t, p, e)
  {
  }

  lemma HealthyIsReplicated<D(!new), M>(app: App<D, M>, t: System<D, M>)
    requires Healthy(app, t)
    ensures Replicated(app, t) && Keyed(t.senior.log)
  {
    SeniorIsKeyed(app, t);
  }

  lemma StepReady<D(!new), M(!new)>(app: App<D, M>, t: System<D, M>, p: PeerId, e: Event<M>)
    requires Correct(app) && Saves(app) && Ready(app, t, p) && Enabled(t, e) && Calm(p, e)
    ensures Ready(app, Step(app, t, e), p)
  {
    hide Correct, Saves, Healthy, Step, Awake, KeyedReplies, FullComing, Replicated;
    HealthyIsReplicated(app, t);
    StepHealthy(app, t, e);
    StepFields(app, t, p, e);
    CalmIsFair(app, t, p, e);
    StepAwake(app, t, p, e);
    StepKeyed(app, t, p, e);
    StepComing(app, t, p, e);
  }

  // ----- Every run -----

  ghost predicate CalmRun<M>(events: seq<Event<M>>, p: PeerId) {
    forall i :: 0 <= i < |events| ==> Calm(p, events[i])
  }

  /** How many things the junior had to do were done. */
  ghost function Work<D, M>(app: App<D, M>, t: System<D, M>, events: seq<Event<M>>, p: PeerId): nat
    requires IsRun(app, t, events)
    decreases |events|
  {
    if events == [] then 0
    else (if Works(t, p, events[0]) then 1 else 0) + Work(app, Step(app, t, events[0]), events[1..], p)
  }

  function NoiseIn<M>(events: seq<Event<M>>, p: PeerId): nat {
    if events == [] then 0 else Noise(p, events[0]) + NoiseIn(events[1..], p)
  }

  lemma {:induction false} RunRank<D(!new), M(!new)>(app: App<D, M>, t: System<D, M>, events: seq<Event<M>>, p: PeerId)
    requires Correct(app) && Saves(app) && Ready(app, t, p) && IsRun(app, t, events) && CalmRun(events, p)
    ensures var r := After(app, t, events);
            && Ready(app, r, p) && r.senior.localId == t.senior.localId
            && Work(app, t, events, p) + Rank(r.juniors[p], t.senior.localId)
               <= Rank(t.juniors[p], t.senior.localId) + NoiseIn(events, p)
    decreases |events|
  {
    hide Correct, Saves, Ready, Step, Enabled, Rank, Works, Noise, Calm;
    if events != [] {
      assert Calm(p, events[0]);
      StepRank(app, t, p, events[0]);
      StepReady(app, t, p, events[0]);
      RunRank(app, Step(app, t, events[0]), events[1..], p);
    }
  }

  ghost predicate Idle<D, M>(t: System<D, M>, p: PeerId)
    requires p in t.juniors
  {
    !t.juniors[p].db.rescanPending && t.juniors[p].db.orders == {}
  }

  lemma NothingLeftToDo<D, M>(j: Junior<D, M>, top: nat)
    requires Rank(j, top) == 0
    ensures !j.db.rescanPending && j.db.orders == {}
  {
    assert |j.db.orders - {FullDatabase}| == 0;
    assert j.db.orders - {FullDatabase} == {};
  }

  lemma IdleIsCaughtUp<D(!new), M>(app: App<D, M>, t: System<D, M>, p: PeerId)
    requires Ready(app, t, p) && Idle(t, p)
    ensures CaughtUp(t, p)
  {
    ReadyTarget(app, t, p);
    AtTheTop(app, t, p);
  }

  /** A junior that is not idle has something to do that can be done. */
  lemma SomethingToDo<D(!new), M(!new)>(app: App<D, M>, t: System<D, M>, p: PeerId)
    requires Ready(app, t, p) && !Idle(t, p)
    ensures exists e: Event<M> :: Enabled(t, e) && Calm(p, e) && Works(t, p, e)
  {
    ReadyTarget(app, t, p);
    var j, env := t.juniors[p], Env(true, (key: OrderKey) => true);
    if j.db.rescanPending {
      var e: Event<M> := JuniorPulse(p, env);
      assert Enabled(t, e) && Calm(p, e) && Works(t, p, e);
    } else {
      var key :| key in j.db.orders;
      var e: Event<M> := match j.link[key]
        case Requested => ServeOrder(p, key, false)
        case Answered(_) => ReplyArrives(p, key, env)
        case Dead => ResolveLost(p, key, env);
      assert Enabled(t, e) && Calm(p, e) && Works(t, p, e);
    }
  }

  /** Every run converges. After any fair run from birth, let the junior have heard the
      senior's current beacon. Then in every run without a new request in which its
      connection holds: the things it does are bounded by a number fixed at the start
      and the multicast updates that still arrive; as long as it is not idle there is
      something it can do; and whenever it is idle, as it is once the bound is
      reached, it is at the senior's state with the senior's content. */
  lemma EveryRunConverges<D(!new), M(!new)>(app: App<D, M>, s: System<D, M>, before: seq<Event<M>>, events: seq<Event<M>>, p: PeerId)
    requires Correct(app) && Saves(app) && Birth(app, s) && IsRun(app, s, before) && FairRun(app, s, before, p)
    requires var t := After(app, s, before);
             && p in t.juniors && t.juniors[p].db.attached && t.juniors[p].db.seniorKnown
             && t.juniors[p].db.seniorId == t.senior.localId && FullComing(t.juniors[p])
             && IsRun(app, t, events) && CalmRun(events, p)
    ensures var t := After(app, s, before);
            var r, bound := After(app, t, events), Rank(t.juniors[p], t.senior.localId) + NoiseIn(events, p);
            && p in r.juniors && r.senior.localId == t.senior.localId
            && Work(app, t, events, p) <= bound
            && (Idle(r, p) ==> CaughtUp(r, p))
            && (Work(app, t, events, p) == bound ==> CaughtUp(r, p))
            && (!Idle(r, p) ==> exists e: Event<M> :: Enabled(r, e) && Calm(p, e) && Works(r, p, e))
  {
    hide Correct, Saves, Healthy, Rank, Works, Calm, Enabled, Birth, Awake, KeyedReplies, FullComing;
    var t := After(app, s, before);
    ReadyFromBirth(app, s, before, p);
    RunRank(app, t, events, p);
    var r := After(app, t, events);
    if Work(app, t, events, p) == Rank(t.juniors[p], t.senior.localId) + NoiseIn(events, p) {
      NothingLeftToDo(r.juniors[p], t.senior.localId);
    }
    if Idle(r, p) {
      IdleIsCaughtUp(app, r, p);
    } else {
      SomethingToDo(app, r, p);
    }
  }

  lemma ReadyFromBirth<D(!new), M(!new)>(app: App<D, M>, s: System<D, M>, before: seq<Event<M>>, p: PeerId)
    requires Correct(app) && Birth(app, s) && IsRun(app, s, before) && FairRun(app, s, before, p)
    requires var t := After(app, s, before);
             && p in t.juniors && t.juniors[p].db.attached && t.juniors[p].db.seniorKnown
             && t.juniors[p].db.seniorId == t.senior.localId && FullComing(t.juniors[p])
    ensures Ready(app, After(app, s, before), p)
  {
    BirthHealthy(app, s);
    BirthIsReplicated(app, s);
    hide Correct, Healthy, Replicated, Awake, KeyedReplies;
    RunHealthy(app, s, before);
    RunAwake(app, s, before, p);
    RunKeyed(app, s, before, p);
  }

  lemma {:induction false} RunKeyed<D(!new), M(!new)>(app: App<D, M>, s: System<D, M>, events: seq<Event<M>>, p: PeerId)
    requires Correct(app) && Healthy(app, s) && IsRun(app, s, events)
    requires p in s.juniors ==> KeyedReplies(s.juniors[p])
    ensures p in After(app, s, events).juniors ==> KeyedReplies(After(app, s, events).juniors[p])
    decreases |events|
  {
    if events != [] {
      hide Correct, Healthy, Step, KeyedReplies, Enabled;
      SeniorIsKeyed(app, s);
      StepKeyed(app, s, p, events[0]);
      StepHealthy(app, s, events[0]);
      RunKeyed(app, Step(app, s, events[0]), events[1..], p);
    }
  }
}
