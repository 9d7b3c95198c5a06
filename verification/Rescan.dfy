/** What a rescan of the update log achieves, on a junior and on a senior, and
    how the log's byte budget is kept. */
module Rescan {
  import opened Tables
  import opened Database

  // ----- The junior's replay loop is a fold over consecutive logged updates -----

  ghost predicate HasRange<M>(log: map<nat, Update<M>>, from: nat, upTo: nat) {
    forall k :: from < k <= upTo ==> k in log
  }

  ghost function Fold<D, M>(app: App<D, M>, content: D, log: map<nat, Update<M>>, from: nat, upTo: nat): D
    requires HasRange(log, from, upTo)
    decreases upTo
  {
    if upTo <= from then content
    else Outcome(app, Fold(app, content, log, from, upTo - 1), log[upTo]).0
  }

  lemma {:induction false} FoldShift<D, M>(app: App<D, M>, content: D, log: map<nat, Update<M>>, from: nat, upTo: nat)
    requires from < upTo && HasRange(log, from, upTo)
    ensures Fold(app, content, log, from, upTo) == Fold(app, Outcome(app, content, log[from + 1]).0, log, from + 1, upTo)
    decreases upTo
  {
    if from + 1 < upTo {
      FoldShift(app, content, log, from, upTo - 1);
    }
  }

  lemma ExecuteEffect<D, M>(app: App<D, M>, db: Db<D, M>, u: Update<M>)
    ensures ExecuteUpdate(app, db, u).1 ==> ExecuteUpdate(app, db, u).0.content == Outcome(app, db.content, u).0
  {
  }

  /** The replay loop advances one ID at a time through updates that are all in
      the log; it leaves the fold of exactly those updates, with the checksum the
      senior recorded for the last of them. Only when the update after them was
      found in the log and failed is that one applied on top. */
  lemma {:induction false} ReplayIsFold<D, M>(app: App<D, M>, db: Db<D, M>, target: nat, env: Env)
    requires Keyed(db.log)
    ensures var r := Replay(app, db, target, env);
            && db.localId <= r.localId
            && HasRange(db.log, db.localId, r.localId)
            && LeavesFold(app, db, r, target)
    decreases target - db.localId
  {
    if db.localId < target {
      hide ReplayStep, Outcome;
      var (next, more) := ReplayStep(app, db, target, env);
      if more {
        ReplayGoes(app, db, target, env);
        ReplayIsFold(app, next, target, env);
        var r := Replay(app, db, target, env);
        FoldShift(app, db.content, db.log, db.localId, r.localId);
      } else {
        StoppedStep(app, db, target, env);
      }
    }
  }

  lemma ReplayGoes<D, M>(app: App<D, M>, db: Db<D, M>, target: nat, env: Env)
    requires db.localId < target && ReplayStep(app, db, target, env).1
    ensures var r, id := ReplayStep(app, db, target, env).0, db.localId + 1;
            && id in db.log && r.localId == id && r.log == db.log
            && r.content == Outcome(app, db.content, db.log[id]).0 && r.checksum == db.log[id].post
  {
    ExecuteFrame(app, db, db.log[db.localId + 1]);
    ExecuteEffect(app, db, db.log[db.localId + 1]);
  }

  ghost predicate LeavesFold<D, M>(app: App<D, M>, db: Db<D, M>, r: Db<D, M>, target: nat)
    requires db.localId <= r.localId && HasRange(db.log, db.localId, r.localId)
  {
    var fold := Fold(app, db.content, db.log, db.localId, r.localId);
    || (r.content == fold
        && r.checksum == if r.localId == db.localId then db.checksum else db.log[r.localId].post)
    || (r.localId < target && r.localId + 1 in db.log
        && r.content == Outcome(app, fold, db.log[r.localId + 1]).0
        && r.checksum == app.running(r.content))
  }

  lemma StoppedStep<D, M>(app: App<D, M>, db: Db<D, M>, target: nat, env: Env)
    requires !ReplayStep(app, db, target, env).1
    ensures ReplayStep(app, db, target, env).0.localId == db.localId
    ensures var r := ReplayStep(app, db, target, env).0;
            || (r.content == db.content && r.checksum == db.checksum)
            || (db.localId + 1 in db.log && r.content == Outcome(app, db.content, db.log[db.localId + 1]).0
                && r.checksum == app.running(r.content))
  {
    ReplayStepFrame(app, db, target, env);
    OrderMissingFrame(db, db.localId + 1, target, env);
  }

  // ----- ... and leaves nothing unasked for -----

  ghost predicate AllAskedFor<D, M>(db: Db<D, M>, from: nat, target: nat) {
    forall id :: from <= id <= target ==> id in db.log || UpdateId(id) in db.orders
  }

  ghost predicate SendsSucceed(env: Env) {
    env.hasSenior && forall key :: env.canOrder(key)
  }

  lemma {:induction false} OrderMissingAsksForAll<D, M>(db: Db<D, M>, id: nat, target: nat, env: Env)
    requires SendsSucceed(env)
    ensures AllAskedFor(OrderMissing(db, id, target, env), id, target)
    decreases target + 1 - id
  {
    if id <= target {
      OrderMissingFrame(db, id, target, env);
      var db' := RequestOrder(db, UpdateId(id), env);
      if id in db.log || UpdateId(id) in db.orders {
        OrderMissingAsksForAll(db, id + 1, target, env);
      } else {
        OrderMissingAsksForAll(db', id + 1, target, env);
        OrderMissingFrame(db', id + 1, target, env);
      }
    }
  }

  /** The update is neither there nor on order and cannot be ordered. */
  predicate Blocked<D, M>(db: Db<D, M>, id: nat, env: Env) {
    id !in db.log && UpdateId(id) !in db.orders && !env.canOrder(UpdateId(id))
  }

  /** Exactly what is ordered: each missing update before the first that cannot be
      ordered, and the whole database if there is such a one. */
  lemma {:induction false} OrderMissingExactly<D, M>(db: Db<D, M>, id: nat, target: nat, env: Env, key: OrderKey)
    ensures key in OrderMissing(db, id, target, env).orders <==>
            || key in db.orders
            || (env.canOrder(key) &&
                  match key
                  case UpdateId(k) => id <= k <= target && k !in db.log && forall j :: id <= j < k ==> !Blocked(db, j, env)
                  case FullDatabase => exists j :: id <= j <= target && Blocked(db, j, env))
    decreases target + 1 - id
  {
    if id <= target {
      if id in db.log || UpdateId(id) in db.orders {
        OrderMissingExactly(db, id + 1, target, env, key);
      } else if env.canOrder(UpdateId(id)) {
        var asked := RequestOrder(db, UpdateId(id), env);
        OrderMissingExactly(asked, id + 1, target, env, key);
        assert forall j: nat :: Blocked(asked, j, env) <==> Blocked(db, j, env);
      } else {
        assert Blocked(db, id, env);
      }
    }
  }

  lemma {:induction false} ReplayCompletes<D, M>(app: App<D, M>, db: Db<D, M>, target: nat, env: Env)
    requires SendsSucceed(env)
    ensures var r := Replay(app, db, target, env);
            || r.localId >= target
            || FullDatabase in r.orders
            || AllAskedFor(r, r.localId + 1, target)
    decreases target - db.localId
  {
    if db.localId < target {
      ReplayStepFrame(app, db, target, env);
      var (next, more) := ReplayStep(app, db, target, env);
      if more {
        ReplayCompletes(app, next, target, env);
      } else if db.localId + 1 !in db.log && db.localId + 1 >= db.seniorOldest {
        OrderMissingAsksForAll(db, db.localId + 1, target, env);
        OrderMissingFrame(db, db.localId + 1, target, env);
      }
    }
  }

  // ----- The senior's multicast stage -----

  lemma {:induction false} SentBounds(keys: seq<nat>, from: nat, canSend: nat -> bool)
    requires Ascending(keys)
    ensures var sent := SentOf(keys, from, canSend);
            && (forall i :: 0 <= i < |sent| ==> sent[i] in keys && sent[i] >= from && canSend(sent[i]))
            && Ascending(sent)
  {
    if keys != [] {
      var n := |keys| - 1;
      SentBounds(keys[..n], from, canSend);
    }
  }

  lemma {:induction false} SentAll(keys: seq<nat>, from: nat, canSend: nat -> bool, i: nat)
    requires i < |keys| && keys[i] >= from && canSend(keys[i])
    ensures keys[i] in SentOf(keys, from, canSend)
  {
    if i < |keys| - 1 {
      SentAll(keys[..|keys| - 1], from, canSend, i);
    }
  }

  /** The scan sends exactly the logged updates not sent before whose send
      succeeds, oldest first, and moves the mark past them. */
  lemma SentExactly(keys: seq<nat>, from: nat, canSend: nat -> bool)
    requires Ascending(keys)
    ensures var sent := SentOf(keys, from, canSend);
            && Ascending(sent)
            && (forall k :: k in sent <==> k in keys && k >= from && canSend(k))
            && (forall k :: k in sent ==> k < AfterLast(sent, from))
            && AfterLast(sent, from) >= from
  {
    SentBounds(keys, from, canSend);
    var sent := SentOf(keys, from, canSend);
    forall k | k in keys && k >= from && canSend(k)
      ensures k in sent
    {
      var i :| 0 <= i < |keys| && keys[i] == k;
      SentAll(keys, from, canSend, i);
    }
  }

  // ----- Trimming -----

  /** The log as seen from above: every ID from any logged one up to `top` is logged. */
  ghost predicate GapFree<M>(log: map<nat, Update<M>>, top: nat) {
    && (forall k :: k in log ==> k <= top)
    && (forall k, j :: k in log && k <= j <= top ==> j in log)
  }

  lemma {:induction false} SeniorTrimFrame<D, M>(app: App<D, M>, db: Db<D, M>)
    ensures var r := SeniorTrim(app, db);
            && r == db.(log := r.log, payloadBytes := r.payloadBytes, seniorOldest := r.seniorOldest)
            && r.log.Keys <= db.log.Keys
            && (forall k :: k in r.log ==> r.log[k] == db.log[k])
    decreases |db.log|
  {
    if db.payloadBytes > db.maxPayloadBytes && |db.log| > 1 {
      SeniorTrimFrame(app, RemoveUpdate(app, db, FirstKey(db.log.Keys), true));
    }
  }

  lemma FirstRemoved<D, M>(app: App<D, M>, db: Db<D, M>)
    requires db.log != map[]
    ensures var r, first := RemoveUpdate(app, db, FirstKey(db.log.Keys), true), FirstKey(db.log.Keys);
            && r.log.Keys == db.log.Keys - {first} && |r.log| == |db.log| - 1
            && r.maxPayloadBytes == db.maxPayloadBytes
  {
    assert |(db.log - {FirstKey(db.log.Keys)}).Keys| == |db.log.Keys| - 1;
  }

  lemma TrimmedOnceMore(all: set<nat>, next: set<nat>, r: set<nat>)
    requires all != {} && next == all - {FirstKey(all)} && r <= next
    requires forall k, j :: k in r && j in next && k <= j ==> j in r
    ensures forall k, j :: k in r && j in all && k <= j ==> j in r
  {
  }

  /** A senior's trim only forgets the oldest updates, never the newest one, and
      stops as soon as the log fits its budget. */
  lemma {:induction false} SeniorTrimKeeps<D, M>(app: App<D, M>, db: Db<D, M>)
    ensures var r := SeniorTrim(app, db);
            && (forall k, j :: k in r.log && j in db.log && k <= j ==> j in r.log)
            && (db.log != map[] ==> r.log != map[])
            && (r.payloadBytes <= db.maxPayloadBytes || |r.log| <= 1)
    decreases |db.log|
  {
    if db.payloadBytes > db.maxPayloadBytes && |db.log| > 1 {
      var first := FirstKey(db.log.Keys);
      var next := RemoveUpdate(app, db, first, true);
      FirstRemoved(app, db);
      SeniorTrimFrame(app, next);
      SeniorTrimKeeps(app, next);
      TrimmedOnceMore(db.log.Keys, next.log.Keys, SeniorTrim(app, next).log.Keys);
    }
  }

  /** A junior never forgets an update it still has to execute, unless the whole
      database is already on order. */
  lemma {:induction false} JuniorTrimKeeps<D, M>(app: App<D, M>, db: Db<D, M>)
    ensures var r := JuniorTrim(app, db);
            && r == db.(log := r.log, payloadBytes := r.payloadBytes)
            && r.log.Keys <= db.log.Keys
            && (forall k :: k in r.log ==> r.log[k] == db.log[k])
            && (FullDatabase !in db.orders ==> forall k :: k in db.log && k > db.localId ==> k in r.log)
    decreases |db.log|
  {
    if db.payloadBytes > db.maxPayloadBytes && |db.log| > 1 && !StillNeeded(db, FirstKey(db.log.Keys)) {
      JuniorTrimKeeps(app, RemoveUpdate(app, db, FirstKey(db.log.Keys), false));
    }
  }

  /** A junior's rescan, seen from outside: what its catching up did, on a log
      from which old updates may be gone. */
  lemma JuniorRescanFrame<D, M>(app: App<D, M>, db: Db<D, M>, env: Env)
    requires db.seniorKnown
    ensures var caught := CatchUp(app, BeginRescan(db), env);
            var r := JuniorRescan(app, db, env);
            && r == caught.(log := r.log, payloadBytes := r.payloadBytes)
            && r.log.Keys <= db.log.Keys
            && (forall k :: k in r.log ==> r.log[k] == db.log[k])
            && caught == BeginRescan(db).(content := caught.content, checksum := caught.checksum,
                                          localId := caught.localId, orders := caught.orders)
            && db.orders <= caught.orders
            && db.localId <= caught.localId
  {
    CatchUpFrame(app, BeginRescan(db), env);
    JuniorTrimKeeps(app, CatchUp(app, BeginRescan(db), env));
  }

  /** With a senior known and requests going out, a whole rescan, trim included, ends
      at its target, with the whole database on order, or with every update up to
      the target that is not in the log on order. */
  lemma RescanCompletes<D, M>(app: App<D, M>, db: Db<D, M>, env: Env)
    requires SendsSucceed(env) && db.seniorKnown
    ensures var r := JuniorRescan(app, db, env);
            || r.localId >= Target(db)
            || FullDatabase in r.orders
            || AllAskedFor(r, r.localId + 1, Target(db))
  {
    var begun := BeginRescan(db);
    ReplayCompletes(app, begun, Target(begun), env);
    JuniorRescanFrame(app, db, env);
    JuniorTrimKeeps(app, CatchUp(app, begun, env));
  }

  /** A junior's rescan marks everything up to the state it started at as sent, in case
      it becomes senior; one that has heard no beacon marks nothing. */
  lemma RescanMarksSent<D, M>(app: App<D, M>, db: Db<D, M>, env: Env)
    ensures JuniorRescan(app, db, env).firstUnsent == if db.seniorKnown then db.localId + 1 else db.firstUnsent
    ensures !JuniorRescan(app, db, env).rescanPending
  {
    if db.seniorKnown {
      JuniorRescanFrame(app, db, env);
    }
  }

  /** While the whole database is on order a rescan executes nothing and orders nothing. */
  lemma RescanWaits<D, M>(app: App<D, M>, db: Db<D, M>, env: Env)
    requires FullDatabase in db.orders
    ensures var r := JuniorRescan(app, db, env);
            r.content == db.content && r.checksum == db.checksum && r.localId == db.localId && r.orders == db.orders
  {
    if db.seniorKnown {
      JuniorRescanFrame(app, db, env);
    }
  }

  /** An answer to an order placed with a peer that is no longer the senior is dropped,
      and so is one that was not asked for. */
  lemma StaleAnswerIsDropped<D, M>(app: App<D, M>, db: Db<D, M>, key: OrderKey, result: Option<Update<M>>, env: Env)
    ensures OrderResult(app, db, key, result, false, env) == db.(orders := db.orders - {key})
    ensures key !in db.orders ==> OrderResult(app, db, key, result, true, env) == db
  {
    if key !in db.orders {
      assert db.orders - {key} == db.orders;
    }
  }

  // ----- The byte counter -----

  /** By how much the byte counter exceeds the bytes in the log. */
  ghost function Drift<D, M>(app: App<D, M>, db: Db<D, M>): int {
    db.payloadBytes - TrueBytes(app, db.log)
  }

  /** Adding an update drifts by the payload it overwrites, and by nothing else. */
  lemma AddDrift<D, M>(app: App<D, M>, db: Db<D, M>, u: Update<M>, iAmSenior: bool)
    ensures Drift(app, AddUpdate(app, db, u, iAmSenior))
            == Drift(app, db) + if u.id in db.log then PayloadBytes(app, db.log[u.id]) else 0
  {
    var weight := (k: nat, u: Update<M>) => PayloadBytes(app, u) as int;
    TotalPut(db.log, weight, u.id, u);
    if u.id in db.log {
      TotalTake(db.log, weight, u.id);
    } else {
      assert db.log - {u.id} == db.log;
    }
  }

  lemma RemoveDrift<D, M>(app: App<D, M>, db: Db<D, M>, id: nat, iAmSenior: bool)
    ensures Drift(app, RemoveUpdate(app, db, id, iAmSenior)) == Drift(app, db)
  {
    if id in db.log {
      TotalTake(db.log, (k: nat, u: Update<M>) => PayloadBytes(app, u) as int, id);
    }
  }

  lemma CompleteDrift<D, M>(app: App<D, M>, db: Db<D, M>, id: nat, payload: Option<M>)
    requires id in db.log
    ensures Drift(app, Complete(app, db, id, payload)) == Drift(app, db)
  {
    var weight := (k: nat, u: Update<M>) => PayloadBytes(app, u) as int;
    TotalTake(db.log, weight, id);
    TotalPut(db.log, weight, id, Complete(app, db, id, payload).log[id]);
  }

  lemma FiledDrift<D, M>(app: App<D, M>, db: Db<D, M>, kind: Kind, content: D, payload: Option<M>)
    requires db.localId + 1 !in db.log
    ensures var id := db.localId + 1;
            var executed := SetContent(app, AddUpdate(app, db, Update(kind, id, db.checksum, 0, None), true), content);
            && id in executed.log
            && Drift(app, Complete(app, executed, id, payload)) == Drift(app, db)
            && Drift(app, RemoveUpdate(app, executed, id, true)) == Drift(app, db)
  {
    var id := db.localId + 1;
    var u := Update(kind, id, db.checksum, 0, None);
    AddDrift(app, db, u, true);
    var executed := SetContent(app, AddUpdate(app, db, u, true), content);
    CompleteDrift(app, executed, id, payload);
    RemoveDrift(app, executed, id, true);
  }

  /** A request never drifts the counter of a senior whose log ends at its state. */
  lemma RequestDrift<D, M>(app: App<D, M>, db: Db<D, M>, request: Request<M>)
    requires db.localId + 1 !in db.log
    ensures Drift(app, HandleRequest(app, db, request).0) == Drift(app, db)
  {
    hide AddUpdate, SetContent, Complete, RemoveUpdate, Drift;
    match request {
      case ResetRequest => FiledDrift(app, db, Reset, app.initial, None);
      case ReplaceRequest(Some(m)) => FiledDrift(app, db, Replace, app.load(db.content, m).0, Some(m));
      case UpdateRequest(Some(m)) => FiledDrift(app, db, Incremental, app.senior(db.content, m).0, app.senior(db.content, m).1);
      case _ =>
    }
  }

  lemma {:induction false} SeniorTrimDrift<D, M>(app: App<D, M>, db: Db<D, M>)
    ensures Drift(app, SeniorTrim(app, db)) == Drift(app, db)
    decreases |db.log|
  {
    if db.payloadBytes > db.maxPayloadBytes && |db.log| > 1 {
      var first := FirstKey(db.log.Keys);
      RemoveDrift(app, db, first, true);
      var next := RemoveUpdate(app, db, first, true);
      assert |next.log| == |db.log| - 1;
      SeniorTrimDrift(app, next);
    }
  }

  lemma {:induction false} JuniorTrimDrift<D, M>(app: App<D, M>, db: Db<D, M>)
    ensures Drift(app, JuniorTrim(app, db)) == Drift(app, db)
    decreases |db.log|
  {
    if db.payloadBytes > db.maxPayloadBytes && |db.log| > 1 && !StillNeeded(db, FirstKey(db.log.Keys)) {
      var first := FirstKey(db.log.Keys);
      RemoveDrift(app, db, first, false);
      JuniorTrimDrift(app, RemoveUpdate(app, db, first, false));
    }
  }

  lemma JuniorRescanDrift<D, M>(app: App<D, M>, db: Db<D, M>, env: Env)
    ensures Drift(app, JuniorRescan(app, db, env)) == Drift(app, db)
  {
    if db.seniorKnown {
      CatchUpFrame(app, BeginRescan(db), env);
      JuniorTrimDrift(app, CatchUp(app, BeginRescan(db), env));
    }
  }
}
