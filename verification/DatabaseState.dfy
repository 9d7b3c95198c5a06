/** PZGDatabaseState itself: the object whose methods update the log, the state
    IDs, the counters and the back-orders in place. Every method is proved to
    take the object to the value the matching function of module Database gives. */
module DatabaseStateObject {
  import opened Tables
  import opened Database

  class DatabaseState<D(!new), M(!new)> {
    const app: App<D, M>
    const maxPayloadBytes: nat
    var log: map<nat, Update<M>>
    var payloadBytes: int
    var localId: nat
    var seniorId: nat
    var seniorOldest: nat
    var seniorKnown: bool
    var content: D
    var checksum: nat
    var firstUnsent: nat
    var attached: bool
    var rescanPending: bool
    var orders: set<OrderKey>

    ghost function Model(): Db<D, M>
      reads this
    {
      Db(log, payloadBytes, maxPayloadBytes, localId, seniorId, seniorOldest, seniorKnown,
         content, checksum, firstUnsent, attached, rescanPending, orders)
    }

    ghost predicate Valid()
      reads this
    {
      Keyed(log)
    }

    constructor (app: App<D, M>, maxPayloadBytes: nat, attached: bool)
      ensures Valid() && this.app == app
      ensures Model() == Fresh(app, maxPayloadBytes, attached)
    {
      this.app, this.maxPayloadBytes, this.attached := app, maxPayloadBytes, attached;
      log, payloadBytes, localId, seniorId, seniorOldest := map[], 0, 0, 0, NO_OLDEST_ID;
      seniorKnown, firstUnsent, rescanPending, orders := false, 0, false, {};
      content, checksum := app.initial, app.running(app.initial);
    }

    method ScheduleLogContentsRescan()
      modifies this
      ensures Model() == Schedule(old(Model()))
    {
      if !rescanPending && attached {
        rescanPending := true;
      }
    }

    method AddDatabaseUpdateToUpdateLog(u: Update<M>, iAmSenior: bool)
      requires Valid()
      modifies this
      ensures Valid() && Model() == AddUpdate(app, old(Model()), u, iAmSenior)
    {
      var logWasEmpty := log == map[];
      log := log[u.id := u];
      if u.payload.Some? {
        payloadBytes := payloadBytes + app.size(u.payload.value);
      }
      if logWasEmpty && iAmSenior {
        seniorOldest := u.id;
      }
      ScheduleLogContentsRescan();
    }

    method RemoveDatabaseUpdateFromUpdateLog(id: nat, iAmSenior: bool)
      requires Valid()
      modifies this
      ensures Valid() && Model() == RemoveUpdate(app, old(Model()), id, iAmSenior)
    {
      if id in log {
        var removed := log[id];
        log := log - {id};
        if removed.payload.Some? {
          payloadBytes := payloadBytes - app.size(removed.payload.value);
        }
        if log == map[] && iAmSenior {
          seniorOldest := NO_OLDEST_ID;
        }
      }
    }

    method SeniorUpdateCompleted(id: nat, payload: Option<M>)
      requires Valid() && id in log
      modifies this
      ensures Valid() && Model() == Complete(app, old(Model()), id, payload)
    {
      var u := log[id].(post := checksum);
      if u.payload.Some? {
        payloadBytes := payloadBytes - app.size(u.payload.value);
      }
      u := u.(payload := payload);
      if u.payload.Some? {
        payloadBytes := payloadBytes + app.size(u.payload.value);
      }
      log := log[id := u];
      localId := localId + 1;
      seniorId := localId;
    }

    method HandleDatabaseUpdateRequest(request: Request<M>) returns (status: Status)
      requires Valid()
      modifies this
      ensures Valid() && (Model(), status) == HandleRequest(app, old(Model()), request)
    {
      hide Complete, RemoveUpdate;
      var id := localId + 1;
      match request {
        case ResetRequest =>
          AddDatabaseUpdateToUpdateLog(Update(Reset, id, checksum, 0, None), true);
          content := app.initial;
          checksum := app.running(content);
          SeniorUpdateCompleted(id, None);
          status := Ok;
        case ReplaceRequest(state) =>
          if state.None? {
            return BadData;
          }
          AddDatabaseUpdateToUpdateLog(Update(Replace, id, checksum, 0, None), true);
          var result := app.load(content, state.value);
          content := result.0;
          checksum := app.running(content);
          if result.1 {
            SeniorUpdateCompleted(id, state);
            status := Ok;
          } else {
            RemoveDatabaseUpdateFromUpdateLog(id, true);
            status := BadData;
          }
        case UpdateRequest(change) =>
          if change.None? {
            return BadData;
          }
          AddDatabaseUpdateToUpdateLog(Update(Incremental, id, checksum, 0, None), true);
          var result := app.senior(content, change.value);
          content := result.0;
          checksum := app.running(content);
          if result.1.Some? {
            SeniorUpdateCompleted(id, result.1);
            status := Ok;
          } else {
            RemoveDatabaseUpdateFromUpdateLog(id, true);
            status := LogicError;
          }
      }
    }

    method MulticastUnsent(canSend: nat -> bool) returns (sent: seq<nat>)
      requires Valid()
      modifies this`firstUnsent
      ensures sent == SentIds(old(Model()), canSend)
      ensures firstUnsent == AfterLast(sent, old(firstUnsent))
    {
      sent := [];
      if log != map[] {
        sent, firstUnsent := ScanUnsent(SortedKeys(log.Keys), firstUnsent, canSend);
      }
    }

    method TrimAsSenior()
      requires Valid()
      modifies this
      ensures Valid() && Model() == SeniorTrim(app, old(Model()))
    {
      while payloadBytes > maxPayloadBytes && |log| > 1
        invariant Valid()
        invariant SeniorTrim(app, Model()) == SeniorTrim(app, old(Model()))
        decreases |log|
      {
        var first := FirstKey(log.Keys);
        RemoveDatabaseUpdateFromUpdateLog(log[first].id, true);
      }
    }

    method RescanUpdateLogAsSenior(canSend: nat -> bool) returns (sent: seq<nat>)
      requires Valid()
      modifies this
      ensures Valid() && Model() == SeniorRescan(app, old(Model()), canSend)
      ensures sent == SentIds(old(Model()), canSend)
    {
      rescanPending := false;
      sent := MulticastUnsent(canSend);
      TrimAsSenior();
    }

    method RequestBackOrderFromSeniorPeer(key: OrderKey, env: Env) returns (ok: bool)
      modifies this`orders
      ensures Model() == RequestOrder(old(Model()), key, env)
      ensures ok == (key in orders)
    {
      if key in orders {
        return true;
      }
      orders := orders + {key};
      if env.canOrder(key) {
        return true;
      }
      orders := orders - {key};
      return false;
    }

    method JuniorExecuteDatabaseUpdateAux(u: Update<M>) returns (ok: bool)
      modifies this`content, this`checksum
      ensures (Model(), ok) == Apply(app, old(Model()), u)
    {
      match u.kind {
        case Noop =>
          ok := true;
        case Reset =>
          content := app.initial;
          checksum := app.running(content);
          ok := true;
        case Replace =>
          if u.payload.None? {
            return false;
          }
          var result := app.load(content, u.payload.value);
          content, ok := result.0, result.1;
          checksum := app.running(content);
        case Incremental =>
          if u.payload.None? {
            return false;
          }
          var result := app.junior(content, u.payload.value);
          content, ok := result.0, result.1;
          checksum := app.running(content);
      }
    }

    method JuniorExecuteDatabaseReplace(u: Update<M>) returns (ok: bool)
      modifies this`content, this`checksum, this`localId
      ensures (Model(), ok) == ExecuteReplace(app, old(Model()), u)
    {
      ok := JuniorExecuteDatabaseUpdateAux(u);
      if !ok {
        return;
      }
      if checksum != u.post {
        return false;
      }
      localId := u.id;
    }

    method JuniorExecuteDatabaseUpdate(u: Update<M>) returns (ok: bool)
      modifies this`content, this`checksum, this`localId
      ensures (Model(), ok) == ExecuteUpdate(app, old(Model()), u)
    {
      if localId + 1 != u.id {
        return false;
      }
      if checksum != u.pre {
        return false;
      }
      ok := JuniorExecuteDatabaseReplace(u);
    }

    method OrderMissingUpdates(target: nat, env: Env)
      modifies this`orders
      ensures Model() == OrderMissing(old(Model()), localId + 1, target, env)
    {
      hide OrderMissing;
      var id := localId + 1;
      while id <= target
        invariant OrderMissing(Model(), id, target, env) == OrderMissing(old(Model()), localId + 1, target, env)
        decreases target + 1 - id
      {
        var ok := OrderIfMissing(id, target, env);
        if !ok {
          return;
        }
        id := id + 1;
      }
      NothingMissingPast(Model(), id, target, env);
    }

    /** One turn of that loop; false when the whole database was ordered instead. */
    method OrderIfMissing(id: nat, target: nat, env: Env) returns (ok: bool)
      requires id <= target
      modifies this`orders
      ensures OrderMissing(old(Model()), id, target, env) == if ok then OrderMissing(Model(), id + 1, target, env) else Model()
    {
      ok := true;
      if id !in log {
        if UpdateId(id) !in orders {
          ok := RequestBackOrderFromSeniorPeer(UpdateId(id), env);
          if !ok {
            var _ := RequestBackOrderFromSeniorPeer(FullDatabase, env);
          }
        }
      }
    }

    method ReplayNext(target: nat, env: Env) returns (more: bool)
      modifies this`content, this`checksum, this`localId, this`orders
      ensures (Model(), more) == ReplayStep(app, old(Model()), target, env)
      ensures more ==> localId == old(localId) + 1
    {
      var next := localId + 1;
      if next in log {
        more := JuniorExecuteDatabaseUpdate(log[next]);
        if !more {
          var ok := RequestBackOrderFromSeniorPeer(FullDatabase, env);
        }
      } else {
        more := false;
        if env.hasSenior {
          if next < seniorOldest {
            var ok := RequestBackOrderFromSeniorPeer(FullDatabase, env);
          } else {
            OrderMissingUpdates(target, env);
          }
        }
      }
    }

    method ReplayLog(target: nat, env: Env)
      modifies this`content, this`checksum, this`localId, this`orders
      ensures Model() == Replay(app, old(Model()), target, env)
    {
      while localId < target
        invariant Replay(app, Model(), target, env) == Replay(app, old(Model()), target, env)
        decreases target - localId
      {
        var more := ReplayNext(target, env);
        if !more {
          return;
        }
      }
    }

    method CatchUpWithSenior(env: Env)
      modifies this`content, this`checksum, this`localId, this`orders
      ensures Model() == CatchUp(app, old(Model()), env)
    {
      if FullDatabase !in orders {
        var last := LastKey(log.Keys);
        var target := if last > seniorId then last else seniorId;
        if localId == 0 && target > 1 {
          var ok := RequestBackOrderFromSeniorPeer(FullDatabase, env);
        } else {
          ReplayLog(target, env);
        }
      }
    }

    method TrimAsJunior()
      requires Valid()
      modifies this
      ensures Valid() && Model() == JuniorTrim(app, old(Model()))
    {
      while payloadBytes > maxPayloadBytes && |log| > 1 && !IsDatabaseUpdateStillNeeded(FirstKey(log.Keys))
        invariant Valid()
        invariant JuniorTrim(app, Model()) == JuniorTrim(app, old(Model()))
        decreases |log|
      {
        var first := FirstKey(log.Keys);
        RemoveDatabaseUpdateFromUpdateLog(log[first].id, false);
      }
    }

    method RescanUpdateLogAsJunior(env: Env)
      requires Valid()
      modifies this
      ensures Valid() && Model() == JuniorRescan(app, old(Model()), env)
    {
      hide JuniorTrim, CatchUp;
      rescanPending := false;
      if seniorKnown {
        firstUnsent := localId + 1;
        CatchUpWithSenior(env);
        ghost var caught := Model();
        TrimAsJunior();
        assert JuniorRescan(app, old(Model()), env) == JuniorTrim(app, caught);
      }
    }

    predicate IsDatabaseUpdateStillNeeded(id: nat)
      reads this
      ensures IsDatabaseUpdateStillNeeded(id) == StillNeeded(Model(), id)
    {
      var last := LastKey(log.Keys);
      !(id <= localId)
      && !(id > if last > seniorId then last else seniorId)
      && FullDatabase !in orders
    }

    method SeniorDatabaseStateInfoChanged(b: Beacon)
      modifies this
      ensures Model() == HearBeacon(old(Model()), b)
    {
      if b.id != seniorId || b.oldest != seniorOldest {
        seniorKnown, seniorId, seniorOldest := true, b.id, b.oldest;
        ScheduleLogContentsRescan();
      }
    }

    method BackOrderResultReceived(key: OrderKey, result: Option<Update<M>>, current: bool, env: Env)
      requires Valid()
      modifies this
      ensures Valid() && Model() == OrderResult(app, old(Model()), key, result, current, env)
    {
      if key !in orders {
        return;
      }
      orders := orders - {key};
      if current {
        if key == FullDatabase {
          if result.Some? {
            var ok := JuniorExecuteDatabaseReplace(result.value);
            if ok {
              ScheduleLogContentsRescan();
            }
          }
        } else if result.Some? {
          AddDatabaseUpdateToUpdateLog(result.value, false);
          ScheduleLogContentsRescan();
        } else {
          var ok := RequestBackOrderFromSeniorPeer(FullDatabase, env);
        }
      }
    }

    method VerifyOrFixLocalDatabaseChecksum()
      modifies this`checksum
      ensures Model() == VerifyChecksum(app, old(Model()))
    {
      var recalculated := app.recompute(content);
      if recalculated != checksum {
        checksum := recalculated;
      }
    }

    method GetDatabaseUpdateByID(key: OrderKey) returns (r: Option<Update<M>>)
      ensures r == Serve(app, Model(), key)
    {
      if key == FullDatabase {
        var saved := app.save(content);
        if saved.Some? {
          r := Some(Update(Replace, localId, checksum, checksum, saved));
        } else {
          r := None;
        }
      } else {
        r := if key.id in log then Some(log[key.id]) else None;
      }
    }
  }

  /** The scan that walks the log backwards to the first update already sent,
      turns its iterator round and multicasts on the way forward. */
  method ScanUnsent(keys: seq<nat>, from: nat, canSend: nat -> bool) returns (sent: seq<nat>, firstUnsent: nat)
    requires keys != [] && Ascending(keys)
    ensures sent == SentOf(keys, from, canSend)
    ensures firstUnsent == AfterLast(sent, from)
  {
    sent, firstUnsent := [], from;
    var i, backwards := |keys| - 1, true;
    while i < |keys|
      invariant 0 <= i <= |keys|
      invariant backwards ==> i < |keys| && sent == [] && firstUnsent == from
      invariant !backwards ==> sent == SentOf(keys[..i], from, canSend)
      invariant firstUnsent == AfterLast(sent, from)
      invariant sent != [] ==> from < firstUnsent && (i < |keys| ==> firstUnsent <= keys[i])
      decreases backwards, if backwards then i else |keys| - i
    {
      var next := keys[i];
      if backwards && (next <= firstUnsent || next == keys[0]) {
        NothingUnsentBelow(keys[..i], from, canSend);
        backwards := false;
      }
      if !backwards {
        assert keys[..i + 1][..i] == keys[..i];
        if next >= firstUnsent && canSend(next) {
          sent := sent + [next];
          firstUnsent := next + 1;
        }
        i := i + 1;
      } else {
        i := i - 1;
      }
    }
    assert keys[..i] == keys;
  }

  /** Nothing below the turning point of the scan is due to be sent. */
  lemma {:induction false} NothingUnsentBelow(keys: seq<nat>, from: nat, canSend: nat -> bool)
    requires forall j :: 0 <= j < |keys| ==> keys[j] < from
    ensures SentOf(keys, from, canSend) == []
  {
    if keys != [] {
      NothingUnsentBelow(keys[..|keys| - 1], from, canSend);
    }
  }
}
