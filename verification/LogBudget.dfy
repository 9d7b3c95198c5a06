/** The log's memory budget: trimming drops no more than it must, so the senior's log
    always holds the newest updates whose payloads fit in the budget together. */
module LogBudget {
  import opened Tables
  import opened Database
  import opened Replication
  import opened Rescan
  import opened Chronicle
  import SeniorLog

  // ----- One trim -----

  /** A log that fits is left alone. */
  lemma TrimLeavesWhatFits<D, M>(app: App<D, M>, db: Db<D, M>)
    requires db.payloadBytes <= db.maxPayloadBytes
    ensures SeniorTrim(app, db) == db && JuniorTrim(app, db) == db
  {
  }

  /** The last entry dropped had to go: with it the log would not fit. */
  ghost predicate HadToGo<D, M>(app: App<D, M>, db: Db<D, M>, r: Db<D, M>, k: nat) {
    && k in db.log && k !in r.log
    && (forall j :: j in db.log ==> (j in r.log <==> j > k))
    && r.payloadBytes + PayloadBytes(app, db.log[k]) > db.maxPayloadBytes
  }

  /** A senior's trim drops nothing, or exactly the entries up to one that had to go. */
  lemma {:induction false} SeniorTrimMinimal<D, M>(app: App<D, M>, db: Db<D, M>)
    ensures var r := SeniorTrim(app, db);
            r == db || exists k :: HadToGo(app, db, r, k)
    decreases |db.log|
  {
    if db.payloadBytes > db.maxPayloadBytes && |db.log| > 1 {
      var first := FirstKey(db.log.Keys);
      var next := RemoveUpdate(app, db, first, true);
      FirstRemoved(app, db);
      SeniorTrimMinimal(app, next);
      SeniorTrimFrame(app, next);
      var r := SeniorTrim(app, next);
      if r == next {
        assert HadToGo(app, db, r, first);
      } else {
        var k :| HadToGo(app, next, r, k);
        assert HadToGo(app, db, r, k);
      }
    }
  }

  /** A junior's trim drops the oldest entries only, and stops when the log fits, one
      entry is left, or the next one is still needed. */
  lemma {:induction false} JuniorTrimStops<D, M>(app: App<D, M>, db: Db<D, M>)
    ensures var r := JuniorTrim(app, db);
            && (forall k, j :: k in r.log && j in db.log && k <= j ==> j in r.log)
            && (r.payloadBytes <= db.maxPayloadBytes || |r.log| <= 1 || StillNeeded(r, FirstKey(r.log.Keys)))
            && (r == db || exists k :: HadToGo(app, db, r, k))
    decreases |db.log|
  {
    if db.payloadBytes > db.maxPayloadBytes && |db.log| > 1 && !StillNeeded(db, FirstKey(db.log.Keys)) {
      var first := FirstKey(db.log.Keys);
      var next := RemoveUpdate(app, db, first, false);
      assert next.log.Keys == db.log.Keys - {first};
      JuniorTrimStops(app, next);
      JuniorTrimKeeps(app, next);
      var r := JuniorTrim(app, next);
      TrimmedOnceMore(db.log.Keys, next.log.Keys, r.log.Keys);
      if r == next {
        assert HadToGo(app, db, r, first);
      } else {
        var k :| HadToGo(app, next, r, k);
        assert HadToGo(app, db, r, k);
      }
    }
  }

  // ----- The newest bytes -----

  /** The payload bytes of the updates from number `i` on. */
  ghost function SumFrom(sizes: seq<nat>, i: nat): nat
    requires i <= |sizes|
    decreases |sizes| - i
  {
    if i == |sizes| then 0 else sizes[i] + SumFrom(sizes, i + 1)
  }

  lemma {:induction false} SumFromMore(sizes: seq<nat>, size: nat, i: nat)
    requires i <= |sizes|
    ensures SumFrom(sizes + [size], i) == SumFrom(sizes, i) + size
    decreases |sizes| - i
  {
    if i < |sizes| {
      SumFromMore(sizes, size, i + 1);
    } else {
      assert SumFrom(sizes + [size], i + 1) == 0;
    }
  }

  /** `sizes` are the payload sizes of the updates 1, 2, 3 and so on. The log has those
      sizes, and every update from which on they fit in the budget is in it. */
  ghost predicate Sized<D, M>(app: App<D, M>, log: map<nat, Update<M>>, sizes: seq<nat>) {
    forall k :: k in log ==> 0 < k <= |sizes| && PayloadBytes(app, log[k]) == sizes[k - 1]
  }

  ghost predicate HoldsNewest<M>(log: map<nat, Update<M>>, sizes: seq<nat>, budget: nat) {
    forall id :: 0 < id <= |sizes| && SumFrom(sizes, id - 1) <= budget ==> id in log
  }

  /** The bytes in a log without gaps are those of the updates from its first on. */
  lemma {:induction false} BytesAreNewest<D, M>(app: App<D, M>, log: map<nat, Update<M>>, sizes: seq<nat>, first: nat)
    requires Sized(app, log, sizes) && 0 < first <= |sizes| + 1
    requires forall k :: k in log <==> first <= k <= |sizes|
    ensures TrueBytes(app, log) == SumFrom(sizes, first - 1)
    decreases |sizes| - first + 1
  {
    if first > |sizes| {
      assert log == map[];
    } else {
      TotalTake(log, (k: nat, u: Update<M>) => PayloadBytes(app, u) as int, first);
      BytesAreNewest(app, log - {first}, sizes, first + 1);
    }
  }

  lemma FirstOfGapFree<M>(log: map<nat, Update<M>>, sizes: seq<nat>)
    requires log != map[] && GapFree(log, |sizes|) && forall k :: k in log ==> 0 < k
    ensures var first := FirstKey(log.Keys);
            0 < first <= |sizes| && forall k :: k in log <==> first <= k <= |sizes|
  {
  }

  lemma RemoveFirstHolds<D, M>(app: App<D, M>, db: Db<D, M>, sizes: seq<nat>)
    requires |db.log| > 1 && db.payloadBytes > db.maxPayloadBytes && Drift(app, db) == 0
    requires GapFree(db.log, |sizes|) && Sized(app, db.log, sizes) && HoldsNewest(db.log, sizes, db.maxPayloadBytes)
    ensures var r := RemoveUpdate(app, db, FirstKey(db.log.Keys), true);
            && GapFree(r.log, |sizes|) && Sized(app, r.log, sizes) && HoldsNewest(r.log, sizes, db.maxPayloadBytes)
            && Drift(app, r) == 0 && r.maxPayloadBytes == db.maxPayloadBytes && |r.log| == |db.log| - 1
  {
    var first := FirstKey(db.log.Keys);
    FirstOfGapFree(db.log, sizes);
    BytesAreNewest(app, db.log, sizes, first);
    RemoveDrift(app, db, first, true);
    FirstRemoved(app, db);
  }

  lemma {:induction false} TrimHoldsNewest<D, M>(app: App<D, M>, db: Db<D, M>, sizes: seq<nat>)
    requires Drift(app, db) == 0 && GapFree(db.log, |sizes|) && Sized(app, db.log, sizes)
    requires HoldsNewest(db.log, sizes, db.maxPayloadBytes)
    ensures var r := SeniorTrim(app, db);
            Sized(app, r.log, sizes) && HoldsNewest(r.log, sizes, db.maxPayloadBytes)
    decreases |db.log|
  {
    hide Drift, Sized, HoldsNewest, GapFree;
    if db.payloadBytes > db.maxPayloadBytes && |db.log| > 1 {
      RemoveFirstHolds(app, db, sizes);
      TrimHoldsNewest(app, RemoveUpdate(app, db, FirstKey(db.log.Keys), true), sizes);
    }
  }

  // ----- Every run -----

  /** The payload bytes of the log entry an accepted request makes. */
  function RequestBytes<D, M>(app: App<D, M>, content: D, request: Request<M>): nat {
    match Recorded(app, content, request).1
    case None => 0
    case Some(m) => app.size(m)
  }

  /** The sizes of the updates the requests of a run make, after those there were. */
  ghost function Sizes<D, M>(app: App<D, M>, s: System<D, M>, sizes: seq<nat>, events: seq<Event<M>>): seq<nat>
    requires IsRun(app, s, events)
    decreases |events|
  {
    if events == [] then sizes
    else Sizes(app, Step(app, s, events[0]), NextSizes(app, s, sizes, events[0]), events[1..])
  }

  function NextSizes<D, M>(app: App<D, M>, s: System<D, M>, sizes: seq<nat>, e: Event<M>): seq<nat> {
    if e.Submit? && Carried(app, s.senior.content, e.request).Some?
    then sizes + [RequestBytes(app, s.senior.content, e.request)] else sizes
  }

  ghost predicate Budgeted<D, M>(app: App<D, M>, s: System<D, M>, sizes: seq<nat>, budget: nat) {
    && s.senior.localId == |sizes| && s.senior.maxPayloadBytes == budget
    && Sized(app, s.senior.log, sizes) && HoldsNewest(s.senior.log, sizes, budget)
  }

  lemma RequestBudget<D, M>(app: App<D, M>, db: Db<D, M>, request: Request<M>)
    ensures HandleRequest(app, db, request).0.maxPayloadBytes == db.maxPayloadBytes
  {
  }

  lemma SubmitBudgeted<D, M>(app: App<D, M>, s: System<D, M>, request: Request<M>, sizes: seq<nat>, budget: nat)
    requires Budgeted(app, s, sizes, budget) && GapFree(s.senior.log, s.senior.localId)
    ensures Budgeted(app, SubmitStep(app, s, request), NextSizes(app, s, sizes, Submit(request)), budget)
  {
    hide HandleRequest;
    var db, next := s.senior, NextSizes(app, s, sizes, Submit(request));
    RequestEffect(app, db, request);
    RequestShape(app, db, request);
    RequestBudget(app, db, request);
    var r := HandleRequest(app, db, request).0;
    assert db.log - {db.localId + 1} == db.log;
    if Carried(app, db.content, request).Some? {
      EntryAdded(app, db.log, r.log, sizes, next[|sizes|], budget);
    }
  }

  lemma EntryAdded<D, M>(app: App<D, M>, log: map<nat, Update<M>>, r: map<nat, Update<M>>, sizes: seq<nat>, size: nat, budget: nat)
    requires Sized(app, log, sizes) && HoldsNewest(log, sizes, budget)
    requires |sizes| + 1 in r && r == log[|sizes| + 1 := r[|sizes| + 1]] && PayloadBytes(app, r[|sizes| + 1]) == size
    ensures Sized(app, r, sizes + [size]) && HoldsNewest(r, sizes + [size], budget)
  {
    forall id | 0 < id <= |sizes| + 1 && SumFrom(sizes + [size], id - 1) <= budget
      ensures id in r
    {
      if id <= |sizes| {
        SumFromMore(sizes, size, id - 1);
      }
    }
  }

  lemma PulseBudgeted<D, M>(app: App<D, M>, s: System<D, M>, canSend: nat -> bool, sizes: seq<nat>, budget: nat)
    requires Budgeted(app, s, sizes, budget) && GapFree(s.senior.log, s.senior.localId) && Drift(app, s.senior) == 0
    ensures Budgeted(app, PulseSenior(app, s, canSend), sizes, budget)
  {
    hide Drift, Sized, HoldsNewest, GapFree, SeniorTrim, SentIds, AfterLast;
    if s.senior.rescanPending {
      var db := s.senior.(rescanPending := false, firstUnsent := AfterLast(SentIds(s.senior, canSend), s.senior.firstUnsent));
      SeniorLog.SameDrift(app, s.senior, db);
      SeniorTrimFrame(app, db);
      TrimHoldsNewest(app, db, sizes);
    }
  }

  lemma StepBudgeted<D, M>(app: App<D, M>, s: System<D, M>, e: Event<M>, sizes: seq<nat>, budget: nat)
    requires Budgeted(app, s, sizes, budget) && SeniorLog.SeniorLogOk(app, s) && Enabled(s, e)
    ensures Budgeted(app, Step(app, s, e), NextSizes(app, s, sizes, e), budget)
  {
    hide SubmitStep, PulseSenior, Sized, HoldsNewest;
    match e {
      case Submit(request) => SubmitBudgeted(app, s, request, sizes, budget);
      case SeniorPulse(canSend) => PulseBudgeted(app, s, canSend, sizes, budget);
      case Publish(canSend) => PulseBudgeted(app, s, canSend, sizes, budget);
      case _ =>
    }
  }

  lemma {:induction false} RunBudgeted<D, M>(app: App<D, M>, s: System<D, M>, events: seq<Event<M>>, sizes: seq<nat>, budget: nat)
    requires Budgeted(app, s, sizes, budget) && SeniorLog.SeniorLogOk(app, s) && IsRun(app, s, events)
    ensures Budgeted(app, After(app, s, events), Sizes(app, s, sizes, events), budget)
    decreases |events|
  {
    if events != [] {
      hide Budgeted, SeniorLog.SeniorLogOk, Step, Enabled, NextSizes;
      StepBudgeted(app, s, events[0], sizes, budget);
      SeniorLog.StepLog(app, s, events[0]);
      RunBudgeted(app, Step(app, s, events[0]), events[1..], NextSizes(app, s, sizes, events[0]), budget);
    }
  }

  /** At any moment of any run from birth every update from which on the payloads fit
      in the budget together is in the senior's log and can be served. */
  lemma NewestCanBeServed<D, M>(app: App<D, M>, s: System<D, M>, events: seq<Event<M>>, id: nat)
    requires Birth(app, s) && IsRun(app, s, events)
    requires 0 < id <= |Sizes(app, s, [], events)|
    requires SumFrom(Sizes(app, s, [], events), id - 1) <= s.senior.maxPayloadBytes
    ensures var db := After(app, s, events).senior;
            && db.localId == |Sizes(app, s, [], events)|
            && id in db.log && Serve(app, db, UpdateId(id)) == Some(db.log[id]) && db.log[id].id == id
  {
    SeniorLog.BirthLogOk(app, s);
    hide SeniorLog.SeniorLogOk, Birth;
    assert Budgeted(app, s, [], s.senior.maxPayloadBytes) by { BirthBudgeted(app, s); }
    RunBudgeted(app, s, events, [], s.senior.maxPayloadBytes);
    SeniorLog.RunLog(app, s, events);
    LogIsKeyed(app, After(app, s, events));
  }

  lemma BirthBudgeted<D, M>(app: App<D, M>, s: System<D, M>)
    requires Birth(app, s)
    ensures Budgeted(app, s, [], s.senior.maxPayloadBytes)
  {
  }

  lemma LogIsKeyed<D, M>(app: App<D, M>, s: System<D, M>)
    requires SeniorLog.SeniorLogOk(app, s)
    ensures Keyed(s.senior.log)
  {
  }
}
