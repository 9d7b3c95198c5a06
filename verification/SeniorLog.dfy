/** What the senior's log, its multicasts and its beacons look like in every run. */
module SeniorLog {
  import opened Tables
  import opened Database
  import opened Replication
  import opened Rescan

  ghost predicate HasSent<M>(multicast: seq<Update<M>>, id: nat) {
    exists i :: 0 <= i < |multicast| && multicast[i].id == id
  }

  /** Multicasts go out in ascending ID order, so no ID twice, and all of them
      lie below the senior's first-unsent mark. */
  ghost predicate SentInOrder<D, M>(s: System<D, M>) {
    && InOrder(s.multicast, s.senior.firstUnsent)
    && s.senior.firstUnsent <= s.senior.localId + 1
    && Keyed(s.senior.log)
  }

  /** As long as no send has failed, every update of this tenure has been sent or
      is still in the log, unsent, with a rescan pending. */
  ghost predicate NothingSkipped<D, M>(s: System<D, M>) {
    && s.senior.attached
    && (!s.sendFailed ==>
          forall k :: s.start < k <= s.senior.localId ==>
            || HasSent(s.multicast, k)
            || (k in s.senior.log && k >= s.senior.firstUnsent && s.senior.rescanPending))
  }

  /** As long as no send has failed, every beacon out there names a state whose
      updates were all handed to multicast before it. */
  ghost predicate BeaconsCovered<D, M>(s: System<D, M>) {
    !s.sendFailed ==>
      forall b, k :: b in s.beacons && s.start < k <= b.id ==> HasSent(s.multicast, k)
  }

  ghost predicate SeniorLogOk<D, M>(app: App<D, M>, s: System<D, M>) {
    && SentInOrder(s)
    && NothingSkipped(s)
    && BeaconsCovered(s)
    && GapFree(s.senior.log, s.senior.localId)
    && Drift(app, s.senior) == 0
  }

  // ----- Requests -----

  lemma RequestKeepsPending<D, M>(app: App<D, M>, db: Db<D, M>, request: Request<M>)
    requires db.attached
    ensures var (r, status) := HandleRequest(app, db, request);
            && r.attached && r.firstUnsent == db.firstUnsent
            && (db.rescanPending ==> r.rescanPending)
            && (status == Ok ==> r.rescanPending)
  {
  }

  lemma SubmitLog<D, M>(app: App<D, M>, s: System<D, M>, request: Request<M>)
    requires SeniorLogOk(app, s)
    ensures SeniorLogOk(app, SubmitStep(app, s, request))
  {
    RequestShape(app, s.senior, request);
    RequestKeepsPending(app, s.senior, request);
    RequestDrift(app, s.senior, request);
    var s' := SubmitStep(app, s, request);
    assert s.senior.log - {s.senior.localId + 1} == s.senior.log;
    assert SentInOrder(s');
    assert GapFree(s'.senior.log, s'.senior.localId);
  }

  // ----- The senior's rescan -----

  /** What a pending rescan does to the multicasts: the updates `ids`, exactly those
      unsent whose send succeeds, are appended oldest first and the mark passes them. */
  ghost predicate Appends<M>(log: map<nat, Update<M>>, canSend: nat -> bool, ids: seq<nat>,
                             before: seq<Update<M>>, from: nat, after: seq<Update<M>>, bound: nat) {
    && Ascending(ids)
    && (forall i :: 0 <= i < |ids| ==> ids[i] in log && from <= ids[i] < bound && canSend(ids[i]))
    && (forall k :: k in log && k >= from && canSend(k) ==> k in ids)
    && |after| == |before| + |ids|
    && (forall i :: 0 <= i < |before| ==> after[i] == before[i])
    && (forall i :: 0 <= i < |ids| ==> after[|before| + i].id == ids[i])
    && from <= bound
    && (bound == from || bound - 1 in log)
  }

  lemma LookupAppends<M>(log: map<nat, Update<M>>, ids: seq<nat>, before: seq<Update<M>>)
    requires Keyed(log) && forall i :: 0 <= i < |ids| ==> ids[i] in log
    ensures forall i :: 0 <= i < |ids| ==> (before + Lookup(log, ids))[|before| + i].id == ids[i]
  {
    var found := Lookup(log, ids);
    forall i | 0 <= i < |ids|
      ensures (before + found)[|before| + i].id == ids[i]
    {
      assert (before + found)[|before| + i] == found[i];
    }
  }

  lemma ScanAppends<M>(log: map<nat, Update<M>>, canSend: nat -> bool, keys: seq<nat>,
                       before: seq<Update<M>>, from: nat)
    requires Keyed(log) && Ascending(keys) && forall k :: k in keys <==> k in log
    ensures var ids := SentOf(keys, from, canSend);
            && (forall i :: 0 <= i < |ids| ==> ids[i] in log)
            && Appends(log, canSend, ids, before, from, before + Lookup(log, ids), AfterLast(ids, from))
  {
    hide SentOf, Lookup, Ascending;
    var ids := SentOf(keys, from, canSend);
    SentExactly(keys, from, canSend);
    assert forall i :: 0 <= i < |ids| ==> ids[i] in ids;
    LookupAppends(log, ids, before);
  }

  lemma PulseAppends<D, M>(app: App<D, M>, s: System<D, M>, canSend: nat -> bool)
    requires Keyed(s.senior.log) && s.senior.rescanPending
    ensures var s' := PulseSenior(app, s, canSend);
            Appends(s.senior.log, canSend, SentIds(s.senior, canSend),
                    s.multicast, s.senior.firstUnsent, s'.multicast, s'.senior.firstUnsent)
  {
    var ids := SentIds(s.senior, canSend);
    ScanAppends(s.senior.log, canSend, SortedKeys(s.senior.log.Keys), s.multicast, s.senior.firstUnsent);
    SeniorTrimFrame(app, s.senior.(rescanPending := false, firstUnsent := AfterLast(ids, s.senior.firstUnsent)));
  }

  ghost predicate InOrder<M>(sent: seq<Update<M>>, bound: nat) {
    && (forall i, j :: 0 <= i < j < |sent| ==> sent[i].id < sent[j].id)
    && (forall i :: 0 <= i < |sent| ==> sent[i].id < bound)
  }

  lemma AppendInOrder<M>(before: seq<Update<M>>, after: seq<Update<M>>, ids: seq<nat>, from: nat, bound: nat)
    requires InOrder(before, from) && Ascending(ids) && from <= bound
    requires |after| == |before| + |ids|
    requires forall i :: 0 <= i < |before| ==> after[i] == before[i]
    requires forall i :: 0 <= i < |ids| ==> after[|before| + i].id == ids[i]
    requires forall i :: 0 <= i < |ids| ==> from <= ids[i] < bound
    ensures InOrder(after, bound)
  {
    var n := |before|;
    forall i | 0 <= i < |after|
      ensures after[i].id < bound
      ensures i >= n ==> after[i].id == ids[i - n]
    {
      if i >= n {
        assert after[n + (i - n)].id == ids[i - n];
      }
    }
  }

  lemma AppendsInOrder<M>(log: map<nat, Update<M>>, canSend: nat -> bool, ids: seq<nat>,
                          before: seq<Update<M>>, from: nat, after: seq<Update<M>>, bound: nat)
    requires Appends(log, canSend, ids, before, from, after, bound) && InOrder(before, from)
    ensures InOrder(after, bound)
  {
    AppendInOrder(before, after, ids, from, bound);
  }

  lemma PulseInOrder<D, M>(app: App<D, M>, s: System<D, M>, canSend: nat -> bool)
    requires SentInOrder(s) && GapFree(s.senior.log, s.senior.localId)
    ensures SentInOrder(PulseSenior(app, s, canSend))
  {
    if s.senior.rescanPending {
      var s' := PulseSenior(app, s, canSend);
      assert s'.senior.localId == s.senior.localId && Keyed(s'.senior.log) by {
        PulseSeniorFrame(app, s, canSend);
      }
      assert InOrder(s'.multicast, s'.senior.firstUnsent) && s'.senior.firstUnsent <= s.senior.localId + 1 by {
        PulseAppends(app, s, canSend);
        AppendsInOrder(s.senior.log, canSend, SentIds(s.senior, canSend),
                       s.multicast, s.senior.firstUnsent, s'.multicast, s'.senior.firstUnsent);
      }
    }
  }

  lemma AppendsSends<M>(log: map<nat, Update<M>>, canSend: nat -> bool, ids: seq<nat>,
                        before: seq<Update<M>>, from: nat, after: seq<Update<M>>, bound: nat, k: nat)
    requires Appends(log, canSend, ids, before, from, after, bound)
    requires k in log && k >= from && canSend(k)
    ensures HasSent(after, k)
  {
    var i :| 0 <= i < |ids| && ids[i] == k;
    assert after[|before| + i].id == k;
  }

  lemma PulseSends<D, M>(app: App<D, M>, s: System<D, M>, canSend: nat -> bool, k: nat)
    requires Keyed(s.senior.log)
    requires || HasSent(s.multicast, k)
             || (k in s.senior.log && k >= s.senior.firstUnsent && s.senior.rescanPending && canSend(k))
    ensures HasSent(PulseSenior(app, s, canSend).multicast, k)
  {
    var s' := PulseSenior(app, s, canSend);
    if HasSent(s.multicast, k) {
      PulseSeniorFrame(app, s, canSend);
      var i :| 0 <= i < |s.multicast| && s.multicast[i].id == k;
      assert s'.multicast[i].id == k;
    } else {
      PulseAppends(app, s, canSend);
      AppendsSends(s.senior.log, canSend, SentIds(s.senior, canSend),
                   s.multicast, s.senior.firstUnsent, s'.multicast, s'.senior.firstUnsent, k);
    }
  }

  lemma PulseCovers<D, M>(app: App<D, M>, s: System<D, M>, canSend: nat -> bool)
    requires SentInOrder(s) && NothingSkipped(s) && BeaconsCovered(s)
    ensures var s' := PulseSenior(app, s, canSend);
            && BeaconsCovered(s')
            && (!s'.sendFailed ==> forall k :: s.start < k <= s.senior.localId ==> HasSent(s'.multicast, k))
  {
    PulseSeniorFrame(app, s, canSend);
    var s' := PulseSenior(app, s, canSend);
    if !s'.sendFailed {
      forall k | s.start < k <= s.senior.localId
        ensures HasSent(s'.multicast, k)
      {
        PulseSends(app, s, canSend, k);
      }
      forall b, k | b in s.beacons && s.start < k <= b.id
        ensures HasSent(s'.multicast, k)
      {
        PulseSends(app, s, canSend, k);
      }
    }
  }

  lemma PulseTrims<D, M>(app: App<D, M>, s: System<D, M>, canSend: nat -> bool)
    requires GapFree(s.senior.log, s.senior.localId)
    ensures var db := PulseSenior(app, s, canSend).senior;
            GapFree(db.log, db.localId) && Drift(app, db) == Drift(app, s.senior)
  {
    if s.senior.rescanPending {
      hide Drift, SentIds, AfterLast, SeniorTrim;
      var db := s.senior.(
        rescanPending := false,
        firstUnsent := AfterLast(SentIds(s.senior, canSend), s.senior.firstUnsent));
      SeniorTrimFrame(app, db);
      SeniorTrimKeeps(app, db);
      SeniorTrimDrift(app, db);
      SameDrift(app, s.senior, db);
    }
  }

  lemma SameDrift<D, M>(app: App<D, M>, db: Db<D, M>, r: Db<D, M>)
    requires r.log == db.log && r.payloadBytes == db.payloadBytes
    ensures Drift(app, r) == Drift(app, db)
  {
  }

  lemma PulseLog<D, M>(app: App<D, M>, s: System<D, M>, canSend: nat -> bool)
    requires SeniorLogOk(app, s)
    ensures var s' := PulseSenior(app, s, canSend);
            && SeniorLogOk(app, s')
            && (!s'.sendFailed ==> forall k :: s.start < k <= s.senior.localId ==> HasSent(s'.multicast, k))
  {
    hide PulseSenior, SentInOrder, BeaconsCovered, GapFree, Drift, HasSent;
    PulseSeniorFrame(app, s, canSend);
    PulseInOrder(app, s, canSend);
    PulseCovers(app, s, canSend);
    PulseTrims(app, s, canSend);
  }

  // ----- Every step, every run -----

  /** None of this depends on the juniors, on the history or on the content. */
  lemma SameLog<D, M>(app: App<D, M>, s: System<D, M>, s': System<D, M>)
    requires SeniorLogOk(app, s)
    requires s' == s.(juniors := s'.juniors, recorded := s'.recorded, senior := s'.senior)
    requires s'.senior == s.senior.(checksum := s'.senior.checksum)
    ensures SeniorLogOk(app, s')
  {
  }

  lemma PublishLog<D, M>(app: App<D, M>, s: System<D, M>, canSend: nat -> bool)
    requires SeniorLogOk(app, s)
    ensures SeniorLogOk(app, PublishStep(app, s, canSend))
  {
    hide PulseSenior, HasSent, SentInOrder, GapFree, Drift;
    PulseSeniorFrame(app, s, canSend);
    PulseLog(app, s, canSend);
    BeaconAdded(app, s, PulseSenior(app, s, canSend));
  }

  /** A beacon of the current state may go out once all its updates have. */
  lemma BeaconAdded<D, M>(app: App<D, M>, s: System<D, M>, s': System<D, M>)
    requires SeniorLogOk(app, s') && s'.start == s.start && s'.senior.localId == s.senior.localId
    requires !s'.sendFailed ==> forall k :: s.start < k <= s.senior.localId ==> HasSent(s'.multicast, k)
    ensures SeniorLogOk(app, s'.(beacons := s'.beacons + {Advertise(s'.senior)}))
  {
    hide HasSent;
    var r := s'.(beacons := s'.beacons + {Advertise(s'.senior)});
    assert SentInOrder(r) && NothingSkipped(r) && BeaconsCovered(r);
  }

  lemma StepLog<D, M>(app: App<D, M>, s: System<D, M>, e: Event<M>)
    requires SeniorLogOk(app, s) && Enabled(s, e)
    ensures SeniorLogOk(app, Step(app, s, e))
  {
    hide SeniorLogOk, SubmitStep, PulseSenior, PublishStep;
    match e {
      case Submit(request) => SubmitLog(app, s, request);
      case SeniorPulse(canSend) => PulseLog(app, s, canSend);
      case Publish(canSend) => PublishLog(app, s, canSend);
      case _ => SameLog(app, s, Step(app, s, e));
    }
  }

  /** Over every run: multicasts ascend, no beacon runs ahead of them, the log is
      gap-free up to the senior's state and its byte counter is exact. */
  lemma {:induction false} RunLog<D, M>(app: App<D, M>, s: System<D, M>, events: seq<Event<M>>)
    requires SeniorLogOk(app, s) && IsRun(app, s, events)
    ensures SeniorLogOk(app, After(app, s, events))
    decreases |events|
  {
    if events != [] {
      StepLog(app, s, events[0]);
      RunLog(app, Step(app, s, events[0]), events[1..]);
    }
  }

  lemma BirthLogOk<D, M>(app: App<D, M>, s: System<D, M>)
    requires Birth(app, s)
    ensures SeniorLogOk(app, s) && CountersCover(app, s)
  {
    assert TrueBytes(app, s.senior.log) == 0;
  }

  /** Every update from the oldest to the current one that a beacon would advertise
      can be served as a back-order, at any moment of any run. */
  lemma CanServe<D, M>(app: App<D, M>, s: System<D, M>, events: seq<Event<M>>, id: nat)
    requires SeniorLogOk(app, s) && IsRun(app, s, events)
    requires var db := After(app, s, events).senior;
             db.log != map[] && Advertise(db).oldest <= id <= Advertise(db).id
    ensures var db := After(app, s, events).senior;
            id in db.log && Serve(app, db, UpdateId(id)) == Some(db.log[id]) && db.log[id].id == id
  {
    RunLog(app, s, events);
  }

  /** While the log has any update, the IDs a beacon would advertise are exactly those
      in it. */
  lemma AdvertisesExactly<D, M>(app: App<D, M>, s: System<D, M>, events: seq<Event<M>>, id: nat)
    requires SeniorLogOk(app, s) && IsRun(app, s, events) && After(app, s, events).senior.log != map[]
    ensures var db := After(app, s, events).senior;
            Advertise(db).oldest <= id <= Advertise(db).id <==> id in db.log
  {
    RunLog(app, s, events);
  }

  // ----- A junior's byte counter -----

  /** By how much a peer's byte counter exceeds the bytes in its log. */
  ghost function DriftOf<D, M>(app: App<D, M>, s: System<D, M>, p: PeerId): int {
    if p in s.juniors then Drift(app, s.juniors[p].db) else 0
  }

  ghost predicate CountersCover<D, M>(app: App<D, M>, s: System<D, M>) {
    forall p :: p in s.juniors ==> DriftOf(app, s, p) >= 0
  }

  /** The update a step files in the junior's log, if it files one. */
  function Filed<D, M>(s: System<D, M>, j: Junior<D, M>, e: Event<M>): Option<Update<M>> {
    match e
    case UpdateArrives(_, i) => if i < |s.multicast| then Some(s.multicast[i]) else None
    case ReplyArrives(_, key, _) =>
      if key.UpdateId? && key in j.db.orders && key in j.link && j.link[key].Answered? then j.link[key].reply else None
    case _ => None
  }

  /** The step files an update under an ID that is already in the log. */
  predicate FilesAgain<D, M>(s: System<D, M>, p: PeerId, e: Event<M>) {
    && p in s.juniors
    && (e.UpdateArrives? || e.ReplyArrives?) && e.peer == p
    && Filed(s, s.juniors[p], e).Some? && Filed(s, s.juniors[p], e).value.id in s.juniors[p].db.log
  }

  /** The payload bytes it files over. */
  function Overwritten<D, M>(app: App<D, M>, s: System<D, M>, p: PeerId, e: Event<M>): nat {
    if FilesAgain(s, p, e) then PayloadBytes(app, s.juniors[p].db.log[Filed(s, s.juniors[p], e).value.id]) else 0
  }

  lemma JuniorStepDrift<D, M>(app: App<D, M>, s: System<D, M>, e: Event<M>)
    requires Enabled(s, e) && IsJuniorEvent(e)
    ensures Drift(app, JuniorStep(app, s, s.juniors[e.peer], e).db) ==
            Drift(app, s.juniors[e.peer].db) + Overwritten(app, s, e.peer, e)
  {
    var j := s.juniors[e.peer];
    match e {
      case UpdateArrives(_, i) => AddDrift(app, j.db, s.multicast[i], false);
      case JuniorPulse(_, env) =>
        if j.db.rescanPending {
          JuniorRescanDrift(app, j.db, env);
        }
      case ReplyArrives(_, key, env) => ResultDrift(app, j.db, key, j.link[key].reply, env);
      case ResolveLost(_, key, env) => ResultDrift(app, j.db, key, None, env);
      case _ =>
    }
  }

  lemma ResultDrift<D, M>(app: App<D, M>, db: Db<D, M>, key: OrderKey, result: Option<Update<M>>, env: Env)
    ensures Drift(app, OrderResult(app, db, key, result, true, env)) == Drift(app, db) +
              if key in db.orders && key.UpdateId? && result.Some? && result.value.id in db.log
              then PayloadBytes(app, db.log[result.value.id]) else 0
  {
    if key in db.orders && result.Some? {
      var rest := db.(orders := db.orders - {key});
      if key == FullDatabase {
        ApplyFrame(app, rest, result.value);
      } else {
        AddDrift(app, rest, result.value, false);
      }
    }
  }

  lemma StepDrift<D, M>(app: App<D, M>, s: System<D, M>, p: PeerId, e: Event<M>)
    requires Enabled(s, e)
    ensures DriftOf(app, Step(app, s, e), p) == DriftOf(app, s, p) + Overwritten(app, s, p, e)
  {
    hide Drift, Overwritten;
    if IsJuniorEvent(e) {
      JuniorStepDrift(app, s, e);
      if e.peer != p {
        NothingFiledElsewhere(app, s, p, e);
      }
    } else {
      NothingFiledElsewhere(app, s, p, e);
      SeniorStepKeeps(app, s, p, e);
    }
  }

  lemma NothingFiledElsewhere<D, M>(app: App<D, M>, s: System<D, M>, p: PeerId, e: Event<M>)
    requires !IsJuniorEvent(e) || e.peer != p
    ensures Overwritten(app, s, p, e) == 0
  {
  }

  /** The senior's steps leave every junior's database alone; a newcomer's is empty. */
  lemma SeniorStepKeeps<D, M>(app: App<D, M>, s: System<D, M>, p: PeerId, e: Event<M>)
    requires Enabled(s, e) && !IsJuniorEvent(e)
    ensures DriftOf(app, Step(app, s, e), p) == DriftOf(app, s, p)
  {
    if e.SeniorPulse? || e.Publish? {
      PulseSeniorFrame(app, s, e.canSend);
    } else if e.Join? {
      assert TrueBytes<D, M>(app, map[]) == 0;
    }
  }

  ghost function OverwrittenIn<D, M>(app: App<D, M>, s: System<D, M>, events: seq<Event<M>>, p: PeerId): nat
    requires IsRun(app, s, events)
    decreases |events|
  {
    if events == [] then 0
    else Overwritten(app, s, p, events[0]) + OverwrittenIn(app, Step(app, s, events[0]), events[1..], p)
  }

  /** Over every run a junior's byte counter gains on the bytes in its log exactly the
      payload bytes that were filed over. */
  lemma {:induction false} RunDrift<D, M>(app: App<D, M>, s: System<D, M>, events: seq<Event<M>>, p: PeerId)
    requires IsRun(app, s, events)
    ensures DriftOf(app, After(app, s, events), p) == DriftOf(app, s, p) + OverwrittenIn(app, s, events, p)
    decreases |events|
  {
    if events != [] {
      hide DriftOf, Overwritten;
      StepDrift(app, s, p, events[0]);
      RunDrift(app, Step(app, s, events[0]), events[1..], p);
    }
  }

  /** So it never falls below the bytes in the log. */
  lemma RunCounters<D, M>(app: App<D, M>, s: System<D, M>, events: seq<Event<M>>)
    requires CountersCover(app, s) && IsRun(app, s, events)
    ensures CountersCover(app, After(app, s, events))
  {
    forall p | p in After(app, s, events).juniors
      ensures DriftOf(app, After(app, s, events), p) >= 0
    {
      RunDrift(app, s, events, p);
    }
  }

  ghost predicate NothingFiledAgain<D, M>(app: App<D, M>, s: System<D, M>, events: seq<Event<M>>, p: PeerId)
    requires IsRun(app, s, events)
    decreases |events|
  {
    events == [] ||
    (!FilesAgain(s, p, events[0]) && NothingFiledAgain(app, Step(app, s, events[0]), events[1..], p))
  }

  /** Over every run that files no ID already in the log, an exact counter stays exact. */
  lemma {:induction false} CounterStaysExact<D, M>(app: App<D, M>, s: System<D, M>, events: seq<Event<M>>, p: PeerId)
    requires IsRun(app, s, events) && NothingFiledAgain(app, s, events, p) && DriftOf(app, s, p) == 0
    ensures DriftOf(app, After(app, s, events), p) == 0
    decreases |events|
  {
    if events != [] {
      hide DriftOf;
      StepDrift(app, s, p, events[0]);
      CounterStaysExact(app, Step(app, s, events[0]), events[1..], p);
    }
  }

  /** A multicast update that arrives twice leaves the counter too high by its size. */
  lemma DuplicateDrifts<D(!new), M(!new)>(app: App<D, M>, s: System<D, M>, m: M)
    requires Birth(app, s) && app.load(app.initial, m).1
    ensures exists t :: Reaches(app, s, t) && 1 in t.juniors && DriftOf(app, t, 1) == app.size(m)
  {
    var sent, i := ReplaceIsSent(app, s, m);
    hide Reaches;
    var e := UpdateArrives(1, i);
    ReachesNext(app, s, sent, e);
    var once := Step(app, sent, e);
    StepDrift(app, sent, 1, e);
    ReachesNext(app, s, once, e);
    StepDrift(app, once, 1, e);
  }

  /** From birth to a replaced database under way to a newcomer. */
  lemma ReplaceIsSent<D(!new), M(!new)>(app: App<D, M>, s: System<D, M>, m: M) returns (t: System<D, M>, i: nat)
    requires Birth(app, s) && app.load(app.initial, m).1
    ensures Reaches(app, s, t) && 1 in t.juniors && t.juniors[1].db.log == map[] && DriftOf(app, t, 1) == 0
    ensures i < |t.multicast| && t.multicast[i].payload == Some(m)
  {
    ReachesItself(app, s);
    hide Reaches, HandleRequest, PulseSenior;
    ReachesNext(app, s, s, Join(1, 0));
    var joined := Step(app, s, Join(1, 0));
    StepDrift(app, s, 1, Join(1, 0));
    ReplaceFiles(app, joined.senior, m);
    ReachesNext(app, s, joined, Submit(ReplaceRequest(Some(m))));
    var asked := Step(app, joined, Submit(ReplaceRequest(Some(m))));
    ReachesNext(app, s, asked, SeniorPulse((k: nat) => true));
    t := Step(app, asked, SeniorPulse((k: nat) => true));
    PulseSeniorFrame(app, asked, (k: nat) => true);
    i := OneIsSent(app, asked);
  }

  lemma ReplaceFiles<D, M>(app: App<D, M>, db: Db<D, M>, m: M)
    requires db.log == map[] && db.localId == 0 && db.attached && db.firstUnsent == 0 && app.load(db.content, m).1
    ensures var (r, status) := HandleRequest(app, db, ReplaceRequest(Some(m)));
            && status == Ok && r.log.Keys == {1} && r.log[1].payload == Some(m) && r.log[1].id == 1
            && r.rescanPending && r.firstUnsent == 0
  {
  }

  lemma OneIsSent<D, M>(app: App<D, M>, s: System<D, M>) returns (i: nat)
    requires s.senior.log.Keys == {1} && s.senior.log[1].id == 1
    requires s.senior.firstUnsent <= 1 && s.senior.rescanPending && s.multicast == []
    ensures var t := PulseSenior(app, s, (k: nat) => true);
            i < |t.multicast| && t.multicast[i] == s.senior.log[1]
  {
    hide PulseSenior;
    var canSend := (k: nat) => true;
    PulseSends(app, s, canSend, 1);
    PulseSeniorFrame(app, s, canSend);
    var t := PulseSenior(app, s, canSend);
    i :| 0 <= i < |t.multicast| && t.multicast[i].id == 1;
  }

  // ----- The senior's own oldest-ID mark -----

  /** In a tenure from birth the mark is set by the first update that stays in the log. */
  ghost predicate Marked<D, M>(db: Db<D, M>) {
    && (db.log == map[] <==> db.localId == 0)
    && db.seniorOldest == (if db.log == map[] then NO_OLDEST_ID else 1)
    && 0 !in db.log
  }

  lemma {:induction false} TrimKeepsMark<D, M>(app: App<D, M>, db: Db<D, M>)
    ensures SeniorTrim(app, db).seniorOldest == db.seniorOldest
    ensures db.log != map[] ==> SeniorTrim(app, db).log != map[]
    decreases |db.log|
  {
    if db.payloadBytes > db.maxPayloadBytes && |db.log| > 1 {
      FirstRemoved(app, db);
      var next := RemoveUpdate(app, db, FirstKey(db.log.Keys), true);
      assert next.log != map[];
      TrimKeepsMark(app, next);
    }
  }

  lemma FiledMark<D, M>(app: App<D, M>, db: Db<D, M>, kind: Kind, content: D, payload: Option<M>)
    requires Marked(db) && db.localId + 1 !in db.log
    ensures var id := db.localId + 1;
            var executed := SetContent(app, AddUpdate(app, db, Update(kind, id, db.checksum, 0, None), true), content);
            id in executed.log && Marked(Complete(app, executed, id, payload)) && Marked(RemoveUpdate(app, executed, id, true))
  {
    var id := db.localId + 1;
    var executed := SetContent(app, AddUpdate(app, db, Update(kind, id, db.checksum, 0, None), true), content);
    assert executed.log - {id} == db.log;
    assert id in Complete(app, executed, id, payload).log;
  }

  lemma RequestMark<D, M>(app: App<D, M>, db: Db<D, M>, request: Request<M>)
    requires Marked(db) && db.localId + 1 !in db.log
    ensures Marked(HandleRequest(app, db, request).0)
  {
    hide AddUpdate, SetContent, Complete, RemoveUpdate, Marked;
    match request {
      case ResetRequest => FiledMark(app, db, Reset, app.initial, None);
      case ReplaceRequest(Some(m)) => FiledMark(app, db, Replace, app.load(db.content, m).0, Some(m));
      case UpdateRequest(Some(m)) => FiledMark(app, db, Incremental, app.senior(db.content, m).0, app.senior(db.content, m).1);
      case _ =>
    }
  }

  lemma PulseMark<D, M>(app: App<D, M>, s: System<D, M>, canSend: nat -> bool)
    requires Marked(s.senior)
    ensures Marked(PulseSenior(app, s, canSend).senior)
  {
    if s.senior.rescanPending {
      hide SeniorTrim, SentIds, AfterLast;
      var db := s.senior.(rescanPending := false, firstUnsent := AfterLast(SentIds(s.senior, canSend), s.senior.firstUnsent));
      TrimKeepsMark(app, db);
      SeniorTrimFrame(app, db);
    }
  }

  lemma StepMark<D, M>(app: App<D, M>, s: System<D, M>, e: Event<M>)
    requires Marked(s.senior) && SeniorLogOk(app, s) && Enabled(s, e)
    ensures Marked(Step(app, s, e).senior)
  {
    hide HandleRequest, PulseSenior;
    match e {
      case Submit(request) => RequestMark(app, s.senior, request);
      case SeniorPulse(canSend) => PulseMark(app, s, canSend);
      case Publish(canSend) => PulseMark(app, s, canSend);
      case _ =>
    }
  }

  lemma {:induction false} RunMark<D, M>(app: App<D, M>, s: System<D, M>, events: seq<Event<M>>)
    requires Marked(s.senior) && SeniorLogOk(app, s) && IsRun(app, s, events)
    ensures Marked(After(app, s, events).senior)
    decreases |events|
  {
    if events != [] {
      hide Marked, SeniorLogOk, Step, Enabled;
      StepMark(app, s, events[0]);
      StepLog(app, s, events[0]);
      RunMark(app, Step(app, s, events[0]), events[1..]);
    }
  }

  /** In every run from birth the senior's own mark is the oldest ID in its log exactly
      as long as nothing has been trimmed: trimming does not move it. */
  lemma MarkIsOldestIff<D, M>(app: App<D, M>, s: System<D, M>, events: seq<Event<M>>)
    requires Birth(app, s) && IsRun(app, s, events)
    ensures var db := After(app, s, events).senior;
            db.seniorOldest == Advertise(db).oldest <==> db.log == map[] || 1 in db.log
  {
    BirthLogOk(app, s);
    assert Marked(s.senior);
    hide SeniorLogOk, Birth, Marked;
    RunMark(app, s, events);
    MarkedMeans(After(app, s, events).senior);
  }

  lemma MarkedMeans<D, M>(db: Db<D, M>)
    requires Marked(db)
    ensures db.seniorOldest == Advertise(db).oldest <==> db.log == map[] || 1 in db.log
  {
  }
}
