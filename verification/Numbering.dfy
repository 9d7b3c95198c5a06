/** What holds of every run of the replication protocol whatever the application
    does, even when its junior update is faulty: state IDs only grow, never pass
    the senior's, and are only reached with a checksum the senior has recorded. */
module Numbering {
  import opened Tables
  import opened Database
  import opened Replication
  import Rescan

  ghost predicate UpdateNumbered<M>(top: nat, recorded: set<(nat, nat)>, u: Update<M>) {
    u.id <= top && (u.id, u.post) in recorded
  }

  ghost predicate LogNumbered<M>(top: nat, recorded: set<(nat, nat)>, log: map<nat, Update<M>>) {
    forall k :: k in log ==> log[k].id == k && UpdateNumbered(top, recorded, log[k])
  }

  /** A full-database reply under way is never older than the junior's own state. */
  ghost predicate ReplyNumbered<M>(top: nat, recorded: set<(nat, nat)>, localId: nat, key: OrderKey, t: Transit<M>) {
    t.Answered? && t.reply.Some? ==>
      && UpdateNumbered(top, recorded, t.reply.value)
      && (key == FullDatabase ==> localId <= t.reply.value.id)
  }

  ghost predicate JuniorNumbered<D, M>(top: nat, recorded: set<(nat, nat)>, j: Junior<D, M>) {
    && LogNumbered(top, recorded, j.db.log)
    && j.db.localId <= top
    && j.link.Keys == j.db.orders
    && (forall key :: key in j.link ==> ReplyNumbered(top, recorded, j.db.localId, key, j.link[key]))
  }

  ghost predicate Numbered<D, M>(s: System<D, M>) {
    && LogNumbered(s.senior.localId, s.recorded, s.senior.log)
    && (forall i :: 0 <= i < |s.multicast| ==> UpdateNumbered(s.senior.localId, s.recorded, s.multicast[i]))
    && (forall p :: p in s.juniors ==> JuniorNumbered(s.senior.localId, s.recorded, s.juniors[p]))
  }

  // ----- The IDs a junior moves through, with its checksum at that moment -----

  ghost function ReplayMoves<D, M>(app: App<D, M>, db: Db<D, M>, target: nat, env: Env): seq<(nat, nat)>
    decreases target - db.localId
  {
    if db.localId >= target then []
    else
      var (next, more) := ReplayStep(app, db, target, env);
      if more then [(next.localId, next.checksum)] + ReplayMoves(app, next, target, env) else []
  }

  ghost function Moves<D, M>(app: App<D, M>, j: Junior<D, M>, e: Event<M>): seq<(nat, nat)> {
    match e
    case JuniorPulse(_, env) =>
      var db := BeginRescan(j.db);
      if j.db.rescanPending && j.db.seniorKnown && FullDatabase !in db.orders && !(db.localId == 0 && Target(db) > 1)
      then ReplayMoves(app, db, Target(db), env) else []
    case ReplyArrives(_, key, env) =>
      if key == FullDatabase && key in j.link && j.link[key].Answered? && j.link[key].reply.Some? && key in j.db.orders then
        var (db, ok) := ExecuteReplace(app, j.db.(orders := j.db.orders - {key}), j.link[key].reply.value);
        if ok then [(db.localId, db.checksum)] else []
      else []
    case _ => []
  }

  ghost function LastMove(moves: seq<(nat, nat)>, id: nat): nat {
    if moves == [] then id else moves[|moves| - 1].0
  }

  lemma {:induction false} ReplayMovesRecorded<D, M>(app: App<D, M>, db: Db<D, M>, target: nat, env: Env,
                                                     top: nat, recorded: set<(nat, nat)>)
    requires LogNumbered(top, recorded, db.log) && db.localId <= top
    ensures var moves := ReplayMoves(app, db, target, env);
            && (forall i :: 0 <= i < |moves| ==> moves[i] in recorded && moves[i].0 == db.localId + 1 + i)
            && Replay(app, db, target, env).localId == LastMove(moves, db.localId)
            && Replay(app, db, target, env).localId <= top
    decreases target - db.localId
  {
    if db.localId < target {
      ReplayStepFrame(app, db, target, env);
      var (next, more) := ReplayStep(app, db, target, env);
      if more {
        ExecuteFrame(app, db, db.log[db.localId + 1]);
        assert UpdateNumbered(top, recorded, db.log[db.localId + 1]);
        ReplayMovesRecorded(app, next, target, env, top, recorded);
      }
    }
  }

  lemma CatchUpNumbered<D, M>(app: App<D, M>, db: Db<D, M>, env: Env, top: nat, recorded: set<(nat, nat)>)
    requires LogNumbered(top, recorded, db.log) && db.localId <= top
    ensures var caught := CatchUp(app, db, env);
            && db.localId <= caught.localId <= top
            && (FullDatabase in db.orders ==> caught.localId == db.localId)
  {
    ReplayMovesRecorded(app, db, Target(db), env, top, recorded);
    ReplayFrame(app, db, Target(db), env);
  }

  lemma PulseNumbered<D, M>(app: App<D, M>, db: Db<D, M>, env: Env, top: nat, recorded: set<(nat, nat)>)
    requires LogNumbered(top, recorded, db.log) && db.localId <= top
    ensures var r := Pulse(app, db, env);
            && LogNumbered(top, recorded, r.log)
            && db.localId <= r.localId <= top
            && (FullDatabase in db.orders ==> r.localId == db.localId)
            && db.orders <= r.orders
  {
    if db.rescanPending && db.seniorKnown {
      CatchUpNumbered(app, BeginRescan(db), env, top, recorded);
      Rescan.JuniorRescanFrame(app, db, env);
    }
  }

  lemma PulseMoves<D, M>(app: App<D, M>, j: Junior<D, M>, p: PeerId, env: Env, top: nat, recorded: set<(nat, nat)>)
    requires LogNumbered(top, recorded, j.db.log) && j.db.localId <= top
    ensures var moves := Moves(app, j, JuniorPulse(p, env));
            && (forall i :: 0 <= i < |moves| ==> moves[i] in recorded)
            && Pulse(app, j.db, env).localId == LastMove(moves, j.db.localId)
  {
    if j.db.rescanPending && j.db.seniorKnown {
      ReplayMovesRecorded(app, BeginRescan(j.db), Target(BeginRescan(j.db)), env, top, recorded);
      Rescan.JuniorRescanFrame(app, j.db, env);
    }
  }

  lemma ReplaceFrame<D, M>(app: App<D, M>, db: Db<D, M>, u: Update<M>)
    ensures var (r, ok) := ExecuteReplace(app, db, u);
            && r == db.(content := r.content, checksum := r.checksum, localId := r.localId)
            && r.localId == (if ok then u.id else db.localId)
            && (ok ==> r.checksum == u.post)
  {
    ApplyFrame(app, db, u);
  }

  lemma FullReplyNumbered<D, M>(app: App<D, M>, s: System<D, M>, j: Junior<D, M>, e: Event<M>)
    requires JuniorNumbered(s.senior.localId, s.recorded, j)
    requires e.ReplyArrives? && e.key == FullDatabase && e.key in j.link
    requires j.link[e.key].Answered? && j.link[e.key].reply.Some?
    ensures var j' := JuniorStep(app, s, j, e);
            && JuniorNumbered(s.senior.localId, s.recorded, j')
            && j.db.localId <= j'.db.localId
            && (forall i :: 0 <= i < |Moves(app, j, e)| ==> Moves(app, j, e)[i] in s.recorded)
            && j'.db.localId == LastMove(Moves(app, j, e), j.db.localId)
  {
    var u := j.link[e.key].reply.value;
    var rest := j.db.(orders := j.db.orders - {e.key});
    ReplaceFrame(app, rest, u);
    assert ReplyNumbered(s.senior.localId, s.recorded, j.db.localId, e.key, j.link[e.key]);
    var j' := JuniorStep(app, s, j, e);
    assert j'.db.orders == rest.orders;
    forall key | key in j'.link
      ensures ReplyNumbered(s.senior.localId, s.recorded, j'.db.localId, key, j'.link[key])
    {
      assert ReplyNumbered(s.senior.localId, s.recorded, j.db.localId, key, j.link[key]);
    }
  }

  /** Any other answer to an order, or its loss, leaves the state ID alone. */
  lemma OtherReplyNumbered<D, M>(app: App<D, M>, j: Junior<D, M>, key: OrderKey, result: Option<Update<M>>, env: Env,
                                 top: nat, recorded: set<(nat, nat)>)
    requires JuniorNumbered(top, recorded, j) && key in j.link
    requires key == FullDatabase ==> result.None?
    requires result.Some? ==> UpdateNumbered(top, recorded, result.value)
    ensures var db := OrderResult(app, j.db, key, result, true, env);
            && db.localId == j.db.localId
            && JuniorNumbered(top, recorded, Junior(db, Relink(j.link - {key}, db.orders)))
  {
    var db := OrderResult(app, j.db, key, result, true, env);
    var link := Relink(j.link - {key}, db.orders);
    assert LogNumbered(top, recorded, db.log);
    forall k | k in link
      ensures ReplyNumbered(top, recorded, db.localId, k, link[k])
    {
      if k in j.link && k != key {
        assert ReplyNumbered(top, recorded, j.db.localId, k, j.link[k]);
      }
    }
  }

  /** One step of a junior keeps it numbered, never moves it back, and moves it
      only to states recorded with the checksum it then has. */
  lemma JuniorStepNumbered<D, M>(app: App<D, M>, s: System<D, M>, j: Junior<D, M>, e: Event<M>)
    requires JuniorNumbered(s.senior.localId, s.recorded, j)
    requires forall i :: 0 <= i < |s.multicast| ==> UpdateNumbered(s.senior.localId, s.recorded, s.multicast[i])
    ensures var j' := JuniorStep(app, s, j, e);
            && JuniorNumbered(s.senior.localId, s.recorded, j')
            && j.db.localId <= j'.db.localId
            && (forall i :: 0 <= i < |Moves(app, j, e)| ==> Moves(app, j, e)[i] in s.recorded)
            && j'.db.localId == LastMove(Moves(app, j, e), j.db.localId)
  {
    match e {
      case JuniorPulse(p, env) =>
        PulseNumbered(app, j.db, env, s.senior.localId, s.recorded);
        PulseMoves(app, j, p, env, s.senior.localId, s.recorded);
      case ReplyArrives(_, key, env) =>
        if key in j.link && j.link[key].Answered? {
          assert ReplyNumbered(s.senior.localId, s.recorded, j.db.localId, key, j.link[key]);
          if key == FullDatabase && j.link[key].reply.Some? {
            FullReplyNumbered(app, s, j, e);
          } else {
            OtherReplyNumbered(app, j, key, j.link[key].reply, env, s.senior.localId, s.recorded);
          }
        }
      case ResolveLost(_, key, env) =>
        if key in j.link {
          OtherReplyNumbered(app, j, key, None, env, s.senior.localId, s.recorded);
        } else {
          assert j.link - {key} == j.link;
        }
      case _ =>
    }
  }

  // ----- The senior's steps -----

  lemma RequestNumbered<D, M>(app: App<D, M>, s: System<D, M>, request: Request<M>)
    requires LogNumbered(s.senior.localId, s.recorded, s.senior.log)
    ensures var s' := SubmitStep(app, s, request);
            && s'.senior.localId >= s.senior.localId
            && s.recorded <= s'.recorded
            && LogNumbered(s'.senior.localId, s'.recorded, s'.senior.log)
  {
    RequestShape(app, s.senior, request);
  }

  lemma PulseSeniorNumbered<D, M>(app: App<D, M>, s: System<D, M>, canSend: nat -> bool)
    requires Numbered(s)
    ensures Numbered(PulseSenior(app, s, canSend))
    ensures PulseSenior(app, s, canSend).senior.localId == s.senior.localId
  {
    PulseSeniorFrame(app, s, canSend);
    hide PulseSenior;
    var s' := PulseSenior(app, s, canSend);
    forall i | 0 <= i < |s'.multicast|
      ensures UpdateNumbered(s.senior.localId, s.recorded, s'.multicast[i])
    {
      if i < |s.multicast| {
        assert UpdateNumbered(s.senior.localId, s.recorded, s.multicast[i]);
      }
    }
  }

  lemma ServeNumbered<D, M>(app: App<D, M>, s: System<D, M>, p: PeerId, key: OrderKey, verify: bool)
    requires Numbered(s) && p in s.juniors && key in s.juniors[p].link
    ensures Numbered(ServeStep(app, s, p, key, verify))
  {
    var s' := ServeStep(app, s, p, key, verify);
    assert s'.juniors[p].link[key].Answered?;
    assert key.UpdateId? ==> s'.juniors[p].link[key].reply == Serve(app, s.senior, key);
    assert ReplyNumbered(s'.senior.localId, s'.recorded, s'.juniors[p].db.localId, key, s'.juniors[p].link[key]);
    forall q | q in s'.juniors
      ensures JuniorNumbered(s'.senior.localId, s'.recorded, s'.juniors[q])
    {
      assert JuniorNumbered(s.senior.localId, s.recorded, s.juniors[q]);
    }
  }

  lemma SubmitNumbered<D, M>(app: App<D, M>, s: System<D, M>, request: Request<M>)
    requires Numbered(s)
    ensures Numbered(SubmitStep(app, s, request))
    ensures s.senior.localId <= SubmitStep(app, s, request).senior.localId
  {
    RequestNumbered(app, s, request);
    var s' := SubmitStep(app, s, request);
    forall p | p in s'.juniors
      ensures JuniorNumbered(s'.senior.localId, s'.recorded, s'.juniors[p])
    {
      assert JuniorNumbered(s.senior.localId, s.recorded, s.juniors[p]);
    }
  }

  lemma JuniorEventNumbered<D, M>(app: App<D, M>, s: System<D, M>, e: Event<M>)
    requires Numbered(s) && Enabled(s, e) && IsJuniorEvent(e)
    ensures var s' := Step(app, s, e);
            && Numbered(s')
            && s' == s.(juniors := s'.juniors)
            && s'.juniors.Keys == s.juniors.Keys
            && forall p :: p in s.juniors ==> s.juniors[p].db.localId <= s'.juniors[p].db.localId
  {
    JuniorStepNumbered(app, s, s.juniors[e.peer], e);
  }

  lemma StepNumbered<D, M>(app: App<D, M>, s: System<D, M>, e: Event<M>)
    requires Numbered(s) && Enabled(s, e)
    ensures Numbered(Step(app, s, e))
    ensures s.senior.localId <= Step(app, s, e).senior.localId
    ensures forall p :: p in s.juniors ==>
              p in Step(app, s, e).juniors && s.juniors[p].db.localId <= Step(app, s, e).juniors[p].db.localId
  {
    if IsJuniorEvent(e) {
      JuniorEventNumbered(app, s, e);
    } else {
      SeniorStepNumbered(app, s, e);
      SeniorStepKeepsIds(app, s, e);
    }
  }

  lemma SeniorStepNumbered<D, M>(app: App<D, M>, s: System<D, M>, e: Event<M>)
    requires Numbered(s) && Enabled(s, e) && !IsJuniorEvent(e)
    ensures Numbered(Step(app, s, e))
    ensures s.senior.localId <= Step(app, s, e).senior.localId
  {
    hide Numbered, SubmitStep, PulseSenior;
    match e {
      case Submit(request) => SubmitNumbered(app, s, request);
      case SeniorPulse(canSend) => PulseSeniorNumbered(app, s, canSend);
      case Publish(canSend) => PublishNumbered(app, s, canSend);
      case ServeOrder(p, key, verify) => ServeNumbered(app, s, p, key, verify);
      case Join(p, n) => JoinNumbered(app, s, p, n);
    }
  }

  lemma PublishNumbered<D, M>(app: App<D, M>, s: System<D, M>, canSend: nat -> bool)
    requires Numbered(s)
    ensures Numbered(PublishStep(app, s, canSend))
    ensures PublishStep(app, s, canSend).senior.localId == s.senior.localId
  {
    hide PulseSenior;
    PulseSeniorNumbered(app, s, canSend);
  }

  lemma JoinNumbered<D, M>(app: App<D, M>, s: System<D, M>, p: PeerId, maxPayloadBytes: nat)
    requires Numbered(s) && p !in s.juniors
    ensures Numbered(s.(juniors := s.juniors[p := Junior(Fresh(app, maxPayloadBytes, false), map[])]))
  {
  }

  lemma SeniorStepKeepsIds<D, M>(app: App<D, M>, s: System<D, M>, e: Event<M>)
    requires Enabled(s, e) && !IsJuniorEvent(e)
    ensures forall p :: p in s.juniors ==>
              p in Step(app, s, e).juniors && s.juniors[p].db.localId == Step(app, s, e).juniors[p].db.localId
  {
    if e.SeniorPulse? || e.Publish? {
      PulseSeniorFrame(app, s, e.canSend);
    }
  }

  lemma {:induction false} RunNumbered<D, M>(app: App<D, M>, s: System<D, M>, events: seq<Event<M>>)
    requires Numbered(s) && IsRun(app, s, events)
    ensures var s' := After(app, s, events);
            && Numbered(s')
            && s.senior.localId <= s'.senior.localId
            && forall p :: p in s.juniors ==> p in s'.juniors && s.juniors[p].db.localId <= s'.juniors[p].db.localId
    decreases |events|
  {
    if events != [] {
      StepNumbered(app, s, events[0]);
      RunNumbered(app, Step(app, s, events[0]), events[1..]);
    }
  }

  lemma BirthIsNumbered<D, M>(app: App<D, M>, s: System<D, M>)
    requires Birth(app, s)
    ensures Numbered(s)
  {
  }

  // ----- Main results -----

  /** Over every run, whatever the application does: between any two moments a
      junior's state ID does not decrease, and it never exceeds the senior's. */
  lemma MonotoneJunior<D, M>(app: App<D, M>, s: System<D, M>, first: seq<Event<M>>, second: seq<Event<M>>, p: PeerId)
    requires Numbered(s) && IsRun(app, s, first + second)
    requires IsRun(app, s, first) && p in After(app, s, first).juniors
    ensures var early, late := After(app, s, first), After(app, s, first + second);
            && p in late.juniors
            && early.juniors[p].db.localId <= late.juniors[p].db.localId <= late.senior.localId
  {
    RunSplits(app, s, first, second);
    RunNumbered(app, s, first);
    RunNumbered(app, After(app, s, first), second);
    var late := After(app, s, first + second);
    assert JuniorNumbered(late.senior.localId, late.recorded, late.juniors[p]);
  }

  /** Over every run, whatever the application does: each state ID a junior moves
      to is one the senior recorded, with the very checksum the junior has then. */
  lemma MovesAreRecorded<D, M>(app: App<D, M>, s: System<D, M>, events: seq<Event<M>>, e: Event<M>, p: PeerId)
    requires Numbered(s) && IsRun(app, s, events)
    requires p in After(app, s, events).juniors
    ensures var now := After(app, s, events);
            var j := now.juniors[p];
            && (forall i :: 0 <= i < |Moves(app, j, e)| ==> Moves(app, j, e)[i] in now.recorded)
            && JuniorStep(app, now, j, e).db.localId == LastMove(Moves(app, j, e), j.db.localId)
  {
    RunNumbered(app, s, events);
    var now := After(app, s, events);
    JuniorStepNumbered(app, now, now.juniors[p], e);
  }
}
