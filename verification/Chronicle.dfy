/** What the requests do: the senior's history is the record of the accepted ones,
    each carried out by the application's own hook. */
module Chronicle {
  import opened Tables
  import opened Database
  import opened Replication
  import opened ReplicaSafety

  /** What an accepted request leaves, as the application says; None if it refuses. */
  function Carried<D, M>(app: App<D, M>, content: D, request: Request<M>): Option<D> {
    match request
    case ResetRequest => Some(app.initial)
    case ReplaceRequest(Some(m)) => if app.load(content, m).1 then Some(app.load(content, m).0) else None
    case UpdateRequest(Some(m)) => if app.senior(content, m).1.Some? then Some(app.senior(content, m).0) else None
    case _ => None
  }

  /** The log entry of an accepted request: its kind, and what a junior is to execute. */
  function Recorded<D, M>(app: App<D, M>, content: D, request: Request<M>): (Kind, Option<M>) {
    match request
    case ResetRequest => (Reset, None)
    case ReplaceRequest(m) => (Replace, m)
    case UpdateRequest(None) => (Incremental, None)
    case UpdateRequest(Some(m)) => (Incremental, app.senior(content, m).1)
  }

  function Refusal<M>(request: Request<M>): Status {
    if request.UpdateRequest? && request.change.Some? then LogicError else BadData
  }

  /** A request is accepted exactly if the application carries it out, and then its
      result is the new content and what it recorded is the new log entry; a refused
      one is answered as the kind of request says, and keeps what the application left. */
  lemma RequestEffect<D, M>(app: App<D, M>, db: Db<D, M>, request: Request<M>)
    ensures var (r, status) := HandleRequest(app, db, request);
            var id, carried, (kind, payload) := db.localId + 1, Carried(app, db.content, request), Recorded(app, db.content, request);
            if carried.Some? then
              && status == Ok && r.content == carried.value && r.checksum == app.running(carried.value)
              && r.localId == id && id in r.log
              && r.log[id] == Update(kind, id, db.checksum, app.running(carried.value), payload)
            else
              && status == Refusal(request) && r.localId == db.localId
              && (request == ReplaceRequest(None) || request == UpdateRequest(None) ==> r == db)
              && (request.ReplaceRequest? && request.state.Some? ==> r.content == app.load(db.content, request.state.value).0)
              && (request.UpdateRequest? && request.change.Some? ==> r.content == app.senior(db.content, request.change.value).0)
  {
    hide AddUpdate, SetContent, Complete, RemoveUpdate;
    match request {
      case ResetRequest => FiledEntry(app, db, Reset, app.initial, None);
      case ReplaceRequest(Some(m)) => FiledEntry(app, db, Replace, app.load(db.content, m).0, Some(m));
      case UpdateRequest(Some(m)) => FiledEntry(app, db, Incremental, app.senior(db.content, m).0, app.senior(db.content, m).1);
      case _ =>
    }
  }

  lemma FiledEntry<D, M>(app: App<D, M>, db: Db<D, M>, kind: Kind, content: D, payload: Option<M>)
    ensures var id := db.localId + 1;
            var executed := SetContent(app, AddUpdate(app, db, Update(kind, id, db.checksum, 0, None), true), content);
            && id in executed.log && RemoveUpdate(app, executed, id, true).localId == db.localId
            && RemoveUpdate(app, executed, id, true).content == content
            && var r := Complete(app, executed, id, payload);
               && r.content == content && r.checksum == app.running(content) && r.localId == id && id in r.log
               && r.log[id] == Update(kind, id, db.checksum, app.running(content), payload)
  {
  }

  /** The history as the requests of a run write it, from a given one on. */
  ghost function Written<D, M>(app: App<D, M>, history: seq<D>, events: seq<Event<M>>): seq<D>
    requires history != []
    decreases |events|
  {
    if events == [] then history
    else
      var carried := if events[0].Submit? then Carried(app, history[|history| - 1], events[0].request) else None;
      Written(app, if carried.Some? then history + [carried.value] else history, events[1..])
  }

  lemma SubmitWrites<D(!new), M(!new)>(app: App<D, M>, s: System<D, M>, request: Request<M>)
    requires Correct(app) && Replicated(app, s)
    ensures var carried := Carried(app, s.history[|s.history| - 1], request);
            SubmitStep(app, s, request).history == if carried.Some? then s.history + [carried.value] else s.history
  {
    hide HandleRequest;
    RequestEffect(app, s.senior, request);
  }

  lemma OthersWriteNothing<D, M>(app: App<D, M>, s: System<D, M>, e: Event<M>)
    requires Enabled(s, e) && !e.Submit?
    ensures Step(app, s, e).history == s.history
  {
    if e.SeniorPulse? || e.Publish? {
      PulseSeniorFrame(app, s, e.canSend);
    }
  }

  /** In every run the senior's history is exactly what the requests made of it, one
      after the other, through the application's hooks. */
  lemma {:induction false} HistoryIsWritten<D(!new), M(!new)>(app: App<D, M>, s: System<D, M>, events: seq<Event<M>>)
    requires Correct(app) && Replicated(app, s) && IsRun(app, s, events)
    ensures s.history != [] && After(app, s, events).history == Written(app, s.history, events)
    decreases |events|
  {
    HistoryIsThere(app, s);
    if events != [] {
      hide Correct, Replicated, Step, Enabled, Carried;
      StepSound(app, s, events[0]);
      if events[0].Submit? {
        SubmitWrites(app, s, events[0].request);
        assert Step(app, s, events[0]) == SubmitStep(app, s, events[0].request) by { SubmitIs(app, s, events[0].request); }
      } else {
        OthersWriteNothing(app, s, events[0]);
      }
      HistoryIsWritten(app, Step(app, s, events[0]), events[1..]);
    }
  }

  lemma HistoryIsThere<D(!new), M>(app: App<D, M>, s: System<D, M>)
    requires Replicated(app, s)
    ensures s.history != []
  {
  }

  lemma SubmitIs<D, M>(app: App<D, M>, s: System<D, M>, request: Request<M>)
    ensures Enabled(s, Submit(request)) && Step(app, s, Submit(request)) == SubmitStep(app, s, request)
  {
  }

  /** From the request to every copy: once a request has been accepted, any junior that is
      at the state it made, at any later moment of the run, holds what the application
      made of the senior's content at the time. */
  lemma RequestsArrive<D(!new), M(!new)>(app: App<D, M>, s: System<D, M>, first: seq<Event<M>>, request: Request<M>,
                                         second: seq<Event<M>>, p: PeerId)
    requires Correct(app) && Replicated(app, s) && IsRun(app, s, first)
    requires IsRun(app, SubmitStep(app, After(app, s, first), request), second)
    requires var before := After(app, s, first);
             var now := After(app, SubmitStep(app, before, request), second);
             && Carried(app, before.senior.content, request).Some?
             && p in now.juniors && now.juniors[p].db.localId == before.senior.localId + 1
    ensures var before := After(app, s, first);
            var now := After(app, SubmitStep(app, before, request), second);
            now.juniors[p].db.content == Carried(app, before.senior.content, request).value
  {
    hide Correct, SubmitStep;
    var before := After(app, s, first);
    RunSound(app, s, first);
    SubmitWrites(app, before, request);
    SubmitSound(app, before, request);
    var asked := SubmitStep(app, before, request);
    RunSound(app, asked, second);
    ReplicasAreFaithful(app, asked, second, p);
  }
}
