/** Every interleaving of the two discovery threads: the finder goes through its
    reports one at a time, the main thread grabs and dispatches in between. */
module DiscoveryRuns {
  import opened Tables
  import opened Discovery

  /** A registered target and the calls it has had since it registered. */
  datatype Target = Target(isNew: bool, calls: seq<Call>)

  /** The finder's result set, the set it is reporting towards and the reports still
      to make, if it is at it; the pending updates; the updates the main thread has
      grabbed, if it is dispatching; what it knows and whom it tells. `announced`
      is the result set as far as it has been reported. */
  datatype Client = Client(
    reported: Systems,
    updating: bool,
    next: Systems,
    todo: seq<Call>,
    announced: Systems,
    pending: Updates,
    grabbed: Option<Updates>,
    known: Systems,
    targets: map<nat, Target>)

  const STOPPED := Client(map[], false, map[], [], map[], map[], None, map[], map[])

  /** `names` is the order in which the tables involved are gone through. */
  datatype Event =
    | BeginUpdate(news: Systems, names: seq<Name>)
    | ReportNext
    | EndUpdate
    | Grab
    | Dispatch(names: seq<Name>)
    | Register(target: nat)
    | Unregister(target: nat)
    | Stop

  function Grabbed(s: Client): Updates {
    if s.grabbed.Some? then s.grabbed.value else map[]
  }

  ghost predicate Enabled(s: Client, e: Event) {
    match e
    case BeginUpdate(news, names) => !s.updating && Covers(names, s.reported.Keys + news.Keys)
    case ReportNext => s.updating && s.todo != []
    case EndUpdate => s.updating && s.todo == []
    case Grab => s.grabbed.None?
    case Dispatch(names) => s.grabbed.Some? && Covers(names, s.known.Keys + Grabbed(s).Keys)
    case Register(t) => s.grabbed.None?
    case Unregister(t) => s.grabbed.None? && t in s.targets
    case Stop => !s.updating && s.grabbed.None?
  }

  function Tell(names: seq<Name>, known: Systems, updates: Updates, t: Target): Target {
    Target(false, t.calls + Deliveries(names, known, updates, t.isNew))
  }

  function Step(s: Client, e: Event): Client {
    match e
    case BeginUpdate(news, names) => s.(updating := true, next := news, todo := Reports(names, s.reported, news))
    case ReportNext =>
      if s.todo == [] then s
      else s.(todo := s.todo[1..], pending := Post(s.pending, s.todo[0]), announced := Learn(s.announced, s.todo[0]))
    case EndUpdate => s.(updating := false, reported := s.next)
    case Grab => s.(grabbed := Some(s.pending), pending := map[])
    case Dispatch(names) =>
      s.(targets := map t | t in s.targets :: Tell(names, s.known, Grabbed(s), s.targets[t]),
         known := Overlay(s.known, Grabbed(s)),
         grabbed := None)
    case Register(t) => s.(targets := s.targets[t := Target(true, if t in s.targets then s.targets[t].calls else [])])
    case Unregister(t) => s.(targets := s.targets - {t})
    case Stop => s.(reported := map[], announced := map[], pending := map[], known := map[])
  }

  ghost predicate IsRun(events: seq<Event>)
    decreases |events|, 1
  {
    events == [] ||
    (var n := |events| - 1;
     IsRun(events[..n]) && Enabled(After(events[..n]), events[n]))
  }

  ghost function After(events: seq<Event>): Client
    decreases |events|, 0
  {
    if events == [] then STOPPED else Step(After(events[..|events| - 1]), events[|events| - 1])
  }

  // ----- Nothing is lost between the threads -----

  /** What is known, what is grabbed and what is pending add up to what has been
      reported, and the reports still to make lead to the new result set. */
  ghost predicate Consistent(s: Client) {
    && Overlay(Overlay(s.known, Grabbed(s)), s.pending) == s.announced
    && (if s.updating then LearnAll(s.announced, s.todo) == s.next else s.announced == s.reported)
  }

  lemma {:induction false} LearnFirst(m: Systems, calls: seq<Call>)
    requires calls != []
    ensures LearnAll(m, calls) == LearnAll(Learn(m, calls[0]), calls[1..])
  {
    assert calls == [calls[0]] + calls[1..];
    LearnMore(m, [calls[0]], calls[1..]);
    assert [] + [calls[0]] == [calls[0]];
    LearnOneMore(m, [], calls[0]);
  }

  lemma StepConsistent(s: Client, e: Event)
    requires Consistent(s) && Enabled(s, e)
    ensures Consistent(Step(s, e))
  {
    hide Overlay, LearnAll, Reports;
    match e {
      case BeginUpdate(news, names) =>
        ReportsAddUp(names, s.reported, news);
      case ReportNext =>
        LearnFirst(s.announced, s.todo);
        OverlayPost(Overlay(s.known, Grabbed(s)), s.pending, s.todo[0]);
      case EndUpdate =>
        LearnNothing(s.announced);
      case Grab =>
        OverlayNothing(s.known);
        OverlayNothing(Overlay(s.known, s.pending));
      case Dispatch(names) =>
        OverlayNothing(Overlay(s.known, Grabbed(s)));
      case Register(t) =>
      case Unregister(t) =>
      case Stop =>
        OverlayNothing(map[]);
    }
  }

  lemma {:induction false} RunConsistent(events: seq<Event>)
    requires IsRun(events)
    ensures Consistent(After(events))
    decreases |events|
  {
    if events == [] {
      OverlayNothing(map[]);
    } else {
      hide Consistent, Step, Enabled;
      var n := |events| - 1;
      RunConsistent(events[..n]);
      StepConsistent(After(events[..n]), events[n]);
    }
  }

  /** In every run, whenever neither thread is in the middle of something, the known
      systems overlaid with the pending updates are the last reported result set;
      with nothing pending either, what is known is that set. */
  lemma NothingIsLost(events: seq<Event>)
    requires IsRun(events) && !After(events).updating && After(events).grabbed.None?
    ensures var s := After(events);
            Overlay(s.known, s.pending) == s.reported && (s.pending == map[] ==> s.known == s.reported)
  {
    RunConsistent(events);
    var s := After(events);
    OverlayNothing(s.known);
  }

  // ----- Every target is told -----

  /** What a target has heard adds up to what the client knows, or it is new and has
      heard nothing yet. */
  ghost predicate IsTold(t: Target, known: Systems) {
    LearnAll(map[], t.calls) == known || (t.isNew && t.calls == [])
  }

  ghost predicate TargetsTold(s: Client) {
    forall t :: t in s.targets ==> IsTold(s.targets[t], s.known)
  }

  lemma TellTells(names: seq<Name>, known: Systems, updates: Updates, t: Target)
    requires Covers(names, known.Keys + updates.Keys)
    requires IsTold(t, known)
    ensures LearnAll(map[], Tell(names, known, updates, t).calls) == Overlay(known, updates)
  {
    hide Deliveries, Overlay;
    LearnNothing(map[]);
    DeliveriesTellAll(names, known, updates, t.isNew, LearnAll(map[], t.calls));
    LearnMore(map[], t.calls, Deliveries(names, known, updates, t.isNew));
  }

  lemma StepTold(s: Client, e: Event)
    requires TargetsTold(s) && Enabled(s, e) && !e.Stop?
    ensures TargetsTold(Step(s, e))
    ensures e.Dispatch? ==> forall t :: t in s.targets ==> !Step(s, e).targets[t].isNew
  {
    hide LearnAll, Reports, Overlay, Deliveries;
    if e.Dispatch? {
      forall t | t in s.targets
        ensures LearnAll(map[], Tell(e.names, s.known, Grabbed(s), s.targets[t]).calls) == Overlay(s.known, Grabbed(s))
      {
        TellTells(e.names, s.known, Grabbed(s), s.targets[t]);
      }
    }
  }

  lemma {:induction false} RunTold(events: seq<Event>)
    requires IsRun(events) && forall e :: e in events ==> !e.Stop?
    ensures TargetsTold(After(events))
    decreases |events|
  {
    if events != [] {
      hide TargetsTold, Step, Enabled;
      var n := |events| - 1;
      assert events == events[..n] + [events[n]];
      RunTold(events[..n]);
      StepTold(After(events[..n]), events[n]);
    }
  }

  /** In every run without a stop, after each dispatch every registered target, new
      ones included, has had calls that add up to the known systems. */
  lemma DispatchTellsEveryone(events: seq<Event>, names: seq<Name>, t: nat)
    requires IsRun(events + [Dispatch(names)]) && (forall e :: e in events ==> !e.Stop?)
    requires t in After(events + [Dispatch(names)]).targets
    ensures var s := After(events + [Dispatch(names)]);
            !s.targets[t].isNew && LearnAll(map[], s.targets[t].calls) == s.known
  {
    hide Step, Enabled, LearnAll;
    var all := events + [Dispatch(names)];
    assert all[..|events|] == events;
    RunTold(events);
    StepTold(After(events), Dispatch(names));
    DispatchKeepsTargets(After(events), names);
  }

  lemma DispatchKeepsTargets(s: Client, names: seq<Name>)
    ensures Step(s, Dispatch(names)).targets.Keys == s.targets.Keys
  {
  }

  /** A stop forgets the known systems without telling anyone: afterwards the targets
      are right exactly if there was nothing known or none of them had been called. */
  lemma StopTellsNobody(s: Client)
    requires TargetsTold(s) && Enabled(s, Stop)
    ensures TargetsTold(Step(s, Stop)) <==>
              s.known == map[] || forall t :: t in s.targets ==> s.targets[t].isNew && s.targets[t].calls == []
  {
    hide LearnAll;
    var r := Step(s, Stop);
    if TargetsTold(r) {
      forall t | t in s.targets && !(s.targets[t].isNew && s.targets[t].calls == [])
        ensures s.known == map[]
      {
        assert IsTold(r.targets[t], r.known) && IsTold(s.targets[t], s.known);
      }
    }
  }

  const FOUND: Systems := map["a" := 7]

  lemma RunOneMore(events: seq<Event>, e: Event)
    requires IsRun(events) && Enabled(After(events), e)
    ensures IsRun(events + [e]) && After(events + [e]) == Step(After(events), e)
  {
    assert (events + [e])[..|events|] == events;
  }

  /** A run in which a target is told of a system and then, after a stop, never again
      hears that the client does not know it any more. */
  lemma StopExample()
    ensures exists events :: IsRun(events) && 1 in After(events).targets
              && After(events).known == map[] && LearnAll(map[], After(events).targets[1].calls) == FOUND
  {
    var told := OneIsTold();
    RunOneMore(told, Stop);
    assert After(told + [Stop]).targets == After(told).targets;
  }

  lemma OneIsTold() returns (events: seq<Event>)
    ensures IsRun(events) && Enabled(After(events), Stop) && 1 in After(events).targets
    ensures LearnAll(map[], After(events).targets[1].calls) == FOUND
  {
    var names := ["a"];
    assert Covers(names, {"a"}) by { assert names[0] == "a"; }
    events := OneIsPending();
    var before := After(events);
    RunOneMore(events, Grab);
    events := events + [Grab];
    RunOneMore(events, Dispatch(names));
    assert IsTold(before.targets[1], before.known);
    TellTells(names, before.known, before.pending, before.targets[1]);
    OverlayNothing(before.known);
    events := events + [Dispatch(names)];
  }

  lemma OneIsPending() returns (events: seq<Event>)
    ensures IsRun(events)
    ensures var s := After(events);
            && !s.updating && s.grabbed.None? && s.known == map[] && Overlay(s.known, s.pending) == FOUND
            && s.pending.Keys == {"a"} && s.targets == map[1 := Target(true, [])]
  {
    var names := ["a"];
    events := [];
    RunOneMore(events, Register(1));
    events := events + [Register(1)];
    assert Covers(names, {"a"}) by { assert names[0] == "a"; }
    OneReport(names);
    RunOneMore(events, BeginUpdate(FOUND, names));
    events := events + [BeginUpdate(FOUND, names)];
    RunOneMore(events, ReportNext);
    events := events + [ReportNext];
    RunOneMore(events, EndUpdate);
    events := events + [EndUpdate];
  }

  lemma OneReport(names: seq<Name>)
    requires names == ["a"]
    ensures Reports(names, map[], FOUND) == [Call("a", Some(7))]
  {
    var gone, changed := Gone(map[], FOUND), Changed(map[], FOUND);
    assert Listing(names, gone, 0) == [] && Listing(names, gone, 1) == [];
    assert Listing(names, changed, 0) == [] && Listing(names, changed, 1) == [Call("a", Some(7))];
  }
}
