/** The choir's two databases plugged into the replication engine: they keep the
    engine's bargain, so replica safety and convergence hold for them without
    further conditions. The engine reads each object's running checksum; that it is
    the recalculated one is part of what is proved. */
module ChoirReplication {
  import opened Tables
  import opened Chords
  import opened Database
  import opened Replication
  import opened ReplicaSafety
  import Chronicle
  import opened Convergence
  import M = MusicSheets
  import MO = MusicSheetObject
  import A = AssignmentTables
  import N = NoteAssignments
  import NO = NoteAssignmentsObject

  /** A database object as the engine sees it: its value and its running checksum. */
  datatype Held<S> = Held(value: S, checksum: nat)

  /** A running checksum that follows a change: it moves by as much as a full scan
      would, and a wrong one stays as wrong as it was. */
  function Moved(checksum: nat, before: nat, after: nat): nat {
    Wrap32(checksum - before + after)
  }

  lemma MovedIsFull(n: int, before: nat)
    ensures Moved(before, before, Wrap32(n)) == Wrap32(n)
  {
  }

  // ----- The song -----

  ghost function SheetFull(sums: Sums, s: M.Sheet): (r: nat)
    ensures Wrap32(r) == r
  {
    M.FullChecksum(sums, s)
  }

  ghost function SheetMoved(sums: Sums, h: Held<M.Sheet>, s: M.Sheet): Held<M.Sheet> {
    Held(s, Moved(h.checksum, SheetFull(sums, h.value), SheetFull(sums, s)))
  }

  const NEW_SHEET := Held(M.DEFAULT_SHEET, 0)

  ghost function SheetSenior(sums: Sums, h: Held<M.Sheet>, m: M.SheetMsg): (Held<M.Sheet>, Option<M.SheetMsg>) {
    var (s, reply) := M.Senior(h.value, m);
    (SheetMoved(sums, h, s), reply)
  }

  ghost function SheetJunior(sums: Sums, h: Held<M.Sheet>, m: M.SheetMsg): (Held<M.Sheet>, bool) {
    var (s, ok) := M.Junior(h.value, m);
    (SheetMoved(sums, h, s), ok)
  }

  ghost function SheetLoad(sums: Sums, h: Held<M.Sheet>, m: M.SheetMsg): (Held<M.Sheet>, bool) {
    var (s, ok) := M.Load(h.value, m);
    (if ok then SheetMoved(sums, NEW_SHEET, s) else h, ok)
  }

  ghost predicate SheetGood(sums: Sums, h: Held<M.Sheet>) {
    NoZero(h.value.chords) && h.checksum == SheetFull(sums, h.value)
  }

  ghost function SheetApp(sums: Sums, size: M.SheetMsg -> nat): App<Held<M.Sheet>, M.SheetMsg> {
    App(NEW_SHEET,
        (h: Held<M.Sheet>, m: M.SheetMsg) => SheetSenior(sums, h, m),
        (h: Held<M.Sheet>, m: M.SheetMsg) => SheetJunior(sums, h, m),
        (h: Held<M.Sheet>, m: M.SheetMsg) => SheetLoad(sums, h, m),
        (h: Held<M.Sheet>) => Some(M.Save(h.value)),
        (h: Held<M.Sheet>) => h.checksum,
        (h: Held<M.Sheet>) => SheetFull(sums, h.value),
        size,
        (h: Held<M.Sheet>) => SheetGood(sums, h))
  }

  lemma SheetMovedGood(sums: Sums, h: Held<M.Sheet>, s: M.Sheet)
    requires h.checksum == SheetFull(sums, h.value)
    ensures SheetMoved(sums, h, s) == Held(s, SheetFull(sums, s))
  {
    MovedIsFull(SheetFull(sums, s), h.checksum);
  }

  lemma NewSheetGood(sums: Sums)
    requires sums.str("") == 0
    ensures SheetGood(sums, NEW_SHEET)
  {
  }

  lemma SheetSeniorKept(sums: Sums, h: Held<M.Sheet>, m: M.SheetMsg)
    requires SheetGood(sums, h)
    ensures var (h', reply) := SheetSenior(sums, h, m);
            && SheetGood(sums, h')
            && (reply.None? ==> h' == h)
            && (reply.Some? ==> SheetJunior(sums, h, reply.value) == (h', true))
  {
    hide M.Senior, M.Junior, SheetFull, SheetMoved;
    M.JuniorFollowsSenior(h.value, m);
    SheetMovedGood(sums, h, M.Senior(h.value, m).0);
  }

  lemma SheetLoads(sums: Sums, h: Held<M.Sheet>, m: M.SheetMsg)
    requires SheetGood(sums, h) && sums.str("") == 0
    ensures SheetGood(sums, SheetLoad(sums, h, m).0)
    ensures !SheetLoad(sums, h, m).1 ==> SheetLoad(sums, h, m).0 == h
  {
    hide SheetFull, SheetMoved;
    NewSheetGood(sums);
    if m.SheetArchive? {
      M.PutAllNoZero(m.indices, m.chords, Shorter(m.indices, m.chords));
      SheetMovedGood(sums, NEW_SHEET, M.Load(h.value, m).0);
    }
  }

  lemma SheetLoadsSaved(sums: Sums, h: Held<M.Sheet>, into: Held<M.Sheet>)
    requires SheetGood(sums, h) && sums.str("") == 0
    ensures SheetLoad(sums, into, M.Save(h.value)) == (h, true)
  {
    hide M.Load, M.Save, SheetFull, SheetMoved;
    NewSheetGood(sums);
    M.SaveThenLoad(h.value, into.value);
    SheetMovedGood(sums, NEW_SHEET, h.value);
  }

  lemma SheetIsCorrect(sums: Sums, size: M.SheetMsg -> nat)
    requires sums.str("") == 0
    ensures Correct(SheetApp(sums, size)) && Saves(SheetApp(sums, size))
  {
    hide SheetSenior, SheetJunior, SheetLoad, M.Save;
    var app := SheetApp(sums, size);
    NewSheetGood(sums);
    forall h, m | app.good(h)
      ensures SeniorKept(app, h, m)
    {
      SheetSeniorKept(sums, h, m);
    }
    forall h, m | app.good(h)
      ensures app.good(app.load(h, m).0) && (!app.load(h, m).1 ==> app.load(h, m).0 == h)
    {
      SheetLoads(sums, h, m);
    }
    forall h | app.good(h)
      ensures LoadsAs(app, app.save(h).value, h)
    {
      forall into | app.good(into)
        ensures app.load(into, app.save(h).value) == (h, true)
      {
        SheetLoadsSaved(sums, h, into);
      }
    }
  }

  /** Every copy of the song in every run from birth: at state k, the very song the
      senior had at state k, path and chords, and its running checksum is that of a
      full scan. */
  lemma SongsAreReplicated(sums: Sums, size: M.SheetMsg -> nat, s: System<Held<M.Sheet>, M.SheetMsg>,
                           events: seq<Event<M.SheetMsg>>, p: PeerId)
    requires sums.str("") == 0 && Birth(SheetApp(sums, size), s) && IsRun(SheetApp(sums, size), s, events)
    requires p in After(SheetApp(sums, size), s, events).juniors
    ensures var now := After(SheetApp(sums, size), s, events);
            var db := now.juniors[p].db;
            && db.localId < |now.history|
            && db.content == now.history[db.localId]
            && db.checksum == db.content.checksum == M.FullChecksum(sums, db.content.value)
            && (db.localId == now.senior.localId ==> db.content == now.senior.content)
  {
    var app := SheetApp(sums, size);
    SheetIsCorrect(sums, size);
    BirthIsReplicated(app, s);
    ReplicasAreFaithful(app, s, events, p);
    HistoryIsGood(app, s, events, p);
  }

  /** From a command to every copy of the song: whoever is at the state an accepted command
      made holds what the command makes of the song the senior then had. */
  lemma SongCommandsArrive(sums: Sums, size: M.SheetMsg -> nat, s: System<Held<M.Sheet>, M.SheetMsg>,
                           first: seq<Event<M.SheetMsg>>, m: M.SheetMsg, second: seq<Event<M.SheetMsg>>, p: PeerId)
    requires sums.str("") == 0 && Birth(SheetApp(sums, size), s) && IsRun(SheetApp(sums, size), s, first)
    requires IsRun(SheetApp(sums, size), SubmitStep(SheetApp(sums, size), After(SheetApp(sums, size), s, first), UpdateRequest(Some(m))), second)
    requires var before := After(SheetApp(sums, size), s, first);
             var now := After(SheetApp(sums, size), SubmitStep(SheetApp(sums, size), before, UpdateRequest(Some(m))), second);
             && M.Senior(before.senior.content.value, m).1.Some?
             && p in now.juniors && now.juniors[p].db.localId == before.senior.localId + 1
    ensures var before := After(SheetApp(sums, size), s, first);
            var now := After(SheetApp(sums, size), SubmitStep(SheetApp(sums, size), before, UpdateRequest(Some(m))), second);
            now.juniors[p].db.content.value == M.Senior(before.senior.content.value, m).0
  {
    hide M.Senior, SubmitStep;
    var app := SheetApp(sums, size);
    SheetIsCorrect(sums, size);
    BirthIsReplicated(app, s);
    Chronicle.RequestsArrive(app, s, first, UpdateRequest(Some(m)), second, p);
  }

  lemma HistoryIsGood<D(!new), C(!new)>(app: App<D, C>, s: System<D, C>, events: seq<Event<C>>, p: PeerId)
    requires Correct(app) && Replicated(app, s) && IsRun(app, s, events) && p in After(app, s, events).juniors
    ensures app.good(After(app, s, events).juniors[p].db.content)
  {
    RunSound(app, s, events);
    var now := After(app, s, events);
    assert JuniorSound(app, now.history, now.juniors[p]);
  }

  // ----- Who plays what -----

  ghost function MapFull(sums: Sums, a: A.Assignments): (r: nat)
    ensures Wrap32(r) == r
  {
    N.FullChecksum(sums, a.strategy, a.chords)
  }

  ghost function MapMoved(sums: Sums, h: Held<A.Assignments>, a: A.Assignments): Held<A.Assignments> {
    Held(a, Moved(h.checksum, MapFull(sums, h.value), MapFull(sums, a)))
  }

  const NEW_MAP := Held(A.DEFAULT_ASSIGNMENTS, 0)

  ghost function MapSenior(sums: Sums, h: Held<A.Assignments>, m: A.MapMsg): (Held<A.Assignments>, Option<A.MapMsg>) {
    var (a, reply) := N.Senior(h.value, m);
    (MapMoved(sums, h, a), reply)
  }

  ghost function MapJunior(sums: Sums, h: Held<A.Assignments>, m: A.MapMsg): (Held<A.Assignments>, bool) {
    var (a, ok) := N.Junior(h.value, m);
    (MapMoved(sums, h, a), ok)
  }

  ghost function MapLoad(sums: Sums, h: Held<A.Assignments>, m: A.MapMsg): (Held<A.Assignments>, bool) {
    var (a, ok) := A.Load(h.value, m);
    (if ok then MapMoved(sums, NEW_MAP, a) else h, ok)
  }

  ghost predicate MapGood(sums: Sums, h: Held<A.Assignments>) {
    A.Proper(h.value) && h.checksum == MapFull(sums, h.value)
  }

  ghost function MapApp(sums: Sums, size: A.MapMsg -> nat): App<Held<A.Assignments>, A.MapMsg> {
    App(NEW_MAP,
        (h: Held<A.Assignments>, m: A.MapMsg) => MapSenior(sums, h, m),
        (h: Held<A.Assignments>, m: A.MapMsg) => MapJunior(sums, h, m),
        (h: Held<A.Assignments>, m: A.MapMsg) => MapLoad(sums, h, m),
        (h: Held<A.Assignments>) => Some(A.Save(h.value)),
        (h: Held<A.Assignments>) => h.checksum,
        (h: Held<A.Assignments>) => MapFull(sums, h.value),
        size,
        (h: Held<A.Assignments>) => MapGood(sums, h))
  }

  lemma MapMovedGood(sums: Sums, h: Held<A.Assignments>, a: A.Assignments)
    requires h.checksum == MapFull(sums, h.value)
    ensures MapMoved(sums, h, a) == Held(a, MapFull(sums, a))
  {
    MovedIsFull(MapFull(sums, a), h.checksum);
  }

  lemma NewMapGood(sums: Sums)
    ensures MapGood(sums, NEW_MAP)
  {
  }

  lemma MapSeniorKept(sums: Sums, h: Held<A.Assignments>, m: A.MapMsg)
    requires MapGood(sums, h)
    ensures var (h', reply) := MapSenior(sums, h, m);
            && MapGood(sums, h')
            && (reply.None? ==> h' == h)
            && (reply.Some? ==> MapJunior(sums, h, reply.value) == (h', true))
  {
    hide N.Senior, N.Junior, MapFull, MapMoved, A.Proper;
    N.SeniorProper(h.value, m);
    N.JuniorFollowsSenior(h.value, m);
    MapMovedGood(sums, h, N.Senior(h.value, m).0);
  }

  lemma MapLoads(sums: Sums, h: Held<A.Assignments>, m: A.MapMsg)
    requires MapGood(sums, h)
    ensures MapGood(sums, MapLoad(sums, h, m).0)
    ensures !MapLoad(sums, h, m).1 ==> MapLoad(sums, h, m).0 == h
  {
    hide MapFull, MapMoved;
    NewMapGood(sums);
    if m.MapArchive? {
      A.SetAllProper(A.DEFAULT_ASSIGNMENTS.(strategy := m.archivedStrategy), m.peers, m.chords, Shorter(m.peers, m.chords));
      MapMovedGood(sums, NEW_MAP, A.Load(h.value, m).0);
    }
  }

  lemma MapLoadsSaved(sums: Sums, h: Held<A.Assignments>, into: Held<A.Assignments>)
    requires MapGood(sums, h)
    ensures MapLoad(sums, into, A.Save(h.value)) == (h, true)
  {
    hide A.Load, A.Save, MapFull, MapMoved;
    NewMapGood(sums);
    A.SaveThenLoad(h.value, into.value);
    MapMovedGood(sums, NEW_MAP, h.value);
  }

  lemma MapIsCorrect(sums: Sums, size: A.MapMsg -> nat)
    ensures Correct(MapApp(sums, size)) && Saves(MapApp(sums, size))
  {
    hide MapSenior, MapJunior, MapLoad, A.Save;
    var app := MapApp(sums, size);
    NewMapGood(sums);
    hide A.Proper;
    forall h, m | app.good(h)
      ensures SeniorKept(app, h, m)
    {
      MapSeniorKept(sums, h, m);
    }
    forall h, m | app.good(h)
      ensures app.good(app.load(h, m).0) && (!app.load(h, m).1 ==> app.load(h, m).0 == h)
    {
      MapLoads(sums, h, m);
    }
    forall h | app.good(h)
      ensures LoadsAs(app, app.save(h).value, h)
    {
      forall into | app.good(into)
        ensures app.load(into, app.save(h).value) == (h, true)
      {
        MapLoadsSaved(sums, h, into);
      }
    }
  }

  /** Every copy of the assignments in every run from birth: at state k, the very
      table the senior had at state k, its order included, although reviews are
      carried out by the senior alone and travel as archives. */
  lemma AssignmentsAreReplicated(sums: Sums, size: A.MapMsg -> nat, s: System<Held<A.Assignments>, A.MapMsg>,
                                 events: seq<Event<A.MapMsg>>, p: PeerId)
    requires Birth(MapApp(sums, size), s) && IsRun(MapApp(sums, size), s, events)
    requires p in After(MapApp(sums, size), s, events).juniors
    ensures var now := After(MapApp(sums, size), s, events);
            var db := now.juniors[p].db;
            && db.localId < |now.history|
            && db.content == now.history[db.localId]
            && db.checksum == db.content.checksum == N.FullChecksum(sums, db.content.value.strategy, db.content.value.chords)
            && (db.localId == now.senior.localId ==> db.content == now.senior.content)
  {
    var app := MapApp(sums, size);
    MapIsCorrect(sums, size);
    BirthIsReplicated(app, s);
    ReplicasAreFaithful(app, s, events, p);
    HistoryIsGood(app, s, events, p);
  }

  /** The same for the assignments: a review, too, is in every copy what it was on the senior. */
  lemma AssignmentCommandsArrive(sums: Sums, size: A.MapMsg -> nat, s: System<Held<A.Assignments>, A.MapMsg>,
                                 first: seq<Event<A.MapMsg>>, m: A.MapMsg, second: seq<Event<A.MapMsg>>, p: PeerId)
    requires Birth(MapApp(sums, size), s) && IsRun(MapApp(sums, size), s, first)
    requires IsRun(MapApp(sums, size), SubmitStep(MapApp(sums, size), After(MapApp(sums, size), s, first), UpdateRequest(Some(m))), second)
    requires var before := After(MapApp(sums, size), s, first);
             var now := After(MapApp(sums, size), SubmitStep(MapApp(sums, size), before, UpdateRequest(Some(m))), second);
             && N.Senior(before.senior.content.value, m).1.Some?
             && p in now.juniors && now.juniors[p].db.localId == before.senior.localId + 1
    ensures var before := After(MapApp(sums, size), s, first);
            var now := After(MapApp(sums, size), SubmitStep(MapApp(sums, size), before, UpdateRequest(Some(m))), second);
            now.juniors[p].db.content.value == N.Senior(before.senior.content.value, m).0
  {
    hide N.Senior, SubmitStep;
    var app := MapApp(sums, size);
    MapIsCorrect(sums, size);
    BirthIsReplicated(app, s);
    Chronicle.RequestsArrive(app, s, first, UpdateRequest(Some(m)), second, p);
  }

  // ----- The hooks are the objects' own methods -----

  method SheetSeniorHook(sheet: MO.MusicSheet, m: M.SheetMsg) returns (reply: Option<M.SheetMsg>)
    requires sheet.Valid()
    modifies sheet
    ensures sheet.Valid()
    ensures (Held(sheet.Contents(), sheet.checksum), reply) ==
            SheetSenior(sheet.sums, old(Held(sheet.Contents(), sheet.checksum)), m)
  {
    hide M.Senior, Counted, SheetMoved;
    ghost var h := Held(sheet.Contents(), sheet.checksum);
    reply := sheet.SeniorUpdate(m);
    SheetMovedGood(sheet.sums, h, sheet.Contents());
  }

  method SheetJuniorHook(sheet: MO.MusicSheet, m: M.SheetMsg) returns (ok: bool)
    requires sheet.Valid()
    modifies sheet
    ensures sheet.Valid()
    ensures (Held(sheet.Contents(), sheet.checksum), ok) ==
            SheetJunior(sheet.sums, old(Held(sheet.Contents(), sheet.checksum)), m)
  {
    hide M.Junior, Counted, SheetMoved;
    ghost var h := Held(sheet.Contents(), sheet.checksum);
    ok := sheet.JuniorUpdate(m);
    SheetMovedGood(sheet.sums, h, sheet.Contents());
  }

  method SheetLoadHook(sheet: MO.MusicSheet, m: M.SheetMsg) returns (ok: bool)
    requires sheet.Valid()
    modifies sheet
    ensures sheet.Valid()
    ensures (Held(sheet.Contents(), sheet.checksum), ok) ==
            SheetLoad(sheet.sums, old(Held(sheet.Contents(), sheet.checksum)), m)
  {
    hide Counted, SheetMoved;
    NewSheetGood(sheet.sums);
    ok := sheet.SetFromArchive(m);
    SheetMovedGood(sheet.sums, NEW_SHEET, sheet.Contents());
  }

  method MapSeniorHook(table: NO.NoteAssignmentsMap, m: A.MapMsg) returns (reply: Option<A.MapMsg>)
    requires table.Valid()
    modifies table
    ensures table.Valid()
    ensures (Held(table.Contents(), table.checksum), reply) ==
            MapSenior(table.sums, old(Held(table.Contents(), table.checksum)), m)
  {
    hide N.Senior, Counted, MapMoved, A.Proper;
    ghost var h := Held(table.Contents(), table.checksum);
    reply := table.SeniorUpdate(m);
    MapMovedGood(table.sums, h, table.Contents());
  }

  method MapJuniorHook(table: NO.NoteAssignmentsMap, m: A.MapMsg) returns (ok: bool)
    requires table.Valid()
    modifies table
    ensures table.Valid()
    ensures (Held(table.Contents(), table.checksum), ok) ==
            MapJunior(table.sums, old(Held(table.Contents(), table.checksum)), m)
  {
    hide N.Junior, Counted, MapMoved, A.Proper;
    ghost var h := Held(table.Contents(), table.checksum);
    ok := table.JuniorUpdate(m);
    MapMovedGood(table.sums, h, table.Contents());
  }

  method MapLoadHook(table: NO.NoteAssignmentsMap, m: A.MapMsg) returns (ok: bool)
    requires table.Valid()
    modifies table
    ensures table.Valid()
    ensures (Held(table.Contents(), table.checksum), ok) ==
            MapLoad(table.sums, old(Held(table.Contents(), table.checksum)), m)
  {
    hide Counted, MapMoved, A.Proper;
    NewMapGood(table.sums);
    ok := table.SetFromArchive(m);
    MapMovedGood(table.sums, NEW_MAP, table.Contents());
  }
}
