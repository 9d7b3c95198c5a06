/** NoteAssignmentsMap as a value: which peer plays which notes. The table keeps
    its insertion order, which decides what is archived and who keeps a note. */
module AssignmentTables {
  import opened Tables
  import opened Chords

  type PeerId = nat

  const INVALID_PEER: PeerId := 0
  const AUTOMATIC: nat := 0
  const ASSISTED: nat := 1
  const MANUAL: nat := 2

  datatype Assignments = Assignments(order: seq<PeerId>, chords: map<PeerId, Chord>, strategy: nat)

  const DEFAULT_ASSIGNMENTS := Assignments([], map[], AUTOMATIC)

  /** The order lists exactly the peers that have notes, each once. */
  ghost predicate Proper(a: Assignments) {
    && Distinct(a.order)
    && (forall p :: p in a.order <==> p in a.chords)
    && NoZero(a.chords)
  }

  function Notes(a: Assignments, p: PeerId): Chord {
    At(a.chords, p)
  }

  /** SetNoteAssignmentsForPeerID. */
  function SetNotes(a: Assignments, p: PeerId, notes: Chord): Assignments {
    a.(order := if notes == {} then Keeping(a.order, a.chords.Keys - {p})
                else if p in a.chords then a.order
                else a.order + [p],
       chords := Put(a.chords, p, notes))
  }

  lemma SetNotesProper(a: Assignments, p: PeerId, notes: Chord)
    requires Proper(a)
    ensures Proper(SetNotes(a, p, notes))
  {
  }

  /** The table cut down to the given chords: smaller ones for some of its peers. */
  function CutTo(a: Assignments, chords: map<PeerId, Chord>): Assignments {
    a.(order := Keeping(a.order, chords.Keys), chords := chords)
  }

  lemma CutToProper(a: Assignments, chords: map<PeerId, Chord>)
    requires Proper(a) && NoZero(chords) && chords.Keys <= a.chords.Keys
    ensures Proper(CutTo(a, chords))
  {
  }

  /** Taking notes from one peer of a cut-down table cuts it down further. */
  lemma CutFurther(a: Assignments, chords: map<PeerId, Chord>, p: PeerId, notes: Chord)
    requires Proper(a) && NoZero(chords) && chords.Keys <= a.chords.Keys && p in chords
    ensures SetNotes(CutTo(a, chords), p, notes) == CutTo(a, Put(chords, p, notes))
  {
    if notes == {} {
      KeepingTwice(a.order, chords.Keys, chords.Keys - {p});
      assert (chords - {p}).Keys == chords.Keys - {p};
    } else {
      assert chords[p := notes].Keys == chords.Keys;
    }
  }

  lemma CutToSelf(a: Assignments)
    requires Proper(a)
    ensures CutTo(a, a.chords) == a
  {
    KeepingAll(a.order, a.chords.Keys);
  }

  // ----- Messages -----

  /** What an update message can be. A review names the online peers, in their
      table order, and the notes in use in the song (absent when the song is not
      available); an orphan check names the online peers. */
  datatype MapMsg =
    | ToggleAssignment(peer: Option<PeerId>, note: Note)
    | UnassignOrphans(online: seq<PeerId>)
    | ReviewAssignments(online: seq<PeerId>, used: Option<Chord>)
    | SetStrategy(strategy: nat)
    | Noop
    | MapArchive(archivedStrategy: nat, peers: seq<PeerId>, chords: seq<Chord>)
    | Unknown(what: nat)

  /** UnassignNote: nobody plays the note any more. */
  function WithoutNote(chords: map<PeerId, Chord>, n: Note): map<PeerId, Chord> {
    map p | p in chords && chords[p] - {n} != {} :: chords[p] - {n}
  }

  function HandleToggle(a: Assignments, peer: Option<PeerId>, n: Note): (Assignments, bool) {
    if peer.None? then (a, false)
    else if peer.value != INVALID_PEER then
      var c := Notes(a, peer.value);
      (SetNotes(a, peer.value, if n in c then c - {n} else c + {n}), true)
    else (CutTo(a, WithoutNote(a.chords, n)), true)
  }

  function OnlineChords(chords: map<PeerId, Chord>, online: seq<PeerId>): map<PeerId, Chord> {
    map p | p in chords && p in online :: chords[p]
  }

  function OnlineOnly(a: Assignments, online: seq<PeerId>): Assignments {
    CutTo(a, OnlineChords(a.chords, online))
  }

  // ----- The archive -----

  function SetAll(a: Assignments, peers: seq<PeerId>, values: seq<Chord>, n: nat): Assignments
    requires n <= |peers| && n <= |values|
  {
    if n == 0 then a else SetNotes(SetAll(a, peers, values, n - 1), peers[n - 1], values[n - 1])
  }

  function Load(a: Assignments, m: MapMsg): (Assignments, bool) {
    match m
    case MapArchive(strategy, peers, chords) =>
      (SetAll(DEFAULT_ASSIGNMENTS.(strategy := strategy), peers, chords, Shorter(peers, chords)), true)
    case _ => (a, false)
  }

  function ChordsOf(a: Assignments, peers: seq<PeerId>): (r: seq<Chord>)
    ensures |r| == |peers| && forall i :: 0 <= i < |peers| ==> r[i] == Notes(a, peers[i])
  {
    if peers == [] then [] else ChordsOf(a, peers[..|peers| - 1]) + [Notes(a, peers[|peers| - 1])]
  }

  function Save(a: Assignments): MapMsg {
    MapArchive(a.strategy, a.order, ChordsOf(a, a.order))
  }

  /** The first `n` entries of a table. */
  ghost function Front(a: Assignments, n: nat): Assignments
    requires n <= |a.order|
  {
    a.(order := a.order[..n], chords := map p | p in a.order[..n] && p in a.chords :: a.chords[p])
  }

  lemma FrontOneMore(a: Assignments, n: nat)
    requires Proper(a) && n < |a.order|
    ensures SetNotes(Front(a, n), a.order[n], Notes(a, a.order[n])) == Front(a, n + 1)
  {
    var p := a.order[n];
    assert a.order[..n + 1] == a.order[..n] + [p];
    assert p !in Front(a, n).chords;
    assert Front(a, n + 1).chords == Front(a, n).chords[p := a.chords[p]];
  }

  lemma FrontOfNothing(a: Assignments)
    ensures Front(a, 0) == DEFAULT_ASSIGNMENTS.(strategy := a.strategy)
  {
    assert a.order[..0] == [];
  }

  lemma {:induction false} SetAllRebuilds(a: Assignments, values: seq<Chord>, n: nat)
    requires Proper(a) && n <= |a.order| && |values| == |a.order|
    requires forall i :: 0 <= i < |a.order| ==> values[i] == Notes(a, a.order[i])
    ensures SetAll(DEFAULT_ASSIGNMENTS.(strategy := a.strategy), a.order, values, n) == Front(a, n)
  {
    hide SetNotes, Front;
    if n == 0 {
      FrontOfNothing(a);
    } else {
      SetAllRebuilds(a, values, n - 1);
      FrontOneMore(a, n - 1);
    }
  }

  /** Loading a saved table, into any table, gives back its entries, their order
      and the strategy. */
  lemma SaveThenLoad(a: Assignments, into: Assignments)
    requires Proper(a)
    ensures Load(into, Save(a)) == (a, true)
  {
    SetAllRebuilds(a, ChordsOf(a, a.order), |a.order|);
    assert a.order[..|a.order|] == a.order;
    assert Front(a, |a.order|).chords == a.chords;
  }

  lemma {:induction false} SetAllProper(a: Assignments, peers: seq<PeerId>, values: seq<Chord>, n: nat)
    requires Proper(a) && n <= |peers| && n <= |values|
    ensures Proper(SetAll(a, peers, values, n))
  {
    if n > 0 {
      SetAllProper(a, peers, values, n - 1);
      SetNotesProper(SetAll(a, peers, values, n - 1), peers[n - 1], values[n - 1]);
    }
  }
}
