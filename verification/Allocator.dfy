/** SeniorAutoUpdateAssignments: forgetting peers that left, giving orphaned notes
    to the least loaded peer, removing duplicates and balancing the loads. */
module Allocator {
  import opened Tables
  import opened Chords
  import opened AssignmentTables

  // ----- Loads -----

  /** The notes of a chord that the choir knows. */
  function Low(c: Chord): Chord {
    set n | n in c && n < NUM_CHOIR_NOTES
  }

  /** CountBits. */
  function Burden(c: Chord): nat {
    |Low(c)|
  }

  /** GetLastNoteInChord, of a chord that has a choir note. */
  function LastNote(c: Chord): (r: Note)
    requires Burden(c) > 0
    ensures r in c && r < NUM_CHOIR_NOTES
    ensures forall n :: n in c && n < NUM_CHOIR_NOTES ==> n <= r
  {
    assert Low(c) != {};
    assert forall n :: n in c && n < NUM_CHOIR_NOTES ==> n in Low(c);
    LastKey(Low(c))
  }

  lemma BurdenLess(c: Chord, n: Note)
    requires n in c && n < NUM_CHOIR_NOTES
    ensures Burden(c - {n}) == Burden(c) - 1
  {
    assert Low(c - {n}) == Low(c) - {n};
  }

  lemma BurdenMore(c: Chord, n: Note)
    requires n < NUM_CHOIR_NOTES
    ensures Burden(c + {n}) == if n in c then Burden(c) else Burden(c) + 1
  {
    if n in c {
      assert c + {n} == c;
    } else {
      assert Low(c + {n}) == Low(c) + {n};
    }
  }

  /** The first online peer with the fewest notes. */
  function Lightest(chords: map<PeerId, Chord>, online: seq<PeerId>): (r: PeerId)
    requires online != []
    ensures r in online && forall p :: p in online ==> Burden(At(chords, r)) <= Burden(At(chords, p))
  {
    var n := |online| - 1;
    if n == 0 then online[0]
    else
      var best := Lightest(chords, online[..n]);
      assert online == online[..n] + [online[n]];
      if Burden(At(chords, online[n])) < Burden(At(chords, best)) then online[n] else best
  }

  /** The first online peer with the most notes. */
  function Heaviest(chords: map<PeerId, Chord>, online: seq<PeerId>): (r: PeerId)
    requires online != []
    ensures r in online && forall p :: p in online ==> Burden(At(chords, r)) >= Burden(At(chords, p))
  {
    var n := |online| - 1;
    if n == 0 then online[0]
    else
      var best := Heaviest(chords, online[..n]);
      assert online == online[..n] + [online[n]];
      if Burden(At(chords, online[n])) > Burden(At(chords, best)) then online[n] else best
  }

  // ----- Stage 1: peers that left -----

  /** How many peers at the head of the table are offline. */
  function LeadingRun(order: seq<PeerId>, online: seq<PeerId>): (k: nat)
    ensures k <= |order|
    ensures forall i :: 0 <= i < k ==> order[i] !in online
    ensures k < |order| ==> order[k] in online
  {
    if order == [] || order[0] in online then 0 else 1 + LeadingRun(order[1..], online)
  }

  /** The pass meant to forget every peer that left. Its iterator steps the wrong
      way, so it only forgets those at the head of the table. */
  function Prune(a: Assignments, online: seq<PeerId>): Assignments {
    var k := LeadingRun(a.order, online);
    a.(order := a.order[k..], chords := a.chords - Elements(a.order[..k]))
  }

  // ----- Stage 2: orphaned notes -----

  ghost predicate Assigned(chords: map<PeerId, Chord>, n: nat) {
    exists p :: n in At(chords, p)
  }

  predicate IsAssigned(chords: map<PeerId, Chord>, n: nat)
    ensures IsAssigned(chords, n) == Assigned(chords, n)
  {
    assert forall p :: n in At(chords, p) ==> p in chords && n in chords[p];
    assert forall p :: p in chords && n in chords[p] ==> n in At(chords, p);
    exists p :: p in chords && n in chords[p]
  }

  function AssignOrphan(a: Assignments, used: Chord, online: seq<PeerId>, n: Note): Assignments
    requires online != []
  {
    if n in used && !IsAssigned(a.chords, n) then
      var p := Lightest(a.chords, online);
      SetNotes(a, p, Notes(a, p) + {n})
    else a
  }

  function AssignOrphans(a: Assignments, used: Chord, online: seq<PeerId>, n: nat): Assignments
    requires online != [] && n <= NUM_CHOIR_NOTES
  {
    if n == 0 then a else AssignOrphan(AssignOrphans(a, used, online, n - 1), used, online, n - 1)
  }

  // ----- Stage 3: duplicates -----

  /** Peer `q` comes before peer `p` in the table. */
  predicate Before(order: seq<PeerId>, q: PeerId, p: PeerId) {
    exists i, j :: 0 <= i < j < |order| && order[i] == q && order[j] == p
  }

  /** The notes of `p` that a peer before it in the table has as well. */
  function Redundant(a: Assignments, p: PeerId): Chord {
    set n | n in Notes(a, p) && exists q :: q in a.chords && Before(a.order, q, p) && n in a.chords[q]
  }

  /** Each note of `notes` left only with the first peer that has it. */
  function Deduped(a: Assignments, notes: set<nat>): map<PeerId, Chord> {
    map p | p in a.chords && a.chords[p] - (Redundant(a, p) * notes) != {} :: a.chords[p] - (Redundant(a, p) * notes)
  }

  function NotesInUse(a: Assignments): set<nat> {
    set p, n | p in a.chords && n in a.chords[p] :: n
  }

  function Dedupe(a: Assignments): Assignments {
    CutTo(a, Deduped(a, NotesInUse(a)))
  }

  // ----- Stage 4: balancing -----

  predicate Unbalanced(chords: map<PeerId, Chord>, online: seq<PeerId>)
    requires online != []
  {
    Burden(At(chords, Heaviest(chords, online))) > Burden(At(chords, Lightest(chords, online))) + 1
  }

  /** One note from the most loaded peer to the least loaded one. */
  function MoveNote(a: Assignments, online: seq<PeerId>): Assignments
    requires online != [] && Unbalanced(a.chords, online)
  {
    var light, heavy := Lightest(a.chords, online), Heaviest(a.chords, online);
    var n := LastNote(Notes(a, heavy));
    var taken := SetNotes(a, heavy, Notes(a, heavy) - {n});
    SetNotes(taken, light, Notes(taken, light) + {n})
  }

  function Square(c: Chord): nat {
    Burden(c) * Burden(c)
  }

  ghost function Squared(): (PeerId, Chord) -> int {
    (p: PeerId, c: Chord) => Square(c)
  }

  /** The sum of the squared loads. */
  ghost function Energy(chords: map<PeerId, Chord>): nat
    ensures Energy(chords) == Total(chords, Squared())
  {
    TotalNonNegative(chords, Squared());
    Total(chords, Squared())
  }

  lemma EnergyWithout(chords: map<PeerId, Chord>, p: PeerId)
    ensures Energy(chords) == Energy(chords - {p}) + Square(At(chords, p))
  {
    if p in chords {
      TotalTake(chords, Squared(), p);
    } else {
      assert chords - {p} == chords;
      assert Low({}) == {};
    }
  }

  lemma EnergyOfPut(chords: map<PeerId, Chord>, p: PeerId, c: Chord)
    ensures Energy(Put(chords, p, c)) == Energy(chords) - Square(At(chords, p)) + Square(c)
  {
    EnergyWithout(chords, p);
    EnergyWithout(Put(chords, p, c), p);
    assert Put(chords, p, c) - {p} == chords - {p};
  }

  lemma SquareFacts(h: int, l: int)
    requires h > l + 1
    ensures (h - 1) * (h - 1) + (l + 1) * (l + 1) < h * h + l * l
    ensures h > 0 ==> (h - 1) * (h - 1) + l * l < h * h + l * l
  {
    assert (h - 1) * (h - 1) == h * h - 2 * h + 1;
    assert (l + 1) * (l + 1) == l * l + 2 * l + 1;
  }

  /** Moving a note lowers the sum of squared loads, so balancing terminates. */
  lemma MoveNoteLowersEnergy(a: Assignments, online: seq<PeerId>)
    requires online != [] && Unbalanced(a.chords, online)
    ensures Energy(MoveNote(a, online).chords) < Energy(a.chords)
  {
    var light, heavy := Lightest(a.chords, online), Heaviest(a.chords, online);
    MoveLowersEnergy(a.chords, heavy, light, LastNote(Notes(a, heavy)));
  }

  lemma MoveLowersEnergy(chords: map<PeerId, Chord>, heavy: PeerId, light: PeerId, n: Note)
    requires Burden(At(chords, heavy)) > Burden(At(chords, light)) + 1
    requires n in At(chords, heavy) && n < NUM_CHOIR_NOTES
    ensures var taken := Put(chords, heavy, At(chords, heavy) - {n});
            Energy(Put(taken, light, At(taken, light) + {n})) < Energy(chords)
  {
    var taken := Put(chords, heavy, At(chords, heavy) - {n});
    assert At(taken, light) == At(chords, light);
    hide Put, At, Energy, Burden;
    EnergyOfPut(chords, heavy, At(chords, heavy) - {n});
    EnergyOfPut(taken, light, At(taken, light) + {n});
    BurdenLess(At(chords, heavy), n);
    BurdenMore(At(taken, light), n);
    SquareFacts(Burden(At(chords, heavy)), Burden(At(chords, light)));
  }

  function Balance(a: Assignments, online: seq<PeerId>): Assignments
    requires online != []
    decreases Energy(a.chords)
  {
    if Unbalanced(a.chords, online) then
      MoveNoteLowersEnergy(a, online);
      Balance(MoveNote(a, online), online)
    else a
  }

  // ----- The whole review -----

  predicate HasOrphan(a: Assignments, used: Chord) {
    exists n :: 0 <= n < NUM_CHOIR_NOTES && n in used && !IsAssigned(a.chords, n)
  }

  predicate HasDuplicate(a: Assignments) {
    exists p :: p in a.chords && Redundant(a, p) != {}
  }

  /** The new table and whether anything was changed. */
  function Review(a: Assignments, used: Chord, online: seq<PeerId>): (Assignments, bool) {
    if a.strategy == MANUAL then (a, false)
    else
      var pruned := Prune(a, online);
      var left := a.order != [] && a.order[0] !in online;
      if online == [] then (pruned, left)
      else
        var filled := AssignOrphans(pruned, used, online, NUM_CHOIR_NOTES);
        var orphaned := left || HasOrphan(pruned, used);
        if a.strategy == ASSISTED then (filled, orphaned)
        else
          var single := Dedupe(filled);
          var changed := orphaned || HasDuplicate(filled);
          if |online| > 1 then (Balance(single, online), changed || Unbalanced(single.chords, online))
          else (single, changed)
  }
}
