/** What the review of the note assignments achieves. */
module AllocatorTheorems {
  import opened Tables
  import opened Chords
  import opened AssignmentTables
  import opened Allocator

  ghost predicate AtMostOnce(chords: map<PeerId, Chord>) {
    forall p, q, n :: n in At(chords, p) && n in At(chords, q) ==> p == q
  }

  /** The note has a holder, and only one. */
  ghost predicate ExactlyOnce(chords: map<PeerId, Chord>, n: nat) {
    exists p :: n in At(chords, p) && forall q :: n in At(chords, q) ==> q == p
  }

  // ----- Stage 1 -----

  lemma TailOf(order: seq<PeerId>, k: nat, p: PeerId)
    requires Distinct(order) && k <= |order|
    ensures p in order[k..] <==> p in order && p !in order[..k]
  {
    assert order == order[..k] + order[k..];
    if p in order[k..] {
      var j :| k <= j < |order| && order[j] == p;
      assert forall i :: 0 <= i < k ==> order[i] != p;
    }
  }

  lemma PruneProper(a: Assignments, online: seq<PeerId>)
    requires Proper(a)
    ensures Proper(Prune(a, online))
  {
    var r := Prune(a, online);
    forall p
      ensures p in r.order <==> p in r.chords
    {
      TailOf(a.order, LeadingRun(a.order, online), p);
    }
  }

  lemma PruneKeeps(a: Assignments, online: seq<PeerId>)
    requires Proper(a)
    ensures var r := Prune(a, online);
            && r.strategy == a.strategy
            && (forall p :: p in r.chords ==> p in a.chords && r.chords[p] == a.chords[p])
            && (forall p :: p in a.chords && p in online ==> p in r.chords)
            && (LeadingRun(a.order, online) == 0 ==> r == a)
  {
    if LeadingRun(a.order, online) == 0 {
      assert a.order[0..] == a.order && Elements(a.order[..0]) == {} && a.chords - {} == a.chords;
    }
  }

  // ----- Stage 2 -----

  /** Orphans up to note `n` found a peer; nothing that was assigned changed hands. */
  ghost predicate Filled(a: Assignments, r: Assignments, used: Chord, online: seq<PeerId>, n: nat) {
    && Proper(r) && r.strategy == a.strategy
    && a.order <= r.order
    && (forall p :: Notes(a, p) <= Notes(r, p))
    && (forall p :: p !in online ==> Notes(r, p) == Notes(a, p))
    && (forall p, m :: m in Notes(r, p) && m !in Notes(a, p) ==> !Assigned(a.chords, m))
    && (forall m: nat :: Assigned(r.chords, m) <==> Assigned(a.chords, m) || (m < n && m in used))
  }

  /** One note given to one peer. */
  ghost predicate Given(r: Assignments, r': Assignments, p: PeerId, n: Note) {
    && Proper(r') && r'.strategy == r.strategy && r.order <= r'.order
    && forall q :: Notes(r', q) == if q == p then Notes(r, p) + {n} else Notes(r, q)
  }

  lemma SetNotesGives(r: Assignments, p: PeerId, n: Note)
    requires Proper(r)
    ensures Given(r, SetNotes(r, p, Notes(r, p) + {n}), p, n)
  {
    SetNotesProper(r, p, Notes(r, p) + {n});
  }

  lemma GivenAssigned(r: Assignments, r': Assignments, p: PeerId, n: Note, m: nat)
    requires Given(r, r', p, n)
    ensures Assigned(r'.chords, m) <==> Assigned(r.chords, m) || m == n
  {
    if Assigned(r.chords, m) {
      var q :| m in At(r.chords, q);
      assert m in Notes(r, q) && m in Notes(r', q);
    }
    if m == n {
      assert m in Notes(r', p);
    }
    if Assigned(r'.chords, m) {
      var q :| m in At(r'.chords, q);
      assert m in Notes(r', q) && (m in Notes(r, q) || m == n);
    }
  }

  lemma GiveOrphan(a: Assignments, r: Assignments, r': Assignments, used: Chord, online: seq<PeerId>, n: Note, p: PeerId)
    requires Filled(a, r, used, online, n) && Given(r, r', p, n)
    requires p in online && n in used && !Assigned(r.chords, n)
    ensures Filled(a, r', used, online, n + 1)
  {
    forall m: nat
      ensures Assigned(r'.chords, m) <==> Assigned(a.chords, m) || (m < n + 1 && m in used)
    {
      GivenAssigned(r, r', p, n, m);
    }
  }

  lemma AssignOrphanFills(a: Assignments, r: Assignments, used: Chord, online: seq<PeerId>, n: Note)
    requires online != [] && Filled(a, r, used, online, n)
    ensures Filled(a, AssignOrphan(r, used, online, n), used, online, n + 1)
  {
    if n in used && !IsAssigned(r.chords, n) {
      var p := Lightest(r.chords, online);
      SetNotesGives(r, p, n);
      GiveOrphan(a, r, SetNotes(r, p, Notes(r, p) + {n}), used, online, n, p);
    } else {
      SkipOrphan(a, r, used, online, n);
    }
  }

  lemma SkipOrphan(a: Assignments, r: Assignments, used: Chord, online: seq<PeerId>, n: Note)
    requires Filled(a, r, used, online, n) && (n !in used || Assigned(r.chords, n))
    ensures Filled(a, r, used, online, n + 1)
  {
  }

  lemma FilledAtFirst(a: Assignments, used: Chord, online: seq<PeerId>)
    requires Proper(a)
    ensures Filled(a, a, used, online, 0)
  {
  }

  lemma {:induction false} AssignOrphansFills(a: Assignments, used: Chord, online: seq<PeerId>, n: nat)
    requires Proper(a) && online != [] && n <= NUM_CHOIR_NOTES
    ensures Filled(a, AssignOrphans(a, used, online, n), used, online, n)
  {
    hide Filled, AssignOrphan;
    if n == 0 {
      FilledAtFirst(a, used, online);
    } else {
      AssignOrphansFills(a, used, online, n - 1);
      AssignOrphanFills(a, AssignOrphans(a, used, online, n - 1), used, online, n - 1);
    }
  }

  lemma {:induction false} NoOrphansNoChange(a: Assignments, used: Chord, online: seq<PeerId>, n: nat)
    requires online != [] && n <= NUM_CHOIR_NOTES && !HasOrphan(a, used)
    ensures AssignOrphans(a, used, online, n) == a
  {
    if n > 0 {
      NoOrphansNoChange(a, used, online, n - 1);
    }
  }

  // ----- Stage 3 -----

  /** Among the peers that have a note, one comes first in the table. */
  lemma {:induction false} FirstHolder(a: Assignments, n: nat, k: nat) returns (p: PeerId)
    requires Proper(a) && k < |a.order| && n in Notes(a, a.order[k])
    ensures p in a.chords && n in a.chords[p] && n !in Redundant(a, p)
    decreases k
  {
    if i :| 0 <= i < k && n in Notes(a, a.order[i]) {
      p := FirstHolder(a, n, i);
    } else {
      p := a.order[k];
      forall q | q in a.chords && Before(a.order, q, p)
        ensures n !in a.chords[q]
      {
        var i, j :| 0 <= i < j < |a.order| && a.order[i] == q && a.order[j] == p;
        assert j == k && n !in Notes(a, a.order[i]);
      }
    }
  }

  lemma DedupeNotes(a: Assignments, p: PeerId)
    requires Proper(a)
    ensures Notes(Dedupe(a), p) == Notes(a, p) - Redundant(a, p)
  {
    if p in a.chords {
      assert Redundant(a, p) <= NotesInUse(a);
      assert Redundant(a, p) * NotesInUse(a) == Redundant(a, p);
    }
  }

  lemma DedupeProper(a: Assignments)
    requires Proper(a)
    ensures Proper(Dedupe(a)) && Dedupe(a).strategy == a.strategy
    ensures Dedupe(a).chords.Keys <= a.chords.Keys
  {
    CutToProper(a, Deduped(a, NotesInUse(a)));
  }

  lemma RedundantPair(a: Assignments, p: PeerId, q: PeerId, n: nat)
    requires Proper(a) && p != q && n in Notes(a, p) && n in Notes(a, q)
    ensures n in Redundant(a, p) || n in Redundant(a, q)
  {
    var i :| 0 <= i < |a.order| && a.order[i] == p;
    var j :| 0 <= j < |a.order| && a.order[j] == q;
    if i < j {
      assert Before(a.order, p, q);
    } else {
      assert Before(a.order, q, p);
    }
  }

  lemma DedupeAtMostOnce(a: Assignments)
    requires Proper(a)
    ensures AtMostOnce(Dedupe(a).chords)
  {
    forall p, q, n | n in At(Dedupe(a).chords, p) && n in At(Dedupe(a).chords, q)
      ensures p == q
    {
      DedupeNotes(a, p);
      DedupeNotes(a, q);
      if p != q {
        RedundantPair(a, p, q, n);
      }
    }
  }

  lemma DedupeKeepsAssigned(a: Assignments, n: nat)
    requires Proper(a)
    ensures Assigned(Dedupe(a).chords, n) <==> Assigned(a.chords, n)
  {
    if Assigned(a.chords, n) {
      var q :| n in At(a.chords, q);
      var k :| 0 <= k < |a.order| && a.order[k] == q;
      var p := FirstHolder(a, n, k);
      DedupeNotes(a, p);
      assert n in At(Dedupe(a).chords, p);
    }
    if Assigned(Dedupe(a).chords, n) {
      var p :| n in At(Dedupe(a).chords, p);
      DedupeNotes(a, p);
      assert n in At(a.chords, p);
    }
  }

  lemma NoDuplicatesNoChange(a: Assignments)
    requires Proper(a) && !HasDuplicate(a)
    ensures Dedupe(a) == a
  {
    forall p | p in a.chords
      ensures a.chords[p] - (Redundant(a, p) * NotesInUse(a)) == a.chords[p]
    {
      assert Redundant(a, p) == {};
    }
    assert Deduped(a, NotesInUse(a)) == a.chords;
    CutToSelf(a);
  }

  // ----- Stage 4 -----

  /** What moving notes about between online peers keeps. */
  ghost predicate Shuffled(a: Assignments, r: Assignments, online: seq<PeerId>) {
    && Proper(r) && r.strategy == a.strategy
    && AtMostOnce(r.chords)
    && (forall p :: p !in online ==> Notes(r, p) == Notes(a, p))
    && (forall n: nat :: Assigned(r.chords, n) <==> Assigned(a.chords, n))
  }

  ghost predicate Moved(a: Assignments, r: Assignments, heavy: PeerId, light: PeerId, n: Note) {
    && Proper(r) && r.strategy == a.strategy
    && forall p :: Notes(r, p) == if p == heavy then Notes(a, p) - {n}
                                  else if p == light then Notes(a, p) + {n} else Notes(a, p)
  }

  ghost predicate NotesSet(a: Assignments, r: Assignments, p: PeerId, c: Chord) {
    && Proper(r) && r.strategy == a.strategy
    && forall q :: Notes(r, q) == if q == p then c else Notes(a, q)
  }

  lemma SetNotesSets(a: Assignments, p: PeerId, c: Chord)
    requires Proper(a)
    ensures NotesSet(a, SetNotes(a, p, c), p, c)
  {
    SetNotesProper(a, p, c);
  }

  lemma TwoSetsMove(a: Assignments, taken: Assignments, r: Assignments, heavy: PeerId, light: PeerId, n: Note)
    requires heavy != light
    requires NotesSet(a, taken, heavy, Notes(a, heavy) - {n}) && NotesSet(taken, r, light, Notes(taken, light) + {n})
    ensures Moved(a, r, heavy, light, n)
  {
  }

  lemma MovesNote(a: Assignments, online: seq<PeerId>)
    requires Proper(a) && online != [] && Unbalanced(a.chords, online)
    ensures var light, heavy := Lightest(a.chords, online), Heaviest(a.chords, online);
            light != heavy && Moved(a, MoveNote(a, online), heavy, light, LastNote(Notes(a, heavy)))
  {
    var light, heavy := Lightest(a.chords, online), Heaviest(a.chords, online);
    var n := LastNote(Notes(a, heavy));
    SetNotesSets(a, heavy, Notes(a, heavy) - {n});
    var taken := SetNotes(a, heavy, Notes(a, heavy) - {n});
    SetNotesSets(taken, light, Notes(taken, light) + {n});
    TwoSetsMove(a, taken, MoveNote(a, online), heavy, light, n);
  }

  lemma HolderMoves(a: Assignments, r: Assignments, heavy: PeerId, light: PeerId, n: Note)
    requires n in Notes(a, heavy) && light != heavy && AtMostOnce(a.chords) && Moved(a, r, heavy, light, n)
    ensures AtMostOnce(r.chords)
    ensures forall m: nat :: Assigned(r.chords, m) <==> Assigned(a.chords, m)
  {
    forall p, q, m | m in At(r.chords, p) && m in At(r.chords, q)
      ensures p == q
    {
      assert m in Notes(r, p) && m in Notes(r, q);
      assert m != n ==> m in Notes(a, p) && m in Notes(a, q);
      assert m == n && p != light ==> n in Notes(a, p) && p != heavy;
      assert m == n && q != light ==> n in Notes(a, q) && q != heavy;
    }
    forall m: nat
      ensures Assigned(r.chords, m) <==> Assigned(a.chords, m)
    {
      if Assigned(a.chords, m) {
        var p :| m in At(a.chords, p);
        assert m in Notes(r, if m == n then light else p);
      }
      if Assigned(r.chords, m) {
        var p :| m in At(r.chords, p);
        assert m in Notes(r, p);
        assert m in Notes(a, if m == n then heavy else p);
      }
    }
  }

  lemma MoveThenShuffle(a: Assignments, m: Assignments, r: Assignments, online: seq<PeerId>,
                        heavy: PeerId, light: PeerId, n: Note)
    requires Moved(a, m, heavy, light, n) && heavy in online && light in online && light != heavy
    requires n in Notes(a, heavy) && AtMostOnce(a.chords)
    requires Shuffled(m, r, online)
    ensures Shuffled(a, r, online)
  {
    HolderMoves(a, m, heavy, light, n);
  }

  lemma {:induction false} BalanceShuffles(a: Assignments, online: seq<PeerId>)
    requires Proper(a) && online != [] && AtMostOnce(a.chords)
    ensures Shuffled(a, Balance(a, online), online)
    ensures !Unbalanced(Balance(a, online).chords, online)
    decreases Energy(a.chords)
  {
    if Unbalanced(a.chords, online) {
      var light, heavy := Lightest(a.chords, online), Heaviest(a.chords, online);
      var n := LastNote(Notes(a, heavy));
      var m := MoveNote(a, online);
      MoveNoteLowersEnergy(a, online);
      MovesNote(a, online);
      HolderMoves(a, m, heavy, light, n);
      BalanceShuffles(m, online);
      MoveThenShuffle(a, m, Balance(m, online), online, heavy, light, n);
    }
  }

  /** When no two online peers are far apart at the extremes, none are. */
  lemma BalancedMeans(chords: map<PeerId, Chord>, online: seq<PeerId>, p: PeerId, q: PeerId)
    requires online != [] && !Unbalanced(chords, online) && p in online && q in online
    ensures Burden(At(chords, p)) <= Burden(At(chords, q)) + 1
  {
  }

  // ----- The whole review -----

  ghost function Settled(a: Assignments, used: Chord, online: seq<PeerId>): Assignments
    requires online != []
  {
    Dedupe(AssignOrphans(Prune(a, online), used, online, NUM_CHOIR_NOTES))
  }

  lemma SettledFacts(a: Assignments, used: Chord, online: seq<PeerId>)
    requires Proper(a) && online != []
    ensures var d := Settled(a, used, online);
            && Proper(d) && AtMostOnce(d.chords) && d.strategy == a.strategy
            && forall n: nat :: Assigned(d.chords, n) <==>
                 Assigned(Prune(a, online).chords, n) || (n < NUM_CHOIR_NOTES && n in used)
  {
    var pruned := Prune(a, online);
    PruneProper(a, online);
    var filled := AssignOrphans(pruned, used, online, NUM_CHOIR_NOTES);
    AssignOrphansFills(pruned, used, online, NUM_CHOIR_NOTES);
    DedupeProper(filled);
    DedupeAtMostOnce(filled);
    forall n: nat
      ensures Assigned(Dedupe(filled).chords, n) <==> Assigned(filled.chords, n)
    {
      DedupeKeepsAssigned(filled, n);
    }
  }

  ghost predicate Balanced(a: Assignments, online: seq<PeerId>) {
    forall p, q :: p in online && q in online ==> Burden(Notes(a, p)) <= Burden(Notes(a, q)) + 1
  }

  lemma BalanceBalances(d: Assignments, online: seq<PeerId>)
    requires Proper(d) && online != [] && AtMostOnce(d.chords)
    ensures Shuffled(d, Balance(d, online), online) && Balanced(Balance(d, online), online)
  {
    BalanceShuffles(d, online);
    var r := Balance(d, online);
    forall p, q | p in online && q in online
      ensures Burden(Notes(r, p)) <= Burden(Notes(r, q)) + 1
    {
      BalancedMeans(r.chords, online, p, q);
    }
  }

  lemma AloneIsBalanced(d: Assignments, online: seq<PeerId>)
    requires Proper(d) && |online| == 1 && AtMostOnce(d.chords)
    ensures Shuffled(d, d, online) && Balanced(d, online)
  {
    assert forall p :: p in online ==> p == online[0];
  }

  lemma ReviewShuffles(a: Assignments, used: Chord, online: seq<PeerId>)
    requires Proper(a) && online != [] && a.strategy != MANUAL && a.strategy != ASSISTED
    ensures var r := Review(a, used, online).0;
            Shuffled(Settled(a, used, online), r, online) && Balanced(r, online)
  {
    var d := Settled(a, used, online);
    SettledFacts(a, used, online);
    if |online| > 1 {
      BalanceBalances(d, online);
    } else {
      AloneIsBalanced(d, online);
    }
  }

  /** The automatic review, with any peers online: afterwards a note has a holder
      exactly when a peer that was not forgotten had it or the song uses it, no
      note has two holders, and the loads of online peers differ by at most one. */
  lemma AutomaticReview(a: Assignments, used: Chord, online: seq<PeerId>, n: nat)
    requires Proper(a) && online != [] && a.strategy != MANUAL && a.strategy != ASSISTED
    ensures var r := Review(a, used, online).0;
            && Proper(r)
            && (ExactlyOnce(r.chords, n) <==>
                  Assigned(Prune(a, online).chords, n) || (n < NUM_CHOIR_NOTES && n in used))
            && AtMostOnce(r.chords)
            && Balanced(r, online)
  {
    SettledFacts(a, used, online);
    ReviewShuffles(a, used, online);
    OnceMeansAssigned(Review(a, used, online).0.chords, n);
  }

  lemma OnceMeansAssigned(chords: map<PeerId, Chord>, n: nat)
    requires AtMostOnce(chords)
    ensures ExactlyOnce(chords, n) <==> Assigned(chords, n)
  {
  }

  /** When the review reports no change, there is none. */
  lemma UnchangedReview(a: Assignments, used: Chord, online: seq<PeerId>)
    requires Proper(a) && !Review(a, used, online).1
    ensures Review(a, used, online).0 == a
  {
    if a.strategy != MANUAL {
      PruneKeeps(a, online);
      assert Prune(a, online) == a;
      if online != [] {
        NoOrphansNoChange(a, used, online, NUM_CHOIR_NOTES);
        if a.strategy != ASSISTED {
          NoDuplicatesNoChange(a);
        }
      }
    }
  }

  lemma ReviewProper(a: Assignments, used: Chord, online: seq<PeerId>)
    requires Proper(a)
    ensures Proper(Review(a, used, online).0) && Review(a, used, online).0.strategy == a.strategy
  {
    if a.strategy != MANUAL {
      PruneProper(a, online);
      PruneKeeps(a, online);
      if online != [] {
        AssignOrphansFills(Prune(a, online), used, online, NUM_CHOIR_NOTES);
        if a.strategy != ASSISTED {
          SettledFacts(a, used, online);
          BalanceShuffles(Settled(a, used, online), online);
        }
      }
    }
  }

  // ----- Peers that left but are not at the head of the table -----

  /** Every note of a peer that left and was not forgotten is also held by a peer
      before it in the table. A caller can check this before the review. */
  ghost predicate NobodyStranded(a: Assignments, online: seq<PeerId>) {
    var pruned := Prune(a, online);
    forall p :: p in pruned.chords && p !in online ==> pruned.chords[p] <= Redundant(pruned, p)
  }

  /** New peers join the table at its end, so who precedes whom does not change. */
  lemma SameBefore(order: seq<PeerId>, longer: seq<PeerId>, q: PeerId, p: PeerId)
    requires order <= longer && Distinct(longer) && p in order
    ensures Before(order, q, p) <==> Before(longer, q, p)
  {
    if Before(order, q, p) {
      var i, j :| 0 <= i < j < |order| && order[i] == q && order[j] == p;
      assert longer[i] == q && longer[j] == p;
    }
    if Before(longer, q, p) {
      var i, j :| 0 <= i < j < |longer| && longer[i] == q && longer[j] == p;
      var k :| 0 <= k < |order| && order[k] == p;
      assert longer[k] == p && k == j;
    }
  }

  lemma SameRedundant(a: Assignments, r: Assignments, used: Chord, online: seq<PeerId>, p: PeerId)
    requires Proper(a) && Filled(a, r, used, online, NUM_CHOIR_NOTES) && p in a.chords && p !in online
    ensures Redundant(r, p) == Redundant(a, p)
  {
    forall n | n in Notes(a, p)
      ensures n in Redundant(r, p) <==> n in Redundant(a, p)
    {
      RedundantMeans(a, p, n);
      RedundantMeans(r, p, n);
      if q :| Before(a.order, q, p) && n in Notes(a, q) {
        SameBefore(a.order, r.order, q, p);
        assert n in Notes(r, q);
      }
      if q :| Before(r.order, q, p) && n in Notes(r, q) {
        SameBefore(a.order, r.order, q, p);
        assert Assigned(a.chords, n) by { assert n in At(a.chords, p); }
        assert n in Notes(a, q);
      }
    }
  }

  lemma RedundantMeans(a: Assignments, p: PeerId, n: nat)
    requires n in Notes(a, p)
    ensures n in Redundant(a, p) <==> exists q :: Before(a.order, q, p) && n in Notes(a, q)
  {
    if q :| Before(a.order, q, p) && n in Notes(a, q) {
      assert q in a.chords && n in a.chords[q];
    }
    if n in Redundant(a, p) {
      var q :| q in a.chords && Before(a.order, q, p) && n in a.chords[q];
      assert n in Notes(a, q);
    }
  }

  lemma SettledOffline(a: Assignments, used: Chord, online: seq<PeerId>, p: PeerId)
    requires Proper(a) && online != [] && p !in online
    ensures var pruned := Prune(a, online);
            Notes(Settled(a, used, online), p) == Notes(pruned, p) - Redundant(pruned, p)
  {
    var pruned := Prune(a, online);
    PruneProper(a, online);
    var filled := AssignOrphans(pruned, used, online, NUM_CHOIR_NOTES);
    AssignOrphansFills(pruned, used, online, NUM_CHOIR_NOTES);
    DedupeNotes(filled, p);
    if p in pruned.chords {
      SameRedundant(pruned, filled, used, online, p);
    }
  }

  lemma ReviewOffline(a: Assignments, used: Chord, online: seq<PeerId>, p: PeerId)
    requires Proper(a) && online != [] && p !in online && a.strategy != MANUAL && a.strategy != ASSISTED
    ensures var pruned := Prune(a, online);
            Notes(Review(a, used, online).0, p) == Notes(pruned, p) - Redundant(pruned, p)
  {
    SettledOffline(a, used, online, p);
    if |online| > 1 {
      SettledFacts(a, used, online);
      BalanceShuffles(Settled(a, used, online), online);
    }
  }

  /** What leaves notes with online peers only. In assisted mode nothing is taken from
      anyone after the pass, so it must have forgotten every peer that left. */
  ghost predicate LeavesOnlyOnline(a: Assignments, online: seq<PeerId>) {
    if a.strategy == ASSISTED then forall p :: p in Prune(a, online).chords ==> p in online
    else NobodyStranded(a, online)
  }

  lemma AutomaticOnlyOnline(a: Assignments, used: Chord, online: seq<PeerId>)
    requires Proper(a) && online != [] && a.strategy != MANUAL && a.strategy != ASSISTED
    ensures (forall p :: p in Review(a, used, online).0.chords ==> p in online) <==> NobodyStranded(a, online)
  {
    hide Review, Prune, Redundant, Proper;
    forall p | p !in online
      ensures p in Review(a, used, online).0.chords <==>
              p in Prune(a, online).chords && !(Prune(a, online).chords[p] <= Redundant(Prune(a, online), p))
    {
      OfflineKeeps(a, used, online, p);
    }
  }

  lemma AssistedOnlyOnline(a: Assignments, used: Chord, online: seq<PeerId>)
    requires Proper(a) && online != [] && a.strategy == ASSISTED
    ensures (forall p :: p in Review(a, used, online).0.chords ==> p in online) <==>
            (forall p :: p in Prune(a, online).chords ==> p in online)
  {
    hide Prune, AssignOrphans;
    var pruned := Prune(a, online);
    PruneProper(a, online);
    AssignOrphansFills(pruned, used, online, NUM_CHOIR_NOTES);
    var r := AssignOrphans(pruned, used, online, NUM_CHOIR_NOTES);
    assert Review(a, used, online).0 == r by { AssistedReview(a, used, online); }
    forall p | p !in online
      ensures p in r.chords <==> p in pruned.chords
    {
      assert Notes(r, p) == Notes(pruned, p);
    }
  }

  lemma AssistedReview(a: Assignments, used: Chord, online: seq<PeerId>)
    requires online != [] && a.strategy == ASSISTED
    ensures Review(a, used, online).0 == AssignOrphans(Prune(a, online), used, online, NUM_CHOIR_NOTES)
  {
  }

  /** With nobody online the table ends empty. */
  lemma NobodyOnline(a: Assignments, used: Chord)
    requires Proper(a) && a.strategy != MANUAL
    ensures Review(a, used, []).0.chords == map[] && Prune(a, []).chords == map[]
  {
    assert LeadingRun(a.order, []) == |a.order|;
    assert a.order[..|a.order|] == a.order;
  }

  /** After a review in any mode that is not manual only online peers have notes,
      exactly under that condition. */
  lemma OnlyOnlineIff(a: Assignments, used: Chord, online: seq<PeerId>)
    requires Proper(a) && a.strategy != MANUAL
    ensures (forall p :: p in Review(a, used, online).0.chords ==> p in online) <==> LeavesOnlyOnline(a, online)
  {
    hide Review, Prune, Redundant, Proper;
    if online == [] {
      NobodyOnline(a, used);
    } else if a.strategy == ASSISTED {
      AssistedOnlyOnline(a, used, online);
    } else {
      AutomaticOnlyOnline(a, used, online);
    }
  }

  lemma OfflineKeeps(a: Assignments, used: Chord, online: seq<PeerId>, p: PeerId)
    requires Proper(a) && online != [] && p !in online && a.strategy != MANUAL && a.strategy != ASSISTED
    ensures p in Review(a, used, online).0.chords <==>
            p in Prune(a, online).chords && !(Prune(a, online).chords[p] <= Redundant(Prune(a, online), p))
  {
    hide Review, Prune, Redundant;
    ReviewProper(a, used, online);
    ReviewOffline(a, used, online, p);
    var kept, lost := Notes(Prune(a, online), p), Redundant(Prune(a, online), p);
    assert kept - lost == {} ==> forall n :: n in kept ==> n in kept - lost || n in lost;
    assert p in Review(a, used, online).0.chords <==> Notes(Review(a, used, online).0, p) != {};
  }

  /** With every assigned peer online: no assigned note is lost, every note assigned
      before or used by the song ends with exactly one holder, nobody offline has
      any, and loads differ by at most one. */
  lemma AllOnlineReview(a: Assignments, used: Chord, online: seq<PeerId>, n: nat)
    requires Proper(a) && online != [] && a.strategy != MANUAL && a.strategy != ASSISTED
    requires forall p :: p in a.chords ==> p in online
    ensures var r := Review(a, used, online).0;
            && (ExactlyOnce(r.chords, n) <==> Assigned(a.chords, n) || (n < NUM_CHOIR_NOTES && n in used))
            && (forall p :: p in r.chords ==> p in online)
            && AtMostOnce(r.chords) && Balanced(r, online)
  {
    hide Review, Balanced, ExactlyOnce, AtMostOnce;
    PruneKeeps(a, online);
    assert a.order != [] ==> a.order[0] in a.order;
    AutomaticReview(a, used, online, n);
    AutomaticOnlyOnline(a, used, online);
  }

  /** The case the pass was written for and misses: an online peer first, then one
      that left and still has the only assignment of note 3. */
  const STRANDED := Assignments([1, 2], map[1 := {0}, 2 := {3}], AUTOMATIC)

  lemma StrandedIsKept()
    ensures Proper(STRANDED) && Prune(STRANDED, [1]) == STRANDED
  {
    assert LeadingRun(STRANDED.order, [1]) == 0;
    PruneKeeps(STRANDED, [1]);
  }

  lemma StrandedExample()
    ensures Proper(STRANDED) && !NobodyStranded(STRANDED, [1]) && 2 in Review(STRANDED, {0, 3}, [1]).0.chords
  {
    StrandedIsKept();
    hide Review, Prune, Proper, LeadingRun;
    assert 3 in Notes(STRANDED, 2) && 3 !in Redundant(STRANDED, 2);
    ReviewOffline(STRANDED, {0, 3}, [1], 2);
    assert 3 in Notes(Review(STRANDED, {0, 3}, [1]).0, 2);
  }

  /** The same in assisted mode, where a peer that left keeps even a note that an
      online peer before it has as well. */
  const ASSISTED_STRANDED := Assignments([1, 2], map[1 := {3}, 2 := {3}], ASSISTED)

  lemma AssistedExampleKept()
    ensures Proper(ASSISTED_STRANDED) && Prune(ASSISTED_STRANDED, [1]) == ASSISTED_STRANDED
  {
    assert LeadingRun(ASSISTED_STRANDED.order, [1]) == 0;
    PruneKeeps(ASSISTED_STRANDED, [1]);
  }

  lemma AssistedExample()
    ensures Proper(ASSISTED_STRANDED) && !LeavesOnlyOnline(ASSISTED_STRANDED, [1])
    ensures exists p :: p in Review(ASSISTED_STRANDED, {3}, [1]).0.chords && p !in [1]
  {
    AssistedExampleKept();
    hide Review, Prune, Proper, LeadingRun;
    assert 2 in ASSISTED_STRANDED.chords && 2 !in [1];
    OnlyOnlineIff(ASSISTED_STRANDED, {3}, [1]);
  }
}
