/** What each stage of a review does, in terms of loads and holders only: who is
    given an orphan, who keeps a duplicate, who takes part in the balancing, and
    when the review has anything to report. */
module AllocatorEffects {
  import opened Tables
  import opened Chords
  import opened AssignmentTables
  import opened Allocator
  import opened AllocatorTheorems

  // ----- The scans take the first of several equals -----

  /** The lightest peer that comes first among its equals is the one chosen. */
  lemma {:induction false} LightestIsFirst(chords: map<PeerId, Chord>, online: seq<PeerId>, k: nat)
    requires k < |online|
    requires forall i :: k <= i < |online| ==> Burden(At(chords, online[k])) <= Burden(At(chords, online[i]))
    requires forall i :: 0 <= i < k ==> Burden(At(chords, online[k])) < Burden(At(chords, online[i]))
    ensures Lightest(chords, online) == online[k]
  {
    hide At, Burden;
    var n := |online| - 1;
    if n > 0 {
      if k < n {
        LightestIsFirst(chords, online[..n], k);
      } else {
        assert Lightest(chords, online[..n]) in online[..n];
      }
    }
  }

  /** The heaviest peer that comes first among its equals is the one chosen. */
  lemma {:induction false} HeaviestIsFirst(chords: map<PeerId, Chord>, online: seq<PeerId>, k: nat)
    requires k < |online|
    requires forall i :: k <= i < |online| ==> Burden(At(chords, online[k])) >= Burden(At(chords, online[i]))
    requires forall i :: 0 <= i < k ==> Burden(At(chords, online[k])) > Burden(At(chords, online[i]))
    ensures Heaviest(chords, online) == online[k]
  {
    hide At, Burden;
    var n := |online| - 1;
    if n > 0 {
      if k < n {
        HeaviestIsFirst(chords, online[..n], k);
      } else {
        assert Heaviest(chords, online[..n]) in online[..n];
      }
    }
  }

  // ----- Stage 1: who is forgotten -----

  /** A peer stays exactly if it, or one before it in the table, is online. */
  lemma PruneMeans(a: Assignments, online: seq<PeerId>, i: nat)
    requires Proper(a) && i < |a.order|
    ensures var p := a.order[i];
            Notes(Prune(a, online), p) == if exists j :: 0 <= j <= i && a.order[j] in online then Notes(a, p) else {}
  {
    var k := LeadingRun(a.order, online);
    if i < k {
      assert a.order[i] in a.order[..k];
    } else {
      assert a.order[k] in online;
      assert forall j :: 0 <= j < k ==> a.order[j] != a.order[i];
    }
  }

  // ----- Stage 2: who is given an orphan -----

  /** Whoever was given a note is not more than one note ahead of anyone online. */
  ghost predicate SharedOut(a: Assignments, r: Assignments, online: seq<PeerId>) {
    forall p, q :: p in online && q in online && Notes(r, p) != Notes(a, p) ==>
      Burden(Notes(r, p)) <= Burden(Notes(r, q)) + 1
  }

  lemma GiveLight(a: Assignments, r: Assignments, r': Assignments, online: seq<PeerId>, light: PeerId, n: Note)
    requires SharedOut(a, r, online) && Given(r, r', light, n) && n < NUM_CHOIR_NOTES && n !in Notes(r, light)
    requires forall q :: q in online ==> Burden(Notes(r, light)) <= Burden(Notes(r, q))
    ensures SharedOut(a, r', online)
  {
    hide Notes, Burden, Proper;
    BurdenMore(Notes(r, light), n);
  }

  lemma AssignOrphanShares(a: Assignments, r: Assignments, used: Chord, online: seq<PeerId>, n: Note)
    requires online != [] && n < NUM_CHOIR_NOTES && Proper(r) && SharedOut(a, r, online)
    ensures SharedOut(a, AssignOrphan(r, used, online, n), online)
  {
    if n in used && !IsAssigned(r.chords, n) {
      var p := Lightest(r.chords, online);
      SetNotesGives(r, p, n);
      assert n !in At(r.chords, p);
      GiveLight(a, r, SetNotes(r, p, Notes(r, p) + {n}), online, p, n);
    }
  }

  lemma {:induction false} AssignOrphansShares(a: Assignments, used: Chord, online: seq<PeerId>, n: nat)
    requires Proper(a) && online != [] && n <= NUM_CHOIR_NOTES
    ensures SharedOut(a, AssignOrphans(a, used, online, n), online)
  {
    hide SharedOut, AssignOrphan, Filled, Proper;
    if n == 0 {
      NothingShared(a, online);
    } else {
      AssignOrphansShares(a, used, online, n - 1);
      AssignOrphansFills(a, used, online, n - 1);
      FilledIsProper(a, AssignOrphans(a, used, online, n - 1), used, online, n - 1);
      AssignOrphanShares(a, AssignOrphans(a, used, online, n - 1), used, online, n - 1);
    }
  }

  lemma NothingShared(a: Assignments, online: seq<PeerId>)
    ensures SharedOut(a, a, online)
  {
  }

  lemma FilledIsProper(a: Assignments, r: Assignments, used: Chord, online: seq<PeerId>, n: nat)
    requires Filled(a, r, used, online, n)
    ensures Proper(r)
  {
  }

  /** Of every review that is not manual: a peer that gained an orphan while orphans
      were handed out ends that stage at most one note ahead of any online peer. In
      assisted mode that stage is the last, so the review itself ends so. */
  lemma OrphansGoToTheLight(a: Assignments, used: Chord, online: seq<PeerId>, p: PeerId, q: PeerId)
    requires Proper(a) && a.strategy != MANUAL && p in online && q in online
    ensures var stage := if a.strategy == ASSISTED then Review(a, used, online).0
                         else AssignOrphans(Prune(a, online), used, online, NUM_CHOIR_NOTES);
            Notes(stage, p) != Notes(a, p) ==> Burden(Notes(stage, p)) <= Burden(Notes(stage, q)) + 1
  {
    PruneProper(a, online);
    PruneKeeps(a, online);
    assert Notes(Prune(a, online), p) == Notes(a, p);
    hide Prune, AssignOrphans, Burden;
    AssignOrphansShares(Prune(a, online), used, online, NUM_CHOIR_NOTES);
  }

  // ----- Stage 3: who keeps a duplicate -----

  /** A peer keeps a note exactly if no peer before it in the table has it. */
  lemma DedupeKeepsFirst(a: Assignments, i: nat, n: nat)
    requires Proper(a) && i < |a.order|
    ensures n in Notes(Dedupe(a), a.order[i]) <==>
            n in Notes(a, a.order[i]) && forall j :: 0 <= j < i ==> n !in Notes(a, a.order[j])
  {
    hide Dedupe, Redundant;
    var p := a.order[i];
    DedupeNotes(a, p);
    if n in Notes(a, p) {
      RedundantMeans(a, p, n);
      if q :| Before(a.order, q, p) && n in Notes(a, q) {
        var j, k :| 0 <= j < k < |a.order| && a.order[j] == q && a.order[k] == p;
        assert k == i && n in Notes(a, a.order[j]);
      }
      if j :| 0 <= j < i && n in Notes(a, a.order[j]) {
        assert Before(a.order, a.order[j], p);
      }
    }
  }

  // ----- Stage 4: who takes part in the balancing -----

  lemma MoveBurdens(a: Assignments, online: seq<PeerId>, p: PeerId)
    requires Proper(a) && online != [] && Unbalanced(a.chords, online)
    ensures var light, heavy := Lightest(a.chords, online), Heaviest(a.chords, online);
            var m := MoveNote(a, online);
            && Proper(m)
            && (p == heavy ==> Notes(m, p) <= Notes(a, p) && Burden(Notes(m, p)) == Burden(Notes(a, p)) - 1)
            && (p == light ==> Notes(a, p) <= Notes(m, p))
            && (p == light ==> Burden(Notes(a, p)) <= Burden(Notes(m, p)) <= Burden(Notes(a, p)) + 1)
            && (p != heavy && p != light ==> Notes(m, p) == Notes(a, p))
  {
    hide MoveNote, Burden, Proper;
    MovesNote(a, online);
    var heavy := Heaviest(a.chords, online);
    var n := LastNote(Notes(a, heavy));
    BurdenLess(Notes(a, heavy), n);
    BurdenMore(Notes(a, p), n);
  }

  /** Nobody online has more notes than `top`. */
  ghost predicate AtMost(a: Assignments, online: seq<PeerId>, top: int) {
    forall q :: q in online ==> Burden(Notes(a, q)) <= top
  }

  ghost predicate AtLeast(a: Assignments, online: seq<PeerId>, bottom: int) {
    forall q :: q in online ==> Burden(Notes(a, q)) >= bottom
  }

  lemma MoveStaysWithin(a: Assignments, online: seq<PeerId>, top: int, bottom: int)
    requires Proper(a) && online != [] && Unbalanced(a.chords, online)
    ensures AtMost(a, online, top) ==> AtMost(MoveNote(a, online), online, top)
    ensures AtLeast(a, online, bottom) ==> AtLeast(MoveNote(a, online), online, bottom)
  {
    var light, heavy := Lightest(a.chords, online), Heaviest(a.chords, online);
    assert light != heavy by { MovesNote(a, online); }
    hide MoveNote, Burden, Proper;
    forall q | q in online
      ensures AtMost(a, online, top) ==> Burden(Notes(MoveNote(a, online), q)) <= top
      ensures AtLeast(a, online, bottom) ==> Burden(Notes(MoveNote(a, online), q)) >= bottom
    {
      MoveBurdens(a, online, q);
    }
  }

  /** A peer within one note of the largest load is never given another. */
  lemma {:induction false} HeavyOnlyLoses(a: Assignments, online: seq<PeerId>, p: PeerId)
    requires Proper(a) && p in online && AtMost(a, online, Burden(Notes(a, p)) + 1)
    ensures Notes(Balance(a, online), p) <= Notes(a, p)
    decreases Energy(a.chords)
  {
    if Unbalanced(a.chords, online) {
      var light, heavy, m := Lightest(a.chords, online), Heaviest(a.chords, online), MoveNote(a, online);
      MoveNoteLowersEnergy(a, online);
      hide MoveNote, Burden, Proper, Energy;
      MoveBurdens(a, online, p);
      MoveStaysWithin(a, online, Burden(Notes(a, heavy)), 0);
      MoveStaysWithin(a, online, Burden(Notes(a, p)) + 1, 0);
      assert p != light && AtMost(m, online, Burden(Notes(m, p)) + 1);
      HeavyOnlyLoses(m, online, p);
    }
  }

  /** A peer within one note of the smallest load never loses one. */
  lemma {:induction false} LightOnlyGains(a: Assignments, online: seq<PeerId>, p: PeerId)
    requires Proper(a) && p in online && AtLeast(a, online, Burden(Notes(a, p)) - 1)
    ensures Notes(a, p) <= Notes(Balance(a, online), p)
    decreases Energy(a.chords)
  {
    if Unbalanced(a.chords, online) {
      var light, heavy, m := Lightest(a.chords, online), Heaviest(a.chords, online), MoveNote(a, online);
      MoveNoteLowersEnergy(a, online);
      hide MoveNote, Burden, Proper, Energy;
      MoveBurdens(a, online, p);
      MoveStaysWithin(a, online, 0, Burden(Notes(a, light)));
      MoveStaysWithin(a, online, 0, Burden(Notes(a, p)) - 1);
      assert p != heavy && AtLeast(m, online, Burden(Notes(m, p)) - 1);
      LightOnlyGains(m, online, p);
    }
  }

  /** Balancing moves nothing to and fro: each peer's notes only shrink or only grow. */
  lemma {:induction false} BalanceGoesOneWay(a: Assignments, online: seq<PeerId>, p: PeerId)
    requires Proper(a) && p in online
    ensures Notes(Balance(a, online), p) <= Notes(a, p) || Notes(a, p) <= Notes(Balance(a, online), p)
    decreases Energy(a.chords)
  {
    if Unbalanced(a.chords, online) {
      var light, heavy, m := Lightest(a.chords, online), Heaviest(a.chords, online), MoveNote(a, online);
      MoveNoteLowersEnergy(a, online);
      hide MoveNote, Burden, Proper, Energy;
      if p == heavy {
        HeavyOnlyLoses(a, online, p);
      } else if p == light {
        LightOnlyGains(a, online, p);
      } else {
        MoveBurdens(a, online, p);
        BalanceGoesOneWay(m, online, p);
      }
    }
  }

  // ----- When there is anything to report -----

  lemma AutomaticReviewChanges(a: Assignments, used: Chord, online: seq<PeerId>)
    requires Proper(a) && online != [] && a.strategy != MANUAL && a.strategy != ASSISTED
    requires a.order != [] ==> a.order[0] in online
    requires HasOrphan(a, used) || HasDuplicate(a) || Unbalanced(a.chords, online)
    ensures Review(a, used, online).0 != a
  {
    hide Review, Unbalanced, Redundant, IsAssigned;
    var r := Review(a, used, online).0;
    if n: nat :| n < NUM_CHOIR_NOTES && n in used && !IsAssigned(a.chords, n) {
      AutomaticReview(a, used, online, n);
      OnceMeansAssigned(r.chords, n);
    } else if HasDuplicate(a) {
      AutomaticReview(a, used, online, 0);
      DuplicateMeansTwo(a);
    } else {
      AutomaticReview(a, used, online, 0);
      UnbalancedMeans(a, online);
    }
  }

  lemma DuplicateMeansTwo(a: Assignments)
    requires Proper(a) && HasDuplicate(a)
    ensures !AtMostOnce(a.chords)
  {
    var p :| p in a.chords && Redundant(a, p) != {};
    var n :| n in Redundant(a, p);
    var q :| q in a.chords && Before(a.order, q, p) && n in a.chords[q];
    assert n in At(a.chords, p) && n in At(a.chords, q);
  }

  lemma UnbalancedMeans(a: Assignments, online: seq<PeerId>)
    requires online != [] && Unbalanced(a.chords, online)
    ensures !Balanced(a, online)
  {
    var light, heavy := Lightest(a.chords, online), Heaviest(a.chords, online);
    assert Burden(Notes(a, heavy)) > Burden(Notes(a, light)) + 1;
  }

  lemma LeaverIsForgotten(a: Assignments, used: Chord, online: seq<PeerId>)
    requires Proper(a) && a.strategy != MANUAL && a.order != [] && a.order[0] !in online
    ensures Review(a, used, online).0 != a
  {
    var p := a.order[0];
    assert p in a.chords;
    PruneMeans(a, online, 0);
    assert Notes(a, p) != {} == Notes(Prune(a, online), p);
    if online != [] {
      hide Review, Prune, Proper;
      if a.strategy == ASSISTED {
        AssistedReview(a, used, online);
        PruneProper(a, online);
        AssignOrphansFills(Prune(a, online), used, online, NUM_CHOIR_NOTES);
      } else {
        ReviewOffline(a, used, online, p);
      }
    }
  }

  /** The review reports a change exactly when there is one. */
  lemma ChangedIff(a: Assignments, used: Chord, online: seq<PeerId>)
    requires Proper(a)
    ensures Review(a, used, online).1 <==> Review(a, used, online).0 != a
  {
    if !Review(a, used, online).1 {
      UnchangedReview(a, used, online);
    } else if a.order != [] && a.order[0] !in online {
      LeaverIsForgotten(a, used, online);
    } else {
      StayersChanged(a, used, online);
    }
  }

  /** With nobody gone from the head of the table the pass forgets nobody. */
  lemma StayersChanged(a: Assignments, used: Chord, online: seq<PeerId>)
    requires Proper(a) && Review(a, used, online).1 && (a.order != [] ==> a.order[0] in online)
    ensures Review(a, used, online).0 != a
  {
    assert online != [] && a.strategy != MANUAL;
    hide Review, Proper;
    if a.strategy == ASSISTED {
      AssistedChanges(a, used, online);
    } else {
      AutomaticReasons(a, used, online);
      AutomaticReviewChanges(a, used, online);
    }
  }

  lemma NobodyForgotten(a: Assignments, online: seq<PeerId>)
    requires Proper(a) && (a.order != [] ==> a.order[0] in online)
    ensures Prune(a, online) == a
  {
    PruneKeeps(a, online);
  }

  lemma AssistedChanges(a: Assignments, used: Chord, online: seq<PeerId>)
    requires Proper(a) && Review(a, used, online).1 && (a.order != [] ==> a.order[0] in online)
    requires online != [] && a.strategy == ASSISTED
    ensures Review(a, used, online).0 != a
  {
    hide Prune, Proper, AssignOrphans, HasOrphan, Filled;
    NobodyForgotten(a, online);
    assert HasOrphan(a, used);
    AssignOrphansFills(a, used, online, NUM_CHOIR_NOTES);
    FilledDiffers(a, AssignOrphans(a, used, online, NUM_CHOIR_NOTES), used, online);
  }

  lemma FilledDiffers(a: Assignments, r: Assignments, used: Chord, online: seq<PeerId>)
    requires Filled(a, r, used, online, NUM_CHOIR_NOTES) && HasOrphan(a, used)
    ensures r != a
  {
    var n :| 0 <= n < NUM_CHOIR_NOTES && n in used && !IsAssigned(a.chords, n);
    assert Assigned(r.chords, n);
  }

  lemma AutomaticReasons(a: Assignments, used: Chord, online: seq<PeerId>)
    requires Proper(a) && Review(a, used, online).1 && (a.order != [] ==> a.order[0] in online)
    requires online != [] && a.strategy != MANUAL && a.strategy != ASSISTED
    ensures HasOrphan(a, used) || HasDuplicate(a) || Unbalanced(a.chords, online)
  {
    hide Prune, Proper, Unbalanced, HasDuplicate, HasOrphan, AssignOrphans, Dedupe, Balance;
    NobodyForgotten(a, online);
    if !HasOrphan(a, used) {
      NoOrphansNoChange(a, used, online, NUM_CHOIR_NOTES);
      if !HasDuplicate(a) {
        NoDuplicatesNoChange(a);
      }
    }
  }
}
