/** The NoteAssignmentsMap object: assignments change in place, entry by entry,
    and the histogram, the assigned-notes chord and the checksum follow. */
module NoteAssignmentsObject {
  import opened Tables
  import opened Chords
  import opened AssignmentTables
  import opened Allocator
  import opened AllocatorTheorems
  import opened NoteAssignments

  class NoteAssignmentsMap {
    const sums: Sums
    var order: seq<PeerId>
    var chords: map<PeerId, Chord>
    var strategy: nat
    var histogram: Histogram
    var assignedNotes: Chord
    var checksum: nat

    ghost function Contents(): Assignments
      reads this
    {
      Assignments(order, chords, strategy)
    }

    /** Every derived field is what a full scan of the table would give. */
    ghost predicate Valid()
      reads this
    {
      && Proper(Contents())
      && Counted(chords, histogram, assignedNotes)
      && checksum == FullChecksum(sums, strategy, chords)
    }

    constructor (sums: Sums)
      ensures Valid() && this.sums == sums && Contents() == DEFAULT_ASSIGNMENTS
    {
      this.sums := sums;
      order, chords, strategy, histogram, assignedNotes, checksum := [], map[], AUTOMATIC, map[], {}, 0;
      new;
      NothingCounted<PeerId>();
    }

    method SetToDefaultState()
      requires Valid()
      modifies this
      ensures Valid() && Contents() == DEFAULT_ASSIGNMENTS
    {
      order, chords, strategy, histogram, assignedNotes, checksum := [], map[], AUTOMATIC, map[], {}, 0;
      NothingCounted<PeerId>();
    }

    method SetAssignmentStrategy(newStrategy: nat)
      requires Valid()
      modifies this`strategy, this`checksum
      ensures Valid() && strategy == newStrategy
    {
      checksum := ChecksumRestrategized(sums, strategy, chords, checksum, newStrategy);
      strategy := newStrategy;
    }

    method Uncount(p: PeerId)
      requires Counted(chords, histogram, assignedNotes) && checksum == FullChecksum(sums, strategy, chords) && p in chords
      modifies this`chords, this`histogram, this`assignedNotes, this`checksum
      ensures Counted(chords, histogram, assignedNotes) && checksum == FullChecksum(sums, strategy, chords)
      ensures chords == old(chords) - {p}
    {
      var c := chords[p];
      histogram, assignedNotes := CountOut(chords, p, c, histogram, assignedNotes);
      checksum := ChecksumWithout(sums, strategy, chords, checksum, p, c);
      chords := chords - {p};
    }

    method Recount(p: PeerId, c: Chord)
      requires Counted(chords, histogram, assignedNotes) && checksum == FullChecksum(sums, strategy, chords) && p !in chords
      modifies this`chords, this`histogram, this`assignedNotes, this`checksum
      ensures Counted(chords, histogram, assignedNotes) && checksum == FullChecksum(sums, strategy, chords)
      ensures chords == old(chords)[p := c]
    {
      histogram, assignedNotes := CountIn(chords, p, c, histogram, assignedNotes);
      checksum := ChecksumWith(sums, strategy, chords, checksum, p, c);
      chords := chords[p := c];
    }

    method PutNotes(p: PeerId, notes: Chord)
      requires Counted(chords, histogram, assignedNotes) && checksum == FullChecksum(sums, strategy, chords)
      modifies this`chords, this`histogram, this`assignedNotes, this`checksum
      ensures Counted(chords, histogram, assignedNotes) && checksum == FullChecksum(sums, strategy, chords)
      ensures chords == Put(old(chords), p, notes)
    {
      assert p !in chords ==> chords - {p} == chords;
      if p in chords {
        Uncount(p);
      }
      if notes != {} {
        Recount(p, notes);
        assert (old(chords) - {p})[p := notes] == old(chords)[p := notes];
      }
    }

    method SetNoteAssignmentsForPeerID(p: PeerId, notes: Chord)
      requires Valid()
      modifies this
      ensures Valid() && Contents() == SetNotes(old(Contents()), p, notes)
    {
      hide Counted, FullChecksum;
      SetNotesProper(Contents(), p, notes);
      var newOrder := if notes == {} then Keeping(order, chords.Keys - {p}) else if p in chords then order else order + [p];
      PutNotes(p, notes);
      order := newOrder;
    }

    /** The table is `a` with only the chords of `cut` left in it. */
    ghost predicate CutDown(a: Assignments, cut: map<PeerId, Chord>)
      reads this
    {
      Valid() && Proper(a) && NoZero(cut) && cut.Keys <= a.chords.Keys && Contents() == CutTo(a, cut)
    }

    method TakeNotes(p: PeerId, taken: Chord, ghost a: Assignments, ghost cut: map<PeerId, Chord>)
      returns (ghost left: map<PeerId, Chord>)
      requires CutDown(a, cut) && p in chords
      modifies this
      ensures CutDown(a, left)
      ensures left == Put(cut, p, At(cut, p) - taken)
    {
      hide Counted, FullChecksum;
      CutFurther(a, cut, p, chords[p] - taken);
      left := Put(cut, p, chords[p] - taken);
      SetNoteAssignmentsForPeerID(p, chords[p] - taken);
    }

    method UnassignNoteOf(p: PeerId, n: Note, ghost a: Assignments, ghost cut: map<PeerId, Chord>, ghost todo: set<PeerId>)
      returns (ghost left: map<PeerId, Chord>)
      requires CutDown(a, cut) && NoteGone(a.chords, cut, todo, n) && p in todo
      modifies this
      ensures CutDown(a, left) && NoteGone(a.chords, left, todo - {p}, n)
    {
      NoteGoneOneMore(a.chords, cut, todo, n, p);
      left := cut;
      if n in chords[p] {
        left := TakeNotes(p, {n}, a, cut);
      }
    }

    /** The entries of the table are visited; one that has the note loses it. */
    method VisitForNote(n: Note, ghost a: Assignments) returns (ghost cut: map<PeerId, Chord>)
      requires CutDown(a, a.chords)
      modifies this
      ensures CutDown(a, cut) && NoteGone(a.chords, cut, {}, n)
    {
      hide Counted, FullChecksum, Keeping, NoZero;
      cut := a.chords;
      var todo := chords.Keys;
      while todo != {}
        invariant CutDown(a, cut) && NoteGone(a.chords, cut, todo, n)
        decreases |todo|
      {
        var p :| p in todo;
        cut := UnassignNoteOf(p, n, a, cut, todo);
        todo := todo - {p};
      }
    }

    method UnassignNote(n: Note)
      requires Valid()
      modifies this
      ensures Valid() && Contents() == CutTo(old(Contents()), WithoutNote(old(chords), n))
    {
      hide Counted, FullChecksum;
      CutToSelf(Contents());
      ghost var cut := VisitForNote(n, Contents());
      NoteGoneAll(old(chords), cut, n);
    }

    method HandleToggleAssignmentMessage(peer: Option<PeerId>, n: Note) returns (ok: bool)
      requires Valid()
      modifies this
      ensures Valid() && (Contents(), ok) == HandleToggle(old(Contents()), peer, n)
    {
      if peer.None? {
        return false;
      }
      if peer.value != INVALID_PEER {
        var c := At(chords, peer.value);
        SetNoteAssignmentsForPeerID(peer.value, if n in c then c - {n} else c + {n});
      } else if assignedNotes != {} {
        UnassignNote(n);
      } else {
        NothingAssigned(Contents(), histogram, n);
      }
      return true;
    }

    method UnassignIfOffline(p: PeerId, online: seq<PeerId>, ghost a: Assignments, ghost cut: map<PeerId, Chord>,
                             ghost todo: set<PeerId>)
      returns (ghost left: map<PeerId, Chord>)
      requires CutDown(a, cut) && OfflineGone(a.chords, cut, todo, online) && p in todo
      modifies this
      ensures CutDown(a, left) && OfflineGone(a.chords, left, todo - {p}, online)
      ensures p in online ==> left == cut
    {
      OfflineGoneOneMore(a.chords, cut, todo, online, p);
      left := cut;
      if p !in online {
        left := TakeNotes(p, chords[p], a, cut);
      }
    }

    method VisitOffline(online: seq<PeerId>, ghost a: Assignments) returns (any: bool, ghost cut: map<PeerId, Chord>)
      requires CutDown(a, a.chords)
      modifies this
      ensures CutDown(a, cut) && OfflineGone(a.chords, cut, {}, online)
      ensures any <==> exists p :: p in a.chords && p !in online
      ensures !any ==> cut == a.chords
    {
      hide Counted, FullChecksum, Keeping, NoZero, OfflineGone, Proper;
      cut, any := a.chords, false;
      var todo := chords.Keys;
      OfflineAtFirst(a.chords, online);
      while todo != {}
        invariant CutDown(a, cut) && OfflineGone(a.chords, cut, todo, online)
        invariant todo <= a.chords.Keys
        invariant any <==> exists p :: p in a.chords && p !in todo && p !in online
        invariant !any ==> cut == a.chords
        decreases |todo|
      {
        var p :| p in todo;
        cut := UnassignIfOffline(p, online, a, cut, todo);
        if p !in online {
          any := true;
        }
        todo := todo - {p};
      }
    }

    method UnassignOfflinePeers(online: seq<PeerId>) returns (any: bool)
      requires Valid()
      modifies this
      ensures Valid()
      ensures any == SomeoneLeft(old(Contents()), online)
      ensures Contents() == if any then OnlineOnly(old(Contents()), online) else old(Contents())
    {
      hide Counted, FullChecksum;
      CutToSelf(Contents());
      SomeoneLeftMeans(Contents(), online);
      ghost var cut;
      any, cut := VisitOffline(online, Contents());
      OnlineOnlyIs(old(Contents()), cut, online, any);
    }

    // ----- The review -----

    method GetLightestPeer(online: seq<PeerId>) returns (p: PeerId, count: nat)
      requires online != []
      ensures p == Lightest(chords, online) && count == Burden(At(chords, p))
    {
      p := online[0];
      count := CountBits(At(chords, p));
      for i := 1 to |online|
        invariant p == Lightest(chords, online[..i]) && count == Burden(At(chords, p))
      {
        assert online[..i + 1][..i] == online[..i];
        var c := CountBits(At(chords, online[i]));
        if c < count {
          p, count := online[i], c;
        }
      }
      assert online[..|online|] == online;
    }

    method GetHeaviestPeer(online: seq<PeerId>) returns (p: PeerId, count: nat)
      requires online != []
      ensures p == Heaviest(chords, online) && count == Burden(At(chords, p))
    {
      p := online[0];
      count := CountBits(At(chords, p));
      for i := 1 to |online|
        invariant p == Heaviest(chords, online[..i]) && count == Burden(At(chords, p))
      {
        assert online[..i + 1][..i] == online[..i];
        var c := CountBits(At(chords, online[i]));
        if c > count {
          p, count := online[i], c;
        }
      }
      assert online[..|online|] == online;
    }

    method ForgetLeadingOfflinePeers(online: seq<PeerId>) returns (changed: bool)
      requires Valid()
      modifies this
      ensures Valid() && Contents() == Prune(old(Contents()), online)
      ensures changed == (old(order) != [] && old(order)[0] !in online)
    {
      hide Counted, FullChecksum, Prune, SetNotes, Proper;
      changed := false;
      while order != [] && order[0] !in online
        invariant Valid() && Prune(Contents(), online) == Prune(old(Contents()), online)
        invariant changed ==> old(order) != [] && old(order)[0] !in online
        invariant !changed ==> order == old(order)
        decreases |order|
      {
        PruneOneMore(Contents(), online);
        SetNoteAssignmentsForPeerID(order[0], {});
        changed := true;
      }
      PruneKeeps(Contents(), online);
    }

    method AssignOrphanedNotes(used: Chord, online: seq<PeerId>) returns (changed: bool)
      requires Valid() && online != []
      modifies this
      ensures Valid() && Contents() == AssignOrphans(old(Contents()), used, online, NUM_CHOIR_NOTES)
      ensures changed == HasOrphan(old(Contents()), used)
    {
      hide HasOrphan, AssignOrphan;
      changed := false;
      for n := 0 to NUM_CHOIR_NOTES
        invariant Valid() && Contents() == AssignOrphans(old(Contents()), used, online, n)
        invariant changed == OrphanBelow(old(Contents()), used, n)
      {
        OrphanNext(old(Contents()), used, online, n);
        var given := AssignIfOrphaned(n, used, online);
        changed := changed || given;
      }
      OrphanBelowAll(old(Contents()), used);
    }

    method AssignIfOrphaned(n: Note, used: Chord, online: seq<PeerId>) returns (given: bool)
      requires Valid() && online != []
      modifies this
      ensures Valid() && Contents() == AssignOrphan(old(Contents()), used, online, n)
      ensures given == (n in used && !IsAssigned(old(chords), n))
    {
      hide Counted, FullChecksum, SetNotes, Lightest;
      AssignedBit(chords, histogram, assignedNotes, n);
      given := n in used && n !in assignedNotes;
      if given {
        var p, _ := GetLightestPeer(online);
        SetNoteAssignmentsForPeerID(p, At(chords, p) + {n});
      }
    }

    /** One step of that visit: the note is taken from a holder that is not the first. */
    method TakeFromLaterHolder(i: nat, n: Note, found: bool, was: seq<PeerId>, ghost a: Assignments,
                               ghost cut: map<PeerId, Chord>, ghost done: set<nat>)
      returns (holds: bool, ghost left: map<PeerId, Chord>)
      requires CutDown(a, cut) && was == a.order && i < |was| && n !in done && Stripping(a, cut, done, n, i)
      requires found == HolderAmong(a, n, i)
      modifies this
      ensures CutDown(a, left) && Stripping(a, left, done, n, i + 1)
      ensures (found || holds) == HolderAmong(a, n, i + 1)
      ensures if found && holds then HasDuplicate(a) else left == cut
    {
      hide Counted, FullChecksum, Redundant, HasDuplicate, Keeping, Stripping;
      var p := was[i];
      left := cut;
      holds := n in At(chords, p);
      StrippingOneMore(a, cut, done, n, i);
      if holds && found {
        left := TakeNotes(p, {n}, a, cut);
      }
    }

    /** Visits the table in order: the first peer that has the note keeps it. */
    method KeepOnlyFirstHolder(n: Note, was: seq<PeerId>, ghost a: Assignments, ghost cut: map<PeerId, Chord>,
                               ghost done: set<nat>)
      returns (removed: bool, ghost left: map<PeerId, Chord>)
      requires CutDown(a, cut) && was == a.order && Stripped(a, cut, done) && n !in done
      modifies this
      ensures CutDown(a, left) && Stripped(a, left, done + {n})
      ensures if removed then HasDuplicate(a) else left == cut
    {
      hide Counted, FullChecksum, Redundant, HasDuplicate, CutTo, Stripping;
      removed, left := false, cut;
      StrippingStarts(a, cut, done, n);
      var found := false;
      for i := 0 to |was|
        invariant CutDown(a, left) && Stripping(a, left, done, n, i)
        invariant found == HolderAmong(a, n, i)
        invariant if removed then HasDuplicate(a) else left == cut
      {
        var holds;
        holds, left := TakeFromLaterHolder(i, n, found, was, a, left, done);
        removed := removed || (found && holds);
        found := found || holds;
      }
      StrippingEnds(a, left, done, n);
    }

    /** One note of the histogram: nothing to do unless it is counted more than once. */
    method RemoveDuplicatesOf(n: Note, was: seq<PeerId>, ghost a: Assignments, ghost cut: map<PeerId, Chord>,
                              ghost done: set<nat>)
      returns (removed: bool, ghost left: map<PeerId, Chord>)
      requires CutDown(a, cut) && was == a.order && Stripped(a, cut, done) && n !in done
      modifies this
      ensures CutDown(a, left) && Stripped(a, left, done + {n})
      ensures if removed then HasDuplicate(a) else left == cut
    {
      hide FullChecksum, Redundant, HasDuplicate, Stripped;
      if CountAt(histogram, n) > 1 {
        removed, left := KeepOnlyFirstHolder(n, was, a, cut, done);
      } else {
        removed, left := false, cut;
        SoleHolder(a, cut, done, histogram, assignedNotes, n);
      }
    }

    method RemoveDuplicates() returns (changed: bool)
      requires Valid()
      modifies this
      ensures Valid() && Contents() == Dedupe(old(Contents()))
      ensures changed == HasDuplicate(old(Contents()))
    {
      hide Counted, FullChecksum, Redundant, HasDuplicate, CutTo, Deduped, Stripped, Keeping;
      ghost var a, cut := Contents(), chords;
      CutToSelf(a);
      StrippedNone(a);
      NotesAreCounted(a, histogram, assignedNotes);
      var was := order;
      var notes: set<Note> := histogram.Keys;
      ghost var done: set<nat> := {};
      changed := false;
      while notes != {}
        invariant CutDown(a, cut) && Stripped(a, cut, done)
        invariant NotesInUse(a) <= done + notes && done !! notes
        invariant if changed then HasDuplicate(a) else cut == a.chords
        decreases |notes|
      {
        var n :| n in notes;
        var removed;
        removed, cut := RemoveDuplicatesOf(n, was, a, cut, done);
        changed := changed || removed;
        done, notes := done + {n}, notes - {n};
      }
      StrippedAll(a, cut, done, changed);
    }

    method BalanceLoads(online: seq<PeerId>) returns (changed: bool)
      requires Valid() && online != []
      modifies this
      ensures Valid() && Contents() == Balance(old(Contents()), online)
      ensures changed == Unbalanced(old(chords), online)
    {
      hide Counted, FullChecksum;
      changed := false;
      while true
        invariant Valid() && Balance(Contents(), online) == Balance(old(Contents()), online)
        invariant changed ==> Unbalanced(old(chords), online)
        invariant !changed ==> Contents() == old(Contents())
        decreases Energy(chords)
      {
        var mrLight, lightCount := GetLightestPeer(online);
        var mrHeavy, heavyCount := GetHeaviestPeer(online);
        if heavyCount > lightCount + 1 {
          MoveNoteLowersEnergy(Contents(), online);
          MoveOne(mrHeavy, mrLight, online);
          changed := true;
        } else {
          break;
        }
      }
    }

    method MoveOne(mrHeavy: PeerId, mrLight: PeerId, online: seq<PeerId>)
      requires Valid() && online != [] && Unbalanced(chords, online)
      requires mrHeavy == Heaviest(chords, online) && mrLight == Lightest(chords, online)
      modifies this
      ensures Valid() && Contents() == MoveNote(old(Contents()), online)
    {
      hide Counted, FullChecksum, SetNotes, Proper, Lightest, Heaviest, LastNote;
      var n := GetLastNoteInChord(At(chords, mrHeavy));
      SetNoteAssignmentsForPeerID(mrHeavy, At(chords, mrHeavy) - {n});
      SetNoteAssignmentsForPeerID(mrLight, At(chords, mrLight) + {n});
    }

    method SeniorAutoUpdateAssignments(used: Chord, online: seq<PeerId>) returns (changed: bool)
      requires Valid()
      modifies this
      ensures Valid() && (Contents(), changed) == Review(old(Contents()), used, online)
    {
      hide Counted, FullChecksum, Prune, AssignOrphans, Dedupe, HasOrphan, HasDuplicate, Unbalanced;
      changed := false;
      if strategy == MANUAL {
        return;
      }
      PruneProper(Contents(), online);
      PruneKeeps(Contents(), online);
      changed := ForgetLeadingOfflinePeers(online);
      if online == [] {
        return;
      }
      AssignOrphansFills(Contents(), used, online, NUM_CHOIR_NOTES);
      var given := AssignOrphanedNotes(used, online);
      changed := changed || given;
      if strategy == ASSISTED {
        return;
      }
      var removed := RemoveDuplicates();
      changed := changed || removed;
      if |online| > 1 {
        var moved := BalanceLoads(online);
        changed := changed || moved;
      }
    }

    // ----- Archive and updates -----

    method SetAllNotes(peers: seq<PeerId>, values: seq<Chord>)
      requires Valid()
      modifies this
      ensures Valid() && Contents() == SetAll(old(Contents()), peers, values, Shorter(peers, values))
    {
      hide Counted, FullChecksum;
      var i := 0;
      while i < |peers| && i < |values|
        invariant 0 <= i <= Shorter(peers, values)
        invariant Valid() && Contents() == SetAll(old(Contents()), peers, values, i)
      {
        SetNoteAssignmentsForPeerID(peers[i], values[i]);
        i := i + 1;
      }
    }

    method SetFromArchive(m: MapMsg) returns (ok: bool)
      requires Valid()
      modifies this
      ensures Valid() && (Contents(), ok) == Load(old(Contents()), m)
    {
      if !m.MapArchive? {
        return false;
      }
      SetToDefaultState();
      SetAssignmentStrategy(m.archivedStrategy);
      SetAllNotes(m.peers, m.chords);
      return true;
    }

    /** The archive lists the entries in table order, each peer with its notes, and
        loading it into any table gives this one. */
    method SaveToArchive() returns (m: MapMsg)
      requires Valid()
      ensures m.MapArchive? && m.archivedStrategy == strategy && m.peers == order && |m.chords| == |order|
      ensures forall i :: 0 <= i < |order| ==> order[i] in chords && m.chords[i] == chords[order[i]]
      ensures forall into: Assignments :: Load(into, m) == (Contents(), true)
      ensures m == Save(Contents())
    {
      hide Counted, FullChecksum;
      var peers: seq<PeerId>, values: seq<Chord> := [], [];
      for i := 0 to |order|
        invariant peers == order[..i] && |values| == i
        invariant forall j :: 0 <= j < i ==> order[j] in chords && values[j] == chords[order[j]]
      {
        assert order[i] in order;
        peers, values := peers + [order[i]], values + [chords[order[i]]];
      }
      assert peers == order;
      m := MapArchive(strategy, peers, values);
      ArchiveIsSave(Contents(), values);
      forall into: Assignments
        ensures Load(into, m) == (Contents(), true)
      {
        SaveThenLoad(Contents(), into);
      }
    }

    method SeniorUpdate(m: MapMsg) returns (reply: Option<MapMsg>)
      requires Valid()
      modifies this
      ensures Valid() && (Contents(), reply) == Senior(old(Contents()), m)
    {
      hide Counted, FullChecksum, Review, Save, SetNotes, CutTo, HandleToggle;
      match m {
        case ToggleAssignment(peer, n) =>
          var ok := HandleToggleAssignmentMessage(peer, n);
          return if ok then Some(m) else None;
        case UnassignOrphans(online) =>
          var any := UnassignOfflinePeers(online);
          if any {
            var archive := SaveToArchive();
            return Some(archive);
          }
          return Some(Noop);
        case ReviewAssignments(online, used) =>
          if used.None? {
            return None;
          }
          var changed := SeniorAutoUpdateAssignments(used.value, online);
          if changed {
            var archive := SaveToArchive();
            return Some(archive);
          }
          return Some(Noop);
        case SetStrategy(newStrategy) =>
          SetAssignmentStrategy(newStrategy);
          return Some(m);
        case Noop =>
          return Some(m);
        case _ =>
          return None;
      }
    }

    method JuniorUpdate(m: MapMsg) returns (ok: bool)
      requires Valid()
      modifies this
      ensures Valid() && (Contents(), ok) == Junior(old(Contents()), m)
    {
      hide Counted, FullChecksum, Save, Load, SetNotes, CutTo;
      match m {
        case Noop =>
          return true;
        case ToggleAssignment(peer, n) =>
          ok := HandleToggleAssignmentMessage(peer, n);
        case SetStrategy(newStrategy) =>
          SetAssignmentStrategy(newStrategy);
          return true;
        case MapArchive(_, _, _) =>
          ok := SetFromArchive(m);
        case _ =>
          return false;
      }
    }
  }

  lemma ArchiveIsSave(a: Assignments, values: seq<Chord>)
    requires |values| == |a.order| && forall i :: 0 <= i < |a.order| ==> values[i] == Notes(a, a.order[i])
    ensures Save(a) == MapArchive(a.strategy, a.order, values)
  {
    assert ChordsOf(a, a.order) == values;
  }

  // ----- Loops over one chord -----

  method CountBits(c: Chord) returns (count: nat)
    ensures count == Burden(c)
  {
    count := 0;
    for i := 0 to NUM_CHOIR_NOTES
      invariant count == |set n | n in c && n < i|
    {
      assert (set n | n in c && n < i + 1) == (set n | n in c && n < i) + if i in c then {i} else {};
      if i in c {
        count := count + 1;
      }
    }
  }

  /** The highest choir note of the chord, or 0 if it has none. */
  method GetLastNoteInChord(c: Chord) returns (n: Note)
    ensures Burden(c) > 0 ==> n == LastNote(c)
    ensures Burden(c) == 0 ==> n == 0
  {
    var i: int := NUM_CHOIR_NOTES - 1;
    while i >= 0 && i !in c
      invariant -1 <= i < NUM_CHOIR_NOTES && forall m :: m in Low(c) ==> m <= i
    {
      i := i - 1;
    }
    if i < 0 {
      assert Low(c) == {};
      return 0;
    }
    assert i in Low(c);
    n := i;
  }

  // ----- Facts the loops rest on -----

  lemma OnlineOnlyIs(a: Assignments, cut: map<PeerId, Chord>, online: seq<PeerId>, any: bool)
    requires Proper(a) && NoZero(cut) && OfflineGone(a.chords, cut, {}, online)
    requires !any ==> cut == a.chords
    ensures CutTo(a, cut) == if any then OnlineOnly(a, online) else a
  {
    hide OfflineGone, Keeping;
    OfflineGoneAll(a.chords, cut, online);
    CutToSelf(a);
  }

  lemma PruneOneMore(a: Assignments, online: seq<PeerId>)
    requires Proper(a) && a.order != [] && a.order[0] !in online
    ensures var r := SetNotes(a, a.order[0], {});
            r.order == a.order[1..] && Prune(r, online) == Prune(a, online)
  {
    hide Proper, Keeping, Elements;
    var p, tail := a.order[0], a.order[1..];
    FirstIsForgotten(a);
    SetOfLonger(a.order, tail, LeadingRun(tail, online));
  }

  lemma FirstIsForgotten(a: Assignments)
    requires Proper(a) && a.order != []
    ensures SetNotes(a, a.order[0], {}) == a.(order := a.order[1..], chords := a.chords - {a.order[0]})
  {
    KeepingTail(a.order, a.chords.Keys - {a.order[0]});
  }

  lemma SetOfLonger(order: seq<PeerId>, tail: seq<PeerId>, k: nat)
    requires k <= |tail| && order != [] && tail == order[1..]
    ensures order[k + 1..] == tail[k..]
    ensures forall chords: map<PeerId, Chord> :: chords - Elements(order[..k + 1]) == chords - {order[0]} - Elements(tail[..k])
  {
    assert order[..k + 1] == [order[0]] + tail[..k];
    assert Elements(order[..k + 1]) == {order[0]} + Elements(tail[..k]);
  }

  lemma KeepingTail(order: seq<PeerId>, keys: set<PeerId>)
    requires order != [] && order[0] !in keys
    requires forall i :: 1 <= i < |order| ==> order[i] in keys
    ensures Keeping(order, keys) == order[1..]
  {
    hide Keeping;
    var first, tail := [order[0]], order[1..];
    assert order == first + tail;
    KeepingConcat(first, tail, keys);
    KeepingSnoc([], order[0], keys);
    assert [] + first == first;
    KeepingAll([], keys);
    KeepingAll(tail, keys);
  }

  ghost predicate OrphanBelow(a: Assignments, used: Chord, n: nat) {
    exists m :: 0 <= m < n && m in used && !IsAssigned(a.chords, m)
  }

  lemma OrphanBelowAll(a: Assignments, used: Chord)
    ensures OrphanBelow(a, used, NUM_CHOIR_NOTES) == HasOrphan(a, used)
  {
  }

  /** Orphans given away so far do not change which later notes are orphans. */
  lemma OrphanNext(a: Assignments, used: Chord, online: seq<PeerId>, n: Note)
    requires Proper(a) && online != [] && n < NUM_CHOIR_NOTES
    ensures var r := AssignOrphans(a, used, online, n);
            OrphanBelow(a, used, n + 1) <==> OrphanBelow(a, used, n) || (n in used && !IsAssigned(r.chords, n))
  {
    AssignOrphansFills(a, used, online, n);
  }

  lemma AssignedBit(chords: map<PeerId, Chord>, histogram: Histogram, bits: Chord, n: Note)
    requires Counted(chords, histogram, bits)
    ensures n in bits <==> IsAssigned(chords, n)
  {
    UsedExactly(chords, n);
  }

  lemma NotesAreCounted(a: Assignments, histogram: Histogram, bits: Chord)
    requires Counted(a.chords, histogram, bits)
    ensures NotesInUse(a) <= histogram.Keys
    ensures forall n :: n in histogram ==> n < CHORD_BITS
  {
    forall n | n in NotesInUse(a)
      ensures n in histogram
    {
      UsedExactly(a.chords, n);
    }
  }

  /** Someone among the first `i` peers of the table has the note. */
  ghost predicate HolderAmong(a: Assignments, n: nat, i: nat) {
    exists j :: 0 <= j < i && j < |a.order| && n in At(a.chords, a.order[j])
  }

  /** Peer number `j` has note `m`, and is not to lose it when the notes of `done`
      are left only with their first holder, and so is `n` among the first `i`. */
  ghost predicate Spared(a: Assignments, done: set<nat>, n: nat, i: nat, j: nat, m: nat)
    requires j < |a.order|
  {
    m in At(a.chords, a.order[j]) && !((m in done || (m == n && j < i)) && HolderAmong(a, m, j))
  }

  ghost predicate Stripping(a: Assignments, cut: map<PeerId, Chord>, done: set<nat>, n: nat, i: nat) {
    forall j: nat, m: nat :: j < |a.order| ==> (m in At(cut, a.order[j]) <==> Spared(a, done, n, i, j, m))
  }

  /** Of the notes in `done`, each is left only with its first holder. */
  ghost predicate Stripped(a: Assignments, cut: map<PeerId, Chord>, done: set<nat>) {
    Stripping(a, cut, done, 0, 0)
  }

  lemma StrippedNone(a: Assignments)
    ensures Stripped(a, a.chords, {})
  {
    assert forall j: nat, m: nat :: j < |a.order| ==> Spared(a, {}, 0, 0, j, m) == (m in At(a.chords, a.order[j]));
  }

  lemma StrippingStarts(a: Assignments, cut: map<PeerId, Chord>, done: set<nat>, n: nat)
    requires Stripped(a, cut, done)
    ensures Stripping(a, cut, done, n, 0)
  {
    assert forall j: nat, m: nat :: j < |a.order| ==> Spared(a, done, n, 0, j, m) == Spared(a, done, 0, 0, j, m);
  }

  lemma StrippingEnds(a: Assignments, cut: map<PeerId, Chord>, done: set<nat>, n: nat)
    requires Stripping(a, cut, done, n, |a.order|)
    ensures Stripped(a, cut, done + {n})
  {
    assert forall j: nat, m: nat :: j < |a.order| ==>
      Spared(a, done, n, |a.order|, j, m) == Spared(a, done + {n}, 0, 0, j, m);
  }

  /** A holder of the note is redundant exactly when a holder came before it. */
  lemma RedundantIff(a: Assignments, n: nat, i: nat)
    requires Proper(a) && i < |a.order| && n in At(a.chords, a.order[i])
    ensures n in Redundant(a, a.order[i]) <==> HolderAmong(a, n, i)
  {
    var p := a.order[i];
    RedundantMeans(a, p, n);
    if q :| Before(a.order, q, p) && n in Notes(a, q) {
      var j, k :| 0 <= j < k < |a.order| && a.order[j] == q && a.order[k] == p;
      assert k == i && n in At(a.chords, a.order[j]);
    }
    if HolderAmong(a, n, i) {
      var j :| 0 <= j < i && j < |a.order| && n in At(a.chords, a.order[j]);
      assert Before(a.order, a.order[j], p) && n in Notes(a, a.order[j]);
    }
  }

  lemma StrippingOneMore(a: Assignments, cut: map<PeerId, Chord>, done: set<nat>, n: nat, i: nat)
    requires Proper(a) && NoZero(cut) && i < |a.order| && n !in done && Stripping(a, cut, done, n, i)
    ensures var p := a.order[i];
            && (n in At(cut, p) ==> p in cut)
            && (n in At(cut, p) && HolderAmong(a, n, i) ==>
                  Stripping(a, Put(cut, p, At(cut, p) - {n}), done, n, i + 1) && HasDuplicate(a))
            && (n !in At(cut, p) || !HolderAmong(a, n, i) ==> Stripping(a, cut, done, n, i + 1))
            && HolderAmong(a, n, i + 1) == (HolderAmong(a, n, i) || n in At(cut, p))
  {
    var p := a.order[i];
    assert n in At(cut, p) <==> Spared(a, done, n, i, i, n);
    HolderNext(a, n, i);
    if n in At(cut, p) && HolderAmong(a, n, i) {
      RedundantIff(a, n, i);
      StrippingTakes(a, cut, Put(cut, p, At(cut, p) - {n}), done, n, i);
    } else {
      StrippingSkips(a, cut, done, n, i);
    }
  }

  lemma HolderNext(a: Assignments, n: nat, i: nat)
    requires i < |a.order|
    ensures HolderAmong(a, n, i + 1) == (HolderAmong(a, n, i) || n in At(a.chords, a.order[i]))
  {
  }

  lemma StrippingTakes(a: Assignments, cut: map<PeerId, Chord>, left: map<PeerId, Chord>, done: set<nat>, n: nat, i: nat)
    requires Distinct(a.order) && i < |a.order| && Stripping(a, cut, done, n, i) && HolderAmong(a, n, i)
    requires forall p :: At(left, p) == if p == a.order[i] then At(cut, p) - {n} else At(cut, p)
    ensures Stripping(a, left, done, n, i + 1)
  {
    hide HolderAmong;
    forall j: nat, m: nat | j < |a.order|
      ensures m in At(left, a.order[j]) <==> Spared(a, done, n, i + 1, j, m)
    {
      assert m in At(cut, a.order[j]) <==> Spared(a, done, n, i, j, m);
      assert a.order[j] == a.order[i] <==> j == i;
    }
  }

  lemma StrippingSkips(a: Assignments, cut: map<PeerId, Chord>, done: set<nat>, n: nat, i: nat)
    requires i < |a.order| && Stripping(a, cut, done, n, i)
    requires n !in At(cut, a.order[i]) || !HolderAmong(a, n, i)
    ensures Stripping(a, cut, done, n, i + 1)
  {
    hide HolderAmong;
    forall j: nat, m: nat | j < |a.order|
      ensures m in At(cut, a.order[j]) <==> Spared(a, done, n, i + 1, j, m)
    {
      assert m in At(cut, a.order[j]) <==> Spared(a, done, n, i, j, m);
    }
  }

  lemma {:induction false} TwoHolders(chords: map<PeerId, Chord>, p: PeerId, q: PeerId, n: Note)
    requires p != q && n in At(chords, p) && n in At(chords, q)
    ensures Count(chords, n) > 1
  {
    TotalTake(chords, Holds(n), p);
    TotalTake(chords - {p}, Holds(n), q);
    TotalNonNegative(chords - {p} - {q}, Holds(n));
  }

  /** A note counted at most once has no holder to strip it from. */
  lemma SoleHolder(a: Assignments, cut: map<PeerId, Chord>, done: set<nat>, histogram: Histogram, bits: Chord, n: nat)
    requires Proper(a) && Stripped(a, cut, done) && n !in done
    requires Counted(cut, histogram, bits) && CountAt(histogram, n) <= 1
    ensures Stripped(a, cut, done + {n})
  {
    FullCountAt(cut, n);
    forall j: nat, m: nat | j < |a.order|
      ensures m in At(cut, a.order[j]) <==> Spared(a, done + {n}, 0, 0, j, m)
    {
      assert m in At(cut, a.order[j]) <==> Spared(a, done, 0, 0, j, m);
      if m == n && n in At(cut, a.order[j]) && HolderAmong(a, n, j) {
        var i: nat :| i < j && n in At(a.chords, a.order[i]);
        assert n in At(cut, a.order[i]) <==> Spared(a, done, 0, 0, i, n);
        TwoHolders(cut, a.order[j], a.order[i], n);
      }
    }
  }

  /** With every note in use done, what is left is what deduplication leaves. */
  lemma StrippedNotes(a: Assignments, cut: map<PeerId, Chord>, done: set<nat>, p: PeerId)
    requires Proper(a) && cut.Keys <= a.chords.Keys && Stripped(a, cut, done) && NotesInUse(a) <= done
    ensures At(cut, p) == Notes(a, p) - Redundant(a, p)
  {
    if p in a.chords {
      var j :| 0 <= j < |a.order| && a.order[j] == p;
      forall m: nat
        ensures m in At(cut, p) <==> m in Notes(a, p) && m !in Redundant(a, p)
      {
        assert m in At(cut, p) <==> Spared(a, done, 0, 0, j, m);
        if m in At(a.chords, p) {
          RedundantIff(a, m, j);
        }
      }
    }
  }

  lemma StrippedAll(a: Assignments, cut: map<PeerId, Chord>, done: set<nat>, changed: bool)
    requires Proper(a) && NoZero(cut) && cut.Keys <= a.chords.Keys && Stripped(a, cut, done) && NotesInUse(a) <= done
    requires if changed then HasDuplicate(a) else cut == a.chords
    ensures CutTo(a, cut) == Dedupe(a)
    ensures changed == HasDuplicate(a)
  {
    hide Stripped, Redundant, NotesInUse, Deduped;
    DedupeProper(a);
    forall p
      ensures At(cut, p) == At(Dedupe(a).chords, p) == Notes(a, p) - Redundant(a, p)
    {
      DedupeNotes(a, p);
      StrippedNotes(a, cut, done, p);
    }
    SameReadings(cut, Dedupe(a).chords);
    if !changed {
      forall p | p in a.chords
        ensures Redundant(a, p) == {}
      {
        RedundantIsHeld(a, p);
        assert At(cut, p) == Notes(a, p);
      }
    }
  }

  lemma RedundantIsHeld(a: Assignments, p: PeerId)
    ensures Redundant(a, p) <= Notes(a, p)
  {
  }

  /** Everyone but the peers in `todo` has lost the note. */
  ghost predicate NoteGone(base: map<PeerId, Chord>, cut: map<PeerId, Chord>, todo: set<PeerId>, n: Note) {
    todo <= base.Keys && forall p :: At(cut, p) == if p in todo then At(base, p) else At(base, p) - {n}
  }

  lemma NoteGoneOneMore(base: map<PeerId, Chord>, cut: map<PeerId, Chord>, todo: set<PeerId>, n: Note, p: PeerId)
    requires NoZero(base) && NoteGone(base, cut, todo, n) && p in todo
    ensures p in cut && cut[p] == base[p]
    ensures n in cut[p] ==> NoteGone(base, Put(cut, p, At(cut, p) - {n}), todo - {p}, n)
    ensures n !in cut[p] ==> NoteGone(base, cut, todo - {p}, n)
  {
    assert At(cut, p) == At(base, p);
    assert n !in cut[p] ==> At(base, p) - {n} == At(base, p);
  }

  lemma NoteGoneAll(base: map<PeerId, Chord>, cut: map<PeerId, Chord>, n: Note)
    requires NoZero(cut) && NoteGone(base, cut, {}, n)
    ensures cut == WithoutNote(base, n)
  {
    SameReadings(cut, WithoutNote(base, n));
  }

  /** Nobody offline but the peers in `todo` has notes. */
  ghost predicate OfflineGone(base: map<PeerId, Chord>, cut: map<PeerId, Chord>, todo: set<PeerId>, online: seq<PeerId>) {
    todo <= base.Keys && forall p :: At(cut, p) == if p in todo || p in online then At(base, p) else {}
  }

  lemma OfflineAtFirst(base: map<PeerId, Chord>, online: seq<PeerId>)
    ensures OfflineGone(base, base, base.Keys, online)
  {
  }

  lemma OfflineGoneOneMore(base: map<PeerId, Chord>, cut: map<PeerId, Chord>, todo: set<PeerId>, online: seq<PeerId>, p: PeerId)
    requires NoZero(base) && OfflineGone(base, cut, todo, online) && p in todo
    ensures p in cut && cut[p] == base[p]
    ensures p !in online ==> OfflineGone(base, Put(cut, p, At(cut, p) - cut[p]), todo - {p}, online)
    ensures p in online ==> OfflineGone(base, cut, todo - {p}, online)
  {
    assert At(cut, p) == At(base, p);
    assert At(cut, p) - cut[p] == {};
  }

  lemma OfflineGoneAll(base: map<PeerId, Chord>, cut: map<PeerId, Chord>, online: seq<PeerId>)
    requires NoZero(base) && NoZero(cut) && OfflineGone(base, cut, {}, online)
    ensures cut == OnlineChords(base, online)
  {
    SameReadings(cut, OnlineChords(base, online));
  }

  lemma NothingAssigned(a: Assignments, histogram: Histogram, n: Note)
    requires Proper(a) && Counted(a.chords, histogram, {})
    ensures CutTo(a, WithoutNote(a.chords, n)) == a
  {
    if p :| p in a.chords {
      var m :| m in a.chords[p];
      UsedExactly(a.chords, m);
    }
    assert a.chords == map[];
    assert WithoutNote(a.chords, n) == a.chords;
    CutToSelf(a);
  }
}
