/** What each message does to the note assignments, peer by peer. */
module AssignmentEffects {
  import opened Tables
  import opened Chords
  import opened AssignmentTables
  import opened Allocator
  import opened AllocatorTheorems
  import opened AllocatorEffects
  import opened NoteAssignments

  /** A toggle for a peer takes the note from it if it had it and gives it if it had not;
      nobody else and no other note is touched. */
  lemma ToggleFlips(a: Assignments, p: PeerId, n: Note)
    requires Proper(a) && p != INVALID_PEER
    ensures var (r, reply) := Senior(a, ToggleAssignment(Some(p), n));
            && (n in Notes(r, p) <==> n !in Notes(a, p))
            && (forall m: Note :: m != n ==> (m in Notes(r, p) <==> m in Notes(a, p)))
            && (forall q :: q != p ==> Notes(r, q) == Notes(a, q))
            && r.strategy == a.strategy
            && reply == Some(ToggleAssignment(Some(p), n))
  {
    var c := Notes(a, p);
    SetNotesSets(a, p, if n in c then c - {n} else c + {n});
  }

  /** A toggle for nobody in particular takes the note from everyone. */
  lemma ToggleForNobody(a: Assignments, n: Note)
    requires Proper(a)
    ensures var (r, reply) := Senior(a, ToggleAssignment(Some(INVALID_PEER), n));
            && (forall p :: Notes(r, p) == Notes(a, p) - {n})
            && r.strategy == a.strategy
            && reply == Some(ToggleAssignment(Some(INVALID_PEER), n))
  {
  }

  /** Peers that left lose their notes, the others keep theirs and their order, and the
      juniors are sent the table exactly if that changed it. */
  lemma OrphansUnassigned(a: Assignments, online: seq<PeerId>)
    requires Proper(a)
    ensures var (r, reply) := Senior(a, UnassignOrphans(online));
            && (forall p :: Notes(r, p) == if p in online then Notes(a, p) else {})
            && r.order == Keeping(a.order, Elements(online)) && r.strategy == a.strategy
            && reply == Some(if r != a then Save(r) else Noop)
  {
    hide Keeping;
    if SomeoneLeft(a, online) {
      var r := OnlineOnly(a, online);
      var p :| p in a.order && p !in online;
      assert p in a.chords && p !in r.chords;
      SameKeeping(a.order, OnlineChords(a.chords, online).Keys, Elements(online));
    } else {
      assert forall p :: p in a.order ==> p in Elements(online);
      KeepingAll(a.order, Elements(online));
    }
  }

  lemma {:induction false} SameKeeping(order: seq<PeerId>, some: set<PeerId>, others: set<PeerId>)
    requires forall p :: p in order ==> (p in some <==> p in others)
    ensures Keeping(order, some) == Keeping(order, others)
  {
    if order != [] {
      var n := |order| - 1;
      assert order[n] in order;
      SameKeeping(order[..n], some, others);
    }
  }

  /** A review is carried out if the song is at hand and refused if it is not, and the
      juniors are sent the table exactly if the review changed it. */
  lemma ReviewIsCarriedOut(a: Assignments, online: seq<PeerId>, used: Option<Chord>)
    requires Proper(a)
    ensures var (r, reply) := Senior(a, ReviewAssignments(online, used));
            match used
            case None => r == a && reply == None
            case Some(notes) => r == Review(a, notes, online).0 && reply == Some(if r != a then Save(r) else Noop)
  {
    if used.Some? {
      hide Review, Save;
      ChangedIff(a, used.value, online);
    }
  }

  /** The other commands: a new strategy changes the strategy only, a no-op nothing; a
      toggle without a peer and what only juniors or nobody may be told is refused. */
  lemma OtherCommands(a: Assignments, m: MapMsg)
    requires m.ToggleAssignment? ==> m.peer == None
    requires !m.UnassignOrphans? && !m.ReviewAssignments?
    ensures var (r, reply) := Senior(a, m);
            && r.order == a.order && r.chords == a.chords
            && r.strategy == (if m.SetStrategy? then m.strategy else a.strategy)
            && reply == if m.SetStrategy? || m.Noop? then Some(m) else None
  {
  }

  // ----- The archive -----

  ghost predicate LastListed(peers: seq<PeerId>, n: nat, p: PeerId, i: nat) {
    i < n <= |peers| && peers[i] == p && forall later :: i < later < n ==> peers[later] != p
  }

  lemma SetReads(a: Assignments, p: PeerId, c: Chord, q: PeerId)
    ensures Notes(SetNotes(a, p, c), q) == if q == p then c else Notes(a, q)
    ensures SetNotes(a, p, c).strategy == a.strategy
  {
  }

  lemma {:induction false} SetAllLast(a: Assignments, peers: seq<PeerId>, values: seq<Chord>, n: nat, p: PeerId, i: nat)
    requires n <= |values| && LastListed(peers, n, p, i)
    ensures Notes(SetAll(a, peers, values, n), p) == values[i]
  {
    hide Notes, SetNotes;
    SetReads(SetAll(a, peers, values, n - 1), peers[n - 1], values[n - 1], p);
    if i < n - 1 {
      SetAllLast(a, peers, values, n - 1, p, i);
    }
  }

  lemma {:induction false} SetAllNone(a: Assignments, peers: seq<PeerId>, values: seq<Chord>, n: nat, p: PeerId)
    requires n <= |peers| && n <= |values|
    ensures SetAll(a, peers, values, n).strategy == a.strategy
    ensures p !in peers[..n] ==> Notes(SetAll(a, peers, values, n), p) == Notes(a, p)
  {
    hide Notes, SetNotes;
    if n > 0 {
      assert peers[..n] == peers[..n - 1] + [peers[n - 1]];
      SetAllNone(a, peers, values, n - 1, p);
      SetReads(SetAll(a, peers, values, n - 1), peers[n - 1], values[n - 1], p);
    }
  }

  /** Any archive: each peer has the notes listed for it last, peers not listed have none,
      the strategy is the archived one, and nothing of the table before is left. */
  lemma LoadReads(into: Assignments, m: MapMsg, p: PeerId)
    requires m.MapArchive?
    ensures var (r, ok) := Load(into, m);
            var n := Shorter(m.peers, m.chords);
            && ok && Proper(r) && r.strategy == m.archivedStrategy
            && (forall i: nat :: LastListed(m.peers, n, p, i) ==> Notes(r, p) == m.chords[i])
            && (p !in m.peers[..n] ==> Notes(r, p) == {})
  {
    hide SetAll, Proper;
    var start, n := DEFAULT_ASSIGNMENTS.(strategy := m.archivedStrategy), Shorter(m.peers, m.chords);
    assert Proper(start) by { DefaultIsProper(m.archivedStrategy); }
    SetAllProper(start, m.peers, m.chords, n);
    forall i: nat | LastListed(m.peers, n, p, i)
      ensures Notes(SetAll(start, m.peers, m.chords, n), p) == m.chords[i]
    {
      SetAllLast(start, m.peers, m.chords, n, p, i);
    }
    SetAllNone(start, m.peers, m.chords, n, p);
  }

  lemma DefaultIsProper(strategy: nat)
    ensures Proper(DEFAULT_ASSIGNMENTS.(strategy := strategy))
  {
  }

  // ----- The checksum -----

  /** An entry counts in the checksum with its peer's and its chord's; a table without
      entries has its strategy. */
  lemma ChecksumOfEntry(sums: Sums, strategy: nat, chords: map<PeerId, Chord>, p: PeerId, c: Chord)
    requires p !in chords
    ensures FullChecksum(sums, strategy, chords[p := c]) ==
            Wrap32(FullChecksum(sums, strategy, chords) + sums.peer(p) + sums.pod(c))
    ensures FullChecksum(sums, strategy, map[]) == Wrap32(strategy)
  {
    TotalPut(chords, Weight(sums), p, c);
    assert chords - {p} == chords;
    WrapPlus(strategy + Total(chords, Weight(sums)), sums.peer(p) + sums.pod(c));
  }
}
