/** The update messages of NoteAssignmentsMap, on the senior and on a junior. */
module NoteAssignments {
  import opened Tables
  import opened Chords
  import opened AssignmentTables
  import opened Allocator
  import opened AllocatorTheorems

  predicate SomeoneLeft(a: Assignments, online: seq<PeerId>) {
    exists p :: p in a.order && p !in online
  }

  lemma SomeoneLeftMeans(a: Assignments, online: seq<PeerId>)
    requires Proper(a)
    ensures SomeoneLeft(a, online) <==> exists p :: p in a.chords && p !in online
  {
    if p :| p in a.chords && p !in online {
      assert p in a.order;
    }
  }

  /** What the senior does with a command, and what it tells the juniors to do. */
  function Senior(a: Assignments, m: MapMsg): (Assignments, Option<MapMsg>) {
    match m
    case ToggleAssignment(peer, n) =>
      var (r, ok) := HandleToggle(a, peer, n);
      (r, if ok then Some(m) else None)
    case UnassignOrphans(online) =>
      if SomeoneLeft(a, online) then (OnlineOnly(a, online), Some(Save(OnlineOnly(a, online)))) else (a, Some(Noop))
    case ReviewAssignments(online, used) =>
      if used.None? then (a, None)
      else
        var (r, changed) := Review(a, used.value, online);
        (r, Some(if changed then Save(r) else Noop))
    case SetStrategy(strategy) => (a.(strategy := strategy), Some(m))
    case Noop => (a, Some(m))
    case _ => (a, None)
  }

  function Junior(a: Assignments, m: MapMsg): (Assignments, bool) {
    match m
    case Noop => (a, true)
    case ToggleAssignment(peer, n) => HandleToggle(a, peer, n)
    case SetStrategy(strategy) => (a.(strategy := strategy), true)
    case MapArchive(_, _, _) => Load(a, m)
    case _ => (a, false)
  }

  lemma ToggleProper(a: Assignments, peer: Option<PeerId>, n: Note)
    requires Proper(a)
    ensures Proper(HandleToggle(a, peer, n).0)
  {
    if peer.Some? {
      if peer.value != INVALID_PEER {
        var c := Notes(a, peer.value);
        SetNotesProper(a, peer.value, if n in c then c - {n} else c + {n});
      } else {
        CutToProper(a, WithoutNote(a.chords, n));
      }
    }
  }

  /** Toggling a peer's note twice gives every peer its notes back, and the table its
      order unless the peer had that note only and was not the last one. */
  lemma ToggleTwice(a: Assignments, p: PeerId, n: Note)
    requires Proper(a) && p != INVALID_PEER
    ensures var r := HandleToggle(HandleToggle(a, Some(p), n).0, Some(p), n).0;
            && r.chords == a.chords && r.strategy == a.strategy
            && (r.order == a.order <==> Notes(a, p) != {n} || a.order[|a.order| - 1] == p)
  {
    hide Keeping, SetNotes;
    var c := Notes(a, p);
    var d: Chord := if n in c then c - {n} else c + {n};
    assert (if n in d then d - {n} else d + {n}) == c;
    assert d == {} <==> c == {n};
    NotesAreSet(a, p, d);
    SetNotesBack(a, p, d);
  }

  lemma NotesAreSet(a: Assignments, p: PeerId, d: Chord)
    ensures Notes(SetNotes(a, p, d), p) == d
  {
  }

  lemma SetNotesBack(a: Assignments, p: PeerId, d: Chord)
    requires Proper(a) && d != Notes(a, p)
    ensures var r := SetNotes(SetNotes(a, p, d), p, Notes(a, p));
            && r.chords == a.chords && r.strategy == a.strategy
            && (p in a.chords ==> a.order != [])
            && (r.order == a.order <==> d != {} || a.order[|a.order| - 1] == p)
  {
    hide Keeping;
    var once := SetNotes(a, p, d);
    assert Put(once.chords, p, Notes(a, p)) == a.chords;
    if p !in a.chords {
      ToggleNewcomer(a, p);
      assert once.chords.Keys == a.chords.Keys + {p};
    } else if d == {} {
      ToggleOnlyNote(a, p);
    } else {
      assert p in a.order;
    }
  }

  lemma ToggleNewcomer(a: Assignments, p: PeerId)
    requires Proper(a) && p !in a.chords
    ensures Keeping(a.order + [p], (a.chords.Keys + {p}) - {p}) == a.order
  {
    assert (a.chords.Keys + {p}) - {p} == a.chords.Keys;
    KeepingSnoc(a.order, p, a.chords.Keys);
    KeepingAll(a.order, a.chords.Keys);
  }

  lemma ToggleOnlyNote(a: Assignments, p: PeerId)
    requires Proper(a) && p in a.chords
    ensures a.order != []
    ensures Keeping(a.order, a.chords.Keys - {p}) + [p] == a.order <==> a.order[|a.order| - 1] == p
  {
    assert p in a.order;
    var n := |a.order| - 1;
    if a.order[n] == p {
      assert a.order == a.order[..n] + [p];
      KeepingSnoc(a.order[..n], p, a.chords.Keys - {p});
      assert forall q :: q in a.order[..n] ==> q in a.order && q != p;
      KeepingAll(a.order[..n], a.chords.Keys - {p});
    }
  }

  lemma OnlineOnlyProper(a: Assignments, online: seq<PeerId>)
    requires Proper(a)
    ensures Proper(OnlineOnly(a, online))
    ensures forall p :: p in OnlineOnly(a, online).chords <==> p in a.chords && p in online
  {
    CutToProper(a, OnlineChords(a.chords, online));
  }

  lemma SeniorProper(a: Assignments, m: MapMsg)
    requires Proper(a)
    ensures Proper(Senior(a, m).0)
  {
    match m {
      case ToggleAssignment(peer, n) => ToggleProper(a, peer, n);
      case UnassignOrphans(online) => OnlineOnlyProper(a, online);
      case ReviewAssignments(online, used) =>
        if used.Some? {
          ReviewProper(a, used.value, online);
        }
      case _ =>
    }
  }

  lemma JuniorFollowsReview(a: Assignments, online: seq<PeerId>, used: Chord)
    requires Proper(a)
    ensures var (r, changed) := Review(a, used, online);
            Junior(a, if changed then Save(r) else Noop) == (r, true)
  {
    var (r, changed) := Review(a, used, online);
    if changed {
      ReviewProper(a, used, online);
      SaveThenLoad(r, a);
    } else {
      UnchangedReview(a, used, online);
    }
  }

  lemma JuniorFollowsOrphans(a: Assignments, online: seq<PeerId>)
    requires Proper(a)
    ensures Junior(a, Save(OnlineOnly(a, online))) == (OnlineOnly(a, online), true)
  {
    OnlineOnlyProper(a, online);
    SaveThenLoad(OnlineOnly(a, online), a);
  }

  /** From the same table, a junior told to do what the senior's update returned
      ends with the senior's table, order and strategy included; a refused
      command changes nothing. */
  lemma JuniorFollowsSenior(a: Assignments, m: MapMsg)
    requires Proper(a)
    ensures var (r, reply) := Senior(a, m);
            && (reply.Some? ==> Junior(a, reply.value) == (r, true))
            && (reply.None? ==> r == a)
  {
    hide Review, OnlineOnly, Save, Load, SetNotes, CutTo, Proper;
    match m {
      case UnassignOrphans(online) => JuniorFollowsOrphans(a, online);
      case ReviewAssignments(online, used) =>
        if used.Some? {
          JuniorFollowsReview(a, online, used.value);
        }
      case _ =>
    }
  }

  // ----- The checksum, from scratch -----

  ghost function Weight(sums: Sums): (PeerId, Chord) -> int {
    (p: PeerId, c: Chord) => sums.peer(p) + sums.pod(c)
  }

  /** CalculateChecksum: what a full scan gives. */
  ghost function FullChecksum(sums: Sums, strategy: nat, chords: map<PeerId, Chord>): nat {
    Wrap32(strategy + Total(chords, Weight(sums)))
  }

  method ChecksumWithout(sums: Sums, ghost strategy: nat, ghost chords: map<PeerId, Chord>, checksum: nat, p: PeerId, c: Chord)
    returns (r: nat)
    requires p in chords && c == chords[p] && checksum == FullChecksum(sums, strategy, chords)
    ensures r == FullChecksum(sums, strategy, chords - {p})
  {
    TotalTake(chords, Weight(sums), p);
    WrapPlus(strategy + Total(chords, Weight(sums)), sums.peer(p) + sums.pod(c));
    r := Wrap32(checksum - (sums.peer(p) + sums.pod(c)));
  }

  method ChecksumWith(sums: Sums, ghost strategy: nat, ghost chords: map<PeerId, Chord>, checksum: nat, p: PeerId, c: Chord)
    returns (r: nat)
    requires p !in chords && checksum == FullChecksum(sums, strategy, chords)
    ensures r == FullChecksum(sums, strategy, chords[p := c])
  {
    TotalPut(chords, Weight(sums), p, c);
    assert chords - {p} == chords;
    WrapPlus(strategy + Total(chords, Weight(sums)), sums.peer(p) + sums.pod(c));
    r := Wrap32(checksum + (sums.peer(p) + sums.pod(c)));
  }

  method ChecksumRestrategized(sums: Sums, was: nat, ghost chords: map<PeerId, Chord>, checksum: nat, strategy: nat)
    returns (r: nat)
    requires checksum == FullChecksum(sums, was, chords)
    ensures r == FullChecksum(sums, strategy, chords)
  {
    ghost var total := Total(chords, Weight(sums));
    WrapPlus(was + total, was);
    r := Wrap32(checksum - was);
    WrapPlus(total, strategy);
    r := Wrap32(r + strategy);
  }
}
