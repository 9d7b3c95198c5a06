/** What each message does to the song, column by column and note by note. */
module SheetEffects {
  import opened Tables
  import opened Chords
  import opened MusicSheets

  /** Everything but column `i` is as it was. */
  ghost predicate OnlyColumn(s: Sheet, r: Sheet, i: Index) {
    r.path == s.path && forall j: Index :: j != i ==> At(r.chords, j) == At(s.chords, j)
  }

  // ----- The senior's commands -----

  /** A toggle takes the note out of the column if it was there and puts it in if it was
      not, touches nothing else, and has the juniors set that column to what it now is. */
  lemma ToggleFlips(s: Sheet, i: Index, n: Note)
    ensures var (r, reply) := Senior(s, ToggleNote(i, n));
            && (n in At(r.chords, i) <==> n !in At(s.chords, i))
            && (forall m: Note :: m != n ==> (m in At(r.chords, i) <==> m in At(s.chords, i)))
            && OnlyColumn(s, r, i)
            && reply == Some(SetChord(i, At(r.chords, i)))
  {
  }

  lemma ToggleTwice(s: Sheet, i: Index, n: Note)
    requires NoZero(s.chords)
    ensures Senior(Senior(s, ToggleNote(i, n)).0, ToggleNote(i, n)).0 == s
  {
    var once := Senior(s, ToggleNote(i, n)).0;
    var twice := Senior(once, ToggleNote(i, n)).0;
    hide Senior;
    JuniorFollowsSenior(s, ToggleNote(i, n));
    JuniorFollowsSenior(once, ToggleNote(i, n));
    ToggleFlips(s, i, n);
    ToggleFlips(once, i, n);
    forall j: Index
      ensures At(twice.chords, j) == At(s.chords, j)
    {
      if j == i {
        assert forall m :: m in At(twice.chords, i) <==> m in At(s.chords, i);
      }
    }
    SameReadings(twice.chords, s.chords);
  }

  /** The columns from `i` on are one further right, and column `i` is silent. What was in
      the last column comes round and takes the place of the first; a song of that chord
      only ends with it in the first column even when that is the one inserted. */
  lemma InsertShifts(s: Sheet, i: Index, j: Index)
    ensures var (r, reply) := Senior(s, InsertChord(i));
            var last := At(s.chords, LAST_INDEX);
            var first := if LAST_INDEX in s.chords then last else At(s.chords, 0);
            && r.path == s.path && reply == Some(InsertChord(i))
            && (i == 0 && s.chords.Keys == {LAST_INDEX} ==> At(r.chords, j) == if j == 0 then last else {})
            && (i > 0 || s.chords.Keys != {LAST_INDEX} ==>
                  && (j == 0 < i ==> At(r.chords, j) == first)
                  && (0 < j < i ==> At(r.chords, j) == At(s.chords, j))
                  && (j == i ==> At(r.chords, j) == {})
                  && (j == 1 > i ==> At(r.chords, j) == first)
                  && (j > i && j > 1 ==> At(r.chords, j) == At(s.chords, j - 1)))
  {
    assert OnlyLast(s.chords) <==> s.chords.Keys == {LAST_INDEX};
  }

  /** Column `i` is gone, those after it are one further left and the last is silent. */
  lemma DeleteShifts(s: Sheet, i: Index, j: Index)
    ensures var (r, reply) := Senior(s, DeleteChord(i));
            && r.path == s.path && reply == Some(DeleteChord(i))
            && (j < i ==> At(r.chords, j) == At(s.chords, j))
            && (i <= j < LAST_INDEX ==> At(r.chords, j) == At(s.chords, j + 1))
            && (j == LAST_INDEX ==> At(r.chords, j) == {})
  {
  }

  /** The other commands: a new path changes the path only, a no-op nothing, and what
      only juniors or nobody may be told is refused. */
  lemma OtherCommands(s: Sheet, m: SheetMsg)
    requires !m.ToggleNote? && !m.InsertChord? && !m.DeleteChord?
    ensures var (r, reply) := Senior(s, m);
            && r.chords == s.chords
            && r.path == (if m.SetSongFilePath? then m.path else s.path)
            && reply == if m.SetSongFilePath? || m.Noop? then Some(m) else None
  {
  }

  /** A chord set on a junior is in its column and nothing else changes; commands that
      only the senior may carry out are refused. */
  lemma JuniorSets(s: Sheet, m: SheetMsg)
    ensures m.SetChord? ==> var (r, ok) := Junior(s, m);
              ok && At(r.chords, m.index) == m.chord && OnlyColumn(s, r, m.index)
    ensures m.ToggleNote? || m.Unknown? ==> Junior(s, m) == (s, false)
  {
  }

  // ----- The archive -----

  /** The last entry for column `j` in an archive. */
  ghost predicate LastListed(indices: seq<Index>, n: nat, j: Index, i: nat) {
    i < n <= |indices| && indices[i] == j && forall later :: i < later < n ==> indices[later] != j
  }

  lemma {:induction false} PutAllLast(indices: seq<Index>, values: seq<Chord>, n: nat, j: Index, i: nat)
    requires n <= |values| && LastListed(indices, n, j, i)
    ensures At(PutAll(map[], indices, values, n), j) == values[i]
  {
    if i < n - 1 {
      PutAllLast(indices, values, n - 1, j, i);
    }
  }

  lemma {:induction false} PutAllNone(indices: seq<Index>, values: seq<Chord>, n: nat, j: Index)
    requires n <= |indices| && n <= |values| && j !in indices[..n]
    ensures At(PutAll(map[], indices, values, n), j) == {}
  {
    if n > 0 {
      assert indices[n - 1] in indices[..n] && indices[..n] == indices[..n - 1] + [indices[n - 1]];
      PutAllNone(indices, values, n - 1, j);
    }
  }

  /** Any archive, well made or not: each column has the chord listed for it last, columns
      not listed are silent, entries without a partner are left out, a missing path is
      the empty one, and nothing of the song before is left. */
  lemma LoadReads(into: Sheet, m: SheetMsg, j: Index)
    requires m.SheetArchive?
    ensures var (r, ok) := Load(into, m);
            var n := Shorter(m.indices, m.chords);
            && ok && NoZero(r.chords)
            && r.path == (match m.archivedPath case Some(path) => path case None => "")
            && (forall i: nat :: LastListed(m.indices, n, j, i) ==> At(r.chords, j) == m.chords[i])
            && (j !in m.indices[..n] ==> At(r.chords, j) == {})
  {
    var n := Shorter(m.indices, m.chords);
    PutAllNoZero(m.indices, m.chords, n);
    forall i: nat | LastListed(m.indices, n, j, i)
      ensures At(PutAll(map[], m.indices, m.chords, n), j) == m.chords[i]
    {
      PutAllLast(m.indices, m.chords, n, j, i);
    }
    if j !in m.indices[..n] {
      PutAllNone(m.indices, m.chords, n, j);
    }
  }

  // ----- The checksum -----

  lemma WrapTimes(k: Index, p: nat)
    ensures Wrap32(Wrap32(k + 1) * p) == Wrap32((k + 1) * p)
  {
    if k == LAST_INDEX {
      assert (UINT32_SPAN * p) % UINT32_SPAN == 0;
    }
  }

  /** A chord counts in the checksum as often as its column's number, counted from 1;
      a song without chords has its path's. */
  lemma ChecksumOfColumn(sums: Sums, s: Sheet, k: Index, c: Chord)
    requires k !in s.chords
    ensures FullChecksum(sums, s.(chords := s.chords[k := c])) == Wrap32(FullChecksum(sums, s) + (k + 1) * sums.pod(c))
    ensures FullChecksum(sums, Sheet(s.path, map[])) == Wrap32(sums.str(s.path))
  {
    var more, total := (k + 1) * sums.pod(c), sums.str(s.path) + Total(s.chords, Weight(sums));
    TotalPut(s.chords, Weight(sums), k, c);
    assert s.chords - {k} == s.chords;
    hide Wrap32;
    WrapTimes(k, sums.pod(c));
    WrapPlus(more, total);
    WrapPlus(total, more);
  }
}
