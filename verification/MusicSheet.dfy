/** MusicSheet: a song as a table of chords, with a running checksum, a note
    histogram and a used-notes chord that are kept up to date incrementally. */
module MusicSheets {
  import opened Tables
  import opened Chords

  type Index = n: nat | n < UINT32_SPAN

  const LAST_INDEX: Index := UINT32_SPAN - 1

  // ----- The sheet as a value -----

  datatype Sheet = Sheet(path: string, chords: map<Index, Chord>)

  datatype SheetMsg =
    | ToggleNote(index: Index, note: Note)
    | SetChord(index: Index, chord: Chord)
    | InsertChord(index: Index)
    | DeleteChord(index: Index)
    | SetSongFilePath(path: string)
    | Noop
    | SheetArchive(archivedPath: Option<string>, indices: seq<Index>, chords: seq<Chord>)
    | Unknown(what: nat)

  const DEFAULT_SHEET := Sheet("", map[])

  /** A chord pushed past the last 32-bit index comes round to index 0. */
  function WrapLast(chords: map<Index, Chord>): map<Index, Chord> {
    if LAST_INDEX in chords then (chords - {LAST_INDEX})[0 := chords[LAST_INDEX]] else chords
  }

  /** The one song whose chord comes round after the insertion has looked its last. */
  predicate OnlyLast(chords: map<Index, Chord>) {
    LAST_INDEX in chords && forall k :: k in chords ==> k == LAST_INDEX
  }

  /** What column `j` holds after a column is inserted at `at`. A chord that came
      round to column 0 is moved on when `at` is 0, unless it is the only one. */
  function InsertedColumn(chords: map<Index, Chord>, at: Index, j: Index): Chord {
    if at == 0 && OnlyLast(chords) then At(WrapLast(chords), j)
    else if j < at then At(WrapLast(chords), j) else if j == at then {} else At(WrapLast(chords), j - 1)
  }

  /** Chords at or after `at` one column to the right (the last one comes round). */
  function InsertAt(chords: map<Index, Chord>, at: Index): (r: map<Index, Chord>)
    ensures NoZero(r) && forall j: Index :: At(r, j) == InsertedColumn(chords, at, j)
  {
    map j: Index | 0 <= j < UINT32_SPAN && InsertedColumn(chords, at, j) != {} :: InsertedColumn(chords, at, j)
  }

  /** What column `j` holds after the column at `at` is deleted. */
  function RemainingColumn(chords: map<Index, Chord>, at: Index, j: Index): Chord {
    if j < at then At(chords, j) else if j < LAST_INDEX then At(chords, j + 1) else {}
  }

  /** The chord at `at` gone, those after it one column to the left. */
  function DeleteAt(chords: map<Index, Chord>, at: Index): (r: map<Index, Chord>)
    ensures NoZero(r) && forall j: Index :: At(r, j) == RemainingColumn(chords, at, j)
  {
    map j: Index | 0 <= j < UINT32_SPAN && RemainingColumn(chords, at, j) != {} :: RemainingColumn(chords, at, j)
  }

  function PutAll(chords: map<Index, Chord>, indices: seq<Index>, values: seq<Chord>, n: nat): map<Index, Chord>
    requires n <= |indices| && n <= |values|
  {
    if n == 0 then chords
    else Put(PutAll(chords, indices, values, n - 1), indices[n - 1], values[n - 1])
  }

  function Load(s: Sheet, m: SheetMsg): (Sheet, bool) {
    match m
    case SheetArchive(path, indices, chords) =>
      (Sheet(if path.Some? then path.value else "", PutAll(map[], indices, chords, Shorter(indices, chords))), true)
    case _ => (s, false)
  }

  function ChordsAt(chords: map<Index, Chord>, keys: seq<nat>): (r: seq<Chord>)
    requires forall i :: 0 <= i < |keys| ==> keys[i] < UINT32_SPAN && keys[i] in chords
    ensures |r| == |keys| && forall i :: 0 <= i < |keys| ==> r[i] == chords[keys[i]]
  {
    if keys == [] then [] else ChordsAt(chords, keys[..|keys| - 1]) + [chords[keys[|keys| - 1]]]
  }

  function Indices(chords: map<Index, Chord>): (r: seq<Index>)
    ensures Ascending(r) && forall k :: k in r <==> k in chords
  {
    SortedKeys(chords.Keys)
  }

  /** The archive of a sheet lists its chords in index order. */
  ghost predicate Lists(m: SheetMsg, s: Sheet) {
    && m.SheetArchive? && m.archivedPath == Some(s.path) && |m.indices| == |m.chords|
    && Ascending(m.indices)
    && (forall k: Index :: k in m.indices <==> k in s.chords)
    && (forall i :: 0 <= i < |m.indices| ==> m.indices[i] in s.chords && m.chords[i] == s.chords[m.indices[i]])
  }

  function Save(s: Sheet): (m: SheetMsg)
    ensures Lists(m, s)
  {
    var keys := Indices(s.chords);
    assert forall i :: 0 <= i < |keys| ==> keys[i] in keys;
    SheetArchive(Some(s.path), keys, ChordsAt(s.chords, keys))
  }

  function Toggled(c: Chord, n: Note): Chord {
    if n in c then c - {n} else c + {n}
  }

  /** What the senior does with a command, and what it tells the juniors to do. */
  function Senior(s: Sheet, m: SheetMsg): (Sheet, Option<SheetMsg>) {
    match m
    case ToggleNote(i, n) =>
      var c := Toggled(At(s.chords, i), n);
      (s.(chords := Put(s.chords, i, c)), Some(SetChord(i, c)))
    case InsertChord(i) => (s.(chords := InsertAt(s.chords, i)), Some(m))
    case DeleteChord(i) => (s.(chords := DeleteAt(s.chords, i)), Some(m))
    case SetSongFilePath(path) => (s.(path := path), Some(m))
    case Noop => (s, Some(m))
    case _ => (s, None)
  }

  function Junior(s: Sheet, m: SheetMsg): (Sheet, bool) {
    match m
    case Noop => (s, true)
    case SetChord(i, c) => (s.(chords := Put(s.chords, i, c)), true)
    case InsertChord(i) => (s.(chords := InsertAt(s.chords, i)), true)
    case DeleteChord(i) => (s.(chords := DeleteAt(s.chords, i)), true)
    case SetSongFilePath(path) => (s.(path := path), true)
    case SheetArchive(_, _, _) => Load(s, m)
    case _ => (s, false)
  }

  // ----- Shifting -----

  /** Deleting the column just inserted gives the sheet back, exactly when no
      chord sat at the last 32-bit index. */
  lemma DeleteUndoesInsert(chords: map<Index, Chord>, at: Index)
    requires NoZero(chords)
    ensures DeleteAt(InsertAt(chords, at), at) == chords <==> LAST_INDEX !in chords
  {
    var inserted := InsertAt(chords, at);
    var r := DeleteAt(inserted, at);
    if LAST_INDEX in chords {
      assert At(r, LAST_INDEX) == {} != At(chords, LAST_INDEX);
    } else {
      forall j: Index
        ensures At(r, j) == At(chords, j)
      {
        assert j < LAST_INDEX && j >= at ==> At(inserted, j + 1) == At(chords, j);
      }
      SameReadings(r, chords);
    }
  }

  /** One chord at the last index is lost by inserting and deleting the first column. */
  lemma LastChordExample()
    ensures DeleteAt(InsertAt(map[LAST_INDEX := {7}], 0), 0) == map[]
  {
    var song: map<Index, Chord> := map[LAST_INDEX := {7}];
    var inserted := InsertAt(song, 0);
    assert OnlyLast(song);
    assert forall j: Index :: j > 0 ==> At(inserted, j) == {};
    assert forall j: Index :: At(DeleteAt(inserted, 0), j) == {};
    SameReadings(DeleteAt(inserted, 0), map[]);
  }

  // ----- The archive round trip -----

  lemma {:induction false} PutAllReads(indices: seq<Index>, values: seq<Chord>, n: nat, i: nat)
    requires i < n <= |indices| && n <= |values|
    requires Ascending(indices)
    ensures At(PutAll(map[], indices, values, n), indices[i]) == values[i]
  {
    if i < n - 1 {
      PutAllReads(indices, values, n - 1, i);
    }
  }

  lemma {:induction false} PutAllElsewhere(indices: seq<Index>, values: seq<Chord>, n: nat, j: Index)
    requires n <= |indices| && n <= |values| && j !in indices
    ensures At(PutAll(map[], indices, values, n), j) == {}
  {
    if n > 0 {
      PutAllElsewhere(indices, values, n - 1, j);
    }
  }

  lemma {:induction false} PutAllNoZero(indices: seq<Index>, values: seq<Chord>, n: nat)
    requires n <= |indices| && n <= |values|
    ensures NoZero(PutAll(map[], indices, values, n))
  {
    if n > 0 {
      PutAllNoZero(indices, values, n - 1);
    }
  }

  lemma PutBack(chords: map<Index, Chord>, keys: seq<Index>, values: seq<Chord>)
    requires NoZero(chords) && Ascending(keys) && |keys| == |values|
    requires forall k: Index :: k in keys <==> k in chords
    requires forall i :: 0 <= i < |keys| ==> keys[i] in chords && values[i] == chords[keys[i]]
    ensures PutAll(map[], keys, values, |keys|) == chords
  {
    PutAllNoZero(keys, values, |keys|);
    var loaded := PutAll(map[], keys, values, |keys|);
    forall j: Index
      ensures At(loaded, j) == At(chords, j)
    {
      if j in keys {
        var i :| 0 <= i < |keys| && keys[i] == j;
        PutAllReads(keys, values, |keys|, i);
      } else {
        PutAllElsewhere(keys, values, |keys|, j);
      }
    }
    SameReadings(loaded, chords);
  }

  lemma LoadListed(s: Sheet, m: SheetMsg, into: Sheet)
    requires NoZero(s.chords) && Lists(m, s)
    ensures Load(into, m) == (s, true)
  {
    PutBack(s.chords, m.indices, m.chords);
  }

  /** Loading a saved sheet, into any sheet, gives exactly the sheet that was saved. */
  lemma SaveThenLoad(s: Sheet, into: Sheet)
    requires NoZero(s.chords)
    ensures Load(into, Save(s)) == (s, true)
  {
    LoadListed(s, Save(s), into);
  }

  // ----- Senior and junior agree -----

  /** From the same sheet, a junior told to do what the senior's update returned
      ends with the senior's sheet; a refused command changes nothing. */
  lemma JuniorFollowsSenior(s: Sheet, m: SheetMsg)
    requires NoZero(s.chords)
    ensures var (s', reply) := Senior(s, m);
            && (reply.Some? ==> Junior(s, reply.value) == (s', true))
            && (reply.None? ==> s' == s)
            && NoZero(s'.chords)
  {
  }

  // ----- The derived fields, from scratch -----

  function ChordChecksum(sums: Sums, k: Index, c: Chord): nat {
    Wrap32(Wrap32(k + 1) * sums.pod(c))
  }

  ghost function Weight(sums: Sums): (Index, Chord) -> int {
    (k: Index, c: Chord) => ChordChecksum(sums, k, c)
  }

  /** CalculateChecksum: what a full scan gives. */
  ghost function FullChecksum(sums: Sums, s: Sheet): nat {
    Wrap32(sums.str(s.path) + Total(s.chords, Weight(sums)))
  }

  // ----- Adjusting the checksum one change at a time -----

  method ChecksumWithout(sums: Sums, ghost s: Sheet, checksum: nat, k: Index, c: Chord) returns (r: nat)
    requires k in s.chords && c == s.chords[k] && checksum == FullChecksum(sums, s)
    ensures r == FullChecksum(sums, s.(chords := s.chords - {k}))
  {
    TotalTake(s.chords, Weight(sums), k);
    WrapPlus(sums.str(s.path) + Total(s.chords, Weight(sums)), ChordChecksum(sums, k, c));
    r := Wrap32(checksum - ChordChecksum(sums, k, c));
  }

  method ChecksumWith(sums: Sums, ghost s: Sheet, checksum: nat, k: Index, c: Chord) returns (r: nat)
    requires k !in s.chords && checksum == FullChecksum(sums, s)
    ensures r == FullChecksum(sums, s.(chords := s.chords[k := c]))
  {
    TotalPut(s.chords, Weight(sums), k, c);
    assert s.chords - {k} == s.chords;
    WrapPlus(sums.str(s.path) + Total(s.chords, Weight(sums)), ChordChecksum(sums, k, c));
    r := Wrap32(checksum + ChordChecksum(sums, k, c));
  }

  method ChecksumRenamed(sums: Sums, s: Sheet, checksum: nat, path: string) returns (r: nat)
    requires checksum == FullChecksum(sums, s)
    ensures r == FullChecksum(sums, s.(path := path))
  {
    ghost var total := Total(s.chords, Weight(sums));
    WrapPlus(sums.str(s.path) + total, sums.str(s.path));
    r := Wrap32(checksum - sums.str(s.path));
    WrapPlus(total, sums.str(path));
    r := Wrap32(r + sums.str(path));
  }
}
