/** The MusicSheet object: chords change in place, and the histogram, the used
    notes and the checksum are adjusted with each change instead of recomputed. */
module MusicSheetObject {
  import opened Tables
  import opened Chords
  import opened MusicSheets

  class MusicSheet {
    const sums: Sums
    var path: string
    var chords: map<Index, Chord>
    var histogram: Histogram
    var usedNotes: Chord
    var checksum: nat

    ghost function Contents(): Sheet
      reads this
    {
      Sheet(path, chords)
    }

    /** Every derived field is what a full scan of the sheet would give. */
    ghost predicate Valid()
      reads this
    {
      && sums.str("") == 0
      && NoZero(chords)
      && Counted(chords, histogram, usedNotes)
      && checksum == FullChecksum(sums, Contents())
    }

    constructor (sums: Sums)
      requires sums.str("") == 0
      ensures Valid() && this.sums == sums && Contents() == DEFAULT_SHEET
    {
      this.sums := sums;
      path, chords, histogram, usedNotes, checksum := "", map[], map[], {}, 0;
      new;
      NothingCounted<Index>();
    }

    method SetToDefaultState()
      requires Valid()
      modifies this
      ensures Valid() && Contents() == DEFAULT_SHEET
    {
      path, chords, histogram, usedNotes, checksum := "", map[], map[], {}, 0;
      NothingCounted<Index>();
    }

    method SetPath(newPath: string)
      requires Valid()
      modifies this`path, this`checksum
      ensures Valid() && path == newPath
    {
      if newPath != path {
        checksum := ChecksumRenamed(sums, Sheet(path, chords), checksum, newPath);
        path := newPath;
      }
    }

    method Uncount(k: Index)
      requires Valid() && k in chords
      modifies this
      ensures Valid() && chords == old(chords) - {k} && path == old(path)
    {
      var c := chords[k];
      histogram, usedNotes := CountOut(chords, k, c, histogram, usedNotes);
      checksum := ChecksumWithout(sums, Contents(), checksum, k, c);
      chords := chords - {k};
    }

    method Recount(k: Index, c: Chord)
      requires Valid() && k !in chords && c != {}
      modifies this
      ensures Valid() && chords == old(chords)[k := c] && path == old(path)
    {
      histogram, usedNotes := CountIn(chords, k, c, histogram, usedNotes);
      checksum := ChecksumWith(sums, Contents(), checksum, k, c);
      chords := chords[k := c];
    }

    method PutChord(k: Index, c: Chord)
      requires Valid()
      modifies this
      ensures Valid() && chords == Put(old(chords), k, c) && path == old(path)
    {
      hide Counted, FullChecksum;
      assert k !in chords ==> chords - {k} == chords;
      if k in chords {
        Uncount(k);
      }
      if c != {} {
        Recount(k, c);
        assert (old(chords) - {k})[k := c] == old(chords)[k := c];
      }
    }

    /** One chord moves to another column. The iterator that stood on it goes on to
        the nearest chord that was there below it when it was removed. */
    method MoveChord(k: Index, column: Index) returns (next: Option<Index>)
      requires Valid() && k in chords && k != column
      modifies this
      ensures Valid() && path == old(path)
      ensures forall j: Index :: At(chords, j) == if j == k then {} else if j == column then At(old(chords), k) else At(old(chords), j)
      ensures next == Below(old(chords), k)
    {
      hide Counted, FullChecksum;
      var c := chords[k];
      SameBelow(chords, chords - {k}, k);
      PutChord(k, {});
      next := Below(chords, k);
      PutChord(column, c);
    }

    /** Walks the table backwards, moving each chord one column to the right. */
    method InsertChordAt(at: Index)
      requires Valid()
      modifies this
      ensures Valid() && Contents() == old(Contents()).(chords := InsertAt(old(chords), at))
    {
      hide Counted, FullChecksum;
      ghost var was := chords;
      ghost var cursor: nat := UINT32_SPAN;
      var next := Below(chords, UINT32_SPAN);
      while next.Some? && next.value >= at
        invariant Valid() && path == old(path)
        invariant at <= cursor <= UINT32_SPAN
        invariant cursor == UINT32_SPAN ==> chords == was
        invariant cursor < UINT32_SPAN ==> forall j: Index :: At(chords, j) == Partly(was, cursor, j)
        invariant next == if OnlyLast(was) && cursor < UINT32_SPAN then None else Below(chords, cursor)
        invariant OnlyLast(was) ==> cursor >= LAST_INDEX
        decreases cursor
      {
        var k := next.value;
        ghost var before := chords;
        next := MoveChord(k, if k == LAST_INDEX then 0 else k + 1);
        MovedOne(was, before, chords, cursor, k);
        NextStays(was, before, chords, k, cursor);
        cursor := k;
      }
      AllMoved(was, chords, at, cursor, next);
      SameReadings(chords, InsertAt(was, at));
    }

    /** Walks the table forwards from `start`, moving each chord one column to the left. */
    method MoveChordsBackOneStartingAt(start: Index)
      requires Valid() && 0 < start && start - 1 !in chords
      modifies this
      ensures Valid() && path == old(path)
      ensures forall j: Index :: At(chords, j) == LeftOf(old(chords), start, UINT32_SPAN, j)
    {
      hide Counted, FullChecksum, NoZero;
      ghost var was := chords;
      var cursor: nat := start;
      var going := true;
      while going
        invariant Valid() && path == old(path)
        invariant start <= cursor <= UINT32_SPAN
        invariant forall j: Index :: At(chords, j) == LeftOf(was, start, cursor, j)
        invariant !going ==> cursor == UINT32_SPAN
        decreases going, UINT32_SPAN - cursor
      {
        var above := set k | k in chords && k >= cursor;
        assert forall j: Index :: j >= cursor && j in chords ==> j in above;
        if above == {} {
          NothingAfter(was, chords, start, cursor);
          cursor, going := UINT32_SPAN, false;
        } else {
          var k: Index := FirstKey(above);
          ghost var before := chords;
          var _ := MoveChord(k, k - 1);
          MovedBackOne(was, before, chords, start, cursor, k);
          cursor := k + 1;
        }
      }
    }

    method DeleteChordAt(at: Index)
      requires Valid()
      modifies this
      ensures Valid() && Contents() == old(Contents()).(chords := DeleteAt(old(chords), at))
    {
      hide Counted, FullChecksum;
      ghost var was := chords;
      PutChord(at, {});
      ghost var cleared := chords;
      assert forall k: Index :: k in cleared ==> k != at && At(cleared, k) == At(was, k);
      if chords != map[] && at <= LastKey(chords.Keys) {
        var start := FirstAfter(chords.Keys, at);
        MoveChordsBackOneStartingAt(start);
        DeletedColumns(was, cleared, chords, at, start);
      } else {
        DeletedLast(was, cleared, at);
      }
      SameReadings(chords, DeleteAt(was, at));
    }

    /** A column inserted and deleted again leaves every field as it was, derived
        ones included, as long as no chord sits at the last 32-bit index. */
    method InsertThenDelete(at: Index)
      requires Valid()
      modifies this
      ensures Valid()
      ensures LAST_INDEX !in old(chords) <==> chords == old(chords)
      ensures LAST_INDEX !in old(chords) ==>
                checksum == old(checksum) && histogram == old(histogram) && usedNotes == old(usedNotes)
    {
      InsertChordAt(at);
      DeleteChordAt(at);
      DeleteUndoesInsert(old(chords), at);
    }

    method PutChords(indices: seq<Index>, values: seq<Chord>)
      requires Valid()
      modifies this
      ensures Valid() && path == old(path)
      ensures chords == PutAll(old(chords), indices, values, Shorter(indices, values))
    {
      hide Counted, FullChecksum, NoZero, Put;
      var i := 0;
      while i < |indices| && i < |values|
        invariant 0 <= i <= Shorter(indices, values)
        invariant Valid() && path == old(path)
        invariant chords == PutAll(old(chords), indices, values, i)
      {
        PutChord(indices[i], values[i]);
        i := i + 1;
      }
    }

    method UpdateFromArchive(archivedPath: Option<string>, indices: seq<Index>, values: seq<Chord>)
      requires Valid()
      modifies this
      ensures Valid()
      ensures path == if archivedPath.Some? then archivedPath.value else old(path)
      ensures chords == PutAll(old(chords), indices, values, Shorter(indices, values))
    {
      if archivedPath.Some? {
        SetPath(archivedPath.value);
      }
      PutChords(indices, values);
    }

    method SetFromArchive(m: SheetMsg) returns (ok: bool)
      requires Valid()
      modifies this
      ensures Valid() && (Contents(), ok) == Load(old(Contents()), m)
    {
      if !m.SheetArchive? {
        return false;
      }
      SetToDefaultState();
      UpdateFromArchive(m.archivedPath, m.indices, m.chords);
      return true;
    }

    /** The archive lists every chord once, in index order, and loading it into any
        song gives this one. */
    method SaveToArchive() returns (m: SheetMsg)
      requires Valid()
      ensures Lists(m, Contents())
      ensures forall into: Sheet :: Load(into, m) == (Contents(), true)
    {
      hide Counted, FullChecksum, Load, Ascending;
      var indices, values := ListChords();
      m := SheetArchive(Some(path), indices, values);
      forall into: Sheet
        ensures Load(into, m) == (Contents(), true)
      {
        LoadListed(Contents(), m, into);
      }
    }

    method ListChords() returns (indices: seq<Index>, values: seq<Chord>)
      ensures Ascending(indices) && |values| == |indices|
      ensures forall k: Index :: k in indices <==> k in chords
      ensures forall i :: 0 <= i < |indices| ==> indices[i] in chords && values[i] == chords[indices[i]]
    {
      var keys: seq<Index> := Indices(chords);
      hide Ascending;
      indices, values := [], [];
      for i := 0 to |keys|
        invariant indices == keys[..i] && |values| == i
        invariant forall j :: 0 <= j < i ==> keys[j] in chords && values[j] == chords[keys[j]]
      {
        assert keys[i] in keys;
        indices, values := indices + [keys[i]], values + [chords[keys[i]]];
      }
      assert indices == keys;
    }

    method SeniorUpdate(m: SheetMsg) returns (reply: Option<SheetMsg>)
      requires Valid()
      modifies this
      ensures Valid() && (Contents(), reply) == Senior(old(Contents()), m)
    {
      match m {
        case ToggleNote(i, n) =>
          var c := Toggled(At(chords, i), n);
          PutChord(i, c);
          return Some(SetChord(i, c));
        case InsertChord(i) =>
          InsertChordAt(i);
          return Some(m);
        case DeleteChord(i) =>
          DeleteChordAt(i);
          return Some(m);
        case SetSongFilePath(newPath) =>
          SetPath(newPath);
          return Some(m);
        case Noop =>
          return Some(m);
        case _ =>
          return None;
      }
    }

    method JuniorUpdate(m: SheetMsg) returns (ok: bool)
      requires Valid()
      modifies this
      ensures Valid() && (Contents(), ok) == Junior(old(Contents()), m)
    {
      match m {
        case Noop =>
          return true;
        case SetChord(i, c) =>
          PutChord(i, c);
          return true;
        case InsertChord(i) =>
          InsertChordAt(i);
          return true;
        case DeleteChord(i) =>
          DeleteChordAt(i);
          return true;
        case SetSongFilePath(newPath) =>
          SetPath(newPath);
          return true;
        case SheetArchive(_, _, _) =>
          ok := SetFromArchive(m);
        case _ =>
          return false;
      }
    }
  }

  /** The backward search for the first chord left of `at`, and from there one forward. */
  method FirstAfter(table: set<Index>, at: Index) returns (start: Index)
    requires at !in table && table != {} && at <= LastKey(table)
    ensures start in table && at < start && forall k :: k in table ==> k < at || start <= k
  {
    var keys := SortedKeys(table);
    hide SortedKeys;
    assert forall i :: 0 <= i < |keys| ==> keys[i] in keys;
    assert LastKey(table) in keys;
    var i := |keys| - 1;
    while i >= 0 && keys[i] >= at
      invariant -1 <= i < |keys|
      invariant forall j :: i < j < |keys| ==> keys[j] >= at
    {
      i := i - 1;
    }
    start := keys[i + 1];
  }

  /** The last chord before column `k`. */
  function Below(chords: map<Index, Chord>, k: nat): (r: Option<Index>)
    ensures r.Some? ==> r.value in chords && r.value < k
    ensures forall j: Index :: j in chords && j < k ==> r.Some? && j <= r.value
  {
    var below := set j | j in chords && j < k;
    assert forall j: Index :: j in chords && j < k ==> j in below;
    if below == {} then None else Some(LastKey(below))
  }

  lemma BelowIs(chords: map<Index, Chord>, k: nat, r: Option<Index>)
    requires r.Some? ==> r.value in chords && r.value < k
    requires forall j: Index :: j in chords && j < k ==> r.Some? && j <= r.value
    ensures Below(chords, k) == r
  {
    var b := Below(chords, k);
    assert b.Some? ==> b.value in chords && b.value < k;
  }

  lemma SameBelow(a: map<Index, Chord>, b: map<Index, Chord>, k: nat)
    requires forall j: Index :: j < k ==> (j in a <==> j in b)
    ensures Below(a, k) == Below(b, k)
  {
    BelowIs(a, k, Below(b, k));
  }

  /** What the iterator goes on to is still the nearest chord after the move, except
      when the only chord came round. */
  lemma NextStays(was: map<Index, Chord>, before: map<Index, Chord>, now: map<Index, Chord>, k: Index, cursor: nat)
    requires NoZero(before) && NoZero(now) && k in before && k < cursor <= UINT32_SPAN
    requires Below(before, cursor) == Some(k)
    requires cursor == UINT32_SPAN ==> before == was
    requires OnlyLast(was) ==> cursor == UINT32_SPAN
    requires cursor < UINT32_SPAN ==> k < LAST_INDEX
    requires var column := if k == LAST_INDEX then 0 else k + 1;
             forall j: Index :: At(now, j) == if j == k then {} else if j == column then At(before, k) else At(before, j)
    ensures OnlyLast(was) ==> k == LAST_INDEX && Below(before, k) == None
    ensures !OnlyLast(was) ==> Below(before, k) == Below(now, k)
  {
    if OnlyLast(was) {
      assert Below(before, k).None?;
    } else {
      SameKeys(before, now, k);
      if k < LAST_INDEX {
        SameBelow(before, now, k);
      } else {
        var j :| j in was && j != LAST_INDEX;
        BelowIs(now, k, Below(before, k));
      }
    }
  }

  lemma SameKeys(before: map<Index, Chord>, now: map<Index, Chord>, k: Index)
    requires NoZero(before) && NoZero(now)
    requires var column := if k == LAST_INDEX then 0 else k + 1;
             forall j: Index :: At(now, j) == if j == k then {} else if j == column then At(before, k) else At(before, j)
    ensures forall j: Index :: 0 < j < k ==> (j in before <==> j in now)
    ensures 0 < k < LAST_INDEX ==> (0 in before <==> 0 in now)
    ensures k == LAST_INDEX && k in before ==> 0 in now
  {
    assert forall j: Index :: (j in now <==> At(now, j) != {}) && (j in before <==> At(before, j) != {});
  }

  lemma AllMoved(was: map<Index, Chord>, now: map<Index, Chord>, at: Index, cursor: nat, next: Option<Index>)
    requires NoZero(was) && at <= cursor <= UINT32_SPAN
    requires cursor == UINT32_SPAN ==> now == was
    requires cursor < UINT32_SPAN ==> forall j: Index :: At(now, j) == Partly(was, cursor, j)
    requires next == if OnlyLast(was) && cursor < UINT32_SPAN then None else Below(now, cursor)
    requires OnlyLast(was) ==> cursor >= LAST_INDEX
    requires next.Some? ==> next.value < at
    ensures forall j: Index :: At(now, j) == InsertedColumn(was, at, j)
  {
    if OnlyLast(was) {
      assert cursor == LAST_INDEX;
      assert forall j: Index :: j != 0 ==> At(WrapLast(was), j) == {};
    } else {
      NothingLeft(was, now, at, cursor);
    }
  }

  /** The insertion loop under way: every chord at or after `cursor` has moved. */
  ghost function Partly(was: map<Index, Chord>, cursor: nat, j: Index): Chord {
    if j < cursor then At(WrapLast(was), j) else if j == cursor then {} else At(WrapLast(was), j - 1)
  }

  lemma NothingLeft(was: map<Index, Chord>, now: map<Index, Chord>, at: Index, cursor: nat)
    requires NoZero(was) && at <= cursor <= UINT32_SPAN && !OnlyLast(was)
    requires cursor == UINT32_SPAN ==> now == was
    requires cursor < UINT32_SPAN ==> forall j: Index :: At(now, j) == Partly(was, cursor, j)
    requires forall j: Index :: at <= j < cursor ==> At(now, j) == {}
    ensures forall j: Index :: At(now, j) == InsertedColumn(was, at, j)
  {
    assert cursor == UINT32_SPAN ==> At(now, LAST_INDEX) == {};
    forall j: Index
      ensures At(now, j) == InsertedColumn(was, at, j)
    {
      if j > at {
        var i: Index := j - 1;
        assert i < cursor ==> At(now, i) == {};
        assert cursor < UINT32_SPAN ==> At(now, i) == Partly(was, cursor, i);
      }
    }
  }

  lemma MovedOne(was: map<Index, Chord>, before: map<Index, Chord>, now: map<Index, Chord>, cursor: nat, k: Index)
    requires NoZero(was) && NoZero(before) && k < cursor <= UINT32_SPAN && k in before
    requires cursor == UINT32_SPAN ==> before == was
    requires cursor < UINT32_SPAN ==> forall j: Index :: At(before, j) == Partly(was, cursor, j)
    requires forall j: Index :: k < j < cursor ==> At(before, j) == {}
    requires var column := if k == LAST_INDEX then 0 else k + 1;
             forall j: Index :: At(now, j) == if j == k then {} else if j == column then At(before, k) else At(before, j)
    ensures forall j: Index :: At(now, j) == Partly(was, k, j)
  {
    assert cursor == UINT32_SPAN && k < LAST_INDEX ==> At(before, LAST_INDEX) == {};
    forall j: Index
      ensures At(now, j) == Partly(was, k, j)
    {
      if j > k {
        var i: Index := j - 1;
        assert k < i < cursor ==> At(before, i) == {};
        assert cursor < UINT32_SPAN ==> At(before, i) == Partly(was, cursor, i);
      }
    }
  }

  /** The deletion loop under way: the chords from `start` to `cursor` have moved. */
  ghost function LeftOf(was: map<Index, Chord>, start: Index, cursor: nat, j: Index): Chord {
    if j + 1 < start then At(was, j)
    else if j + 1 < cursor then At(was, j + 1)
    else if j + 1 == cursor then {}
    else At(was, j)
  }

  lemma NothingAfter(was: map<Index, Chord>, now: map<Index, Chord>, start: Index, cursor: nat)
    requires start <= cursor <= UINT32_SPAN
    requires forall j: Index :: At(now, j) == LeftOf(was, start, cursor, j)
    requires forall j: Index :: j >= cursor ==> At(now, j) == {}
    ensures forall j: Index :: At(now, j) == LeftOf(was, start, UINT32_SPAN, j)
  {
    forall j: Index
      ensures At(now, j) == LeftOf(was, start, UINT32_SPAN, j)
    {
      if cursor <= j + 1 < UINT32_SPAN {
        var i: Index := j + 1;
        assert At(now, i) == LeftOf(was, start, cursor, i) == {};
      }
    }
  }

  lemma MovedBackOne(was: map<Index, Chord>, before: map<Index, Chord>, now: map<Index, Chord>,
                     start: Index, cursor: nat, k: Index)
    requires 0 < start <= cursor <= k && At(was, start - 1) == {}
    requires forall j: Index :: At(before, j) == LeftOf(was, start, cursor, j)
    requires forall j: Index :: cursor <= j < k ==> At(before, j) == {}
    requires forall j: Index :: At(now, j) == if j == k then {} else if j == k - 1 then At(before, k) else At(before, j)
    ensures forall j: Index :: At(now, j) == LeftOf(was, start, k + 1, j)
  {
    forall j: Index
      ensures At(now, j) == LeftOf(was, start, k + 1, j)
    {
      if cursor <= j + 1 < k {
        var i: Index := j + 1;
        assert At(before, i) == LeftOf(was, start, cursor, i) == {};
      }
    }
  }

  lemma DeletedColumns(was: map<Index, Chord>, cleared: map<Index, Chord>, now: map<Index, Chord>, at: Index, start: Index)
    requires at < start && cleared == Put(was, at, {})
    requires forall k: Index :: k in cleared ==> k < at || start <= k
    requires forall j: Index :: At(now, j) == LeftOf(cleared, start, UINT32_SPAN, j)
    ensures forall j: Index :: At(now, j) == RemainingColumn(was, at, j)
  {
    forall j: Index
      ensures At(now, j) == RemainingColumn(was, at, j)
    {
      if at <= j < LAST_INDEX {
        var i: Index := j + 1;
        assert At(cleared, i) == At(was, i);
      }
    }
  }

  lemma DeletedLast(was: map<Index, Chord>, cleared: map<Index, Chord>, at: Index)
    requires cleared == Put(was, at, {}) && forall k: Index :: k in cleared ==> k < at
    ensures forall j: Index :: At(cleared, j) == RemainingColumn(was, at, j)
  {
    forall j: Index
      ensures At(cleared, j) == RemainingColumn(was, at, j)
    {
      if at <= j < LAST_INDEX {
        var i: Index := j + 1;
        assert At(cleared, i) == At(was, i);
      }
    }
  }
}
