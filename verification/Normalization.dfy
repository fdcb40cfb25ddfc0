/** Rewriting stored timestamps at open: normalizeTimestamps, normalizeColumn and nonCanonicalTimestamps in
    pkg/work/sqlite/store.go. */
module Normalization {
  import opened Values
  import opened Text
  import opened Timestamps

  datatype Column = CreatedAt | UpdatedAt | LeaseUntil | NextAttemptAt | ResultDeliveryClaimedUntil

  const TIMESTAMP_COLUMNS: seq<Column> := [CreatedAt, UpdatedAt, LeaseUntil, NextAttemptAt, ResultDeliveryClaimedUntil]

  datatype Cell = Cell(job: string, column: Column)
  datatype Fix = Fix(job: string, text: string)

  /** The timestamp cells of the jobs table. NULL is an absent cell; the empty text counts as unset. */
  type Cells = map<Cell, string>

  /** The reader and the writer of timestamp text. The column loops use nothing else about them. */
  datatype Layout = Layout(parse: string -> Option<int>, format: int -> string) {
    /** The text of the same instant in the one stored form. */
    function Canonical(s: string): string {
      if s != "" && parse(s).Some? then format(parse(s).value) else s
    }
  }

  const STORED: Layout := Layout(Parse, FormatTS)

  /** The rows a column's SELECT returns. */
  function Selected(cells: Cells, column: Column): set<Cell> {
    set k | k in cells && cells[k] != "" && k.column == column
  }

  /** Every populated cell of the given columns is readable. */
  ghost predicate Readable(l: Layout, cells: Cells, columns: seq<Column>) {
    forall k :: k in cells && cells[k] != "" && k.column in columns ==> l.parse(cells[k]).Some?
  }

  ghost function Rewritten(l: Layout, cells: Cells, columns: seq<Column>): Cells {
    map k | k in cells :: if k.column in columns then l.Canonical(cells[k]) else cells[k]
  }

  ghost predicate IsFixed(fixes: seq<Fix>, job: string) {
    exists i :: 0 <= i < |fixes| && fixes[i].job == job
  }

  /** Fixes for every selected cell whose text is not canonical, and for no other row. */
  ghost predicate FixesExactly(l: Layout, fixes: seq<Fix>, cells: Cells, column: Column, rows: set<Cell>)
    requires rows <= cells.Keys
  {
    && (forall f :: f in fixes ==> Cell(f.job, column) in rows && f.text == l.Canonical(cells[Cell(f.job, column)]))
    && (forall k :: k in rows && l.Canonical(cells[k]) != cells[k] ==> IsFixed(fixes, k.job))
  }

  method NonCanonicalTimestamps(l: Layout, cells: Cells, column: Column) returns (fixes: Option<seq<Fix>>)
    ensures fixes.Some? <==> Readable(l, cells, [column])
    ensures fixes.Some? ==> FixesExactly(l, fixes.value, cells, column, Selected(cells, column))
  {
    var rows := Selected(cells, column);
    var pending := rows;
    var found: seq<Fix> := [];
    while pending != {}
      invariant pending <= rows
      invariant forall k :: k in rows - pending ==> l.parse(cells[k]).Some?
      invariant FixesExactly(l, found, cells, column, rows - pending)
      decreases |pending|
    {
      ghost var before := found;
      var k :| k in pending;
      var instant := l.parse(cells[k]);
      if instant.None? {
        return None;
      }
      if l.format(instant.value) != cells[k] {
        found := found + [Fix(k.job, l.format(instant.value))];
        assert found[|before|].job == k.job;
      }
      forall job | IsFixed(before, job) ensures IsFixed(found, job) {
        var i :| 0 <= i < |before| && before[i].job == job;
        assert found[i] == before[i];
      }
      pending := pending - {k};
    }
    return Some(found);
  }

  method NormalizeColumn(l: Layout, cells: Cells, column: Column) returns (r: Option<Cells>)
    ensures r.Some? <==> Readable(l, cells, [column])
    ensures r.Some? ==> r.value == Rewritten(l, cells, [column])
  {
    var fixes := NonCanonicalTimestamps(l, cells, column);
    if fixes.None? {
      return None;
    }
    var table := cells;
    for i := 0 to |fixes.value|
      invariant table.Keys == cells.Keys
      invariant forall k :: k in cells && k.column != column ==> table[k] == cells[k]
      invariant forall k :: k in cells && k.column == column ==>
                  table[k] == cells[k] || table[k] == l.Canonical(cells[k])
      invariant forall k :: k in cells && k.column == column && IsFixed(fixes.value[..i], k.job)
                  ==> table[k] == l.Canonical(cells[k])
    {
      var f := fixes.value[i];
      assert f in fixes.value;
      assert fixes.value[..i + 1] == fixes.value[..i] + [f];
      table := table[Cell(f.job, column) := f.text];
    }
    assert fixes.value[..|fixes.value|] == fixes.value;
    return Some(table);
  }

  class TimestampTable {
    var cells: Cells

    constructor (rows: Cells)
      ensures cells == rows
    {
      cells := rows;
    }

    /** One transaction over every timestamp column: an unreadable value anywhere rolls all of it back. */
    method NormalizeTimestamps(l: Layout) returns (ok: bool)
      modifies this
      ensures ok <==> Readable(l, old(cells), TIMESTAMP_COLUMNS)
      ensures cells == if ok then Rewritten(l, old(cells), TIMESTAMP_COLUMNS) else old(cells)
    {
      var table := cells;
      for i := 0 to |TIMESTAMP_COLUMNS|
        invariant Readable(l, cells, TIMESTAMP_COLUMNS[..i])
        invariant table == Rewritten(l, cells, TIMESTAMP_COLUMNS[..i])
        invariant cells == old(cells)
      {
        var column := TIMESTAMP_COLUMNS[i];
        var r := NormalizeColumn(l, table, column);
        ColumnIsNew(i);
        ColumnsAreIndependent(l, cells, TIMESTAMP_COLUMNS[..i], column);
        if r.None? {
          return false;
        }
        table := r.value;
      }
      assert TIMESTAMP_COLUMNS[..|TIMESTAMP_COLUMNS|] == TIMESTAMP_COLUMNS;
      cells := table;
      return true;
    }
  }

  lemma ColumnIsNew(i: nat)
    requires i < |TIMESTAMP_COLUMNS|
    ensures TIMESTAMP_COLUMNS[i] !in TIMESTAMP_COLUMNS[..i]
    ensures TIMESTAMP_COLUMNS[..i + 1] == TIMESTAMP_COLUMNS[..i] + [TIMESTAMP_COLUMNS[i]]
  {
  }

  lemma ColumnsAreIndependent(l: Layout, cells: Cells, done: seq<Column>, column: Column)
    requires column !in done && Readable(l, cells, done)
    ensures Readable(l, Rewritten(l, cells, done), [column]) <==> Readable(l, cells, done + [column])
    ensures Rewritten(l, Rewritten(l, cells, done), [column]) == Rewritten(l, cells, done + [column])
  {
    var next := Rewritten(l, cells, done);
    assert forall k :: k in cells && k.column == column ==> next[k] == cells[k];
  }

  // ---------- what normalization promises ----------

  lemma EveryColumn(c: Column)
    ensures c in TIMESTAMP_COLUMNS
  {
    match c
    case CreatedAt => assert TIMESTAMP_COLUMNS[0] == c;
    case UpdatedAt => assert TIMESTAMP_COLUMNS[1] == c;
    case LeaseUntil => assert TIMESTAMP_COLUMNS[2] == c;
    case NextAttemptAt => assert TIMESTAMP_COLUMNS[3] == c;
    case ResultDeliveryClaimedUntil => assert TIMESTAMP_COLUMNS[4] == c;
  }

  /** The instant a populated cell names. */
  ghost predicate Names(cells: Cells, k: Cell, t: int) {
    k in cells && cells[k] != "" && Parse(cells[k]) == Some(t)
  }

  /** Every named instant has a four-digit year in UTC. */
  ghost predicate InRange(cells: Cells) {
    forall k, t :: Names(cells, k, t) ==> 0 <= t < END
  }

  lemma TextIsNotEmpty(t: int)
    ensures FormatTS(t) != ""
  {
    var c := CivilOf(if t >= 0 then t else t + Lift(t) * 12_622_780_800_000_000_000);
    assert |RestText(c, FixedTail(c.nanos))| >= 1;
  }

  /** What one open does to a populated cell: the stored form of its instant, which names that instant exactly when
      its UTC year has four digits, and otherwise nothing. */
  lemma NormalizedCell(cells: Cells, k: Cell, t: int)
    requires Names(cells, k, t)
    ensures var next := Rewritten(STORED, cells, TIMESTAMP_COLUMNS);
      k in next && next[k] == FormatTS(t) && next[k] != ""
      && (Names(next, k, t) <==> 0 <= t < END)
      && (STORED.parse(next[k]).Some? <==> 0 <= t < END)
  {
    EveryColumn(k.column);
    ParseInvertsFormat(t);
    TextIsNotEmpty(t);
  }

  lemma ReadableCell(cells: Cells, k: Cell) returns (t: int)
    requires Readable(STORED, cells, TIMESTAMP_COLUMNS) && k in cells && cells[k] != ""
    ensures Names(cells, k, t)
  {
    EveryColumn(k.column);
    t := STORED.parse(cells[k]).value;
  }

  /** A normalized table opens again exactly when every instant in it has a four-digit UTC year. */
  lemma ReopensExactlyInRange(cells: Cells)
    requires Readable(STORED, cells, TIMESTAMP_COLUMNS)
    ensures Readable(STORED, Rewritten(STORED, cells, TIMESTAMP_COLUMNS), TIMESTAMP_COLUMNS) <==> InRange(cells)
  {
    var next := Rewritten(STORED, cells, TIMESTAMP_COLUMNS);
    if InRange(cells) {
      forall k | k in next && next[k] != "" ensures STORED.parse(next[k]).Some? {
        if cells[k] != "" {
          var t := ReadableCell(cells, k);
          NormalizedCell(cells, k, t);
        }
      }
    } else {
      var k, t :| Names(cells, k, t) && !(0 <= t < END);
      NormalizedCell(cells, k, t);
      EveryColumn(k.column);
    }
  }

  /** Normalization keeps the instant of every cell and leaves unset cells unset. */
  lemma InstantsAreKept(cells: Cells, k: Cell, t: int)
    requires Readable(STORED, cells, TIMESTAMP_COLUMNS) && InRange(cells)
    ensures Names(Rewritten(STORED, cells, TIMESTAMP_COLUMNS), k, t) <==> Names(cells, k, t)
  {
    var next := Rewritten(STORED, cells, TIMESTAMP_COLUMNS);
    if k in cells && cells[k] != "" {
      var u := ReadableCell(cells, k);
      NormalizedCell(cells, k, u);
    }
  }

  /** A second open changes nothing. */
  lemma NormalizationIsIdempotent(cells: Cells)
    requires Readable(STORED, cells, TIMESTAMP_COLUMNS) && InRange(cells)
    ensures var next := Rewritten(STORED, cells, TIMESTAMP_COLUMNS);
      Rewritten(STORED, next, TIMESTAMP_COLUMNS) == next
  {
    var next := Rewritten(STORED, cells, TIMESTAMP_COLUMNS);
    forall k | k in cells ensures Rewritten(STORED, next, TIMESTAMP_COLUMNS)[k] == next[k] {
      if cells[k] != "" {
        var t := ReadableCell(cells, k);
        NormalizedCell(cells, k, t);
        NormalizedCell(next, k, t);
      }
    }
  }

  /** After normalization, comparing stored texts compares instants. */
  lemma StoredTextSortsByTime(cells: Cells, j: Cell, k: Cell, t: int, u: int)
    requires Readable(STORED, cells, TIMESTAMP_COLUMNS) && InRange(cells)
    requires Names(cells, j, t) && Names(cells, k, u)
    ensures var next := Rewritten(STORED, cells, TIMESTAMP_COLUMNS);
      j in next && k in next && (Before(next[j], next[k]) <==> t < u)
  {
    NormalizedCell(cells, j, t);
    NormalizedCell(cells, k, u);
    TextOrderIsTimeOrder(t, u);
  }

  function OneCell(text: string): Cells {
    map[Cell("job", CreatedAt) := text]
  }

  lemma OneCellNames(text: string, t: int)
    requires text != "" && Parse(text) == Some(t)
    ensures Names(OneCell(text), Cell("job", CreatedAt), t) && Readable(STORED, OneCell(text), TIMESTAMP_COLUMNS)
  {
  }

  lemma OneCellReopens(text: string, t: int)
    requires text != "" && Parse(text) == Some(t)
    ensures Readable(STORED, OneCell(text), TIMESTAMP_COLUMNS)
    ensures Readable(STORED, Rewritten(STORED, OneCell(text), TIMESTAMP_COLUMNS), TIMESTAMP_COLUMNS) <==> 0 <= t < END
  {
    OneCellNames(text, t);
    ReopensExactlyInRange(OneCell(text));
  }

  /** A text at a zone offset is accepted at one open, and in its rewritten form at the next exactly if the instant it
      names is in the four-digit years. */
  lemma OutOfRangeOffsetIsNotReopened(c: Civil, zone: string, offset: int, t: int)
    requires Valid(c) && c.year < 10_000 && ZoneOffset(zone) == Some(offset) && t == InstantOf(c) - offset
    ensures var cells := OneCell(TrimmedText(c, zone));
      && Readable(STORED, cells, TIMESTAMP_COLUMNS)
      && (Readable(STORED, Rewritten(STORED, cells, TIMESTAMP_COLUMNS), TIMESTAMP_COLUMNS) <==> 0 <= t < END)
  {
    TrimmedTextIsRead(c, zone, offset, t);
    TrimmedTextIsNotEmpty(c, zone);
    OneCellReopens(TrimmedText(c, zone), t);
  }

  lemma TrimmedTextIsNotEmpty(c: Civil, zone: string)
    ensures TrimmedText(c, zone) != ""
  {
    assert |RestText(c, TrimmedFraction(c.nanos) + zone)| >= 1;
  }

  /** Such a text exists: 0000-01-01T00:00:00+01:00. */
  lemma OffsetIntoYearMinusOne() returns (c: Civil, zone: string, offset: int)
    ensures c == Civil(0, 1, 1, 0, 0, 0, 0) && zone == "+01:00"
    ensures Valid(c) && ZoneOffset(zone) == Some(offset) && InstantOf(c) - offset < 0
  {
    c, zone, offset := Civil(0, 1, 1, 0, 0, 0, 0), "+01:00", 3600 * NANOS;
    assert NumberAt(zone, 1, 1) == 0 && NumberAt(zone, 4, 1) == 0;
  }
}
