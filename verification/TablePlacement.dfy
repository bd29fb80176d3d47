/** Where the cells of a table go: the loop over rows and cells in
    src/sapp/sapp_document_layout.cpp.h, with row spans and column spans. */
module TablePlacement {
  import opened Numbers

  /** The spans an element asks for; missing ones and those below 1 count as 1. */
  datatype Spans = Spans(rows: seq<int>, columns: seq<int>)

  function SpanOf(wanted: seq<int>): (n: nat)
    ensures n >= 1
  {
    if wanted == [] || wanted[0] < 1 then 1 else wanted[0]
  }

  /** A placed cell with its anchor. */
  datatype Cell = Cell(row: nat, column: nat, rowspan: nat, colspan: nat)

  predicate Covers(c: Cell, row: nat, column: nat) {
    c.row <= row < c.row + c.rowspan && c.column <= column < c.column + c.colspan
  }

  /** The slots taken, the number of columns, and the cells in the order of their placement. */
  datatype Table = Table(allocs: set<(nat, nat)>, columns: nat, cells: seq<Cell>)

  predicate Bounded(allocs: set<(nat, nat)>, columns: nat) {
    forall s :: s in allocs ==> s.1 < columns
  }

  /** The first free slot of a row from `j` on. */
  function FirstFree(allocs: set<(nat, nat)>, columns: nat, row: nat, j: nat): (k: nat)
    requires Bounded(allocs, columns)
    ensures j <= k && (row, k) !in allocs
    ensures forall x :: j <= x < k ==> (row, x) in allocs
    decreases columns - j
  {
    if (row, j) in allocs then FirstFree(allocs, columns, row, j + 1) else j
  }

  function Slots(c: Cell): set<(nat, nat)> {
    set row: nat, column: nat
      | c.row <= row < c.row + c.rowspan && c.column <= column < c.column + c.colspan
      :: (row, column)
  }

  function PlaceAt(t: Table, c: Cell): (u: Table)
    requires Bounded(t.allocs, t.columns)
    ensures Bounded(u.allocs, u.columns)
  {
    Table(t.allocs + Slots(c), Max(t.columns, c.column + c.colspan), t.cells + [c])
  }

  function NextCell(t: Table, row: nat, j: nat, s: Spans): Cell
    requires Bounded(t.allocs, t.columns)
  {
    Cell(row, FirstFree(t.allocs, t.columns, row, j), SpanOf(s.rows), SpanOf(s.columns))
  }

  /** The cells of a row, and the column where the search for the next one starts. */
  function PlaceRow(t: Table, row: nat, spans: seq<Spans>): (r: (Table, nat))
    requires Bounded(t.allocs, t.columns)
    ensures Bounded(r.0.allocs, r.0.columns)
  {
    if spans == [] then (t, 0)
    else
      var (u, j) := PlaceRow(t, row, spans[..|spans| - 1]);
      var c := NextCell(u, row, j, spans[|spans| - 1]);
      (PlaceAt(u, c), c.column)
  }

  function PlaceRows(columns: nat, rows: seq<seq<Spans>>): (t: Table)
    ensures Bounded(t.allocs, t.columns)
  {
    if rows == [] then Table({}, columns, [])
    else PlaceRow(PlaceRows(columns, rows[..|rows| - 1]), |rows| - 1, rows[|rows| - 1]).0
  }

  // ---- The cells are the elements ----

  /** `n` is the span that was asked for, if that is at least 1, and otherwise 1. */
  predicate IsSpan(n: nat, wanted: seq<int>) {
    if |wanted| > 0 && wanted[0] >= 1 then n == wanted[0] else n == 1
  }

  /** `c` is in its row with the spans of its element. */
  predicate AsAsked(c: Cell, row: nat, s: Spans) {
    c.row == row && IsSpan(c.rowspan, s.rows) && IsSpan(c.colspan, s.columns)
  }

  function Total(rows: seq<seq<Spans>>): nat {
    if rows == [] then 0 else Total(rows[..|rows| - 1]) + |rows[|rows| - 1]|
  }

  lemma {:induction false} RowAsAsked(t: Table, row: nat, spans: seq<Spans>)
    requires Bounded(t.allocs, t.columns)
    ensures var u := PlaceRow(t, row, spans).0;
            && |u.cells| == |t.cells| + |spans| && u.cells[..|t.cells|] == t.cells
            && forall k :: 0 <= k < |spans| ==> AsAsked(u.cells[|t.cells| + k], row, spans[k])
  {
    if spans != [] {
      RowAsAsked(t, row, spans[..|spans| - 1]);
    }
  }

  /** The cells are the elements in their order, row by row, each in its own row and with its spans. */
  lemma {:induction false} CellsAreElements(columns: nat, rows: seq<seq<Spans>>, r: nat, k: nat)
    ensures |PlaceRows(columns, rows).cells| == Total(rows)
    ensures r < |rows| && k < |rows[r]| ==>
              var i := Total(rows[..r]) + k;
              i < Total(rows) && AsAsked(PlaceRows(columns, rows).cells[i], r, rows[r][k])
  {
    hide PlaceRow, AsAsked;
    if rows != [] {
      var before, last := rows[..|rows| - 1], rows[|rows| - 1];
      var t, u := PlaceRows(columns, before), PlaceRows(columns, rows);
      CellsAreElements(columns, before, r, k);
      RowAsAsked(t, |rows| - 1, last);
      if r < |before| && k < |rows[r]| {
        var i := Total(rows[..r]) + k;
        assert before[..r] == rows[..r] && before[r] == rows[r];
        assert u.cells[i] == u.cells[..|t.cells|][i];
      } else if r == |before| {
        assert rows[..r] == before;
      }
    }
  }

  // ---- What every placement keeps ----

  /** The slots taken are those that cells cover; every span lies within the columns. */
  ghost predicate Accounted(t: Table) {
    && (forall row: nat, column: nat :: (row, column) in t.allocs <==>
          exists m :: 0 <= m < |t.cells| && Covers(t.cells[m], row, column))
    && (forall m :: 0 <= m < |t.cells| ==>
          t.cells[m].rowspan >= 1 && t.cells[m].colspan >= 1
          && t.cells[m].column + t.cells[m].colspan <= t.columns)
  }

  /** `b` was placed after `a`: not above it, in the same row to its right, and not on a slot
      that `a` covers. */
  predicate After(a: Cell, b: Cell) {
    && a.row <= b.row
    && (a.row == b.row ==> a.column < b.column)
    && !Covers(a, b.row, b.column)
  }

  predicate InOrder(cells: seq<Cell>) {
    forall a, b :: 0 <= a < b < |cells| ==> After(cells[a], cells[b])
  }

  /** The state in row `row`, with the search at column `j`. */
  predicate UpTo(cells: seq<Cell>, row: nat, j: nat) {
    forall m :: 0 <= m < |cells| ==> cells[m].row <= row && (cells[m].row == row ==> cells[m].column <= j)
  }

  lemma PlaceAtKeeps(t: Table, c: Cell)
    requires Bounded(t.allocs, t.columns) && Accounted(t) && c.rowspan >= 1 && c.colspan >= 1
    ensures Accounted(PlaceAt(t, c))
  {
    var u := PlaceAt(t, c);
    forall row: nat, column: nat
      ensures (row, column) in u.allocs <==> exists m :: 0 <= m < |u.cells| && Covers(u.cells[m], row, column)
    {
      if (row, column) in t.allocs {
        var m :| 0 <= m < |t.cells| && Covers(t.cells[m], row, column);
        assert Covers(u.cells[m], row, column);
      } else if (row, column) in Slots(c) {
        assert Covers(u.cells[|t.cells|], row, column);
      } else {
        forall m | 0 <= m < |u.cells| ensures !Covers(u.cells[m], row, column) {
          if m < |t.cells| {
            assert u.cells[m] == t.cells[m];
          }
        }
      }
    }
  }

  lemma NextCellIsAfter(t: Table, row: nat, j: nat, s: Spans)
    requires Bounded(t.allocs, t.columns) && Accounted(t) && UpTo(t.cells, row, j)
    ensures var c := NextCell(t, row, j, s);
            forall m :: 0 <= m < |t.cells| ==> After(t.cells[m], c)
  {
    var c := NextCell(t, row, j, s);
    forall m | 0 <= m < |t.cells| ensures After(t.cells[m], c) {
      assert Covers(t.cells[m], row, c.column) ==> (row, c.column) in t.allocs;
      assert t.cells[m].row == row ==> Covers(t.cells[m], row, t.cells[m].column);
    }
  }

  lemma AppendInOrder(cells: seq<Cell>, c: Cell)
    requires InOrder(cells) && forall m :: 0 <= m < |cells| ==> After(cells[m], c)
    ensures InOrder(cells + [c])
  {
    hide After;
  }

  lemma CellKeeps(t: Table, row: nat, j: nat, s: Spans)
    requires Bounded(t.allocs, t.columns) && Accounted(t) && InOrder(t.cells) && UpTo(t.cells, row, j)
    ensures var c := NextCell(t, row, j, s);
            var u := PlaceAt(t, c);
            Accounted(u) && InOrder(u.cells) && UpTo(u.cells, row, c.column) && t.columns <= u.columns
  {
    var c := NextCell(t, row, j, s);
    NextCellIsAfter(t, row, j, s);
    PlaceAtKeeps(t, c);
    AppendInOrder(t.cells, c);
    hide Accounted, InOrder, After, Slots;
  }

  lemma {:induction false} RowKeeps(t: Table, row: nat, spans: seq<Spans>)
    requires Bounded(t.allocs, t.columns) && Accounted(t) && InOrder(t.cells)
    requires forall m :: 0 <= m < |t.cells| ==> t.cells[m].row < row
    ensures var (u, j) := PlaceRow(t, row, spans);
            Accounted(u) && InOrder(u.cells) && UpTo(u.cells, row, j) && t.columns <= u.columns
  {
    if spans != [] {
      RowKeeps(t, row, spans[..|spans| - 1]);
      var (u, j) := PlaceRow(t, row, spans[..|spans| - 1]);
      CellKeeps(u, row, j, spans[|spans| - 1]);
      hide Accounted, NextCell, PlaceAt, InOrder, UpTo;
    }
  }

  lemma {:induction false} RowsKeep(columns: nat, rows: seq<seq<Spans>>)
    ensures var t := PlaceRows(columns, rows);
            && Accounted(t) && InOrder(t.cells) && columns <= t.columns
            && forall m :: 0 <= m < |t.cells| ==> t.cells[m].row < |rows|
  {
    if rows != [] {
      RowsKeep(columns, rows[..|rows| - 1]);
      RowKeeps(PlaceRows(columns, rows[..|rows| - 1]), |rows| - 1, rows[|rows| - 1]);
      hide Accounted, InOrder, PlaceRow;
    }
  }

  /** The columns are as many as were asked for, or end with the last cell: none is added in vain. */
  predicate Tight(t: Table, columns: nat) {
    t.columns == columns || exists m :: 0 <= m < |t.cells| && EndsAt(t.cells[m], t.columns)
  }

  predicate EndsAt(c: Cell, column: nat) { c.column + c.colspan == column }

  lemma PlaceAtTight(t: Table, c: Cell, columns: nat)
    requires Bounded(t.allocs, t.columns) && Tight(t, columns)
    ensures Tight(PlaceAt(t, c), columns)
  {
    var u := PlaceAt(t, c);
    if u.columns == t.columns {
      if t.columns != columns {
        var m :| 0 <= m < |t.cells| && EndsAt(t.cells[m], t.columns);
        assert EndsAt(u.cells[m], u.columns);
      }
    } else {
      assert EndsAt(u.cells[|t.cells|], u.columns);
    }
  }

  lemma {:induction false} RowTight(t: Table, row: nat, spans: seq<Spans>, columns: nat)
    requires Bounded(t.allocs, t.columns) && Tight(t, columns)
    ensures Tight(PlaceRow(t, row, spans).0, columns)
  {
    if spans != [] {
      RowTight(t, row, spans[..|spans| - 1], columns);
      var (u, j) := PlaceRow(t, row, spans[..|spans| - 1]);
      PlaceAtTight(u, NextCell(u, row, j, spans[|spans| - 1]), columns);
      hide PlaceAt, NextCell, Tight;
    }
  }

  /** For any rows and spans the table has exactly the columns that were asked for, or those that its
      spans need. */
  lemma {:induction false} ColumnsAreNeeded(columns: nat, rows: seq<seq<Spans>>)
    ensures Tight(PlaceRows(columns, rows), columns)
  {
    if rows != [] {
      ColumnsAreNeeded(columns, rows[..|rows| - 1]);
      RowTight(PlaceRows(columns, rows[..|rows| - 1]), |rows| - 1, rows[|rows| - 1], columns);
      hide PlaceRow, Tight;
    }
  }

  /** For all rows and spans: no cell is anchored on a slot that an earlier one covers, anchors
      in a row strictly increase, and the columns suffice for every span. */
  lemma AnchorsAreFree(columns: nat, rows: seq<seq<Spans>>, a: nat, b: nat)
    ensures var t := PlaceRows(columns, rows);
            && columns <= t.columns
            && (b < |t.cells| ==> t.cells[b].column + t.cells[b].colspan <= t.columns)
            && (a < b < |t.cells| ==>
                  && !Covers(t.cells[a], t.cells[b].row, t.cells[b].column)
                  && (t.cells[a].row == t.cells[b].row ==> t.cells[a].column < t.cells[b].column))
  {
    RowsKeep(columns, rows);
    hide PlaceRows;
    var t := PlaceRows(columns, rows);
    assert a < b < |t.cells| ==> After(t.cells[a], t.cells[b]);
  }

  // ---- Overlaps ----

  predicate Overlap(a: Cell, b: Cell) {
    && a.row < b.row + b.rowspan && b.row < a.row + a.rowspan
    && a.column < b.column + b.colspan && b.column < a.column + a.colspan
  }

  ghost predicate ShareSlot(a: Cell, b: Cell) {
    exists row: nat, column: nat :: Covers(a, row, column) && Covers(b, row, column)
  }

  /** Two rectangles overlap exactly when they share a slot. */
  lemma OverlapIsSharedSlot(a: Cell, b: Cell)
    requires a.rowspan >= 1 && a.colspan >= 1 && b.rowspan >= 1 && b.colspan >= 1
    ensures Overlap(a, b) <==> ShareSlot(a, b)
  {
    if Overlap(a, b) {
      assert Covers(a, Max(a.row, b.row), Max(a.column, b.column));
      assert Covers(b, Max(a.row, b.row), Max(a.column, b.column));
    }
  }

  /** In its first row, a slot of `b` beside the anchor is covered by `a`. */
  predicate HitsBeside(a: Cell, b: Cell) {
    && b.row < a.row + a.rowspan
    && a.column > b.column && a.column < b.column + b.colspan
  }

  lemma LaterOverlapsBeside(a: Cell, b: Cell)
    requires a.rowspan >= 1 && a.colspan >= 1 && b.rowspan >= 1 && b.colspan >= 1 && After(a, b)
    ensures Overlap(a, b) <==> HitsBeside(a, b)
  {
  }

  /** Cells share a slot exactly where a column span runs into an earlier cell from above: the loop
      looks for a free anchor, not for a free span. */
  lemma OverlapExactly(columns: nat, rows: seq<seq<Spans>>, a: nat, b: nat)
    ensures var t := PlaceRows(columns, rows);
            a < b < |t.cells| ==>
              && (Overlap(t.cells[a], t.cells[b]) <==> HitsBeside(t.cells[a], t.cells[b]))
              && (ShareSlot(t.cells[a], t.cells[b]) <==> HitsBeside(t.cells[a], t.cells[b]))
  {
    RowsKeep(columns, rows);
    hide PlaceRows;
    var t := PlaceRows(columns, rows);
    if a < b < |t.cells| {
      LaterOverlapsBeside(t.cells[a], t.cells[b]);
      OverlapIsSharedSlot(t.cells[a], t.cells[b]);
    }
  }

  /** A slot beside the anchor that a cell is going to cover is taken already. */
  predicate SpanIsBlocked(t: Table, c: Cell) {
    exists k :: 0 < k < c.colspan && Blocked(t, c, k)
  }

  predicate Blocked(t: Table, c: Cell, k: nat) { (c.row, c.column + k) in t.allocs }

  predicate MeetsEarlier(t: Table, c: Cell) {
    exists m :: 0 <= m < |t.cells| && Overlap(t.cells[m], c)
  }

  lemma MeetsOnlyIfBlocked(t: Table, c: Cell, m: nat)
    requires Accounted(t) && m < |t.cells| && After(t.cells[m], c) && c.rowspan >= 1 && c.colspan >= 1
    requires Overlap(t.cells[m], c)
    ensures SpanIsBlocked(t, c)
  {
    LaterOverlapsBeside(t.cells[m], c);
    var k := t.cells[m].column - c.column;
    assert Covers(t.cells[m], c.row, c.column + k);
    assert Blocked(t, c, k);
  }

  lemma MeetsWhereBlocked(t: Table, c: Cell, k: nat)
    requires Accounted(t) && c.rowspan >= 1 && k < c.colspan && Blocked(t, c, k)
    ensures MeetsEarlier(t, c)
  {
    var m :| 0 <= m < |t.cells| && Covers(t.cells[m], c.row, c.column + k);
    assert Overlap(t.cells[m], c);
  }

  lemma NextMeetsIfBlocked(t: Table, row: nat, j: nat, s: Spans)
    requires Bounded(t.allocs, t.columns) && Accounted(t) && UpTo(t.cells, row, j)
    ensures var c := NextCell(t, row, j, s); MeetsEarlier(t, c) <==> SpanIsBlocked(t, c)
  {
    var c := NextCell(t, row, j, s);
    NextCellIsAfter(t, row, j, s);
    hide Accounted, After, Overlap, Blocked;
    if MeetsEarlier(t, c) {
      var m :| 0 <= m < |t.cells| && Overlap(t.cells[m], c);
      MeetsOnlyIfBlocked(t, c, m);
    }
    if SpanIsBlocked(t, c) {
      var k :| 0 < k < c.colspan && Blocked(t, c, k);
      MeetsWhereBlocked(t, c, k);
    }
  }

  /** Whether the next cell of a row will overlap can be seen before it is placed: exactly when a
      slot of its column span beside the free anchor is taken. */
  lemma OverlapForeseen(columns: nat, rows: seq<seq<Spans>>, spans: seq<Spans>, s: Spans)
    ensures var (t, j) := PlaceRow(PlaceRows(columns, rows), |rows|, spans);
            var c := NextCell(t, |rows|, j, s);
            MeetsEarlier(t, c) <==> SpanIsBlocked(t, c)
  {
    RowsKeep(columns, rows);
    RowKeeps(PlaceRows(columns, rows), |rows|, spans);
    hide PlaceRows, PlaceRow, Accounted, UpTo, NextCell;
    var (t, j) := PlaceRow(PlaceRows(columns, rows), |rows|, spans);
    NextMeetsIfBlocked(t, |rows|, j, s);
  }

  /** Without column spans, or without row spans, no two cells overlap. */
  lemma OneKindOfSpanNeverOverlaps(columns: nat, rows: seq<seq<Spans>>, a: nat, b: nat)
    ensures var t := PlaceRows(columns, rows);
            ((forall m :: 0 <= m < |t.cells| ==> t.cells[m].colspan == 1)
             || (forall m :: 0 <= m < |t.cells| ==> t.cells[m].rowspan == 1)) && a < b < |t.cells| ==>
              !Overlap(t.cells[a], t.cells[b])
  {
    RowsKeep(columns, rows);
    hide PlaceRows;
    var t := PlaceRows(columns, rows);
    if a < b < |t.cells| {
      assert After(t.cells[a], t.cells[b]);
    }
  }

  const FIRST: Table := PlaceAt(Table({}, 0, []), Cell(0, 0, 1, 1))
  const SECOND: Table := PlaceAt(FIRST, Cell(0, 1, 2, 1))

  lemma AnchorsOfTheExample()
    ensures NextCell(Table({}, 0, []), 0, 0, Spans([1], [1])) == Cell(0, 0, 1, 1)
    ensures NextCell(FIRST, 0, 0, Spans([2], [1])) == Cell(0, 1, 2, 1)
    ensures NextCell(SECOND, 1, 0, Spans([1], [2])) == Cell(1, 0, 1, 2)
  {
    assert (0, 0) in FIRST.allocs && (0, 1) !in FIRST.allocs && (1, 0) !in SECOND.allocs;
  }

  /** With both, they can: a cell two rows high, and beside it in the second row one that is two
      columns wide. */
  lemma BothKindsCanOverlap()
    ensures var rows := [[Spans([1], [1]), Spans([2], [1])], [Spans([1], [2])]];
            PlaceRows(0, rows).cells == [Cell(0, 0, 1, 1), Cell(0, 1, 2, 1), Cell(1, 0, 1, 2)]
            && Overlap(Cell(0, 1, 2, 1), Cell(1, 0, 1, 2))
  {
    AnchorsOfTheExample();
    hide NextCell, FirstFree, SpanOf, Slots;
    var r0, r1 := [Spans([1], [1]), Spans([2], [1])], [Spans([1], [2])];
    var upper, both := [r0], [r0, r1];
    assert |r0[..1][..0]| == 0 && r0[..1] == [r0[0]] && |r1[..0]| == 0 && both[..1] == upper && |upper[..0]| == 0;
    assert PlaceRow(Table({}, 0, []), 0, r0[..1]) == (FIRST, 0);
    assert PlaceRow(Table({}, 0, []), 0, r0) == (SECOND, 1);
    assert PlaceRows(0, upper) == SECOND;
    assert PlaceRow(SECOND, 1, r1).0 == PlaceAt(SECOND, Cell(1, 0, 1, 2));
  }

  // ---- The loop ----

  class TableLayout {
    var allocs: set<(nat, nat)>
    var columns: nat
    var cells: seq<Cell>

    function State(): Table
      reads this
    {
      Table(allocs, columns, cells)
    }

    constructor (columns: nat)
      ensures State() == Table({}, columns, [])
    {
      allocs, this.columns, cells := {}, columns, [];
    }

    /** Take the slots of a cell, row by row. */
    method Allocate(c: Cell)
      modifies `allocs
      ensures allocs == old(allocs) + Slots(c)
    {
      var i := 0;
      while i < c.rowspan
        invariant i <= c.rowspan
        invariant allocs == old(allocs) + Slots(c.(rowspan := i))
      {
        var j := 0;
        ghost var before := allocs;
        while j < c.colspan
          invariant j <= c.colspan
          invariant allocs == before + Slots(Cell(c.row + i, c.column, 1, j))
        {
          allocs := allocs + {(c.row + i, c.column + j)};
          j := j + 1;
        }
        i := i + 1;
      }
    }

    method Place(row: nat, start: nat, s: Spans) returns (column: nat)
      requires Bounded(allocs, columns)
      modifies this
      ensures State() == PlaceAt(old(State()), NextCell(old(State()), row, start, s))
      ensures column == NextCell(old(State()), row, start, s).column
    {
      column := start;
      while (row, column) in allocs
        invariant FirstFree(allocs, columns, row, start) == FirstFree(allocs, columns, row, column)
        decreases columns - column
      {
        column := column + 1;
      }
      var c := Cell(row, column, SpanOf(s.rows), SpanOf(s.columns));
      if column + c.colspan > columns {
        columns := column + c.colspan;
      }
      Allocate(c);
      cells := cells + [c];
    }

    method PlaceAll(rows: seq<seq<Spans>>)
      requires State() == Table({}, columns, [])
      modifies this
      ensures State() == PlaceRows(old(columns), rows)
    {
      var i := 0;
      while i < |rows|
        invariant i <= |rows| && State() == PlaceRows(old(columns), rows[..i])
      {
        assert rows[..i + 1][..i] == rows[..i];
        var column, k := 0, 0;
        ghost var t := State();
        while k < |rows[i]|
          invariant k <= |rows[i]| && (State(), column) == PlaceRow(t, i, rows[i][..k])
        {
          assert rows[i][..k + 1][..k] == rows[i][..k];
          column := Place(i, column, rows[i][k]);
          k := k + 1;
        }
        assert rows[i][..k] == rows[i];
        i := i + 1;
      }
      assert rows[..i] == rows;
    }
  }
}
