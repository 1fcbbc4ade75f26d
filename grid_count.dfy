/**
 * Counting pieces on the grid in the row-by-row, column-by-column order of the nested loops
 * that the analysis code, the draw rules and the IQ estimate share, and the material value
 * table (P 1, N 3, B 3, R 5, Q 9, K 0) they weigh pieces by.
 */
module GridCount {
  import opened Wrappers
  import opened Pieces

  /** The cell holds a piece of colour c whose kind is one of ks. */
  predicate IsOf(x: Cell, c: Color, ks: set<Kind>)
  {
    x.Some? && x.value.color == c && x.value.kind in ks
  }

  function One(b: bool): nat
  {
    if b then 1 else 0
  }

  /** Pieces of colour c with a kind in ks in row r, columns 0..col-1. */
  function CountInRow(g: Grid, c: Color, ks: set<Kind>, r: int, col: int): nat
    requires 0 <= r < 8 && 0 <= col <= 8
    decreases g, col
  {
    if col == 0 then 0 else CountInRow(g, c, ks, r, col - 1) + One(IsOf(g[r][col - 1], c, ks))
  }

  /** Pieces of colour c with a kind in ks in rows 0..r-1. */
  function CountRows(g: Grid, c: Color, ks: set<Kind>, r: int): nat
    requires 0 <= r <= 8
    decreases g, r
  {
    if r == 0 then 0 else CountRows(g, c, ks, r - 1) + CountInRow(g, c, ks, r - 1, 8)
  }

  /** Pieces of colour c with a kind in ks anywhere on the board. */
  function Count(g: Grid, c: Color, ks: set<Kind>): nat
  {
    CountRows(g, c, ks, 8)
  }

  /** Pieces of colour c with a kind in ks in column f, rows 0..r-1. */
  function CountInFile(g: Grid, c: Color, ks: set<Kind>, f: int, r: int): nat
    requires 0 <= f < 8 && 0 <= r <= 8
    decreases g, r
  {
    if r == 0 then 0 else CountInFile(g, c, ks, f, r - 1) + One(IsOf(g[r - 1][f], c, ks))
  }

  /** The value of a piece type in the material tables of the analysis and the IQ estimate. */
  function MaterialValue(k: Kind): nat
  {
    match k
    case Pawn => 1
    case Knight => 3
    case Bishop => 3
    case Rook => 5
    case Queen => 9
    case King => 0
  }

  /** What a cell adds to colour c's material. */
  function CellValue(x: Cell, c: Color): nat
  {
    if x.Some? && x.value.color == c then MaterialValue(x.value.kind) else 0
  }

  /** Colour c's material in row r, columns 0..col-1, summed cell by cell. */
  function ValueInRow(g: Grid, c: Color, r: int, col: int): nat
    requires 0 <= r < 8 && 0 <= col <= 8
    decreases g, col
  {
    if col == 0 then 0 else ValueInRow(g, c, r, col - 1) + CellValue(g[r][col - 1], c)
  }

  /** Colour c's material in rows 0..r-1. */
  function ValueRows(g: Grid, c: Color, r: int): nat
    requires 0 <= r <= 8
    decreases g, r
  {
    if r == 0 then 0 else ValueRows(g, c, r - 1) + ValueInRow(g, c, r - 1, 8)
  }

  /** Colour c's material on the whole board, summed cell by cell as the IQ estimate does. */
  function Material(g: Grid, c: Color): nat
  {
    ValueRows(g, c, 8)
  }

  /** The same material, summed kind by kind over the piece counts, as the material balance does. */
  function ValueByKind(g: Grid, c: Color): nat
  {
    Count(g, c, {Pawn}) * 1 + Count(g, c, {Knight}) * 3 + Count(g, c, {Bishop}) * 3 +
    Count(g, c, {Rook}) * 5 + Count(g, c, {Queen}) * 9
  }

  /** Within a row, the cell-by-cell sum equals the weighted piece counts. */
  lemma {:induction false} RowValueByKind(g: Grid, c: Color, r: int, col: int)
    requires 0 <= r < 8 && 0 <= col <= 8
    ensures ValueInRow(g, c, r, col) ==
      CountInRow(g, c, {Pawn}, r, col) * 1 + CountInRow(g, c, {Knight}, r, col) * 3 +
      CountInRow(g, c, {Bishop}, r, col) * 3 + CountInRow(g, c, {Rook}, r, col) * 5 +
      CountInRow(g, c, {Queen}, r, col) * 9
    decreases col
  {
    if col > 0 {
      RowValueByKind(g, c, r, col - 1);
    }
  }

  /** Over the rows, the cell-by-cell sum equals the weighted piece counts. */
  lemma {:induction false} RowsValueByKind(g: Grid, c: Color, r: int)
    requires 0 <= r <= 8
    ensures ValueRows(g, c, r) ==
      CountRows(g, c, {Pawn}, r) * 1 + CountRows(g, c, {Knight}, r) * 3 +
      CountRows(g, c, {Bishop}, r) * 3 + CountRows(g, c, {Rook}, r) * 5 +
      CountRows(g, c, {Queen}, r) * 9
    decreases r
  {
    if r > 0 {
      RowsValueByKind(g, c, r - 1);
      RowValueByKind(g, c, r - 1, 8);
    }
  }

  /** Summing cell values and weighing the counts of each kind give the same material. */
  lemma MaterialByKind(g: Grid, c: Color)
    ensures Material(g, c) == ValueByKind(g, c)
  {
    RowsValueByKind(g, c, 8);
  }

  /** Counting a union of kinds that do not overlap is adding the counts. */
  lemma {:induction false} RowCountUnion(g: Grid, c: Color, a: set<Kind>, b: set<Kind>, r: int, col: int)
    requires a !! b && 0 <= r < 8 && 0 <= col <= 8
    ensures CountInRow(g, c, a + b, r, col) == CountInRow(g, c, a, r, col) + CountInRow(g, c, b, r, col)
    decreases col
  {
    if col > 0 {
      RowCountUnion(g, c, a, b, r, col - 1);
    }
  }

  lemma {:induction false} RowsCountUnion(g: Grid, c: Color, a: set<Kind>, b: set<Kind>, r: int)
    requires a !! b && 0 <= r <= 8
    ensures CountRows(g, c, a + b, r) == CountRows(g, c, a, r) + CountRows(g, c, b, r)
    decreases r
  {
    if r > 0 {
      RowsCountUnion(g, c, a, b, r - 1);
      RowCountUnion(g, c, a, b, r - 1, 8);
    }
  }

  /** The pieces of a colour with kinds in a or b, for disjoint a and b, are those in a plus those in b. */
  lemma CountUnion(g: Grid, c: Color, a: set<Kind>, b: set<Kind>)
    requires a !! b
    ensures Count(g, c, a + b) == Count(g, c, a) + Count(g, c, b)
  {
    RowsCountUnion(g, c, a, b, 8);
  }
}
