/**
 * The position evaluator of the analysis package (analysis/evaluation.py). It reads a board
 * whose cells are two-letter strings, a colour letter and a type letter ("wP", "bK"), with
 * "--" for an empty square. A cell that is neither "--" nor a string with a known type letter
 * at index 1 makes the evaluation fail (Python raises on the subscript or the dictionary lookup).
 */
module Evaluation {
  import opened Wrappers

  /** An 8 by 8 board of string cells. */
  type TextGrid = g: seq<seq<string>> | |g| == 8 && forall r | 0 <= r < 8 :: |g[r]| == 8
    witness seq(8, _ => seq(8, _ => "--"))

  /** An 8 by 8 table of square bonuses. */
  type Table = t: seq<seq<int>> | |t| == 8 && forall r | 0 <= r < 8 :: |t[r]| == 8
    witness seq(8, _ => seq(8, _ => 0))

  /** Piece values in centipawns; the King's is high so that it is never traded. */
  const PieceValues: map<char, int> := map['P' := 100, 'N' := 320, 'B' := 330, 'R' := 500, 'Q' := 900, 'K' := 20000]

  const PawnTable: Table := [
    [0, 0, 0, 0, 0, 0, 0, 0],
    [50, 50, 50, 50, 50, 50, 50, 50],
    [10, 10, 20, 30, 30, 20, 10, 10],
    [5, 5, 10, 25, 25, 10, 5, 5],
    [0, 0, 0, 20, 20, 0, 0, 0],
    [5, -5, -10, 0, 0, -10, -5, 5],
    [5, 10, 10, -20, -20, 10, 10, 5],
    [0, 0, 0, 0, 0, 0, 0, 0]]

  const KnightTable: Table := [
    [-50, -40, -30, -30, -30, -30, -40, -50],
    [-40, -20, 0, 0, 0, 0, -20, -40],
    [-30, 0, 10, 15, 15, 10, 0, -30],
    [-30, 5, 15, 20, 20, 15, 5, -30],
    [-30, 0, 15, 20, 20, 15, 0, -30],
    [-30, 5, 10, 15, 15, 10, 5, -30],
    [-40, -20, 0, 5, 5, 0, -20, -40],
    [-50, -40, -30, -30, -30, -30, -40, -50]]

  const BishopTable: Table := [
    [-20, -10, -10, -10, -10, -10, -10, -20],
    [-10, 0, 0, 0, 0, 0, 0, -10],
    [-10, 0, 10, 10, 10, 10, 0, -10],
    [-10, 5, 5, 10, 10, 5, 5, -10],
    [-10, 0, 5, 10, 10, 5, 0, -10],
    [-10, 10, 10, 10, 10, 10, 10, -10],
    [-10, 5, 0, 0, 0, 0, 5, -10],
    [-20, -10, -10, -10, -10, -10, -10, -20]]

  const RookTable: Table := [
    [0, 0, 0, 0, 0, 0, 0, 0],
    [5, 10, 10, 10, 10, 10, 10, 5],
    [-5, 0, 0, 0, 0, 0, 0, -5],
    [-5, 0, 0, 0, 0, 0, 0, -5],
    [-5, 0, 0, 0, 0, 0, 0, -5],
    [-5, 0, 0, 0, 0, 0, 0, -5],
    [-5, 0, 0, 0, 0, 0, 0, -5],
    [0, 0, 0, 5, 5, 0, 0, 0]]

  const QueenTable: Table := [
    [-20, -10, -10, -5, -5, -10, -10, -20],
    [-10, 0, 0, 0, 0, 0, 0, -10],
    [-10, 0, 5, 5, 5, 5, 0, -10],
    [-5, 0, 5, 5, 5, 5, 0, -5],
    [0, 0, 5, 5, 5, 5, 0, -5],
    [-10, 5, 5, 5, 5, 5, 0, -10],
    [-10, 0, 5, 0, 0, 0, 0, -10],
    [-20, -10, -10, -5, -5, -10, -10, -20]]

  const KingTable: Table := [
    [-30, -40, -40, -50, -50, -40, -40, -30],
    [-30, -40, -40, -50, -50, -40, -40, -30],
    [-30, -40, -40, -50, -50, -40, -40, -30],
    [-30, -40, -40, -50, -50, -40, -40, -30],
    [-20, -30, -30, -40, -40, -30, -30, -20],
    [-10, -20, -20, -20, -20, -20, -20, -10],
    [20, 20, 0, 0, 0, 0, 20, 20],
    [20, 30, 10, 0, 0, 10, 30, 20]]

  const PositionTables: map<char, Table> :=
    map['P' := PawnTable, 'N' := KnightTable, 'B' := BishopTable, 'R' := RookTable, 'Q' := QueenTable, 'K' := KingTable]

  /** The two summed terms of the evaluation: material, and the position-table bonuses. */
  datatype Term = MaterialTerm | PositionTerm

  /** The cell can be scored for term t: it is empty ("--") or has a known type letter at index 1. */
  predicate Scorable(t: Term, cell: string)
  {
    cell == "--" || (|cell| >= 2 && (if t.MaterialTerm? then cell[1] in PieceValues else cell[1] in PositionTables))
  }

  /**
   * What the cell at (r, c) adds to term t: nothing for "--"; a white piece ('w' at index 0)
   * adds its value or `table[r][c]`, any other piece subtracts its value or `table[7 - r][c]`.
   */
  function CellScore(t: Term, cell: string, r: int, c: int): int
    requires 0 <= r < 8 && 0 <= c < 8
  {
    if !Scorable(t, cell) || cell == "--" then 0
    else
      var white := cell[0] == 'w';
      var base := if t.MaterialTerm? then PieceValues[cell[1]]
                  else PositionTables[cell[1]][if white then r else 7 - r][c];
      if white then base else -base
  }

  /** Every cell of rows before r, and of row r before column col, can be scored. */
  predicate ScorableBefore(g: TextGrid, t: Term, r: int, col: int)
  {
    forall i, j | 0 <= i < 8 && 0 <= j < 8 && (i < r || (i == r && j < col)) :: Scorable(t, g[i][j])
  }

  /** Term t over row r, columns 0..col-1. */
  function RowScore(g: TextGrid, t: Term, r: int, col: int): int
    requires 0 <= r < 8 && 0 <= col <= 8
    decreases g, col
  {
    if col == 0 then 0 else RowScore(g, t, r, col - 1) + CellScore(t, g[r][col - 1], r, col - 1)
  }

  /** Term t over rows 0..r-1. */
  function RowsScore(g: TextGrid, t: Term, r: int): int
    requires 0 <= r <= 8
    decreases g, r
  {
    if r == 0 then 0 else RowsScore(g, t, r - 1) + RowScore(g, t, r - 1, 8)
  }

  /** Term t over the board, or None when some cell cannot be scored. */
  function TermScore(g: TextGrid, t: Term): Option<int>
  {
    if ScorableBefore(g, t, 8, 0) then Some(RowsScore(g, t, 8)) else None
  }

  /** The two dictionaries know the same type letters, so the two terms fail on the same boards. */
  lemma SameKeys(g: TextGrid)
    ensures PieceValues.Keys == PositionTables.Keys
    ensures TermScore(g, MaterialTerm).None? <==> TermScore(g, PositionTerm).None?
  {
    assert PieceValues.Keys == {'P', 'N', 'B', 'R', 'Q', 'K'};
    assert PositionTables.Keys == {'P', 'N', 'B', 'R', 'Q', 'K'};
  }

  /** _evaluate_material: the nested loop over the squares, failing at the first cell it cannot score. */
  method EvaluateMaterial(g: TextGrid) returns (score: Option<int>)
    ensures score == TermScore(g, MaterialTerm)
  {
    score := ScoreTerm(g, MaterialTerm);
  }

  /** _evaluate_piece_positions: the same loop adding the table bonuses. */
  method EvaluatePiecePositions(g: TextGrid) returns (score: Option<int>)
    ensures score == TermScore(g, PositionTerm)
  {
    score := ScoreTerm(g, PositionTerm);
  }

  /** The loop both terms share: row by row, column by column, adding each cell's score. */
  method ScoreTerm(g: TextGrid, t: Term) returns (result: Option<int>)
    ensures result == TermScore(g, t)
  {
    var score := 0;
    for row := 0 to 8
      invariant ScorableBefore(g, t, row, 0)
      invariant score == RowsScore(g, t, row)
    {
      for col := 0 to 8
        invariant ScorableBefore(g, t, row, col)
        invariant score == RowsScore(g, t, row) + RowScore(g, t, row, col)
      {
        var piece := g[row][col];
        if piece != "--" {
          if |piece| < 2 || !(if t.MaterialTerm? then piece[1] in PieceValues else piece[1] in PositionTables) {
            return None;
          }
          var value := if t.MaterialTerm? then PieceValues[piece[1]]
                       else PositionTables[piece[1]][if piece[0] == 'w' then row else 7 - row][col];
          if piece[0] == 'w' {
            score := score + value;
          } else {
            score := score - value;
          }
        }
      }
    }
    result := Some(score);
  }

  const MobilityWeight: real := 0.1
  const CenterControlWeight: real := 0.2
  const KingSafetyWeight: real := 0.3
  const PawnStructureWeight: real := 0.2

  /** The mobility, centre control, king safety and pawn structure terms: placeholders that score 0. */
  function PlaceholderTerm(g: TextGrid): int
  {
    0
  }

  /** evaluate_position: material plus the position bonuses plus the weighted placeholder terms. */
  function PositionScore(g: TextGrid): (r: Option<real>)
    ensures r.Some? <==> TermScore(g, MaterialTerm).Some?
    ensures r.Some? ==> r.value == (TermScore(g, MaterialTerm).value + TermScore(g, PositionTerm).value) as real
  {
    SameKeys(g);
    var m := TermScore(g, MaterialTerm);
    var p := TermScore(g, PositionTerm);
    if m.None? || p.None? then None
    else Some((m.value + p.value) as real + PlaceholderTerm(g) as real * MobilityWeight +
              PlaceholderTerm(g) as real * CenterControlWeight + PlaceholderTerm(g) as real * KingSafetyWeight +
              PlaceholderTerm(g) as real * PawnStructureWeight)
  }

  /** evaluate_position, by the two loops. */
  method EvaluatePosition(g: TextGrid) returns (score: Option<real>)
    ensures score == PositionScore(g)
  {
    var material := EvaluateMaterial(g);
    if material.None? {
      SameKeys(g);
      return None;
    }
    var position := EvaluatePiecePositions(g);
    if position.None? {
      SameKeys(g);
      return None;
    }
    score := Some((material.value + position.value) as real + PlaceholderTerm(g) as real * MobilityWeight +
                  PlaceholderTerm(g) as real * CenterControlWeight + PlaceholderTerm(g) as real * KingSafetyWeight +
                  PlaceholderTerm(g) as real * PawnStructureWeight);
  }

  // ---------------------------------------------------------------- colour symmetry

  /** The same piece in the other colour: 'w' becomes 'b' and any other colour letter 'w'. */
  function SwapColour(cell: string): (s: string)
    ensures |s| == |cell| && (cell == "--" <==> s == "--")
  {
    if cell == "--" || |cell| == 0 then cell
    else [if cell[0] == 'w' then 'b' else 'w'] + cell[1..]
  }

  /** The board turned upside down with the colours swapped: row r holds the swapped row 7 - r. */
  function Mirror(g: TextGrid): (m: TextGrid)
    ensures forall r, c | 0 <= r < 8 && 0 <= c < 8 :: m[r][c] == SwapColour(g[7 - r][c])
  {
    seq(8, r requires 0 <= r < 8 => seq(8, c requires 0 <= c < 8 => SwapColour(g[7 - r][c])))
  }

  lemma MirrorCell(t: Term, x: string, r: int, c: int)
    requires 0 <= r < 8 && 0 <= c < 8
    ensures Scorable(t, SwapColour(x)) <==> Scorable(t, x)
    ensures CellScore(t, SwapColour(x), r, c) == -CellScore(t, x, 7 - r, c)
  {
    if x != "--" && |x| >= 2 {
      assert SwapColour(x)[1] == x[1];
    }
  }

  lemma {:induction false} MirrorRow(g: TextGrid, t: Term, r: int, col: int)
    requires 0 <= r < 8 && 0 <= col <= 8
    ensures RowScore(Mirror(g), t, r, col) == -RowScore(g, t, 7 - r, col)
    decreases col
  {
    if col > 0 {
      MirrorRow(g, t, r, col - 1);
      MirrorCell(t, g[7 - r][col - 1], r, col - 1);
    }
  }

  /** The first r rows of the mirror cancel the last r rows of the board. */
  lemma {:induction false} MirrorRows(g: TextGrid, t: Term, r: int)
    requires 0 <= r <= 8
    ensures RowsScore(Mirror(g), t, r) == -(RowsScore(g, t, 8) - RowsScore(g, t, 8 - r))
    decreases r
  {
    if r > 0 {
      MirrorRows(g, t, r - 1);
      MirrorRow(g, t, r - 1, 8);
    }
  }

  /** Turning the board over and swapping the colours negates the evaluation, or keeps it failing. */
  lemma MirrorNegates(g: TextGrid)
    ensures PositionScore(Mirror(g)).Some? <==> PositionScore(g).Some?
    ensures PositionScore(g).Some? ==> PositionScore(Mirror(g)).value == -PositionScore(g).value
  {
    var m := Mirror(g);
    forall t: Term
      ensures ScorableBefore(m, t, 8, 0) <==> ScorableBefore(g, t, 8, 0)
    {
      forall i, j | 0 <= i < 8 && 0 <= j < 8
        ensures Scorable(t, m[i][j]) <==> Scorable(t, g[7 - i][j])
      {
        MirrorCell(t, g[7 - i][j], i, j);
      }
      if !ScorableBefore(g, t, 8, 0) {
        var i, j :| 0 <= i < 8 && 0 <= j < 8 && !Scorable(t, g[i][j]);
        assert !Scorable(t, m[7 - i][j]);
      }
    }
    MirrorRows(g, MaterialTerm, 8);
    MirrorRows(g, PositionTerm, 8);
  }

  /** A board that is its own mirror, such as the starting position, evaluates to 0. */
  lemma SymmetricIsLevel(g: TextGrid)
    requires Mirror(g) == g && PositionScore(g).Some?
    ensures PositionScore(g) == Some(0.0)
  {
    MirrorNegates(g);
  }

  // ---------------------------------------------------------------- best moves

  /** One entry of find_best_moves: a move in coordinate notation, its evaluation and a description. */
  datatype Candidate = Candidate(move: string, evaluation: real, description: string)

  /** find_best_moves: a fixed list of three openings, whatever the board, depth and count. */
  function FindBestMoves(g: TextGrid, depth: int, count: int): (moves: seq<Candidate>)
    ensures |moves| == 3 && moves[0].move == "e2e4" && moves[1].move == "d2d4" && moves[2].move == "c2c4"
    ensures moves[0].evaluation > moves[1].evaluation > moves[2].evaluation
  {
    [Candidate("e2e4", 0.5, "King's Pawn Opening"),
     Candidate("d2d4", 0.4, "Queen's Pawn Opening"),
     Candidate("c2c4", 0.3, "English Opening")]
  }
}
