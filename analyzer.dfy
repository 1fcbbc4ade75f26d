/**
 * The counting parts of the game analyzer (analysis/analyzer.py): material balance, pawn
 * structure, the endgame test and piece mobility over a Board, and the statistics of one
 * player's analysed moves.
 */
module Analyzer {
  import opened Wrappers
  import opened Pieces
  import opened Moves
  import opened BoardState
  import opened Generators
  import opened GridCount
  import opened MistakeDetector
  import opened ChessBoard

  // ---------------------------------------------------------------- material balance

  /** The piece types the material dictionaries count; kings are excluded. */
  const Counted: set<Kind> := {Pawn, Knight, Bishop, Rook, Queen}

  datatype MaterialBalance = MaterialBalance(
    white: map<Kind, nat>, black: map<Kind, nat>,
    whiteValue: int, blackValue: int, advantage: int)

  /** The count of each non-king piece type of one colour. */
  function KindCounts(g: Grid, c: Color): (m: map<Kind, nat>)
    ensures m.Keys == Counted && King !in m
  {
    map[Pawn := Count(g, c, {Pawn}), Knight := Count(g, c, {Knight}), Bishop := Count(g, c, {Bishop}),
        Rook := Count(g, c, {Rook}), Queen := Count(g, c, {Queen})]
  }

  /** `sum(count * values[piece] for piece, count in material.items())`. */
  function WeightedSum(m: map<Kind, nat>): int
    requires Counted <= m.Keys
  {
    m[Pawn] * 1 + m[Knight] * 3 + m[Bishop] * 3 + m[Rook] * 5 + m[Queen] * 9
  }

  /**
   * _calculate_material_balance: the non-king pieces of each colour by type, their values
   * weighted 1/3/3/5/9, and white's value minus black's. The value is each side's material
   * summed square by square.
   */
  method CalculateMaterialBalance(board: Board) returns (b: MaterialBalance)
    ensures b.white == KindCounts(board.grid, White) && b.black == KindCounts(board.grid, Black)
    ensures b.whiteValue == Material(board.grid, White) && b.blackValue == Material(board.grid, Black)
    ensures b.advantage == b.whiteValue - b.blackValue
  {
    ghost var g := board.grid;
    var white: map<Kind, nat> := map[Pawn := 0, Knight := 0, Bishop := 0, Rook := 0, Queen := 0];
    var black: map<Kind, nat> := map[Pawn := 0, Knight := 0, Bishop := 0, Rook := 0, Queen := 0];
    assert white == CountsAt(g, White, 0, 0) && black == CountsAt(g, Black, 0, 0);
    for row := 0 to 8
      invariant row < 8 ==> white == CountsAt(g, White, row, 0) && black == CountsAt(g, Black, row, 0)
      invariant row == 8 ==> white == KindCounts(g, White) && black == KindCounts(g, Black)
    {
      white, black := CountRowMaterial(board, row, white, black);
      CountsNextRow(g, White, row);
      CountsNextRow(g, Black, row);
    }
    assert white == KindCounts(g, White) && black == KindCounts(g, Black);
    MaterialByKind(g, White);
    MaterialByKind(g, Black);
    var whiteValue := WeightedSum(white);
    var blackValue := WeightedSum(black);
    b := MaterialBalance(white, black, whiteValue, blackValue, whiteValue - blackValue);
  }

  /** The counts of each non-king type of colour c in rows before `row` and in row `row` before `col`. */
  function CountsAt(g: Grid, c: Color, row: int, col: int): (m: map<Kind, nat>)
    requires 0 <= row < 8 && 0 <= col <= 8
    ensures m.Keys == Counted
  {
    map[Pawn := CountAt(g, c, Pawn, row, col), Knight := CountAt(g, c, Knight, row, col),
        Bishop := CountAt(g, c, Bishop, row, col), Rook := CountAt(g, c, Rook, row, col),
        Queen := CountAt(g, c, Queen, row, col)]
  }

  /** The pieces of colour c and type k in rows before `row` and in row `row` before `col`. */
  function CountAt(g: Grid, c: Color, k: Kind, row: int, col: int): nat
    requires 0 <= row < 8 && 0 <= col <= 8
  {
    CountRows(g, c, {k}, row) + CountInRow(g, c, {k}, row, col)
  }

  /** A non-king piece of colour c on the next square adds one to the count of its type. */
  lemma CountsStepHit(g: Grid, c: Color, row: int, col: int, k: Kind)
    requires 0 <= row < 8 && 0 <= col < 8
    requires g[row][col].Some? && g[row][col].value.color == c && g[row][col].value.kind == k && k in Counted
    ensures CountsAt(g, c, row, col + 1) == CountsAt(g, c, row, col)[k := CountsAt(g, c, row, col)[k] + 1]
  {
  }

  /** Any other square leaves the counts of colour c as they are. */
  lemma CountsStepMiss(g: Grid, c: Color, row: int, col: int)
    requires 0 <= row < 8 && 0 <= col < 8
    requires !(g[row][col].Some? && g[row][col].value.color == c && g[row][col].value.kind in Counted)
    ensures CountsAt(g, c, row, col + 1) == CountsAt(g, c, row, col)
  {
  }

  /** The end of a row is the start of the next one (or the whole board after the last row). */
  lemma CountsNextRow(g: Grid, c: Color, row: int)
    requires 0 <= row < 8
    ensures row < 7 ==> CountsAt(g, c, row, 8) == CountsAt(g, c, row + 1, 0)
    ensures row == 7 ==> CountsAt(g, c, row, 8) == KindCounts(g, c)
  {
  }

  /** The inner loop of _calculate_material_balance over one row. */
  method CountRowMaterial(board: Board, row: int, white0: map<Kind, nat>, black0: map<Kind, nat>)
    returns (white: map<Kind, nat>, black: map<Kind, nat>)
    requires 0 <= row < 8
    requires white0 == CountsAt(board.grid, White, row, 0) && black0 == CountsAt(board.grid, Black, row, 0)
    ensures white == CountsAt(board.grid, White, row, 8) && black == CountsAt(board.grid, Black, row, 8)
  {
    white, black := white0, black0;
    for col := 0 to 8
      invariant white == CountsAt(board.grid, White, row, col) && black == CountsAt(board.grid, Black, row, col)
    {
      white, black := CountSquareMaterial(board, row, col, white, black);
    }
  }

  /** One square of the counting loop: a non-king piece adds one to its colour's count of its type. */
  method CountSquareMaterial(board: Board, row: int, col: int, white0: map<Kind, nat>, black0: map<Kind, nat>)
    returns (white: map<Kind, nat>, black: map<Kind, nat>)
    requires 0 <= row < 8 && 0 <= col < 8
    requires white0 == CountsAt(board.grid, White, row, col) && black0 == CountsAt(board.grid, Black, row, col)
    ensures white == CountsAt(board.grid, White, row, col + 1) && black == CountsAt(board.grid, Black, row, col + 1)
  {
    ghost var g := board.grid;
    white, black := white0, black0;
    var piece := board.GetPieceAt(row, col);
    if piece.Some? && piece.value.kind != King {
      var k := piece.value.kind;
      assert k in Counted;
      if piece.value.color == White {
        CountsStepHit(g, White, row, col, k);
        CountsStepMiss(g, Black, row, col);
        white := white[k := white[k] + 1];
      } else {
        CountsStepMiss(g, White, row, col);
        CountsStepHit(g, Black, row, col, k);
        black := black[k := black[k] + 1];
      }
    } else {
      CountsStepMiss(g, White, row, col);
      CountsStepMiss(g, Black, row, col);
    }
  }

  // ---------------------------------------------------------------- pawn structure

  datatype PawnStructure = PawnStructure(whiteDoubled: nat, blackDoubled: nat, whiteIsolated: nat, blackIsolated: nat)

  /** The number of pawns of colour c on each of the eight files. */
  function PawnFiles(g: Grid, c: Color): (files: seq<nat>)
    ensures |files| == 8
  {
    seq(8, f requires 0 <= f < 8 => CountInFile(g, c, {Pawn}, f, 8))
  }

  predicate IsDoubled(files: seq<nat>, f: int)
    requires |files| == 8 && 0 <= f < 8
  {
    files[f] > 1
  }

  /** The file has pawns and neither neighbouring file on the board has any. */
  predicate IsIsolated(files: seq<nat>, f: int)
    requires |files| == 8 && 0 <= f < 8
  {
    files[f] > 0 && !(f > 0 && files[f - 1] > 0) && !(f < 7 && files[f + 1] > 0)
  }

  /** The doubled files among files 0..n-1. */
  function DoubledBefore(files: seq<nat>, n: int): nat
    requires |files| == 8 && 0 <= n <= 8
    decreases files, n
  {
    if n == 0 then 0 else DoubledBefore(files, n - 1) + One(IsDoubled(files, n - 1))
  }

  /** The isolated files among files 0..n-1. */
  function IsolatedBefore(files: seq<nat>, n: int): nat
    requires |files| == 8 && 0 <= n <= 8
    decreases files, n
  {
    if n == 0 then 0 else IsolatedBefore(files, n - 1) + One(IsIsolated(files, n - 1))
  }

  function DoubledSet(files: seq<nat>, n: int): set<int>
    requires |files| == 8 && 0 <= n <= 8
  {
    set f | 0 <= f < n && IsDoubled(files, f)
  }

  function IsolatedSet(files: seq<nat>, n: int): set<int>
    requires |files| == 8 && 0 <= n <= 8
  {
    set f | 0 <= f < n && IsIsolated(files, f)
  }

  /** Adding one more file to a set of smaller files adds one to its size exactly when the file qualifies. */
  lemma AddFile(a: set<int>, n: int, b: set<int>, q: bool)
    requires forall f | f in a :: f < n
    requires b == a + (if q then {n} else {})
    ensures |b| == |a| + One(q)
  {
    if q {
      assert n !in a;
    } else {
      assert b == a;
    }
  }

  /** The doubled-file count counted one by one is the size of the set of doubled files. */
  lemma {:induction false} DoubledIsSetSize(files: seq<nat>, n: int)
    requires |files| == 8 && 0 <= n <= 8
    ensures DoubledBefore(files, n) == |DoubledSet(files, n)|
    decreases n
  {
    if n > 0 {
      DoubledIsSetSize(files, n - 1);
      assert DoubledSet(files, n) == DoubledSet(files, n - 1) + (if IsDoubled(files, n - 1) then {n - 1} else {});
      AddFile(DoubledSet(files, n - 1), n - 1, DoubledSet(files, n), IsDoubled(files, n - 1));
    }
  }

  /** The isolated-file count counted one by one is the size of the set of isolated files. */
  lemma {:induction false} IsolatedIsSetSize(files: seq<nat>, n: int)
    requires |files| == 8 && 0 <= n <= 8
    ensures IsolatedBefore(files, n) == |IsolatedSet(files, n)|
    decreases n
  {
    if n > 0 {
      IsolatedIsSetSize(files, n - 1);
      assert IsolatedSet(files, n) == IsolatedSet(files, n - 1) + (if IsIsolated(files, n - 1) then {n - 1} else {});
      AddFile(IsolatedSet(files, n - 1), n - 1, IsolatedSet(files, n), IsIsolated(files, n - 1));
    }
  }

  function PawnStructureOf(g: Grid): PawnStructure
  {
    PawnStructure(DoubledBefore(PawnFiles(g, White), 8), DoubledBefore(PawnFiles(g, Black), 8),
                  IsolatedBefore(PawnFiles(g, White), 8), IsolatedBefore(PawnFiles(g, Black), 8))
  }

  /**
   * _evaluate_pawn_structure: per colour, the number of files holding more than one of its
   * pawns, and the number of files holding its pawns with no such pawn on a neighbouring file.
   */
  method EvaluatePawnStructure(board: Board) returns (p: PawnStructure)
    ensures p == PawnStructureOf(board.grid)
    ensures p.whiteDoubled == |DoubledSet(PawnFiles(board.grid, White), 8)|
    ensures p.whiteIsolated == |IsolatedSet(PawnFiles(board.grid, White), 8)|
    ensures p.blackDoubled == |DoubledSet(PawnFiles(board.grid, Black), 8)|
    ensures p.blackIsolated == |IsolatedSet(PawnFiles(board.grid, Black), 8)|
  {
    var whiteFiles, blackFiles := CountPawnFiles(board);
    var whiteIsolated, blackIsolated := CountIsolated(whiteFiles, blackFiles);
    p := PawnStructure(DoubledBefore(whiteFiles, 8), DoubledBefore(blackFiles, 8), whiteIsolated, blackIsolated);
    DoubledIsSetSize(whiteFiles, 8);
    DoubledIsSetSize(blackFiles, 8);
    IsolatedIsSetSize(whiteFiles, 8);
    IsolatedIsSetSize(blackFiles, 8);
  }

  /** The double loop of _evaluate_pawn_structure that fills the two per-file pawn counts. */
  method CountPawnFiles(board: Board) returns (whiteFiles: seq<nat>, blackFiles: seq<nat>)
    ensures whiteFiles == PawnFiles(board.grid, White) && blackFiles == PawnFiles(board.grid, Black)
  {
    ghost var g := board.grid;
    whiteFiles := seq(8, _ => 0);
    blackFiles := seq(8, _ => 0);
    for row := 0 to 8
      invariant |whiteFiles| == 8 && |blackFiles| == 8
      invariant forall f | 0 <= f < 8 :: whiteFiles[f] == CountInFile(g, White, {Pawn}, f, row)
      invariant forall f | 0 <= f < 8 :: blackFiles[f] == CountInFile(g, Black, {Pawn}, f, row)
    {
      for col := 0 to 8
        invariant |whiteFiles| == 8 && |blackFiles| == 8
        invariant forall f | 0 <= f < 8 ::
          whiteFiles[f] == CountInFile(g, White, {Pawn}, f, row) + (if f < col then One(IsOf(g[row][f], White, {Pawn})) else 0)
        invariant forall f | 0 <= f < 8 ::
          blackFiles[f] == CountInFile(g, Black, {Pawn}, f, row) + (if f < col then One(IsOf(g[row][f], Black, {Pawn})) else 0)
      {
        var piece := board.GetPieceAt(row, col);
        if piece.Some? && piece.value.kind == Pawn {
          if piece.value.color == White {
            whiteFiles := whiteFiles[col := whiteFiles[col] + 1];
          } else {
            blackFiles := blackFiles[col := blackFiles[col] + 1];
          }
        }
      }
    }
  }

  /** The isolation loop of _evaluate_pawn_structure over the eight files. */
  method CountIsolated(whiteFiles: seq<nat>, blackFiles: seq<nat>) returns (whiteIsolated: nat, blackIsolated: nat)
    requires |whiteFiles| == 8 && |blackFiles| == 8
    ensures whiteIsolated == IsolatedBefore(whiteFiles, 8) && blackIsolated == IsolatedBefore(blackFiles, 8)
  {
    whiteIsolated, blackIsolated := 0, 0;
    for col := 0 to 8
      invariant whiteIsolated == IsolatedBefore(whiteFiles, col) && blackIsolated == IsolatedBefore(blackFiles, col)
    {
      if whiteFiles[col] > 0 {
        var isIsolated := true;
        if col > 0 && whiteFiles[col - 1] > 0 {
          isIsolated := false;
        }
        if col < 7 && whiteFiles[col + 1] > 0 {
          isIsolated := false;
        }
        if isIsolated {
          whiteIsolated := whiteIsolated + 1;
        }
      }
      if blackFiles[col] > 0 {
        var isIsolated := true;
        if col > 0 && blackFiles[col - 1] > 0 {
          isIsolated := false;
        }
        if col < 7 && blackFiles[col + 1] > 0 {
          isIsolated := false;
        }
        if isIsolated {
          blackIsolated := blackIsolated + 1;
        }
      }
    }
  }

  // ---------------------------------------------------------------- endgame

  const Majors: set<Kind> := {Queen, Rook}
  const Minors: set<Kind> := {Bishop, Knight}

  /** The three endgame conditions of _is_endgame, as the source combines them. */
  predicate EndgameOf(g: Grid)
  {
    var whiteMajor := Count(g, White, Majors);
    var blackMajor := Count(g, Black, Majors);
    var whiteMinor := Count(g, White, Minors);
    var blackMinor := Count(g, Black, Minors);
    var noQueens := Count(g, White, {Queen}) + Count(g, Black, {Queen}) == 0;
    var fewMajorPieces := whiteMajor <= 1 && blackMajor <= 1;
    var queenVsMinor :=
      (whiteMajor == 1 && whiteMinor == 0 && blackMajor == 0 && blackMinor <= 1) ||
      (blackMajor == 1 && blackMinor == 0 && whiteMajor == 0 && whiteMinor <= 1);
    noQueens || fewMajorPieces || queenVsMinor
  }

  /** The third condition adds nothing: a position is an endgame iff it has no queen or neither side has two major pieces. */
  lemma EndgameSimplified(g: Grid)
    ensures EndgameOf(g) <==>
      Count(g, White, {Queen}) + Count(g, Black, {Queen}) == 0 ||
      (Count(g, White, Majors) <= 1 && Count(g, Black, Majors) <= 1)
  {
  }

  /** A white queen and a white rook are two white majors with a queen on the board: not an endgame. */
  lemma QueenAndRookNotEndgame(g: Grid)
    requires Count(g, White, {Queen}) >= 1 && Count(g, White, {Rook}) >= 1
    ensures !EndgameOf(g)
  {
    CountUnion(g, White, {Queen}, {Rook});
    assert {Queen} + {Rook} == Majors;
  }

  /** _is_endgame: the counting loop, then the any-queen scan, then the conditions combined. */
  method IsEndgame(board: Board) returns (endgame: bool)
    ensures endgame == EndgameOf(board.grid)
  {
    ghost var g := board.grid;
    var whiteMajor, blackMajor, whiteMinor, blackMinor := 0, 0, 0, 0;
    for row := 0 to 8
      invariant whiteMajor == CountRows(g, White, Majors, row) && blackMajor == CountRows(g, Black, Majors, row)
      invariant whiteMinor == CountRows(g, White, Minors, row) && blackMinor == CountRows(g, Black, Minors, row)
    {
      for col := 0 to 8
        invariant whiteMajor == CountRows(g, White, Majors, row) + CountInRow(g, White, Majors, row, col)
        invariant blackMajor == CountRows(g, Black, Majors, row) + CountInRow(g, Black, Majors, row, col)
        invariant whiteMinor == CountRows(g, White, Minors, row) + CountInRow(g, White, Minors, row, col)
        invariant blackMinor == CountRows(g, Black, Minors, row) + CountInRow(g, Black, Minors, row, col)
      {
        var piece := board.GetPieceAt(row, col);
        if piece.Some? {
          if piece.value.kind == Queen || piece.value.kind == Rook {
            if piece.value.color == White {
              whiteMajor := whiteMajor + 1;
            } else {
              blackMajor := blackMajor + 1;
            }
          } else if piece.value.kind == Bishop || piece.value.kind == Knight {
            if piece.value.color == White {
              whiteMinor := whiteMinor + 1;
            } else {
              blackMinor := blackMinor + 1;
            }
          }
        }
      }
    }
    var anyQueen := AnyQueen(board);
    var fewMajorPieces := whiteMajor <= 1 && blackMajor <= 1;
    var queenVsMinor :=
      (whiteMajor == 1 && whiteMinor == 0 && blackMajor == 0 && blackMinor <= 1) ||
      (blackMajor == 1 && blackMinor == 0 && whiteMajor == 0 && whiteMinor <= 1);
    endgame := !anyQueen || fewMajorPieces || queenVsMinor;
  }

  /** The `any(...)` scan of _is_endgame: some square holds a queen of either colour. */
  method AnyQueen(board: Board) returns (found: bool)
    ensures found <==> Count(board.grid, White, {Queen}) + Count(board.grid, Black, {Queen}) > 0
  {
    ghost var g := board.grid;
    found := false;
    for row := 0 to 8
      invariant found <==> CountRows(g, White, {Queen}, row) + CountRows(g, Black, {Queen}, row) > 0
    {
      for col := 0 to 8
        invariant found <==>
          CountRows(g, White, {Queen}, row) + CountInRow(g, White, {Queen}, row, col) +
          CountRows(g, Black, {Queen}, row) + CountInRow(g, Black, {Queen}, row, col) > 0
      {
        var piece := board.GetPieceAt(row, col);
        if piece.Some? && piece.value.kind == Queen {
          found := true;
        }
      }
    }
  }

  // ---------------------------------------------------------------- piece activity

  datatype Activity = Activity(whiteMobility: nat, blackMobility: nat, mobilityAdvantage: int)

  /**
   * _calculate_piece_activity: the number of moves the full generator lists for each side,
   * found by setting the turn to that side, and the turn put back as it was.
   */
  method CalculatePieceActivity(board: Board) returns (a: Activity)
    requires board.Valid()
    modifies board
    ensures board.State() == old(board.State())
    ensures a.whiteMobility == |AllMoves(old(board.State()).(whiteToMove := true))|
    ensures a.blackMobility == |AllMoves(old(board.State()).(whiteToMove := false))|
    ensures a.mobilityAdvantage == a.whiteMobility - a.blackMobility
  {
    var originalTurn := board.whiteToMove;
    board.whiteToMove := true;
    var whiteMoves := board.GetValidMoves();
    board.whiteToMove := false;
    var blackMoves := board.GetValidMoves();
    board.whiteToMove := originalTurn;
    a := Activity(|whiteMoves|, |blackMoves|, |whiteMoves| - |blackMoves|);
  }

  // ---------------------------------------------------------------- player statistics

  /** The fields of one move analysis that the statistics read. */
  datatype MoveAnalysis = MoveAnalysis(
    moveNumber: int, move: string, player: string,
    mistakeType: Option<MistakeType>, mistakeDescription: Option<string>,
    isBestMove: bool, bestMove: string, bestMoveEval: real, evalLoss: real,
    positionSnapshot: string)

  /** The dictionary a top mistake is reported as. */
  datatype FormattedMistake = FormattedMistake(
    moveNumber: int, move: string, kind: Option<MistakeType>, evalLoss: real,
    bestMove: string, position: string, description: Option<string>)

  /**
   * The counting part of the player statistics. A player without moves gets the fixed record
   * NoMoves: accuracy 0, no top mistakes, an empty list under 'blunders', zero best moves,
   * missed wins and inaccuracies, and no 'move_count' entry. Otherwise 'blunders' is a count.
   */
  datatype PlayerStats =
    | NoMoves
    | Played(mistakes: seq<FormattedMistake>, blunders: nat, bestMoves: nat, missedWins: nat,
             inaccuracies: nat, moveCount: nat)

  /** A list comprehension `[m for m in s if p(m)]`. */
  function Filter<T(!new)>(s: seq<T>, p: T -> bool): (r: seq<T>)
    ensures |r| <= |s|
    ensures forall i | 0 <= i < |r| :: p(r[i]) && r[i] in s
    ensures forall i | 0 <= i < |s| :: p(s[i]) ==> s[i] in r
    decreases |s|
  {
    if |s| == 0 then []
    else
      var rest := Filter(s[1..], p);
      assert s == [s[0]] + s[1..];
      if p(s[0]) then [s[0]] + rest else rest
  }

  /** The comprehension keeps every passing element as often as s holds it, and nothing else. */
  lemma {:induction false} FilterMultiset<T(!new)>(s: seq<T>, p: T -> bool)
    ensures forall x :: multiset(Filter(s, p))[x] == if p(x) then multiset(s)[x] else 0
    decreases |s|
  {
    if |s| > 0 {
      FilterMultiset(s[1..], p);
      assert s == [s[0]] + s[1..];
      assert multiset(s) == multiset{s[0]} + multiset(s[1..]);
      var rest := Filter(s[1..], p);
      if p(s[0]) {
        assert multiset(Filter(s, p)) == multiset{s[0]} + multiset(rest);
      } else {
        assert Filter(s, p) == rest;
      }
    }
  }

  /** The comprehension distributes over concatenation, so the kept elements stay in their order. */
  lemma {:induction false} FilterAppend<T(!new)>(a: seq<T>, b: seq<T>, p: T -> bool)
    ensures Filter(a + b, p) == Filter(a, p) + Filter(b, p)
    decreases |a|
  {
    if |a| > 0 {
      var ab := a + b;
      assert ab[0] == a[0];
      assert ab[1..] == a[1..] + b;
      FilterAppend(a[1..], b, p);
      var fa := Filter(a[1..], p);
      var fab := Filter(a[1..] + b, p);
      assert fab == fa + Filter(b, p);
      if p(a[0]) {
        assert Filter(ab, p) == [a[0]] + fab;
        assert Filter(a, p) == [a[0]] + fa;
      } else {
        assert Filter(ab, p) == fab;
        assert Filter(a, p) == fa;
      }
    } else {
      assert a + b == b;
    }
  }

  /** The number of elements of s that satisfy both p and q, counted one by one. */
  function CountBoth<T>(s: seq<T>, p: T -> bool, q: T -> bool): nat
    decreases |s|
  {
    if |s| == 0 then 0
    else (if p(s[0]) && q(s[0]) then 1 else 0) + CountBoth(s[1..], p, q)
  }

  /** Filtering by p and then by q keeps as many elements as satisfy both. */
  lemma {:induction false} FilterFilterCount<T(!new)>(s: seq<T>, p: T -> bool, q: T -> bool)
    ensures |Filter(Filter(s, p), q)| == CountBoth(s, p, q)
    decreases |s|
  {
    if |s| > 0 {
      FilterFilterCount(s[1..], p, q);
      var rest := Filter(s[1..], p);
      if p(s[0]) {
        assert Filter(s, p) == [s[0]] + rest;
        assert ([s[0]] + rest)[1..] == rest;
      }
    }
  }

  /** Everything passes. */
  predicate Always<T>(x: T)
  {
    true
  }

  /** The player a move belongs to. */
  function ByPlayer(playerColor: string): MoveAnalysis -> bool
  {
    (m: MoveAnalysis) => m.player == playerColor
  }

  /** The moves classified with the given mistake type. */
  function HasType(t: MistakeType): MoveAnalysis -> bool
  {
    (m: MoveAnalysis) => m.mistakeType == Some(t)
  }

  /** The moves that were the engine's best move. */
  predicate IsBest(m: MoveAnalysis)
  {
    m.isBestMove
  }

  /** The winning position that was not converted: best move above 300, loss above 200, another move played. */
  predicate MissedWin(m: MoveAnalysis)
  {
    m.bestMoveEval > 300.0 && m.evalLoss > 200.0 && !m.isBestMove
  }

  /** Sorted by eval_loss, largest first. */
  predicate SortedByLoss(s: seq<MoveAnalysis>)
  {
    forall i, j | 0 <= i < j < |s| :: s[i].evalLoss >= s[j].evalLoss
  }

  /** Inserting after every element with at least the same loss keeps equal losses in their order. */
  function InsertByLoss(m: MoveAnalysis, s: seq<MoveAnalysis>): (r: seq<MoveAnalysis>)
    requires SortedByLoss(s)
    ensures SortedByLoss(r)
    ensures multiset(r) == multiset(s) + multiset{m}
    ensures forall i | 0 <= i < |r| :: r[i] == m || r[i] in s
    decreases |s|
  {
    if |s| == 0 then [m]
    else if s[0].evalLoss >= m.evalLoss then
      var rest := InsertByLoss(m, s[1..]);
      ConsSorted(s, m, rest);
      [s[0]] + rest
    else [m] + s
  }

  /** The head of s, put in front of s's tail with m inserted, keeps the order and the elements. */
  lemma ConsSorted(s: seq<MoveAnalysis>, m: MoveAnalysis, rest: seq<MoveAnalysis>)
    requires |s| > 0 && SortedByLoss(s) && s[0].evalLoss >= m.evalLoss
    requires SortedByLoss(rest) && multiset(rest) == multiset(s[1..]) + multiset{m}
    requires forall i | 0 <= i < |rest| :: rest[i] == m || rest[i] in s[1..]
    ensures SortedByLoss([s[0]] + rest)
    ensures multiset([s[0]] + rest) == multiset(s) + multiset{m}
    ensures forall i | 0 <= i < |rest| + 1 :: ([s[0]] + rest)[i] == m || ([s[0]] + rest)[i] in s
  {
    assert s == [s[0]] + s[1..];
    assert forall i | 0 <= i < |rest| :: s[0].evalLoss >= rest[i].evalLoss;
  }

  /** `sorted(s, key=eval_loss, reverse=True)` as an insertion sort that keeps equal losses in their original order. */
  function SortByLoss(s: seq<MoveAnalysis>): (r: seq<MoveAnalysis>)
    ensures SortedByLoss(r)
    ensures multiset(r) == multiset(s)
    decreases |s|
  {
    if |s| == 0 then []
    else
      assert s == s[..|s| - 1] + [s[|s| - 1]];
      InsertByLoss(s[|s| - 1], SortByLoss(s[..|s| - 1]))
  }

  function Format(m: MoveAnalysis): FormattedMistake
  {
    FormattedMistake(m.moveNumber, m.move, m.mistakeType, m.evalLoss, m.bestMove, m.positionSnapshot, m.mistakeDescription)
  }

  /**
   * `sorted(all, key=eval_loss, reverse=True)[:3]`: min(3, n) entries of all, largest loss first,
   * and every entry left out loses no more than any entry kept.
   */
  function TopLosses(all: seq<MoveAnalysis>): (top3: seq<MoveAnalysis>)
    ensures |top3| == if |all| < 3 then |all| else 3
    ensures SortedByLoss(top3)
    ensures multiset(top3) <= multiset(all)
    ensures forall x, i | 0 <= i < |top3| && multiset(top3)[x] < multiset(all)[x] :: x.evalLoss <= top3[i].evalLoss
  {
    var sorted := SortByLoss(all);
    assert |sorted| == |multiset(sorted)| == |all|;
    var n := if |sorted| < 3 then |sorted| else 3;
    LossPrefixIsTop(sorted, n);
    sorted[..n]
  }

  /** A prefix of a list sorted by loss holds the largest losses and part of the list's elements. */
  lemma LossPrefixIsTop(sorted: seq<MoveAnalysis>, n: nat)
    requires SortedByLoss(sorted) && n <= |sorted|
    ensures SortedByLoss(sorted[..n])
    ensures multiset(sorted[..n]) <= multiset(sorted)
    ensures forall x, i | 0 <= i < n && multiset(sorted[..n])[x] < multiset(sorted)[x] :: x.evalLoss <= sorted[..n][i].evalLoss
  {
    assert sorted == sorted[..n] + sorted[n..];
    assert multiset(sorted) == multiset(sorted[..n]) + multiset(sorted[n..]);
    forall x, i | 0 <= i < n && multiset(sorted[..n])[x] < multiset(sorted)[x]
      ensures x.evalLoss <= sorted[..n][i].evalLoss
    {
      assert x in multiset(sorted[n..]);
      var j :| 0 <= j < |sorted[n..]| && sorted[n..][j] == x;
      assert sorted[n + j] == x;
    }
  }

  /** The entries of s with loss v, in their order in s. */
  function WithLoss(s: seq<MoveAnalysis>, v: real): (r: seq<MoveAnalysis>)
    ensures |r| <= |s|
    decreases |s|
  {
    if |s| == 0 then []
    else (if s[0].evalLoss == v then [s[0]] else []) + WithLoss(s[1..], v)
  }

  lemma {:induction false} WithLossAppend(a: seq<MoveAnalysis>, b: seq<MoveAnalysis>, v: real)
    ensures WithLoss(a + b, v) == WithLoss(a, v) + WithLoss(b, v)
    decreases |a|
  {
    if |a| == 0 {
      assert a + b == b;
    } else {
      var head := if a[0].evalLoss == v then [a[0]] else [];
      assert (a + b)[0] == a[0];
      assert (a + b)[1..] == a[1..] + b;
      assert WithLoss(a + b, v) == head + WithLoss(a[1..] + b, v);
      assert WithLoss(a, v) == head + WithLoss(a[1..], v);
      WithLossAppend(a[1..], b, v);
    }
  }

  /** WithLoss of entries all losing less than v is empty. */
  lemma {:induction false} WithLossBelow(s: seq<MoveAnalysis>, v: real)
    requires forall i | 0 <= i < |s| :: s[i].evalLoss < v
    ensures WithLoss(s, v) == []
    decreases |s|
  {
    if |s| > 0 {
      WithLossBelow(s[1..], v);
    }
  }

  /** Putting one entry in front of two lists that agree on loss v up to a tail keeps them agreeing. */
  lemma ConsWithLoss(h: MoveAnalysis, r: seq<MoveAnalysis>, t: seq<MoveAnalysis>, tail: seq<MoveAnalysis>, v: real)
    requires WithLoss(r, v) == WithLoss(t, v) + tail
    ensures WithLoss([h] + r, v) == WithLoss([h] + t, v) + tail
  {
    assert ([h] + r)[1..] == r;
    assert ([h] + t)[1..] == t;
  }

  /** An entry losing more than the head of a sorted list loses more than all of it. */
  lemma InsertInFrontStable(m: MoveAnalysis, s: seq<MoveAnalysis>, v: real)
    requires SortedByLoss(s) && |s| > 0 && s[0].evalLoss < m.evalLoss
    ensures WithLoss([m] + s, v) == WithLoss(s, v) + (if m.evalLoss == v then [m] else [])
  {
    if m.evalLoss == v {
      WithLossBelow(s, v);
    }
    assert ([m] + s)[1..] == s;
  }

  /** Insertion is stable: m goes after every entry of its own loss. */
  lemma {:induction false} InsertByLossStable(m: MoveAnalysis, s: seq<MoveAnalysis>, v: real)
    requires SortedByLoss(s)
    ensures WithLoss(InsertByLoss(m, s), v) == WithLoss(s, v) + (if m.evalLoss == v then [m] else [])
    decreases |s|
  {
    var own := if m.evalLoss == v then [m] else [];
    if |s| == 0 {
    } else if s[0].evalLoss >= m.evalLoss {
      var rest := InsertByLoss(m, s[1..]);
      InsertByLossStable(m, s[1..], v);
      ConsWithLoss(s[0], rest, s[1..], own, v);
      assert [s[0]] + s[1..] == s;
    } else {
      InsertInFrontStable(m, s, v);
    }
  }

  /** The entries of loss v of init + [last]: those of init, then last when it has loss v. */
  lemma SnocWithLoss(init: seq<MoveAnalysis>, last: MoveAnalysis, v: real)
    ensures WithLoss(init + [last], v) == WithLoss(init, v) + (if last.evalLoss == v then [last] else [])
  {
    WithLossAppend(init, [last], v);
    assert [last][1..] == [];
  }

  /** The sort is stable, as Python's `sorted` is: the entries of each loss keep their order from s. */
  lemma {:induction false} SortByLossStable(s: seq<MoveAnalysis>, v: real)
    ensures WithLoss(SortByLoss(s), v) == WithLoss(s, v)
    decreases |s|
  {
    if |s| > 0 {
      var init, last := s[..|s| - 1], s[|s| - 1];
      assert s == init + [last];
      SortByLossStable(init, v);
      InsertByLossStable(last, SortByLoss(init), v);
      SnocWithLoss(init, last, v);
    }
  }

  /** The formatted entries of TopLosses, one each, in order. */
  function TopMistakes(all: seq<MoveAnalysis>): (top: seq<FormattedMistake>)
    ensures |top| == if |all| < 3 then |all| else 3
    ensures forall i | 0 <= i < |top| :: top[i] == Format(TopLosses(all)[i])
  {
    var top3 := TopLosses(all);
    seq(|top3|, i requires 0 <= i < |top3| => Format(top3[i]))
  }

  /** _calculate_player_stats without the float averages and the IQ estimate. */
  function CalculatePlayerStats(analyses: seq<MoveAnalysis>, playerColor: string): (st: PlayerStats)
  {
    var playerMoves := Filter(analyses, ByPlayer(playerColor));
    if playerMoves == [] then NoMoves
    else
      var blunders := Filter(playerMoves, HasType(Blunder));
      var inaccuracies := Filter(playerMoves, HasType(Inaccuracy));
      var bestMoves := Filter(playerMoves, IsBest);
      var missedWins := Filter(playerMoves, MissedWin);
      Played(TopMistakes(AllMistakes(playerMoves)), |blunders|, |bestMoves|, |missedWins|,
             |inaccuracies|, |playerMoves|)
  }

  /**
   * NoMoves exactly when the player has no analysed move; otherwise each count is the number of
   * the player's moves in that class.
   */
  lemma PlayerStatsShape(analyses: seq<MoveAnalysis>, playerColor: string)
    ensures var st := CalculatePlayerStats(analyses, playerColor);
      var mine := ByPlayer(playerColor);
      (st.NoMoves? <==> CountBoth(analyses, mine, Always) == 0) &&
      (st.Played? ==>
        st.moveCount == CountBoth(analyses, mine, Always) &&
        st.blunders == CountBoth(analyses, mine, HasType(Blunder)) &&
        st.inaccuracies == CountBoth(analyses, mine, HasType(Inaccuracy)) &&
        st.bestMoves == CountBoth(analyses, mine, IsBest) &&
        st.missedWins == CountBoth(analyses, mine, MissedWin))
  {
    var mine := ByPlayer(playerColor);
    var played := Filter(analyses, mine);
    FilterFilterCount(analyses, mine, Always);
    FilterAll(played);
    FilterFilterCount(analyses, mine, HasType(Blunder));
    FilterFilterCount(analyses, mine, HasType(Inaccuracy));
    FilterFilterCount(analyses, mine, IsBest);
    FilterFilterCount(analyses, mine, MissedWin);
  }

  /** `mistakes + blunders + inaccuracies` of the player's moves. */
  function AllMistakes(playerMoves: seq<MoveAnalysis>): seq<MoveAnalysis>
  {
    Filter(playerMoves, HasType(Mistake)) + Filter(playerMoves, HasType(Blunder)) +
    Filter(playerMoves, HasType(Inaccuracy))
  }

  /** A mistake, blunder or inaccuracy. */
  predicate Erroneous(m: MoveAnalysis)
  {
    m.mistakeType in {Some(Mistake), Some(Blunder), Some(Inaccuracy)}
  }

  /** The combined list holds only the player's mistakes, blunders and inaccuracies. */
  lemma AllMistakesOfPlayer(analyses: seq<MoveAnalysis>, playerColor: string)
    ensures forall m | m in AllMistakes(Filter(analyses, ByPlayer(playerColor))) ::
      m in analyses && m.player == playerColor && Erroneous(m)
  {
    var played := Filter(analyses, ByPlayer(playerColor));
    forall m | m in AllMistakes(played)
      ensures m in analyses && m.player == playerColor && Erroneous(m)
    {
      assert m in played;
    }
  }

  /** Formatted entries of a list whose elements all satisfy a property come from such elements. */
  lemma TopMistakesFrom(all: seq<MoveAnalysis>, analyses: seq<MoveAnalysis>, playerColor: string)
    requires forall m | m in all :: m in analyses && m.player == playerColor && Erroneous(m)
    ensures var top := TopMistakes(all);
      |top| <= 3 &&
      forall i | 0 <= i < |top| :: exists m | m in analyses ::
        top[i] == Format(m) && m.player == playerColor && Erroneous(m)
  {
    TopMistakesSorted(all);
  }

  /** The top mistakes are at most three formatted mistakes, blunders or inaccuracies of the player. */
  lemma PlayerTopMistakes(analyses: seq<MoveAnalysis>, playerColor: string)
    ensures var st := CalculatePlayerStats(analyses, playerColor);
      var all := AllMistakes(Filter(analyses, ByPlayer(playerColor)));
      st.Played? ==>
        |st.mistakes| == (if |all| < 3 then |all| else 3) &&
        forall i | 0 <= i < |st.mistakes| :: exists m | m in analyses ::
          st.mistakes[i] == Format(m) && m.player == playerColor && Erroneous(m)
  {
    var all := AllMistakes(Filter(analyses, ByPlayer(playerColor)));
    StatsMistakes(analyses, playerColor);
    AllMistakesOfPlayer(analyses, playerColor);
    TopMistakesFrom(all, analyses, playerColor);
  }

  /** A player with moves is shown the formatted TopLosses of their mistakes, blunders and inaccuracies. */
  lemma PlayerTopLosses(analyses: seq<MoveAnalysis>, playerColor: string)
    ensures var st := CalculatePlayerStats(analyses, playerColor);
      var all := AllMistakes(Filter(analyses, ByPlayer(playerColor)));
      st.Played? ==> forall i | 0 <= i < |st.mistakes| :: st.mistakes[i] == Format(TopLosses(all)[i])
  {
    StatsMistakes(analyses, playerColor);
  }

  /** A player with moves gets the top mistakes of the combined list. */
  lemma StatsMistakes(analyses: seq<MoveAnalysis>, playerColor: string)
    ensures var st := CalculatePlayerStats(analyses, playerColor);
      st.Played? ==> st.mistakes == TopMistakes(AllMistakes(Filter(analyses, ByPlayer(playerColor))))
  {
  }

  /** A comprehension whose test always passes keeps the list. */
  lemma {:induction false} FilterAll<T(!new)>(s: seq<T>)
    ensures Filter(s, Always) == s
    decreases |s|
  {
    if |s| > 0 {
      FilterAll(s[1..]);
      assert s == [s[0]] + s[1..];
    }
  }

  /**
   * The top mistakes are sorted by loss, largest first, come from the list, and are its largest:
   * an element not shown (counting repeats) loses no more than any entry shown.
   */
  lemma TopMistakesSorted(all: seq<MoveAnalysis>)
    ensures var top := TopMistakes(all);
      (forall i, j | 0 <= i < j < |top| :: top[i].evalLoss >= top[j].evalLoss) &&
      (forall i | 0 <= i < |top| :: exists m | m in all :: top[i] == Format(m)) &&
      (forall x, i | 0 <= i < |top| && multiset(TopLosses(all))[x] < multiset(all)[x] :: x.evalLoss <= top[i].evalLoss)
  {
    var top3 := TopLosses(all);
    var top := TopMistakes(all);
    forall i | 0 <= i < |top|
      ensures top[i].evalLoss == top3[i].evalLoss
      ensures exists m | m in all :: top[i] == Format(m)
    {
      assert top[i] == Format(top3[i]);
      assert top3[i] in multiset(top3);
      assert top3[i] in all;
    }
  }

  /** Every counted missed win has a winning best move, a loss above 200 and another move played. */
  lemma MissedWinsCounted(analyses: seq<MoveAnalysis>, playerColor: string)
    ensures var played := Filter(analyses, ByPlayer(playerColor));
      var missed := Filter(played, MissedWin);
      (forall i | 0 <= i < |missed| :: missed[i].bestMoveEval > 300.0 && missed[i].evalLoss > 200.0 && !missed[i].isBestMove) &&
      (played != [] ==> CalculatePlayerStats(analyses, playerColor).missedWins == |missed|)
  {
  }
}
