/**
 * The moves get_valid_moves() lists on a freshly constructed Board (chess_engine/board.py:257-278):
 * two steps for each of the eight white pawns, then two jumps for each white knight, and nothing
 * for the other back-rank pieces, which are all blocked.
 */
module OpeningMoves {
  import opened Wrappers
  import opened Pieces
  import opened Moves
  import opened BoardState
  import opened Attacks
  import opened Generators

  /** A pawn move of the starting position: from row 6 one or two squares straight up. */
  predicate PawnOpening(m: Move)
  {
    IsKindAt(m.pieceMoved, Pawn) && m.startRow == 6 && (m.endRow == 5 || m.endRow == 4) && m.endCol == m.startCol
  }

  /** A knight move of the starting position: from row 7 onto row 5. */
  predicate KnightOpening(m: Move)
  {
    IsKindAt(m.pieceMoved, Knight) && m.startRow == 7 && m.endRow == 5
  }

  /** A state with the starting cells, white to move, no en-passant square, no check and no piece moved. */
  predicate Start(s: State)
  {
    (forall r, c | 0 <= r < 8 && 0 <= c < 8 :: s.grid[r][c] == InitialCell(r, c)) &&
    s.whiteToMove && s.enPassant == None && !s.inCheck && s.moved == {}
  }

  /** A freshly constructed Board is such a state. */
  lemma InitialIsStart()
    ensures Start(Initial())
  {
  }

  /** The white pieces stand on rows 6 and 7 only, so no earlier square adds a move. */
  lemma {:induction false} NothingBeforeRowSix(s: State, r: nat, c: nat)
    requires Start(s)
    requires LoopPoint(r, c) && (r < 6 || (r == 6 && c == 0))
    ensures MovesBefore(s, r, c) == []
    decreases r, c
  {
    if c == 0 {
      if r > 0 {
        NothingBeforeRowSix(s, r - 1, 8);
      }
    } else {
      NothingBeforeRowSix(s, r, c - 1);
      assert !MoverOwns(s, r, c - 1);
    }
  }

  /** The white pawn on (6, c) steps one or two squares forward and has nothing to capture. */
  lemma PawnStepsTwice(s: State, c: int, prior: seq<Move>)
    requires Start(s)
    requires 0 <= c < 8
    ensures var ms := PieceMoves(s, 6, c, prior);
      |ms| == 2 && forall i | 0 <= i < 2 :: PawnOpening(ms[i]) && ms[i].startCol == c
  {
    assert s.grid[5][c] == None && s.grid[4][c] == None;
    assert PawnCapture(s, 6, c, White, -1) == [];
    assert PawnCapture(s, 6, c, White, 1) == [];
  }

  /**
   * After the first c squares of row 6: two pawn moves per pawn, in file order, so that
   * moves 2f and 2f + 1 are those of the pawn on file f.
   */
  lemma {:induction false} PawnRow(s: State, c: nat)
    requires Start(s)
    requires c <= 8
    ensures var ms := MovesBefore(s, 6, c);
      |ms| == 2 * c &&
      forall i | 0 <= i < |ms| :: PawnOpening(ms[i]) && 2 * ms[i].startCol <= i <= 2 * ms[i].startCol + 1
    decreases c
  {
    if c == 0 {
      NothingBeforeRowSix(s, 6, 0);
    } else {
      PawnRow(s, c - 1);
      var acc := MovesBefore(s, 6, c - 1);
      assert MoverOwns(s, 6, c - 1);
      PawnStepsTwice(s, c - 1, acc);
      var ms := MovesBefore(s, 6, c);
      var pm := PieceMoves(s, 6, c - 1, acc);
      assert ms == acc + pm;
      forall i | 0 <= i < |ms|
        ensures PawnOpening(ms[i]) && 2 * ms[i].startCol <= i <= 2 * ms[i].startCol + 1
      {
        if i < |acc| {
          assert ms[i] == acc[i];
        } else {
          assert ms[i] == pm[i - |acc|];
        }
      }
    }
  }

  /** The rooks' four directions are blocked by their own pieces or the edge of the board. */
  lemma RookBlocked(s: State, c: int, prior: seq<Move>)
    requires Start(s)
    requires c == 0 || c == 7
    ensures PieceMoves(s, 7, c, prior) == []
  {
    assert SlideRay(s, 7, c, White, 6, c, -1, 0, 1) == [];
    assert SlideRay(s, 7, c, White, 7, c + 1, 0, 1, 1) == [];
    assert SlideRay(s, 7, c, White, 8, c, 1, 0, 1) == [];
    assert SlideRay(s, 7, c, White, 7, c - 1, 0, -1, 1) == [];
    assert SlideRays(s, 7, c, White, RookDirections, 4) == [];
    assert SlideRays(s, 7, c, White, RookDirections, 3) == [];
    assert SlideRays(s, 7, c, White, RookDirections, 2) == [];
    assert SlideRays(s, 7, c, White, RookDirections, 1) == [];
    assert SlideRays(s, 7, c, White, RookDirections, 0) == [];
  }

  /** Each knight has the two jumps onto row 5; the third jump up lands on one of its own pawns. */
  lemma KnightJumpsTwice(s: State, c: int, prior: seq<Move>)
    requires Start(s)
    requires c == 1 || c == 6
    ensures var ms := PieceMoves(s, 7, c, prior);
      |ms| == 2 && forall i | 0 <= i < 2 :: KnightOpening(ms[i])
  {
    assert JumpTargets(s, 7, c, White, KnightOffsets, 8) == [];
    assert JumpTargets(s, 7, c, White, KnightOffsets, 7) == [];
    assert JumpTargets(s, 7, c, White, KnightOffsets, 6) == [];
    assert JumpTargets(s, 7, c, White, KnightOffsets, 5) == [];
    assert JumpTargets(s, 7, c, White, KnightOffsets, 4) == [];
    assert JumpTargets(s, 7, c, White, KnightOffsets, 3) == [];
    assert JumpTargets(s, 7, c, White, KnightOffsets, 2) == [];
    assert s.grid[5][c - 1] == None && s.grid[5][c + 1] == None;
    var left, right := Mk(s, 7, c, 5, c - 1), Mk(s, 7, c, 5, c + 1);
    assert JumpTargets(s, 7, c, White, KnightOffsets, 1) == [right];
    assert JumpTargets(s, 7, c, White, KnightOffsets, 0) == [left, right];
  }

  /** Every diagonal of a back-rank square is blocked by an own pawn or the edge of the board. */
  lemma DiagonalsBlocked(s: State, c: int)
    requires Start(s)
    requires 0 <= c < 8
    ensures SplitRays(s, 7, c, White, BishopDirections, 0) == ([], [])
  {
    assert SplitRay(s, 7, c, White, 6, c - 1, -1, -1, 1) == ([], []);
    assert SplitRay(s, 7, c, White, 6, c + 1, -1, 1, 1) == ([], []);
    assert SplitRay(s, 7, c, White, 8, c + 1, 1, 1, 1) == ([], []);
    assert SplitRay(s, 7, c, White, 8, c - 1, 1, -1, 1) == ([], []);
    assert SplitRays(s, 7, c, White, BishopDirections, 4) == ([], []);
    assert SplitRays(s, 7, c, White, BishopDirections, 3) == ([], []);
    assert SplitRays(s, 7, c, White, BishopDirections, 2) == ([], []);
    assert SplitRays(s, 7, c, White, BishopDirections, 1) == ([], []);
  }

  /** Every straight line of a back-rank square between two pieces is blocked. */
  lemma StraightsBlocked(s: State, c: int)
    requires Start(s)
    requires 0 < c < 7
    ensures SplitRays(s, 7, c, White, RookDirections, 0) == ([], [])
  {
    assert SplitRay(s, 7, c, White, 6, c, -1, 0, 1) == ([], []);
    assert SplitRay(s, 7, c, White, 7, c + 1, 0, 1, 1) == ([], []);
    assert SplitRay(s, 7, c, White, 8, c, 1, 0, 1) == ([], []);
    assert SplitRay(s, 7, c, White, 7, c - 1, 0, -1, 1) == ([], []);
    assert SplitRays(s, 7, c, White, RookDirections, 4) == ([], []);
    assert SplitRays(s, 7, c, White, RookDirections, 3) == ([], []);
    assert SplitRays(s, 7, c, White, RookDirections, 2) == ([], []);
    assert SplitRays(s, 7, c, White, RookDirections, 1) == ([], []);
  }

  /** The bishops have both of their upward diagonals blocked by their own pawns. */
  lemma BishopBlocked(s: State, c: int, prior: seq<Move>)
    requires Start(s)
    requires c == 2 || c == 5
    ensures PieceMoves(s, 7, c, prior) == []
  {
    DiagonalsBlocked(s, c);
    assert IsKindAt(s.grid[7][c], Bishop);
  }

  /** A queen whose every line is blocked has no move, whatever the list already holds. */
  lemma QueenWithoutLines(s: State, r: int, c: int, prior: seq<Move>)
    requires InBounds(r, c) && s.grid[r][c].Some? && s.grid[r][c].value.kind == Queen
    requires SplitRays(s, r, c, s.grid[r][c].value.color, RookDirections, 0) == ([], [])
    requires SplitRays(s, r, c, s.grid[r][c].value.color, BishopDirections, 0) == ([], [])
    ensures PieceMoves(s, r, c, prior) == []
  {
  }

  /** The queen has every line blocked, straight and diagonal. */
  lemma QueenBlocked(s: State, prior: seq<Move>)
    requires Start(s)
    ensures PieceMoves(s, 7, 3, prior) == []
  {
    DiagonalsBlocked(s, 3);
    StraightsBlocked(s, 3);
    QueenWithoutLines(s, 7, 3, prior);
  }

  /** The king's neighbours hold its own pieces, and both castling paths are occupied. */
  lemma KingBlocked(s: State, prior: seq<Move>)
    requires Start(s)
    ensures PieceMoves(s, 7, 4, prior) == []
  {
    assert KingSteps(s, 7, 4, White, 3, 0) == [];
    assert KingSteps(s, 7, 4, White, 2, 3) == [];
    assert KingSteps(s, 7, 4, White, 2, 2) == [];
    assert KingSteps(s, 7, 4, White, 2, 1) == [];
    assert KingSteps(s, 7, 4, White, 2, 0) == [];
    assert KingSteps(s, 7, 4, White, 1, 3) == [];
    assert KingSteps(s, 7, 4, White, 1, 2) == [];
    assert KingSteps(s, 7, 4, White, 1, 1) == [];
    assert KingSteps(s, 7, 4, White, 1, 0) == [];
    assert KingSteps(s, 7, 4, White, 0, 3) == [];
    assert KingSteps(s, 7, 4, White, 0, 2) == [];
    assert KingSteps(s, 7, 4, White, 0, 1) == [];
    assert KingSteps(s, 7, 4, White, 0, 0) == [];
    assert KingsideCastle(s, 7, 4, White) == [];
    assert QueensideCastle(s, 7, 4, White) == [];
  }

  /** What the square (7, c) adds to the list: two knight jumps on b1 and g1, nothing elsewhere. */
  lemma BackRankSquare(s: State, c: int, prior: seq<Move>)
    requires Start(s)
    requires 0 <= c < 8
    ensures var ms := PieceMoves(s, 7, c, prior);
      |ms| == (if c == 1 || c == 6 then 2 else 0) && forall i | 0 <= i < |ms| :: KnightOpening(ms[i])
  {
    if c == 0 || c == 7 {
      RookBlocked(s, c, prior);
    } else if c == 1 || c == 6 {
      KnightJumpsTwice(s, c, prior);
    } else if c == 4 {
      KingBlocked(s, prior);
    } else if c == 3 {
      QueenBlocked(s, prior);
    } else {
      BishopBlocked(s, c, prior);
    }
  }

  /** The knight jumps among the first c squares of row 7. */
  function KnightJumpsBefore(c: int): nat
  {
    (if c > 1 then 2 else 0) + (if c > 6 then 2 else 0)
  }

  /** After the first c squares of row 7: the sixteen pawn moves, then the knight jumps so far. */
  lemma {:induction false} BackRankRow(s: State, c: nat)
    requires Start(s)
    requires c <= 8
    ensures var ms := MovesBefore(s, 7, c);
      |ms| == 16 + KnightJumpsBefore(c) &&
      (forall i | 0 <= i < 16 :: PawnOpening(ms[i])) &&
      (forall i | 16 <= i < |ms| :: KnightOpening(ms[i]))
    decreases c
  {
    if c == 0 {
      PawnRow(s, 8);
    } else {
      BackRankRow(s, c - 1);
      var acc := MovesBefore(s, 7, c - 1);
      assert MoverOwns(s, 7, c - 1);
      BackRankSquare(s, c - 1, acc);
    }
  }

  /** On a state with the starting cells the full generator lists the 16 pawn moves, then the 4 knight moves. */
  lemma StartMoveCount(s: State)
    requires Start(s)
    ensures |AllMoves(s)| == 20
    ensures forall i | 0 <= i < 16 :: PawnOpening(AllMoves(s)[i])
    ensures forall i | 16 <= i < 20 :: KnightOpening(AllMoves(s)[i])
  {
    BackRankRow(s, 8);
  }

  /** From the starting position get_valid_moves() lists exactly 20 moves: 16 pawn moves, then 4 knight moves. */
  lemma InitialMoveCount()
    ensures |AllMoves(Initial())| == 20
    ensures forall i | 0 <= i < 16 :: PawnOpening(AllMoves(Initial())[i])
    ensures forall i | 16 <= i < 20 :: KnightOpening(AllMoves(Initial())[i])
  {
    InitialIsStart();
    StartMoveCount(Initial());
  }
}
