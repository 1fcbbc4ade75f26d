/**
 * The check filters and terminal tests of the Board: get_valid_moves(pos)
 * (chess_engine/board.py:168-254), is_valid_move (chess_engine/board.py:86-166),
 * is_checkmate (chess_engine/board.py:886-966) and is_stalemate (chess_engine/board.py:968-980).
 */
module Legality {
  import opened Wrappers
  import opened Pieces
  import opened Moves
  import opened BoardState
  import opened Attacks
  import opened Generators

  /**
   * The test the filter of get_valid_moves(pos) and the escape test of is_checkmate apply:
   * make the move temporarily, flip the turn, and ask is_in_check. With the turn flipped,
   * is_in_check looks at the king of the side that did NOT move.
   */
  predicate FilterKeeps(s: State, m: Move)
  {
    MoveInBounds(m) && !InCheck(Flip(TempMake(s, m)))
  }

  /** The moves of a list that the filter keeps, in order. */
  function Kept(s: State, ms: seq<Move>): (kept: seq<Move>)
    ensures |kept| <= |ms|
  {
    if ms == [] then []
    else (if FilterKeeps(s, ms[0]) then [ms[0]] else []) + Kept(s, ms[1..])
  }

  lemma {:induction false} KeptExactly(s: State, ms: seq<Move>, m: Move)
    ensures m in Kept(s, ms) <==> m in ms && FilterKeeps(s, m)
  {
    if ms != [] {
      KeptExactly(s, ms[1..], m);
      assert ms == [ms[0]] + ms[1..];
    }
  }

  /** The filter keeps nothing exactly when it rejects every move of the list. */
  lemma KeptNone(s: State, ms: seq<Move>)
    ensures Kept(s, ms) == [] <==> forall i | 0 <= i < |ms| :: !FilterKeeps(s, ms[i])
  {
    if Kept(s, ms) != [] {
      KeptExactly(s, ms, Kept(s, ms)[0]);
    }
    forall i | 0 <= i < |ms| && FilterKeeps(s, ms[i])
      ensures Kept(s, ms) != []
    {
      KeptExactly(s, ms, ms[i]);
    }
  }

  /** get_valid_moves(pos=(r, c)): the piece's own generator on a fresh list, then the filter. */
  function ValidMovesAt(s: State, r: int, c: int): seq<Move>
    requires InBounds(r, c)
  {
    if !MoverOwns(s, r, c) then []
    else Kept(s, PieceMoves(s, r, c, []))
  }

  /** A move is returned by get_valid_moves(pos) exactly when its piece's generator yields it and the filter keeps it. */
  lemma ValidMovesAtExactly(s: State, r: int, c: int, m: Move)
    requires InBounds(r, c)
    ensures m in ValidMovesAt(s, r, c) <==>
      MoverOwns(s, r, c) && m in PieceMoves(s, r, c, []) && FilterKeeps(s, m)
    ensures m in ValidMovesAt(s, r, c) ==> Generated(s, r, c, m)
  {
    if MoverOwns(s, r, c) {
      PieceMovesGenerated(s, r, c, []);
      KeptExactly(s, PieceMoves(s, r, c, []), m);
    }
  }

  /** The loop of is_valid_move: some valid move of the start piece has the same four coordinates. */
  predicate ListedIn(vs: seq<Move>, m: Move)
  {
    exists i | 0 <= i < |vs| :: SameSquares(vs[i], m)
  }

  /** is_valid_move, its five early exits in order. */
  function IsValidMove(s: State, m: Move): bool
  {
    if !MoveInBounds(m) then false
    else if s.grid[m.startRow][m.startCol].None? then false
    else if s.grid[m.startRow][m.startCol].value.color != Mover(s) then false
    else if s.grid[m.endRow][m.endCol].Some? &&
            s.grid[m.endRow][m.endCol].value.color == s.grid[m.startRow][m.startCol].value.color then false
    else if !ListedIn(ValidMovesAt(s, m.startRow, m.startCol), m) then false
    else !InCheck(TempMake(s, m))
  }

  /**
   * is_valid_move accepts a move exactly when it is on the board, moves a piece of the side to
   * move onto a square without a piece of the same colour, matches (by coordinates) a
   * generated move that the filter keeps, and does not leave the mover's own king attacked.
   */
  lemma IsValidMoveExactly(s: State, m: Move)
    ensures IsValidMove(s, m) <==>
      MoveInBounds(m) && MoverOwns(s, m.startRow, m.startCol) &&
      !(s.grid[m.endRow][m.endCol].Some? && s.grid[m.endRow][m.endCol].value.color == Mover(s)) &&
      (exists v | v in PieceMoves(s, m.startRow, m.startCol, []) ::
         SameSquares(v, m) && FilterKeeps(s, v)) &&
      !InCheck(TempMake(s, m))
  {
    if MoveInBounds(m) && MoverOwns(s, m.startRow, m.startCol) {
      var vs := ValidMovesAt(s, m.startRow, m.startCol);
      if ListedIn(vs, m) {
        var i :| 0 <= i < |vs| && SameSquares(vs[i], m);
        ValidMovesAtExactly(s, m.startRow, m.startCol, vs[i]);
      }
      if v :| v in PieceMoves(s, m.startRow, m.startCol, []) && SameSquares(v, m) && FilterKeeps(s, v) {
        ValidMovesAtExactly(s, m.startRow, m.startCol, v);
        var j :| 0 <= j < |vs| && vs[j] == v;
        assert SameSquares(vs[j], m);
      }
    }
  }

  /** The five cases of is_valid_move's documented rejections. */
  lemma IsValidMoveRejects(s: State, m: Move)
    ensures !MoveInBounds(m) ==> !IsValidMove(s, m)
    ensures MoveInBounds(m) && s.grid[m.startRow][m.startCol].None? ==> !IsValidMove(s, m)
    ensures MoveInBounds(m) && s.grid[m.startRow][m.startCol].Some? &&
              s.grid[m.startRow][m.startCol].value.color != Mover(s) ==>
            !IsValidMove(s, m)
    ensures MoveInBounds(m) && s.grid[m.endRow][m.endCol].Some? && s.grid[m.startRow][m.startCol].Some? &&
              s.grid[m.endRow][m.endCol].value.color == s.grid[m.startRow][m.startCol].value.color ==>
            !IsValidMove(s, m)
    ensures MoveInBounds(m) && InCheck(TempMake(s, m)) ==> !IsValidMove(s, m)
  {
  }

  /**
   * No square visited by the nested loops of is_checkmate before (r, c) holds a piece of
   * the side to move with a move that passes the escape test. (The state heads the
   * decreases clause for the reason given at MovesBefore.)
   */
  predicate NoEscapeBefore(s: State, r: nat, c: nat)
    requires LoopPoint(r, c)
    decreases s, r, c
  {
    if c == 0 then r == 0 || NoEscapeBefore(s, r - 1, 8)
    else NoEscapeBefore(s, r, c - 1) && ValidMovesAt(s, r, c - 1) == []
  }

  /**
   * is_checkmate: the side to move is in check and, for every one of its pieces, every move
   * its generator yields fails the escape test.
   */
  predicate IsCheckmate(s: State)
  {
    InCheck(s) && NoEscapeBefore(s, 8, 0)
  }

  /** The square (row, col) is visited before (r, c) by the nested row and column loops. */
  predicate Before(row: int, col: int, r: int, c: int)
  {
    (0 <= row < r && 0 <= col < 8) || (row == r && 0 <= col < c)
  }

  /** Every square visited before (r, c) offers no move get_valid_moves(pos) keeps. */
  predicate StuckBefore(s: State, r: int, c: int)
  {
    forall row, col | 0 <= row < 8 && 0 <= col < 8 && Before(row, col, r, c) :: ValidMovesAt(s, row, col) == []
  }

  lemma {:induction false} NoEscapeBeforeExactly(s: State, r: nat, c: nat)
    requires LoopPoint(r, c)
    ensures NoEscapeBefore(s, r, c) <==> StuckBefore(s, r, c)
    decreases r, c
  {
    if c == 0 && r > 0 {
      NoEscapeBeforeExactly(s, r - 1, 8);
      StuckBeforeRow(s, r);
    } else if c > 0 {
      NoEscapeBeforeExactly(s, r, c - 1);
      StuckBeforeStep(s, r, c);
    } else {
      StuckBeforeStart(s);
    }
  }

  /** Nothing is visited before the first square. */
  lemma StuckBeforeStart(s: State)
    ensures StuckBefore(s, 0, 0)
  {
    assert forall row, col | Before(row, col, 0, 0) :: false;
  }

  /** The start of a row is the end of the row before: the equivalence carries over. */
  lemma StuckBeforeRow(s: State, r: nat)
    requires 0 < r <= 8
    requires NoEscapeBefore(s, r - 1, 8) <==> StuckBefore(s, r - 1, 8)
    ensures NoEscapeBefore(s, r, 0) <==> StuckBefore(s, r, 0)
  {
    assert forall row, col | Before(row, col, r, 0) :: Before(row, col, r - 1, 8);
    assert forall row, col | Before(row, col, r - 1, 8) :: Before(row, col, r, 0);
  }

  /** One more square of the column loop: the equivalence carries over. */
  lemma StuckBeforeStep(s: State, r: nat, c: nat)
    requires r < 8 && 0 < c <= 8
    requires NoEscapeBefore(s, r, c - 1) <==> StuckBefore(s, r, c - 1)
    ensures NoEscapeBefore(s, r, c) <==> StuckBefore(s, r, c)
  {
    if StuckBefore(s, r, c) {
      assert Before(r, c - 1, r, c);
      forall row, col | InBounds(row, col) && Before(row, col, r, c - 1)
        ensures ValidMovesAt(s, row, col) == []
      {
        assert Before(row, col, r, c);
      }
    }
    if StuckBefore(s, r, c - 1) && ValidMovesAt(s, r, c - 1) == [] {
      forall row, col | InBounds(row, col) && Before(row, col, r, c)
        ensures ValidMovesAt(s, row, col) == []
      {
        if (row, col) != (r, c - 1) {
          assert Before(row, col, r, c - 1);
        }
      }
    }
  }

  /** is_checkmate holds exactly when the mover is in check and no square offers a move get_valid_moves(pos) keeps. */
  lemma CheckmateExactly(s: State)
    ensures IsCheckmate(s) <==> InCheck(s) && forall r, c | 0 <= r < 8 && 0 <= c < 8 :: ValidMovesAt(s, r, c) == []
  {
    NoEscapeBeforeExactly(s, 8, 0);
    assert forall r, c | 0 <= r < 8 && 0 <= c < 8 :: Before(r, c, 8, 0);
  }

  /** is_stalemate: not in check, and the unfiltered full generator yields nothing. */
  predicate IsStalemate(s: State)
  {
    !InCheck(s) && AllMoves(s) == []
  }

  /**
   * When the full generator produces nothing, the list is empty at every point of its
   * loops, so the generator of each square received an empty list and added nothing.
   */
  lemma {:induction false} EmptyBefore(s: State, r: nat, c: nat)
    requires LoopPoint(r, c) && AllMoves(s) == []
    ensures MovesBefore(s, r, c) == []
    ensures r < 8 && c < 8 && MoverOwns(s, r, c) ==> PieceMoves(s, r, c, []) == []
    decreases 8 - r, 8 - c
  {
    if r < 8 && c == 8 {
      EmptyBefore(s, r + 1, 0);
    } else if r < 8 {
      EmptyBefore(s, r, c + 1);
      var acc := MovesBefore(s, r, c);
      var here := if MoverOwns(s, r, c) then PieceMoves(s, r, c, acc) else [];
      assert MovesBefore(s, r, c + 1) == acc + here;
      assert |acc + here| == 0;
    }
  }

  /** A stalemated side has no move get_valid_moves(pos) would offer on any of its squares. */
  lemma StalemateHasNoValidMoves(s: State, r: int, c: int)
    requires IsStalemate(s) && InBounds(r, c)
    ensures ValidMovesAt(s, r, c) == []
  {
    EmptyBefore(s, r, c);
    if MoverOwns(s, r, c) {
      assert Kept(s, PieceMoves(s, r, c, [])) == [];
    }
  }

  /** Checkmate and stalemate exclude each other. */
  lemma CheckmateExcludesStalemate(s: State)
    ensures !(IsCheckmate(s) && IsStalemate(s))
  {
  }
}
