/**
 * The Board object (chess_engine/board.py:9-981): the fields the engine updates in place and
 * the methods that read and update them, each proved equal to the pure definitions of the
 * modules BoardState, Attacks, Generators, Legality and MakeUndo.
 */
module ChessBoard {
  import opened Wrappers
  import opened Pieces
  import opened Moves
  import opened BoardState
  import opened Attacks
  import opened Generators
  import opened Legality
  import opened MakeUndo

  class Board {
    var grid: Grid
    var moveLog: seq<Move>
    var whiteToMove: bool
    var whiteKing: (int, int)
    var blackKing: (int, int)
    var checkmate: bool
    var stalemate: bool
    var inCheck: bool
    var enPassant: Option<(int, int)>
    var rights: Rights
    /** The identities of the piece objects whose has_moved is True. */
    var moved: set<nat>
    /** The identity the next piece object created receives. */
    var nextId: nat

    /** The value of every field. */
    function State(): State
      reads this
    {
      BoardState.State(grid, moveLog, whiteToMove, whiteKing, blackKing, checkmate, stalemate, inCheck,
                       enPassant, rights, moved, nextId)
    }

    /** The invariant every Board keeps between calls. */
    predicate Valid()
      reads this
    {
      Good(State())
    }

    /**
     * __init__: an empty move log, white to move, the kings cached on e1 and e8, no flag set,
     * all four castling rights, and _initialize_board's pieces, none of them moved.
     */
    constructor()
      ensures State() == Initial()
      ensures Valid() && KingsCached(State())
    {
      grid := seq(8, _ => seq(8, _ => None));
      moveLog := [];
      whiteToMove := true;
      whiteKing := (7, 4);
      blackKing := (0, 4);
      checkmate := false;
      stalemate := false;
      inCheck := false;
      enPassant := None;
      rights := Rights(true, true, true, true);
      moved := {};
      nextId := 0;
      new;
      InitializeBoard();
      InitialIsGood();
    }

    /**
     * _initialize_board: the pawns column by column (black, then white), then the rooks,
     * knights, bishops, queens and kings, each a new piece object taking the next identity.
     */
    method InitializeBoard()
      requires grid == seq(8, _ => seq(8, _ => None)) && nextId == 0 && moved == {}
      modifies this`grid, this`nextId
      ensures grid == InitialGrid() && nextId == 32
    {
      var g := grid;
      for col := 0 to 8
        invariant nextId == 2 * col
        invariant forall r, c | 0 <= r < 8 && 0 <= c < 8 ::
          g[r][c] == if (r == 1 || r == 6) && c < col then InitialCell(r, c) else None
      {
        g := Put(g, 1, col, Some(NewPiece(Black, Pawn, nextId, moved)));
        nextId := nextId + 1;
        g := Put(g, 6, col, Some(NewPiece(White, Pawn, nextId, moved)));
        nextId := nextId + 1;
      }
      g := PlaceBackRanks(g);
      GridsEqual(g, InitialGrid());
      grid := g;
    }

    /** The piece placements of _initialize_board after the pawns, in the order it makes them. */
    method PlaceBackRanks(g: Grid) returns (h: Grid)
      requires nextId == 16
      requires forall r, c | 0 <= r < 8 && 0 <= c < 8 :: g[r][c] == if r == 1 || r == 6 then InitialCell(r, c) else None
      modifies this`nextId
      ensures nextId == 32
      ensures forall r, c | 0 <= r < 8 && 0 <= c < 8 :: h[r][c] == InitialGrid()[r][c]
    {
      h := PlaceNew(g, 0, 0, Black, Rook);
      h := PlaceNew(h, 0, 7, Black, Rook);
      h := PlaceNew(h, 7, 0, White, Rook);
      h := PlaceNew(h, 7, 7, White, Rook);
      h := PlaceNew(h, 0, 1, Black, Knight);
      h := PlaceNew(h, 0, 6, Black, Knight);
      h := PlaceNew(h, 7, 1, White, Knight);
      h := PlaceNew(h, 7, 6, White, Knight);
      h := PlaceNew(h, 0, 2, Black, Bishop);
      h := PlaceNew(h, 0, 5, Black, Bishop);
      h := PlaceNew(h, 7, 2, White, Bishop);
      h := PlaceNew(h, 7, 5, White, Bishop);
      h := PlaceNew(h, 0, 3, Black, Queen);
      h := PlaceNew(h, 7, 3, White, Queen);
      h := PlaceNew(h, 0, 4, Black, King);
      h := PlaceNew(h, 7, 4, White, King);
    }

    /** `g[row][col] = Kind(colour)`: a new piece object with the next identity. */
    method PlaceNew(g: Grid, row: int, col: int, c: Color, k: Kind) returns (h: Grid)
      requires 0 <= row < 8 && 0 <= col < 8
      modifies this`nextId
      ensures h == g[row := g[row][col := Some(Piece(c, k, old(nextId)))]] && nextId == old(nextId) + 1
    {
      h := g[row := g[row][col := Some(NewPiece(c, k, nextId, moved))]];
      nextId := nextId + 1;
    }

    /** get_piece_at: the cell, or None off the board. */
    method GetPieceAt(row: int, col: int) returns (x: Cell)
      ensures InBounds(row, col) ==> x == grid[row][col]
      ensures !InBounds(row, col) ==> x == None
    {
      if 0 <= row < 8 && 0 <= col < 8 {
        x := grid[row][col];
      } else {
        x := None;
      }
    }

    /** _get_pawn_attacks. */
    method GetPawnAttacks(row: int, col: int, moves: seq<Move>) returns (res: seq<Move>)
      requires InBounds(row, col)
      ensures res == moves + PawnAttacks(grid, row, col)
    {
      res := moves;
      var piece := grid[row][col];
      if piece.None? || piece.value.kind != Pawn {
        return;
      }
      var direction := if piece.value.color == White then -1 else 1;
      var endRow := row + direction;
      ghost var left := if InBounds(endRow, col - 1) then [PlainMove(row, col, endRow, col - 1)] else [];
      ghost var right := if InBounds(endRow, col + 1) then [PlainMove(row, col, endRow, col + 1)] else [];
      for j := 0 to 2
        invariant res == moves + (if j >= 1 then left else []) + (if j >= 2 then right else [])
      {
        var endCol := col + (if j == 0 then -1 else 1);
        if 0 <= endRow < 8 && 0 <= endCol < 8 {
          res := res + [PlainMove(row, col, endRow, endCol)];
        }
      }
    }

    /**
     * The loop over the distance i = 1..7 for one direction of _get_rook_attacks and
     * _get_bishop_attacks. The i-th square (row + d_row * i, col + d_col * i) is reached by
     * adding the direction to the previous one.
     */
    method GetRayAttack(row: int, col: int, dRow: int, dCol: int, moves: seq<Move>) returns (res: seq<Move>)
      ensures res == moves + AttackRay(grid, row, col, row + dRow, col + dCol, dRow, dCol, 1)
    {
      res := moves;
      ghost var total := moves + AttackRay(grid, row, col, row + dRow, col + dCol, dRow, dCol, 1);
      var endRow, endCol := row + dRow, col + dCol;
      var i := 1;
      while i < 8
        invariant 1 <= i <= 8
        invariant res + AttackRay(grid, row, col, endRow, endCol, dRow, dCol, i) == total
      {
        if !(0 <= endRow < 8 && 0 <= endCol < 8) {
          return;
        }
        var m := PlainMove(row, col, endRow, endCol);
        if grid[endRow][endCol].Some? {
          return res + [m];
        }
        ShiftOne(res, m, AttackRay(grid, row, col, endRow + dRow, endCol + dCol, dRow, dCol, i + 1), total);
        res := res + [m];
        endRow, endCol := endRow + dRow, endCol + dCol;
        i := i + 1;
      }
    }

    /** The direction loop shared by _get_rook_attacks and _get_bishop_attacks. */
    method GetRayAttacks(row: int, col: int, dirs: seq<(int, int)>, moves: seq<Move>) returns (res: seq<Move>)
      ensures res == moves + AttackRays(grid, row, col, dirs, 0)
    {
      res := moves;
      ghost var total := moves + AttackRays(grid, row, col, dirs, 0);
      for k := 0 to |dirs|
        invariant res + AttackRays(grid, row, col, dirs, k) == total
      {
        var (dRow, dCol) := dirs[k];
        ghost var prev := res;
        res := GetRayAttack(row, col, dRow, dCol, res);
        AppendAssoc(prev, AttackRay(grid, row, col, row + dRow, col + dCol, dRow, dCol, 1), AttackRays(grid, row, col, dirs, k + 1));
      }
    }

    /** _get_rook_attacks. */
    method GetRookAttacks(row: int, col: int, moves: seq<Move>) returns (res: seq<Move>)
      ensures res == moves + AttackRays(grid, row, col, RookDirections, 0)
    {
      res := GetRayAttacks(row, col, RookDirections, moves);
    }

    /** _get_bishop_attacks. */
    method GetBishopAttacks(row: int, col: int, moves: seq<Move>) returns (res: seq<Move>)
      ensures res == moves + AttackRays(grid, row, col, BishopDirections, 0)
    {
      res := GetRayAttacks(row, col, BishopDirections, moves);
    }

    /** _get_queen_attacks: the rook attacks, then the bishop attacks. */
    method GetQueenAttacks(row: int, col: int, moves: seq<Move>) returns (res: seq<Move>)
      ensures res == moves + AttackRays(grid, row, col, RookDirections, 0) + AttackRays(grid, row, col, BishopDirections, 0)
    {
      res := GetRookAttacks(row, col, moves);
      res := GetBishopAttacks(row, col, res);
    }

    /** The loop of _get_knight_attacks over its list of offsets. */
    method GetOffsetAttacks(row: int, col: int, offs: seq<(int, int)>, moves: seq<Move>) returns (res: seq<Move>)
      ensures res == moves + OffsetTargets(row, col, offs, 0)
    {
      res := moves;
      ghost var total := moves + OffsetTargets(row, col, offs, 0);
      for k := 0 to |offs|
        invariant res + OffsetTargets(row, col, offs, k) == total
      {
        var endRow, endCol := row + offs[k].0, col + offs[k].1;
        if 0 <= endRow < 8 && 0 <= endCol < 8 {
          ShiftOne(res, PlainMove(row, col, endRow, endCol), OffsetTargets(row, col, offs, k + 1), total);
          res := res + [PlainMove(row, col, endRow, endCol)];
        } else {
          assert OffsetTargets(row, col, offs, k) == OffsetTargets(row, col, offs, k + 1);
        }
      }
    }

    /** _get_knight_attacks. */
    method GetKnightAttacks(row: int, col: int, moves: seq<Move>) returns (res: seq<Move>)
      ensures res == moves + OffsetTargets(row, col, KnightOffsets, 0)
    {
      res := GetOffsetAttacks(row, col, KnightOffsets, moves);
    }

    /** The body of the nested loops of _get_king_attacks for d_row = a - 1, d_col = b - 1. */
    static method GetKingTarget(row: int, col: int, a: int, b: int, moves: seq<Move>) returns (res: seq<Move>)
      ensures res == moves + KingTarget(row, col, a, b)
    {
      var dRow, dCol := a - 1, b - 1;
      if dRow == 0 && dCol == 0 {
        return moves;
      }
      var endRow, endCol := row + dRow, col + dCol;
      if 0 <= endRow < 8 && 0 <= endCol < 8 {
        res := moves + [PlainMove(row, col, endRow, endCol)];
      } else {
        res := moves;
      }
    }

    /** One pass of the outer d_row loop of _get_king_attacks: d_row = a - 1, d_col over [-1, 0, 1]. */
    static method GetKingRowAttacks(row: int, col: int, a: int, moves: seq<Move>, ghost total: seq<Move>) returns (res: seq<Move>)
      requires 0 <= a < 3 && moves + KingTargets(row, col, a, 0) == total
      ensures res + KingTargets(row, col, a + 1, 0) == total
    {
      res := moves;
      for b := 0 to 3
        invariant res + KingTargets(row, col, a, b) == total
      {
        ghost var prev := res;
        res := GetKingTarget(row, col, a, b, res);
        AppendAssoc(prev, KingTarget(row, col, a, b), KingTargets(row, col, a, b + 1));
      }
    }

    /** _get_king_attacks: the nested loops over d_row and d_col in [-1, 0, 1], skipping (0, 0). */
    method GetKingAttacks(row: int, col: int, moves: seq<Move>) returns (res: seq<Move>)
      ensures res == moves + KingTargets(row, col, 0, 0)
    {
      res := moves;
      ghost var total := moves + KingTargets(row, col, 0, 0);
      for a := 0 to 3
        invariant res + KingTargets(row, col, a, 0) == total
      {
        res := GetKingRowAttacks(row, col, a, res, total);
      }
    }

    /** The dispatch of square_under_attack on the piece type. */
    method GetPieceAttacks(row: int, col: int, moves: seq<Move>) returns (res: seq<Move>)
      requires InBounds(row, col) && grid[row][col].Some?
      ensures res == moves + PieceAttacks(grid, row, col)
    {
      match grid[row][col].value.kind
      case Pawn => res := GetPawnAttacks(row, col, moves);
      case Rook => res := GetRookAttacks(row, col, moves);
      case Knight => res := GetKnightAttacks(row, col, moves);
      case Bishop => res := GetBishopAttacks(row, col, moves);
      case Queen =>
        res := GetQueenAttacks(row, col, moves);
        AppendAssoc(moves, AttackRays(grid, row, col, RookDirections, 0), AttackRays(grid, row, col, BishopDirections, 0));
      case King => res := GetKingAttacks(row, col, moves);
    }

    /** The attacks of the piece on (row, col) when it has colour `side`. */
    method GetSquareAttacks(side: Color, row: int, col: int, moves: seq<Move>) returns (res: seq<Move>)
      requires InBounds(row, col)
      ensures res == moves + SquareAttacks(grid, side, row, col)
    {
      var piece := grid[row][col];
      if piece.Some? && piece.value.color == side {
        res := GetPieceAttacks(row, col, moves);
      } else {
        res := moves;
        assert res == moves + [];
      }
    }

    /** One pass of the outer row loop of square_under_attack. */
    method CollectRowAttacks(side: Color, row: int, moves: seq<Move>, ghost total: seq<Move>) returns (res: seq<Move>)
      requires 0 <= row < 8 && moves + AttacksFrom(grid, side, row, 0) == total
      ensures res + AttacksFrom(grid, side, row + 1, 0) == total
    {
      res := moves;
      for c := 0 to 8
        invariant res + AttacksFrom(grid, side, row, c) == total
      {
        AppendAssoc(res, SquareAttacks(grid, side, row, c), AttacksFrom(grid, side, row, c + 1));
        res := GetSquareAttacks(side, row, c, res);
      }
    }

    /** The double loop of square_under_attack: the attacks of every piece of colour `side`. */
    method CollectAttacks(side: Color) returns (attacks: seq<Move>)
      ensures attacks == AttacksFrom(grid, side, 0, 0)
    {
      ghost var all := AttacksFrom(grid, side, 0, 0);
      attacks := [];
      for r := 0 to 8
        invariant attacks + AttacksFrom(grid, side, r, 0) == all
      {
        attacks := CollectRowAttacks(side, r, attacks, all);
      }
      assert attacks + [] == all;
    }

    /** The final loop of square_under_attack: does some move end on (row, col)? */
    static method AnyEndsOn(ms: seq<Move>, row: int, col: int) returns (found: bool)
      ensures found == Hits(ms, row, col)
    {
      for i := 0 to |ms|
        invariant forall j | 0 <= j < i :: !(ms[j].endRow == row && ms[j].endCol == col)
      {
        if ms[i].endRow == row && ms[i].endCol == col {
          return true;
        }
      }
      return false;
    }

    /**
     * square_under_attack: flip the turn, collect the attacks of the pieces of the side now
     * to move, flip back, and look for one ending on (row, col).
     */
    method SquareUnderAttack(row: int, col: int) returns (attacked: bool)
      modifies this
      ensures State() == old(State())
      ensures attacked == Attacks.SquareUnderAttack(old(State()), row, col)
    {
      whiteToMove := !whiteToMove;
      var opponentMoves := CollectAttacks(if whiteToMove then White else Black);
      whiteToMove := !whiteToMove;
      attacked := AnyEndsOn(opponentMoves, row, col);
    }

    /** is_in_check. */
    method IsInCheck() returns (check: bool)
      modifies this
      ensures State() == old(State())
      ensures check == InCheck(old(State()))
    {
      if whiteToMove {
        check := SquareUnderAttack(whiteKing.0, whiteKing.1);
      } else {
        check := SquareUnderAttack(blackKing.0, blackKing.1);
      }
    }

    /** The forward steps of _get_pawn_moves: one square, then two from the start row. */
    static method GetPawnForward(s: State, row: int, col: int, color: Color, moves: seq<Move>) returns (res: seq<Move>)
      requires InBounds(row, col)
      ensures res == moves + PawnForward(s, row, col, color)
    {
      res := moves;
      var direction := if color == White then -1 else 1;
      if 0 <= row + direction < 8 && s.grid[row + direction][col].None? {
        var one := MoveOn(s.grid, s.enPassant, row, col, row + direction, col);
        if ((row == 6 && color == White) || (row == 1 && color == Black)) && s.grid[row + 2 * direction][col].None? {
          var two := MoveOn(s.grid, s.enPassant, row, col, row + 2 * direction, col);
          res := res + [one] + [two];
        } else {
          res := res + [one];
        }
      }
    }

    /** One pass of the c_offset loop of _get_pawn_moves: a capture, or else onto the en-passant square. */
    static method GetPawnCapture(s: State, row: int, col: int, color: Color, offset: int, moves: seq<Move>) returns (res: seq<Move>)
      requires InBounds(row, col)
      ensures res == moves + PawnCapture(s, row, col, color, offset)
    {
      res := moves;
      var endRow, endCol := row + (if color == White then -1 else 1), col + offset;
      if 0 <= endRow < 8 && 0 <= endCol < 8 {
        var target := s.grid[endRow][endCol];
        if target.Some? && target.value.color != color {
          res := res + [MoveOn(s.grid, s.enPassant, row, col, endRow, endCol)];
        } else if s.enPassant == Some((endRow, endCol)) {
          res := res + [MoveOn(s.grid, s.enPassant, row, col, endRow, endCol)];
        }
      }
    }

    /** _get_pawn_moves: the forward steps, then the c_offset loop over [-1, 1]. */
    method GetPawnMoves(row: int, col: int, moves: seq<Move>) returns (res: seq<Move>)
      requires InBounds(row, col)
      ensures res == moves + PawnMoves(State(), row, col)
    {
      var piece := grid[row][col];
      if piece.None? || piece.value.kind != Pawn {
        return moves;
      }
      var color := piece.value.color;
      var s := State();
      ghost var forward := PawnForward(s, row, col, color);
      ghost var left, right := PawnCapture(s, row, col, color, -1), PawnCapture(s, row, col, color, 1);
      assert PawnMoves(s, row, col) == forward + left + right;
      res := GetPawnForward(s, row, col, color, moves);
      var offsets := [-1, 1];
      for j := 0 to 2
        invariant j == 0 ==> res == moves + forward
        invariant j == 1 ==> res == moves + forward + left
        invariant j == 2 ==> res == moves + forward + left + right
      {
        res := GetPawnCapture(s, row, col, color, offsets[j], res);
      }
    }

    /** The loop over i = 1..7 for one direction of _get_rook_moves. */
    static method GetSlideRay(s: State, row: int, col: int, color: Color, dRow: int, dCol: int, moves: seq<Move>) returns (res: seq<Move>)
      requires InBounds(row, col)
      ensures res == moves + SlideRay(s, row, col, color, row + dRow, col + dCol, dRow, dCol, 1)
    {
      res := moves;
      ghost var total := moves + SlideRay(s, row, col, color, row + dRow, col + dCol, dRow, dCol, 1);
      var endRow, endCol := row + dRow, col + dCol;
      var i := 1;
      while i < 8
        invariant 1 <= i <= 8
        invariant res + SlideRay(s, row, col, color, endRow, endCol, dRow, dCol, i) == total
      {
        if !(0 <= endRow < 8 && 0 <= endCol < 8) {
          return;
        }
        var target := s.grid[endRow][endCol];
        var m := MoveOn(s.grid, s.enPassant, row, col, endRow, endCol);
        if target.Some? {
          if target.value.color != color {
            res := res + [m];
          }
          return;
        }
        ShiftOne(res, m, SlideRay(s, row, col, color, endRow + dRow, endCol + dCol, dRow, dCol, i + 1), total);
        res := res + [m];
        endRow, endCol := endRow + dRow, endCol + dCol;
        i := i + 1;
      }
    }

    /** The direction loop of _get_rook_moves. */
    static method GetSlideRays(s: State, row: int, col: int, color: Color, dirs: seq<(int, int)>, moves: seq<Move>) returns (res: seq<Move>)
      requires InBounds(row, col)
      ensures res == moves + SlideRays(s, row, col, color, dirs, 0)
    {
      res := moves;
      ghost var total := moves + SlideRays(s, row, col, color, dirs, 0);
      for k := 0 to |dirs|
        invariant res + SlideRays(s, row, col, color, dirs, k) == total
      {
        var (dRow, dCol) := dirs[k];
        ghost var prev := res;
        res := GetSlideRay(s, row, col, color, dRow, dCol, res);
        AppendAssoc(prev, SlideRay(s, row, col, color, row + dRow, col + dCol, dRow, dCol, 1),
                    SlideRays(s, row, col, color, dirs, k + 1));
      }
    }

    /** _get_rook_moves. */
    method GetRookMoves(row: int, col: int, moves: seq<Move>) returns (res: seq<Move>)
      requires InBounds(row, col)
      ensures res == moves + RookMoves(State(), row, col)
    {
      var piece := grid[row][col];
      if piece.None? || piece.value.kind != Rook {
        return moves;
      }
      res := GetSlideRays(State(), row, col, piece.value.color, RookDirections, moves);
    }

    /** The offset loop of _get_knight_moves. */
    static method GetJumps(s: State, row: int, col: int, color: Color, offs: seq<(int, int)>, moves: seq<Move>) returns (res: seq<Move>)
      requires InBounds(row, col)
      ensures res == moves + JumpTargets(s, row, col, color, offs, 0)
    {
      res := moves;
      ghost var total := moves + JumpTargets(s, row, col, color, offs, 0);
      for k := 0 to |offs|
        invariant res + JumpTargets(s, row, col, color, offs, k) == total
      {
        var endRow, endCol := row + offs[k].0, col + offs[k].1;
        if 0 <= endRow < 8 && 0 <= endCol < 8 && (s.grid[endRow][endCol].None? || s.grid[endRow][endCol].value.color != color) {
          var m := MoveOn(s.grid, s.enPassant, row, col, endRow, endCol);
          ShiftOne(res, m, JumpTargets(s, row, col, color, offs, k + 1), total);
          res := res + [m];
        } else {
          assert JumpTargets(s, row, col, color, offs, k) == JumpTargets(s, row, col, color, offs, k + 1);
        }
      }
    }

    /** _get_knight_moves. */
    method GetKnightMoves(row: int, col: int, moves: seq<Move>) returns (res: seq<Move>)
      requires InBounds(row, col)
      ensures res == moves + KnightMoves(State(), row, col)
    {
      var piece := grid[row][col];
      if piece.None? || piece.value.kind != Knight {
        return moves;
      }
      res := GetJumps(State(), row, col, piece.value.color, KnightOffsets, moves);
    }

    /**
     * The loop over i = 1..7 for one direction of _get_bishop_moves and _get_queen_moves:
     * moves go to `normal`, captures of an enemy pawn to `captures`.
     */
    static method GetSplitRay(s: State, row: int, col: int, color: Color, dRow: int, dCol: int, normal: seq<Move>, captures: seq<Move>)
      returns (res: seq<Move>, caps: seq<Move>)
      requires InBounds(row, col)
      ensures var ray := SplitRay(s, row, col, color, row + dRow, col + dCol, dRow, dCol, 1);
        res == normal + ray.0 && caps == captures + ray.1
    {
      res, caps := normal, captures;
      ghost var ray := SplitRay(s, row, col, color, row + dRow, col + dCol, dRow, dCol, 1);
      var endRow, endCol := row + dRow, col + dCol;
      var i := 1;
      while i < 8
        invariant 1 <= i <= 8
        invariant var rest := SplitRay(s, row, col, color, endRow, endCol, dRow, dCol, i);
          res + rest.0 == normal + ray.0 && caps + rest.1 == captures + ray.1
      {
        if !(0 <= endRow < 8 && 0 <= endCol < 8) {
          return;
        }
        var target := s.grid[endRow][endCol];
        var m := MoveOn(s.grid, s.enPassant, row, col, endRow, endCol);
        if target.Some? {
          if target.value.color != color {
            if target.value.kind == Pawn {
              caps := caps + [m];
            } else {
              res := res + [m];
            }
          }
          return;
        }
        ghost var next := SplitRay(s, row, col, color, endRow + dRow, endCol + dCol, dRow, dCol, i + 1);
        ShiftOne(res, m, next.0, normal + ray.0);
        res := res + [m];
        endRow, endCol := endRow + dRow, endCol + dCol;
        i := i + 1;
      }
    }

    /** The direction loops of _get_bishop_moves and _get_queen_moves. */
    static method GetSplitRays(s: State, row: int, col: int, color: Color, dirs: seq<(int, int)>, normal: seq<Move>, captures: seq<Move>)
      returns (res: seq<Move>, caps: seq<Move>)
      requires InBounds(row, col)
      ensures var rays := SplitRays(s, row, col, color, dirs, 0);
        res == normal + rays.0 && caps == captures + rays.1
    {
      res, caps := normal, captures;
      ghost var rays := SplitRays(s, row, col, color, dirs, 0);
      for k := 0 to |dirs|
        invariant var rest := SplitRays(s, row, col, color, dirs, k);
          res + rest.0 == normal + rays.0 && caps + rest.1 == captures + rays.1
      {
        var (dRow, dCol) := dirs[k];
        ghost var here := SplitRay(s, row, col, color, row + dRow, col + dCol, dRow, dCol, 1);
        ghost var rest := SplitRays(s, row, col, color, dirs, k + 1);
        assert SplitRays(s, row, col, color, dirs, k) == (here.0 + rest.0, here.1 + rest.1);
        ghost var prevRes, prevCaps := res, caps;
        res, caps := GetSplitRay(s, row, col, color, dRow, dCol, res, caps);
        assert res == prevRes + here.0 && caps == prevCaps + here.1;
        AppendAssoc(prevRes, here.0, rest.0);
        AppendAssoc(prevCaps, here.1, rest.1);
      }
    }

    /** _get_bishop_moves: the moves first, the pawn captures only when there is no other move. */
    method GetBishopMoves(row: int, col: int, moves: seq<Move>) returns (res: seq<Move>)
      requires InBounds(row, col)
      ensures res == moves + BishopMoves(State(), row, col)
    {
      var piece := grid[row][col];
      if piece.None? || piece.value.kind != Bishop {
        return moves;
      }
      ghost var split := SplitRays(State(), row, col, piece.value.color, BishopDirections, 0);
      var normal, captures := GetSplitRays(State(), row, col, piece.value.color, BishopDirections, [], []);
      assert normal == split.0 && captures == split.1;
      assert BishopMoves(State(), row, col) == split.0 + (if split.0 == [] then split.1 else []);
      if normal == [] {
        res := moves + captures;
      } else {
        res := moves + normal;
      }
    }

    /** The two direction loops of _get_queen_moves, the rook directions first. */
    static method GetQueenRays(s: State, row: int, col: int, color: Color, moves: seq<Move>) returns (res: seq<Move>, captures: seq<Move>)
      requires InBounds(row, col)
      ensures var straight, diagonal := SplitRays(s, row, col, color, RookDirections, 0),
                                        SplitRays(s, row, col, color, BishopDirections, 0);
        res == moves + (straight.0 + diagonal.0) && captures == straight.1 + diagonal.1
    {
      ghost var straight := SplitRays(s, row, col, color, RookDirections, 0);
      ghost var diagonal := SplitRays(s, row, col, color, BishopDirections, 0);
      var res1, caps1 := GetSplitRays(s, row, col, color, RookDirections, moves, []);
      assert res1 == moves + straight.0 && caps1 == straight.1;
      res, captures := GetSplitRays(s, row, col, color, BishopDirections, res1, caps1);
      assert res == res1 + diagonal.0 && captures == caps1 + diagonal.1;
      AppendAssoc(moves, straight.0, diagonal.0);
    }

    /**
     * _get_queen_moves: the rook then bishop directions straight into `moves`, the pawn
     * captures only when `moves` is still empty afterwards.
     */
    method GetQueenMoves(row: int, col: int, moves: seq<Move>) returns (res: seq<Move>)
      requires InBounds(row, col)
      ensures res == moves + QueenMoves(State(), row, col, moves)
    {
      var piece := grid[row][col];
      if piece.None? || piece.value.kind != Queen {
        return moves;
      }
      ghost var s := State();
      ghost var straight := SplitRays(s, row, col, piece.value.color, RookDirections, 0);
      ghost var diagonal := SplitRays(s, row, col, piece.value.color, BishopDirections, 0);
      ghost var normal := straight.0 + diagonal.0;
      assert QueenMoves(s, row, col, moves) == normal + (if moves + normal == [] then straight.1 + diagonal.1 else []);
      var captures;
      res, captures := GetQueenRays(State(), row, col, piece.value.color, moves);
      assert res == moves + normal && captures == straight.1 + diagonal.1;
      if res == [] {
        res := res + captures;
      }
    }

    /** The body of the nested loops of _get_king_moves for d_row = a - 1, d_col = b - 1. */
    static method GetKingStep(s: State, row: int, col: int, color: Color, a: int, b: int, moves: seq<Move>) returns (res: seq<Move>)
      requires InBounds(row, col)
      ensures res == moves + KingStep(s, row, col, color, a, b)
    {
      var dRow, dCol := a - 1, b - 1;
      if dRow == 0 && dCol == 0 {
        return moves;
      }
      var endRow, endCol := row + dRow, col + dCol;
      if 0 <= endRow < 8 && 0 <= endCol < 8 && (s.grid[endRow][endCol].None? || s.grid[endRow][endCol].value.color != color) {
        res := moves + [MoveOn(s.grid, s.enPassant, row, col, endRow, endCol)];
      } else {
        res := moves;
      }
    }

    /** One pass of the outer d_row loop of _get_king_moves: d_row = a - 1, d_col over [-1, 0, 1]. */
    static method GetKingRowSteps(s: State, row: int, col: int, color: Color, a: nat, moves: seq<Move>, ghost total: seq<Move>)
      returns (res: seq<Move>)
      requires InBounds(row, col) && a < 3 && moves + KingSteps(s, row, col, color, a, 0) == total
      ensures res + KingSteps(s, row, col, color, a + 1, 0) == total
    {
      res := moves;
      for b := 0 to 3
        invariant res + KingSteps(s, row, col, color, a, b) == total
      {
        ghost var prev := res;
        res := GetKingStep(s, row, col, color, a, b, res);
        AppendAssoc(prev, KingStep(s, row, col, color, a, b), KingSteps(s, row, col, color, a, b + 1));
      }
    }

    /** The nested d_row and d_col loops of _get_king_moves. */
    static method GetKingSteps(s: State, row: int, col: int, color: Color, moves: seq<Move>) returns (res: seq<Move>)
      requires InBounds(row, col)
      ensures res == moves + KingSteps(s, row, col, color, 0, 0)
    {
      res := moves;
      ghost var total := moves + KingSteps(s, row, col, color, 0, 0);
      for a := 0 to 3
        invariant res + KingSteps(s, row, col, color, a, 0) == total
      {
        res := GetKingRowSteps(s, row, col, color, a, res, total);
      }
    }

    /** The kingside half of _get_castle_moves. */
    method GetKingsideCastle(row: int, col: int, color: Color, moves: seq<Move>) returns (res: seq<Move>)
      requires InBounds(row, col) && (KingSideRight(rights, color) ==> col + 2 < 8)
      modifies this
      ensures State() == old(State())
      ensures res == moves + KingsideCastle(old(State()), row, col, color)
    {
      res := moves;
      if (color == White && rights.wks) || (color == Black && rights.bks) {
        if grid[row][col + 1].None? && grid[row][col + 2].None? {
          res := GetSafeCastle(row, col, col + 1, col + 2, res);
        }
      }
    }

    /** The queenside half of _get_castle_moves; col - 3 reads from the end of the row when negative, as a Python index does. */
    method GetQueensideCastle(row: int, col: int, color: Color, moves: seq<Move>) returns (res: seq<Move>)
      requires InBounds(row, col) && (QueenSideRight(rights, color) ==> col - 2 >= 0)
      modifies this
      ensures State() == old(State())
      ensures res == moves + QueensideCastle(old(State()), row, col, color)
    {
      res := moves;
      if (color == White && rights.wqs) || (color == Black && rights.bqs) {
        var third := WrapIndex(col - 3);
        if grid[row][col - 1].None? && grid[row][col - 2].None? && grid[row][third].None? {
          res := GetSafeCastle(row, col, col - 1, col - 2, res);
        }
      }
    }

    /** The attack tests of one castling side; the second runs only when the first fails. */
    method GetSafeCastle(row: int, col: int, through: int, target: int, moves: seq<Move>) returns (res: seq<Move>)
      requires InBounds(row, col) && InBounds(row, target)
      modifies this
      ensures State() == old(State())
      ensures res == moves + SafeCastle(old(State()), row, col, through, target)
    {
      res := moves;
      var first := SquareUnderAttack(row, through);
      if !first {
        var second := SquareUnderAttack(row, target);
        if !second {
          res := res + [MoveOn(grid, enPassant, row, col, row, target)];
        }
      }
    }

    /** _get_castle_moves: nothing while in check or for a king that has moved; then kingside and queenside. */
    method GetCastleMoves(row: int, col: int, moves: seq<Move>) returns (res: seq<Move>)
      requires InBounds(row, col) && Valid()
      modifies this
      ensures State() == old(State())
      ensures res == moves + CastleMoves(old(State()), row, col)
    {
      if inCheck {
        return moves + [];
      }
      var piece := grid[row][col];
      if piece.None? || piece.value.kind != King || piece.value.id in moved {
        return moves + [];
      }
      CastleGuardsHold(State(), row, col);
      var color := piece.value.color;
      ghost var kingside := KingsideCastle(State(), row, col, color);
      res := GetKingsideCastle(row, col, color, moves);
      res := GetQueensideCastle(row, col, color, res);
      AppendAssoc(moves, kingside, QueensideCastle(old(State()), row, col, color));
    }

    /** _get_king_moves: the eight neighbours, then the castling moves. */
    method GetKingMoves(row: int, col: int, moves: seq<Move>) returns (res: seq<Move>)
      requires InBounds(row, col) && Valid()
      modifies this
      ensures State() == old(State())
      ensures res == moves + KingMoves(old(State()), row, col)
    {
      var piece := grid[row][col];
      if piece.None? || piece.value.kind != King {
        return moves;
      }
      ghost var steps := KingSteps(State(), row, col, piece.value.color, 0, 0);
      res := GetKingSteps(State(), row, col, piece.value.color, moves);
      res := GetCastleMoves(row, col, res);
      AppendAssoc(moves, steps, CastleMoves(old(State()), row, col));
    }

    /** The dispatch on the piece type shared by get_valid_moves and is_checkmate. */
    method GetPieceMoves(row: int, col: int, moves: seq<Move>) returns (res: seq<Move>)
      requires InBounds(row, col) && Valid()
      modifies this
      ensures State() == old(State())
      ensures res == moves + PieceMoves(old(State()), row, col, moves)
    {
      var piece := grid[row][col];
      if piece.None? {
        return moves + [];
      }
      match piece.value.kind
      case Pawn => res := GetPawnMoves(row, col, moves);
      case Rook => res := GetRookMoves(row, col, moves);
      case Knight => res := GetKnightMoves(row, col, moves);
      case Bishop => res := GetBishopMoves(row, col, moves);
      case Queen => res := GetQueenMoves(row, col, moves);
      case King => res := GetKingMoves(row, col, moves);
    }

    /**
     * The temporary make of is_valid_move, get_valid_moves(pos) and is_checkmate: the piece
     * moves to the end square, the start square empties, and a moving king updates its
     * cached location, whose old value is returned.
     */
    method TempMove(m: Move) returns (pieceMoved: Cell, pieceCaptured: Cell, kingPos: (int, int))
      requires MoveInBounds(m)
      modifies this
      ensures State() == TempMake(old(State()), m)
      ensures pieceMoved == old(grid)[m.startRow][m.startCol] && pieceCaptured == old(grid)[m.endRow][m.endCol]
      ensures IsKindAt(pieceMoved, King) ==> kingPos == KingLocation(old(State()), pieceMoved.value.color)
    {
      pieceMoved := grid[m.startRow][m.startCol];
      pieceCaptured := grid[m.endRow][m.endCol];
      grid := Put(grid, m.endRow, m.endCol, pieceMoved);
      grid := Put(grid, m.startRow, m.startCol, None);
      kingPos := (0, 0);
      if pieceMoved.Some? && pieceMoved.value.kind == King {
        if pieceMoved.value.color == White {
          kingPos := whiteKing;
          whiteKing := (m.endRow, m.endCol);
        } else {
          kingPos := blackKing;
          blackKing := (m.endRow, m.endCol);
        }
      }
    }

    /** The restore after a temporary make: the two saved cells go back, start first, and so does a moved king's location. */
    method RestoreTempMove(m: Move, pieceMoved: Cell, pieceCaptured: Cell, kingPos: (int, int), ghost before: State)
      requires MoveInBounds(m) && State() == TempMake(before, m)
      requires pieceMoved == before.grid[m.startRow][m.startCol] && pieceCaptured == before.grid[m.endRow][m.endCol]
      requires IsKindAt(pieceMoved, King) ==> kingPos == KingLocation(before, pieceMoved.value.color)
      modifies this
      ensures State() == before
    {
      TempMakeRestored(before, m);
      grid := Put(Put(grid, m.startRow, m.startCol, pieceMoved), m.endRow, m.endCol, pieceCaptured);
      if pieceMoved.Some? && pieceMoved.value.kind == King {
        if pieceMoved.value.color == White {
          whiteKing := kingPos;
        } else {
          blackKing := kingPos;
        }
      }
    }

    /** A temporary make, is_in_check (with the turn flipped around it when `flipTurn`), and the restore. */
    method CheckAfterTempMove(m: Move, flipTurn: bool) returns (check: bool)
      requires MoveInBounds(m)
      modifies this
      ensures State() == old(State())
      ensures check == InCheck(if flipTurn then Flip(TempMake(old(State()), m)) else TempMake(old(State()), m))
    {
      ghost var before := State();
      ghost var moved := TempMake(before, m);
      var pieceMoved, pieceCaptured, kingPos := TempMove(m);
      if flipTurn {
        whiteToMove := !whiteToMove;
        assert State() == Flip(moved);
      }
      check := IsInCheck();
      if flipTurn {
        whiteToMove := !whiteToMove;
        assert State() == moved;
      }
      RestoreTempMove(m, pieceMoved, pieceCaptured, kingPos, before);
    }

    /** The filter loop of get_valid_moves(pos): the moves whose temporary make, with the turn flipped, is not in check. */
    method KeepUnchecked(moves: seq<Move>) returns (valid: seq<Move>)
      requires forall i | 0 <= i < |moves| :: MoveInBounds(moves[i])
      modifies this
      ensures State() == old(State())
      ensures valid == Kept(old(State()), moves)
    {
      valid := [];
      ghost var s := State();
      ghost var all := Kept(s, moves);
      for k := 0 to |moves|
        invariant State() == s
        invariant valid + Kept(s, moves[k..]) == all
      {
        valid := KeepIfUnchecked(moves, k, valid, all);
      }
      assert moves[|moves|..] == [];
    }

    /** One pass of the filter loop: moves[k] is kept when the temporary make leaves the mover's opponent out of check. */
    method KeepIfUnchecked(moves: seq<Move>, k: int, valid: seq<Move>, ghost all: seq<Move>) returns (res: seq<Move>)
      requires 0 <= k < |moves| && MoveInBounds(moves[k])
      requires valid + Kept(State(), moves[k..]) == all
      modifies this
      ensures State() == old(State())
      ensures res + Kept(State(), moves[k + 1..]) == all
    {
      ghost var s := State();
      var check := CheckAfterTempMove(moves[k], true);
      assert moves[k..][1..] == moves[k + 1..];
      ghost var rest := Kept(s, moves[k + 1..]);
      if !check {
        ShiftOne(valid, moves[k], rest, all);
        res := valid + [moves[k]];
      } else {
        assert Kept(s, moves[k..]) == rest;
        res := valid;
      }
    }

    /** get_valid_moves(pos): the generator of the mover's piece on (row, col) on a fresh list, then the filter. */
    method GetValidMovesAt(row: int, col: int) returns (valid: seq<Move>)
      requires InBounds(row, col) && Valid()
      modifies this
      ensures State() == old(State())
      ensures valid == ValidMovesAt(old(State()), row, col)
    {
      var piece := grid[row][col];
      if piece.None? {
        return [];
      }
      if (piece.value.color == White && !whiteToMove) || (piece.value.color == Black && whiteToMove) {
        return [];
      }
      PieceMovesGenerated(State(), row, col, []);
      var moves := GetPieceMoves(row, col, []);
      assert moves == PieceMoves(old(State()), row, col, []);
      valid := KeepUnchecked(moves);
    }

    /** One pass of the outer row loop of get_valid_moves(): the generators of the mover's pieces on the row. */
    method CollectRowMoves(row: int, moves: seq<Move>) returns (res: seq<Move>)
      requires 0 <= row < 8 && Valid() && moves == MovesBefore(State(), row, 0)
      modifies this
      ensures State() == old(State())
      ensures res == MovesBefore(old(State()), row + 1, 0)
    {
      res := moves;
      for col := 0 to 8
        invariant State() == old(State())
        invariant res == MovesBefore(old(State()), row, col)
      {
        var piece := grid[row][col];
        if piece.Some? && ((piece.value.color == White && whiteToMove) || (piece.value.color == Black && !whiteToMove)) {
          res := GetPieceMoves(row, col, res);
        } else {
          assert res == res + [];
        }
      }
    }

    /** get_valid_moves() without a position: every generator of the mover's pieces on one shared list, unfiltered. */
    method GetValidMoves() returns (moves: seq<Move>)
      requires Valid()
      modifies this
      ensures State() == old(State())
      ensures moves == AllMoves(old(State()))
    {
      moves := [];
      for row := 0 to 8
        invariant State() == old(State())
        invariant moves == MovesBefore(old(State()), row, 0)
      {
        moves := CollectRowMoves(row, moves);
      }
    }

    /** The search loop of is_valid_move: some listed move has the same four coordinates. */
    static method FindListed(vs: seq<Move>, m: Move) returns (found: bool)
      ensures found == ListedIn(vs, m)
    {
      for i := 0 to |vs|
        invariant forall j | 0 <= j < i :: !SameSquares(vs[j], m)
      {
        var v := vs[i];
        if m.startRow == v.startRow && m.startCol == v.startCol && m.endRow == v.endRow && m.endCol == v.endCol {
          return true;
        }
      }
      return false;
    }

    /**
     * is_valid_move: the five early exits, then the search of get_valid_moves(pos) by
     * coordinates; at the first match, the temporary make and the own-king test decide.
     */
    method IsValidMove(m: Move) returns (ok: bool)
      requires Valid()
      modifies this
      ensures State() == old(State())
      ensures ok == Legality.IsValidMove(old(State()), m)
    {
      if !(0 <= m.startRow < 8 && 0 <= m.startCol < 8 && 0 <= m.endRow < 8 && 0 <= m.endCol < 8) {
        return false;
      }
      var piece := GetPieceAt(m.startRow, m.startCol);
      if piece.None? {
        return false;
      }
      if (piece.value.color == White && !whiteToMove) || (piece.value.color == Black && whiteToMove) {
        return false;
      }
      var dest := GetPieceAt(m.endRow, m.endCol);
      if dest.Some? && dest.value.color == piece.value.color {
        return false;
      }
      ok := ListedAndSafe(m);
    }

    /** The last two steps of is_valid_move: the search of get_valid_moves(pos), then the own-king test. */
    method ListedAndSafe(m: Move) returns (ok: bool)
      requires MoveInBounds(m) && Valid()
      modifies this
      ensures State() == old(State())
      ensures ok == (ListedIn(ValidMovesAt(old(State()), m.startRow, m.startCol), m) && !InCheck(TempMake(old(State()), m)))
    {
      var validMoves := GetValidMovesAt(m.startRow, m.startCol);
      var found := FindListed(validMoves, m);
      if !found {
        return false;
      }
      var check := CheckAfterTempMove(m, false);
      return !check;
    }

    /** The inner move loop of is_checkmate: does some move pass the escape test? */
    method AnyEscape(moves: seq<Move>) returns (escape: bool)
      requires forall i | 0 <= i < |moves| :: MoveInBounds(moves[i])
      modifies this
      ensures State() == old(State())
      ensures escape <==> Kept(old(State()), moves) != []
    {
      ghost var s := State();
      for i := 0 to |moves|
        invariant State() == s
        invariant Kept(s, moves[i..]) == Kept(s, moves)
      {
        var stillInCheck := CheckAfterTempMove(moves[i], true);
        assert moves[i..][1..] == moves[i + 1..];
        if !stillInCheck {
          assert Kept(s, moves[i..]) == [moves[i]] + Kept(s, moves[i + 1..]);
          return true;
        }
      }
      assert moves[|moves|..] == [];
      return false;
    }

    /** The escape test of is_checkmate for the square (row, col): does its piece, if the mover's, have an escape? */
    method SquareHasEscape(row: int, col: int) returns (escape: bool)
      requires InBounds(row, col) && Valid()
      modifies this
      ensures State() == old(State())
      ensures escape <==> ValidMovesAt(old(State()), row, col) != []
    {
      var piece := grid[row][col];
      if piece.Some? && ((piece.value.color == White && whiteToMove) || (piece.value.color == Black && !whiteToMove)) {
        ghost var s := State();
        PieceMovesGenerated(s, row, col, []);
        var moves := GetPieceMoves(row, col, []);
        assert moves == PieceMoves(s, row, col, []);
        escape := AnyEscape(moves);
      } else {
        escape := false;
      }
    }

    /** One pass of the outer row loop of is_checkmate. */
    method RowHasEscape(row: int) returns (escape: bool, ghost at: int)
      requires 0 <= row < 8 && Valid()
      modifies this
      ensures State() == old(State())
      ensures escape ==> 0 <= at < 8 && ValidMovesAt(old(State()), row, at) != []
      ensures !escape ==> (NoEscapeBefore(old(State()), row, 0) ==> NoEscapeBefore(old(State()), row + 1, 0))
    {
      ghost var s := State();
      for col := 0 to 8
        invariant State() == s
        invariant NoEscapeBefore(s, row, 0) ==> NoEscapeBefore(s, row, col)
      {
        escape := SquareHasEscape(row, col);
        if escape {
          return true, col;
        }
      }
      return false, 0;
    }

    /** is_checkmate: in check, and no piece of the mover has a move that passes the escape test. */
    method IsCheckmate() returns (mate: bool)
      requires Valid()
      modifies this
      ensures State() == old(State())
      ensures mate == Legality.IsCheckmate(old(State()))
    {
      var check := IsInCheck();
      if !check {
        return false;
      }
      ghost var s := State();
      for row := 0 to 8
        invariant State() == s
        invariant NoEscapeBefore(s, row, 0)
      {
        var escape, at := RowHasEscape(row);
        if escape {
          NoEscapeBeforeExactly(s, 8, 0);
          assert Before(row, at, 8, 0);
          return false;
        }
      }
      return true;
    }

    /** is_stalemate: not in check, and get_valid_moves() is empty. */
    method IsStalemate() returns (stale: bool)
      requires Valid()
      modifies this
      ensures State() == old(State())
      ensures stale == Legality.IsStalemate(old(State()))
    {
      var check := IsInCheck();
      if check {
        return false;
      }
      var moves := GetValidMoves();
      return |moves| == 0;
    }

    /**
     * make_move up to the flag updates: the start cell moves to the end square, a promoting
     * pawn is replaced there by a new Queen, the move is logged, the king location follows
     * the logged piece, the logged piece is marked as moved and the turn passes.
     */
    method PlaceMove(m: Move)
      requires MoveInBounds(m)
      modifies this
      ensures State() == Place(old(State()), m)
    {
      ghost var s := State();
      MovePiece(m);
      ghost var cells := State();
      assert KingsAfter(cells, m.pieceMoved, m.endRow, m.endCol) == KingsAfter(s, m.pieceMoved, m.endRow, m.endCol);
      RecordMove(m);
      PlaceByFields(s, m, State());
    }

    /** The bookkeeping of make_move after the cells: the log, the king location, has_moved and the turn. */
    method RecordMove(m: Move)
      modifies this
      ensures moveLog == old(moveLog) + [m] && whiteToMove == !old(whiteToMove)
      ensures (whiteKing, blackKing) == KingsAfter(old(State()), m.pieceMoved, m.endRow, m.endCol)
      ensures moved == MarkMoved(old(moved), m.pieceMoved)
      ensures grid == old(grid) && nextId == old(nextId) && rights == old(rights) && enPassant == old(enPassant)
      ensures inCheck == old(inCheck) && checkmate == old(checkmate) && stalemate == old(stalemate)
    {
      moveLog := moveLog + [m];
      UpdateKingLocation(m.pieceMoved, m.endRow, m.endCol);
      if m.pieceMoved.Some? {
        moved := moved + {m.pieceMoved.value.id};
      }
      whiteToMove := !whiteToMove;
    }

    /** A logged king's colour has its cached location set to (row, col). */
    method UpdateKingLocation(x: Cell, row: int, col: int)
      modifies this
      ensures (whiteKing, blackKing) == KingsAfter(old(State()), x, row, col)
      ensures grid == old(grid) && moveLog == old(moveLog) && whiteToMove == old(whiteToMove) && moved == old(moved)
      ensures nextId == old(nextId) && rights == old(rights) && enPassant == old(enPassant)
      ensures inCheck == old(inCheck) && checkmate == old(checkmate) && stalemate == old(stalemate)
    {
      if x.Some? && x.value.kind == King {
        if x.value.color == White {
          whiteKing := (row, col);
        } else {
          blackKing := (row, col);
        }
      }
    }

    /** The cell updates of make_move, with the promotion's new Queen. */
    method MovePiece(m: Move)
      requires MoveInBounds(m)
      modifies this
      ensures grid == MovedGrid(old(State()), m)
      ensures nextId == if PromotesOn(old(grid)[m.startRow][m.startCol], m.endRow) then old(nextId) + 1 else old(nextId)
      ensures moveLog == old(moveLog) && whiteToMove == old(whiteToMove) && moved == old(moved)
      ensures whiteKing == old(whiteKing) && blackKing == old(blackKing) && rights == old(rights)
      ensures enPassant == old(enPassant) && inCheck == old(inCheck) && checkmate == old(checkmate) && stalemate == old(stalemate)
    {
      ghost var s := State();
      var pieceMoved := grid[m.startRow][m.startCol];
      var isPromotion := pieceMoved.Some? && pieceMoved.value.kind == Pawn &&
        ((pieceMoved.value.color == White && m.endRow == 0) || (pieceMoved.value.color == Black && m.endRow == 7));
      var g := Put(Put(grid, m.endRow, m.endCol, pieceMoved), m.startRow, m.startCol, None);
      if isPromotion {
        g := Put(g, m.endRow, m.endCol, Some(NewPiece(pieceMoved.value.color, Queen, nextId, moved)));
        nextId := nextId + 1;
      }
      assert g == MovedGrid(s, m);
      grid := g;
    }

    /** make_move: the move is placed, then in_check, checkmate and stalemate are recomputed in that order. */
    method MakeMove(m: Move)
      requires Valid() && BoardMove(State(), m)
      modifies this
      ensures Valid()
      ensures State() == Make(old(State()), m)
    {
      ghost var s := State();
      PlaceKeepsGood(s, m);
      PlaceMove(m);
      ghost var p := State();
      var check := IsInCheck();
      SetFlags(check, checkmate, stalemate);
      FlagsIgnored(State(), p);
      MakeIsPlaceFlagged(s, m, p, check);
      RecordGameEnd();
    }

    /** The checkmate and stalemate updates at the end of make_move. */
    method RecordGameEnd()
      requires Valid()
      modifies this
      ensures Valid()
      ensures State() == GameEnd(old(State()))
    {
      ghost var u := State();
      RecordCheckmate();
      ghost var v := State();
      RecordStalemate();
      GameEndSteps(u, v, State());
    }

    /** `self.checkmate = self.is_checkmate()`. */
    method RecordCheckmate()
      requires Valid()
      modifies this
      ensures Valid()
      ensures State() == Flagged(old(State()), old(inCheck), Legality.IsCheckmate(old(State())), old(stalemate))
    {
      ghost var u := State();
      var mate := IsCheckmate();
      SetFlags(inCheck, mate, stalemate);
      FlagsIgnored(State(), u);
    }

    /** `self.stalemate = self.is_stalemate()`. */
    method RecordStalemate()
      requires Valid()
      modifies this
      ensures Valid()
      ensures State() == Flagged(old(State()), old(inCheck), old(checkmate), Legality.IsStalemate(old(State())))
    {
      ghost var v := State();
      var stale := IsStalemate();
      SetFlags(inCheck, checkmate, stale);
      FlagsIgnored(State(), v);
    }

    /** Assigning in_check, checkmate and stalemate. */
    method SetFlags(check: bool, mate: bool, stale: bool)
      modifies this
      ensures State() == Flagged(old(State()), check, mate, stale)
    {
      inCheck, checkmate, stalemate := check, mate, stale;
    }

    /** undo_move up to the flag updates. */
    method UnplaceMove()
      requires moveLog != [] && MoveInBounds(moveLog[|moveLog| - 1])
      modifies this
      ensures State() == Unplace(old(State()))
    {
      ghost var s := State();
      var m := moveLog[|moveLog| - 1];
      moveLog := moveLog[..|moveLog| - 1];
      grid := RestoredGrid(grid, m);
      ghost var cells := State();
      assert KingsAfter(cells, m.pieceMoved, m.startRow, m.startCol) == KingsAfter(s, m.pieceMoved, m.startRow, m.startCol);
      UpdateKingLocation(m.pieceMoved, m.startRow, m.startCol);
      whiteToMove := !whiteToMove;
      UnplaceByFields(s, State());
    }

    /**
     * undo_move: False on an empty log; otherwise the last entry is popped, its two pieces
     * go back (start first, then end), a logged king's location returns to the start
     * square, the turn passes back, in_check is recomputed and the other flags cleared.
     */
    method UndoMove() returns (undone: bool)
      requires Valid()
      modifies this
      ensures Valid()
      ensures (undone, State()) == Undo(old(State()))
    {
      if |moveLog| == 0 {
        return false;
      }
      ghost var s := State();
      UnplaceKeepsGood(s);
      UnplaceMove();
      var check := IsInCheck();
      SetFlags(check, false, false);
      UndoIsUnplaceFlagged(s, check);
      return true;
    }
  }
}
