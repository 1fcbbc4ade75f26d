/**
 * The pseudo-legal move generators of the Board (chess_engine/board.py:257-609), as the
 * lists they append, in the order the source appends them.
 */
module Generators {
  import opened Wrappers
  import opened Pieces
  import opened Moves
  import opened BoardState
  import opened Attacks

  /** Move(start, end, self): a move whose pieces and flags are read from the current board. */
  function Mk(s: State, r: int, c: int, er: int, ec: int): Move
    requires InBounds(r, c) && InBounds(er, ec)
  {
    MoveOn(s.grid, s.enPassant, r, c, er, ec)
  }

  /** A diagonal step of a pawn: a capture of an enemy piece, or else onto the en-passant square. */
  function PawnCapture(s: State, r: int, c: int, color: Color, offset: int): seq<Move>
    requires InBounds(r, c)
  {
    var er, ec := r + PawnDirection(color), c + offset;
    if !InBounds(er, ec) then []
    else if s.grid[er][ec].Some? && s.grid[er][ec].value.color != color then [Mk(s, r, c, er, ec)]
    else if s.enPassant == Some((er, ec)) then [Mk(s, r, c, er, ec)]
    else []
  }

  predicate OnStartRow(r: int, color: Color)
  {
    (r == 6 && color == White) || (r == 1 && color == Black)
  }

  /** The pawn's step forward onto an empty square, then the double step from its start row. */
  function PawnForward(s: State, r: int, c: int, color: Color): seq<Move>
    requires InBounds(r, c)
  {
    var d := PawnDirection(color);
    if 0 <= r + d < 8 && s.grid[r + d][c].None? then
      [Mk(s, r, c, r + d, c)] +
      (if OnStartRow(r, color) && s.grid[r + 2 * d][c].None? then [Mk(s, r, c, r + 2 * d, c)] else [])
    else []
  }

  /** _get_pawn_moves: one step, then two from the start row, then the diagonals at -1 and +1. */
  function PawnMoves(s: State, r: int, c: int): seq<Move>
    requires InBounds(r, c)
  {
    if !IsKindAt(s.grid[r][c], Pawn) then []
    else
      var color := s.grid[r][c].value.color;
      PawnForward(s, r, c, color) + PawnCapture(s, r, c, color, -1) + PawnCapture(s, r, c, color, 1)
  }

  /**
   * A rook direction from its i-th square (er, ec) on: empty squares, then an enemy piece,
   * stopping at any piece.
   */
  function SlideRay(s: State, r: int, c: int, color: Color, er: int, ec: int, dr: int, dc: int, i: int): seq<Move>
    requires InBounds(r, c)
    decreases s, 8 - i
  {
    if i >= 8 || !InBounds(er, ec) then []
    else if s.grid[er][ec].None? then [Mk(s, r, c, er, ec)] + SlideRay(s, r, c, color, er + dr, ec + dc, dr, dc, i + 1)
    else if s.grid[er][ec].value.color != color then [Mk(s, r, c, er, ec)]
    else []
  }

  function SlideRays(s: State, r: int, c: int, color: Color, dirs: seq<(int, int)>, k: nat): seq<Move>
    requires InBounds(r, c)
    decreases s, |dirs| - k
  {
    if k >= |dirs| then []
    else SlideRay(s, r, c, color, r + dirs[k].0, c + dirs[k].1, dirs[k].0, dirs[k].1, 1) + SlideRays(s, r, c, color, dirs, k + 1)
  }

  /** _get_rook_moves. */
  function RookMoves(s: State, r: int, c: int): seq<Move>
    requires InBounds(r, c)
  {
    if IsKindAt(s.grid[r][c], Rook) then SlideRays(s, r, c, s.grid[r][c].value.color, RookDirections, 0) else []
  }

  /** The knight's jumps from offs[k..] onto an empty or enemy square. */
  function JumpTargets(s: State, r: int, c: int, color: Color, offs: seq<(int, int)>, k: nat): seq<Move>
    requires InBounds(r, c)
    decreases s, |offs| - k
  {
    if k >= |offs| then []
    else
      var er, ec := r + offs[k].0, c + offs[k].1;
      (if InBounds(er, ec) && (s.grid[er][ec].None? || s.grid[er][ec].value.color != color)
       then [Mk(s, r, c, er, ec)] else []) +
      JumpTargets(s, r, c, color, offs, k + 1)
  }

  /** _get_knight_moves. */
  function KnightMoves(s: State, r: int, c: int): seq<Move>
    requires InBounds(r, c)
  {
    if IsKindAt(s.grid[r][c], Knight) then JumpTargets(s, r, c, s.grid[r][c].value.color, KnightOffsets, 0) else []
  }

  /**
   * A bishop or queen direction: the moves to empty squares and to non-pawn enemies, and
   * separately the capture of an enemy pawn.
   */
  function SplitRay(s: State, r: int, c: int, color: Color, er: int, ec: int, dr: int, dc: int, i: int): (seq<Move>, seq<Move>)
    requires InBounds(r, c)
    decreases s, 8 - i
  {
    if i >= 8 || !InBounds(er, ec) then ([], [])
    else if s.grid[er][ec].None? then
      var rest := SplitRay(s, r, c, color, er + dr, ec + dc, dr, dc, i + 1);
      ([Mk(s, r, c, er, ec)] + rest.0, rest.1)
    else if s.grid[er][ec].value.color != color then
      if s.grid[er][ec].value.kind == Pawn then ([], [Mk(s, r, c, er, ec)]) else ([Mk(s, r, c, er, ec)], [])
    else ([], [])
  }

  function SplitRays(s: State, r: int, c: int, color: Color, dirs: seq<(int, int)>, k: nat): (seq<Move>, seq<Move>)
    requires InBounds(r, c)
    decreases s, |dirs| - k
  {
    if k >= |dirs| then ([], [])
    else
      var here := SplitRay(s, r, c, color, r + dirs[k].0, c + dirs[k].1, dirs[k].0, dirs[k].1, 1);
      var rest := SplitRays(s, r, c, color, dirs, k + 1);
      (here.0 + rest.0, here.1 + rest.1)
  }

  /** _get_bishop_moves: pawn captures are kept only when there is no other bishop move. */
  function BishopMoves(s: State, r: int, c: int): seq<Move>
    requires InBounds(r, c)
  {
    if !IsKindAt(s.grid[r][c], Bishop) then []
    else
      var split := SplitRays(s, r, c, s.grid[r][c].value.color, BishopDirections, 0);
      split.0 + (if split.0 == [] then split.1 else [])
  }

  /**
   * _get_queen_moves appended to a list that already holds `prior`: the rook then bishop
   * directions, and the pawn captures only when the whole list is still empty.
   */
  function QueenMoves(s: State, r: int, c: int, prior: seq<Move>): seq<Move>
    requires InBounds(r, c)
  {
    if !IsKindAt(s.grid[r][c], Queen) then []
    else
      var color := s.grid[r][c].value.color;
      var straight := SplitRays(s, r, c, color, RookDirections, 0);
      var diagonal := SplitRays(s, r, c, color, BishopDirections, 0);
      var normal := straight.0 + diagonal.0;
      normal + (if prior + normal == [] then straight.1 + diagonal.1 else [])
  }

  /**
   * The king's steps from the pass d_row = a - 1, d_col = b - 1 of the nested loops on,
   * onto empty or enemy squares.
   */
  function KingSteps(s: State, r: int, c: int, color: Color, a: nat, b: nat): seq<Move>
    requires InBounds(r, c)
    decreases s, 3 - a, 3 - b
  {
    if a >= 3 then []
    else if b >= 3 then KingSteps(s, r, c, color, a + 1, 0)
    else KingStep(s, r, c, color, a, b) + KingSteps(s, r, c, color, a, b + 1)
  }

  /** The pass d_row = a - 1, d_col = b - 1: a step onto an empty or enemy square, if on the board. */
  function KingStep(s: State, r: int, c: int, color: Color, a: int, b: int): seq<Move>
    requires InBounds(r, c)
  {
    var er, ec := r + a - 1, c + b - 1;
    if (a, b) != (1, 1) && InBounds(er, ec) && (s.grid[er][ec].None? || s.grid[er][ec].value.color != color)
    then [Mk(s, r, c, er, ec)] else []
  }

  /** Python's reading of a negative list index: index -k is the k-th cell from the end. */
  function WrapIndex(i: int): int
  {
    if i < 0 then i + 8 else i
  }

  /**
   * _get_castle_moves. The two bounds `c + 2 < 8` and `c - 2 >= 0` hold on every
   * Good state (CastleGuardsHold), where the source's own indexing stays on the board.
   */
  function CastleMoves(s: State, r: int, c: int): seq<Move>
    requires InBounds(r, c)
  {
    if s.inCheck || !UnmovedKing(s.grid[r][c], s.moved) then []
    else
      var color := s.grid[r][c].value.color;
      KingsideCastle(s, r, c, color) + QueensideCastle(s, r, c, color)
  }

  /** The kingside half of _get_castle_moves. */
  function KingsideCastle(s: State, r: int, c: int, color: Color): seq<Move>
    requires InBounds(r, c)
  {
    if KingSideRight(s.rights, color) && c + 2 < 8 && s.grid[r][c + 1].None? && s.grid[r][c + 2].None?
    then SafeCastle(s, r, c, c + 1, c + 2) else []
  }

  /** The queenside half of _get_castle_moves. */
  function QueensideCastle(s: State, r: int, c: int, color: Color): seq<Move>
    requires InBounds(r, c)
  {
    if QueenSideRight(s.rights, color) && c - 2 >= 0 &&
       s.grid[r][c - 1].None? && s.grid[r][c - 2].None? && s.grid[r][WrapIndex(c - 3)].None?
    then SafeCastle(s, r, c, c - 1, c - 2) else []
  }

  /** The king's move two files to `target` when neither the square it passes nor `target` is attacked. */
  function SafeCastle(s: State, r: int, c: int, through: int, target: int): seq<Move>
    requires InBounds(r, c) && InBounds(r, target)
  {
    if !SquareUnderAttack(s, r, through) && !SquareUnderAttack(s, r, target) then [Mk(s, r, c, r, target)] else []
  }

  /** On a Good state the extra bounds of CastleMoves are implied by the castling conditions. */
  lemma CastleGuardsHold(s: State, r: int, c: int)
    requires Good(s) && InBounds(r, c) && UnmovedKing(s.grid[r][c], s.moved)
    ensures KingSideRight(s.rights, s.grid[r][c].value.color) ==> c + 2 < 8
    ensures QueenSideRight(s.rights, s.grid[r][c].value.color) ==> c - 2 >= 0 && -8 <= c - 3
  {
  }

  /** _get_king_moves: the eight neighbours, then the castling moves. */
  function KingMoves(s: State, r: int, c: int): seq<Move>
    requires InBounds(r, c)
  {
    if !IsKindAt(s.grid[r][c], King) then []
    else KingSteps(s, r, c, s.grid[r][c].value.color, 0, 0) + CastleMoves(s, r, c)
  }

  /** What the per-piece generator for (r, c) appends to a list that holds `prior`. */
  function PieceMoves(s: State, r: int, c: int, prior: seq<Move>): seq<Move>
    requires InBounds(r, c)
  {
    match s.grid[r][c]
    case None => []
    case Some(p) =>
      match p.kind
      case Pawn => PawnMoves(s, r, c)
      case Rook => RookMoves(s, r, c)
      case Knight => KnightMoves(s, r, c)
      case Bishop => BishopMoves(s, r, c)
      case Queen => QueenMoves(s, r, c, prior)
      case King => KingMoves(s, r, c)
  }

  /** A point of the nested row and column loops of get_valid_moves(): before square (r, c). */
  predicate LoopPoint(r: int, c: int)
  {
    (0 <= r < 8 && 0 <= c <= 8) || (r == 8 && c == 0)
  }

  /**
   * get_valid_moves() once the nested loops have visited every square before (r, c): the
   * rows above r, then the squares of row r left of column c. Each generator receives the
   * list built so far. (The state heads the decreases clause, unchanged by every call, so
   * that the verifier does not unroll all 64 squares on its own.)
   */
  function MovesBefore(s: State, r: nat, c: nat): seq<Move>
    requires LoopPoint(r, c)
    decreases s, r, c
  {
    if c == 0 then (if r == 0 then [] else MovesBefore(s, r - 1, 8))
    else
      var acc := MovesBefore(s, r, c - 1);
      acc + (if MoverOwns(s, r, c - 1) then PieceMoves(s, r, c - 1, acc) else [])
  }

  /** get_valid_moves() without a position: the pseudo-legal moves of the side to move, unfiltered. */
  function AllMoves(s: State): seq<Move>
  {
    MovesBefore(s, 8, 0)
  }

  /**
   * A move the generator for the piece on (r, c) may produce: it starts on that square,
   * ends on the board, reads its pieces and flags from the board as Move(start, end, self)
   * does, and (with no en-passant square) never lands on a piece of the mover's own colour.
   */
  predicate Generated(s: State, r: int, c: int, m: Move)
  {
    InBounds(r, c) && s.grid[r][c].Some? && MoveInBounds(m) &&
    m.startRow == r && m.startCol == c && m == Mk(s, r, c, m.endRow, m.endCol) &&
    (s.enPassant == None ==>
       s.grid[m.endRow][m.endCol].None? || s.grid[m.endRow][m.endCol].value.color != s.grid[r][c].value.color)
  }

  predicate AllGenerated(s: State, r: int, c: int, ms: seq<Move>)
  {
    forall i | 0 <= i < |ms| :: Generated(s, r, c, ms[i])
  }

  lemma AllGeneratedAppend(s: State, r: int, c: int, a: seq<Move>, b: seq<Move>)
    requires AllGenerated(s, r, c, a) && AllGenerated(s, r, c, b)
    ensures AllGenerated(s, r, c, a + b)
  {
    forall i | 0 <= i < |a + b|
      ensures Generated(s, r, c, (a + b)[i])
    {
      if i < |a| { assert (a + b)[i] == a[i]; } else { assert (a + b)[i] == b[i - |a|]; }
    }
  }

  lemma PawnForwardGenerated(s: State, r: int, c: int)
    requires InBounds(r, c) && s.grid[r][c].Some?
    ensures AllGenerated(s, r, c, PawnForward(s, r, c, s.grid[r][c].value.color))
  {
    var color := s.grid[r][c].value.color;
    var d := PawnDirection(color);
    if 0 <= r + d < 8 && s.grid[r + d][c].None? {
      var double := if OnStartRow(r, color) && s.grid[r + 2 * d][c].None? then [Mk(s, r, c, r + 2 * d, c)] else [];
      StepGenerated(s, r, c, r + d, c, [Mk(s, r, c, r + d, c)]);
      if OnStartRow(r, color) && s.grid[r + 2 * d][c].None? {
        StepGenerated(s, r, c, r + 2 * d, c, double);
      }
      AllGeneratedAppend(s, r, c, [Mk(s, r, c, r + d, c)], double);
    }
  }

  lemma PawnCaptureGenerated(s: State, r: int, c: int, offset: int)
    requires InBounds(r, c) && s.grid[r][c].Some?
    ensures AllGenerated(s, r, c, PawnCapture(s, r, c, s.grid[r][c].value.color, offset))
  {
  }

  lemma PawnMovesGenerated(s: State, r: int, c: int)
    requires InBounds(r, c)
    ensures AllGenerated(s, r, c, PawnMoves(s, r, c))
  {
    if IsKindAt(s.grid[r][c], Pawn) {
      var color := s.grid[r][c].value.color;
      var forward, left, right := PawnForward(s, r, c, color), PawnCapture(s, r, c, color, -1), PawnCapture(s, r, c, color, 1);
      PawnForwardGenerated(s, r, c);
      PawnCaptureGenerated(s, r, c, -1);
      PawnCaptureGenerated(s, r, c, 1);
      AllGeneratedAppend(s, r, c, forward, left);
      AllGeneratedAppend(s, r, c, forward + left, right);
    }
  }

  lemma {:induction false} SlideRayGenerated(s: State, r: int, c: int, er: int, ec: int, dr: int, dc: int, i: int)
    requires InBounds(r, c) && s.grid[r][c].Some?
    ensures AllGenerated(s, r, c, SlideRay(s, r, c, s.grid[r][c].value.color, er, ec, dr, dc, i))
    decreases 8 - i
  {
    var color := s.grid[r][c].value.color;
    if i < 8 && InBounds(er, ec) && s.grid[er][ec].None? {
      SlideRayGenerated(s, r, c, er + dr, ec + dc, dr, dc, i + 1);
      AllGeneratedAppend(s, r, c, [Mk(s, r, c, er, ec)], SlideRay(s, r, c, color, er + dr, ec + dc, dr, dc, i + 1));
    }
  }

  lemma {:induction false} SlideRaysGenerated(s: State, r: int, c: int, dirs: seq<(int, int)>, k: nat)
    requires InBounds(r, c) && s.grid[r][c].Some?
    ensures AllGenerated(s, r, c, SlideRays(s, r, c, s.grid[r][c].value.color, dirs, k))
    decreases |dirs| - k
  {
    var color := s.grid[r][c].value.color;
    if k < |dirs| {
      SlideRayGenerated(s, r, c, r + dirs[k].0, c + dirs[k].1, dirs[k].0, dirs[k].1, 1);
      SlideRaysGenerated(s, r, c, dirs, k + 1);
      AllGeneratedAppend(s, r, c, SlideRay(s, r, c, color, r + dirs[k].0, c + dirs[k].1, dirs[k].0, dirs[k].1, 1),
                         SlideRays(s, r, c, color, dirs, k + 1));
    }
  }

  lemma {:induction false} JumpTargetsGenerated(s: State, r: int, c: int, offs: seq<(int, int)>, k: nat)
    requires InBounds(r, c) && s.grid[r][c].Some?
    ensures AllGenerated(s, r, c, JumpTargets(s, r, c, s.grid[r][c].value.color, offs, k))
    decreases |offs| - k
  {
    var color := s.grid[r][c].value.color;
    if k < |offs| {
      var er, ec := r + offs[k].0, c + offs[k].1;
      var here := if InBounds(er, ec) && (s.grid[er][ec].None? || s.grid[er][ec].value.color != color)
                  then [Mk(s, r, c, er, ec)] else [];
      JumpTargetsGenerated(s, r, c, offs, k + 1);
      AllGeneratedAppend(s, r, c, here, JumpTargets(s, r, c, color, offs, k + 1));
    }
  }

  lemma {:induction false} SplitRayGenerated(s: State, r: int, c: int, er: int, ec: int, dr: int, dc: int, i: int)
    requires InBounds(r, c) && s.grid[r][c].Some?
    ensures AllGenerated(s, r, c, SplitRay(s, r, c, s.grid[r][c].value.color, er, ec, dr, dc, i).0)
    ensures AllGenerated(s, r, c, SplitRay(s, r, c, s.grid[r][c].value.color, er, ec, dr, dc, i).1)
    decreases 8 - i
  {
    var color := s.grid[r][c].value.color;
    if i < 8 && InBounds(er, ec) && s.grid[er][ec].None? {
      SplitRayGenerated(s, r, c, er + dr, ec + dc, dr, dc, i + 1);
      AllGeneratedAppend(s, r, c, [Mk(s, r, c, er, ec)], SplitRay(s, r, c, color, er + dr, ec + dc, dr, dc, i + 1).0);
    }
  }

  lemma {:induction false} SplitRaysGenerated(s: State, r: int, c: int, dirs: seq<(int, int)>, k: nat)
    requires InBounds(r, c) && s.grid[r][c].Some?
    ensures AllGenerated(s, r, c, SplitRays(s, r, c, s.grid[r][c].value.color, dirs, k).0)
    ensures AllGenerated(s, r, c, SplitRays(s, r, c, s.grid[r][c].value.color, dirs, k).1)
    decreases |dirs| - k
  {
    var color := s.grid[r][c].value.color;
    if k < |dirs| {
      var here := SplitRay(s, r, c, color, r + dirs[k].0, c + dirs[k].1, dirs[k].0, dirs[k].1, 1);
      var rest := SplitRays(s, r, c, color, dirs, k + 1);
      SplitRayGenerated(s, r, c, r + dirs[k].0, c + dirs[k].1, dirs[k].0, dirs[k].1, 1);
      SplitRaysGenerated(s, r, c, dirs, k + 1);
      AllGeneratedAppend(s, r, c, here.0, rest.0);
      AllGeneratedAppend(s, r, c, here.1, rest.1);
    }
  }

  lemma {:induction false} KingStepsGenerated(s: State, r: int, c: int, a: nat, b: nat)
    requires InBounds(r, c) && s.grid[r][c].Some?
    ensures AllGenerated(s, r, c, KingSteps(s, r, c, s.grid[r][c].value.color, a, b))
    decreases 3 - a, 3 - b
  {
    var color := s.grid[r][c].value.color;
    if a < 3 && b >= 3 {
      KingStepsGenerated(s, r, c, a + 1, 0);
    } else if a < 3 {
      KingStepsGenerated(s, r, c, a, b + 1);
      AllGeneratedAppend(s, r, c, KingStep(s, r, c, color, a, b), KingSteps(s, r, c, color, a, b + 1));
    }
  }

  /** A list holding at most the move to an empty square (er, ec) holds only generated moves. */
  lemma StepGenerated(s: State, r: int, c: int, er: int, ec: int, ms: seq<Move>)
    requires InBounds(r, c) && s.grid[r][c].Some? && InBounds(er, ec) && s.grid[er][ec].None?
    requires ms == [] || ms == [Mk(s, r, c, er, ec)]
    ensures AllGenerated(s, r, c, ms)
  {
  }

  lemma SafeCastleGenerated(s: State, r: int, c: int, through: int, target: int)
    requires InBounds(r, c) && InBounds(r, target) && s.grid[r][c].Some? && s.grid[r][target].None?
    ensures AllGenerated(s, r, c, SafeCastle(s, r, c, through, target))
  {
    StepGenerated(s, r, c, r, target, SafeCastle(s, r, c, through, target));
  }

  lemma KingsideGenerated(s: State, r: int, c: int, color: Color)
    requires InBounds(r, c) && s.grid[r][c].Some?
    ensures AllGenerated(s, r, c, KingsideCastle(s, r, c, color))
  {
    if c + 2 < 8 && s.grid[r][c + 2].None? {
      SafeCastleGenerated(s, r, c, c + 1, c + 2);
    }
  }

  lemma QueensideGenerated(s: State, r: int, c: int, color: Color)
    requires InBounds(r, c) && s.grid[r][c].Some?
    ensures AllGenerated(s, r, c, QueensideCastle(s, r, c, color))
  {
    if c - 2 >= 0 && s.grid[r][c - 2].None? {
      SafeCastleGenerated(s, r, c, c - 1, c - 2);
    }
  }

  lemma CastleMovesGenerated(s: State, r: int, c: int)
    requires InBounds(r, c)
    ensures AllGenerated(s, r, c, CastleMoves(s, r, c))
  {
    if !s.inCheck && UnmovedKing(s.grid[r][c], s.moved) {
      var color := s.grid[r][c].value.color;
      KingsideGenerated(s, r, c, color);
      QueensideGenerated(s, r, c, color);
      AllGeneratedAppend(s, r, c, KingsideCastle(s, r, c, color), QueensideCastle(s, r, c, color));
    }
  }

  lemma BishopMovesGenerated(s: State, r: int, c: int)
    requires InBounds(r, c)
    ensures AllGenerated(s, r, c, BishopMoves(s, r, c))
  {
    if IsKindAt(s.grid[r][c], Bishop) {
      SplitRaysGenerated(s, r, c, BishopDirections, 0);
      var split := SplitRays(s, r, c, s.grid[r][c].value.color, BishopDirections, 0);
      AllGeneratedAppend(s, r, c, split.0, if split.0 == [] then split.1 else []);
    }
  }

  lemma QueenMovesGenerated(s: State, r: int, c: int, prior: seq<Move>)
    requires InBounds(r, c)
    ensures AllGenerated(s, r, c, QueenMoves(s, r, c, prior))
  {
    if IsKindAt(s.grid[r][c], Queen) {
      var color := s.grid[r][c].value.color;
      SplitRaysGenerated(s, r, c, RookDirections, 0);
      SplitRaysGenerated(s, r, c, BishopDirections, 0);
      var straight := SplitRays(s, r, c, color, RookDirections, 0);
      var diagonal := SplitRays(s, r, c, color, BishopDirections, 0);
      AllGeneratedAppend(s, r, c, straight.0, diagonal.0);
      AllGeneratedAppend(s, r, c, straight.1, diagonal.1);
      AllGeneratedAppend(s, r, c, straight.0 + diagonal.0,
                         if prior + straight.0 + diagonal.0 == [] then straight.1 + diagonal.1 else []);
    }
  }

  lemma KingMovesGenerated(s: State, r: int, c: int)
    requires InBounds(r, c)
    ensures AllGenerated(s, r, c, KingMoves(s, r, c))
  {
    if IsKindAt(s.grid[r][c], King) {
      KingStepsGenerated(s, r, c, 0, 0);
      CastleMovesGenerated(s, r, c);
      AllGeneratedAppend(s, r, c, KingSteps(s, r, c, s.grid[r][c].value.color, 0, 0), CastleMoves(s, r, c));
    }
  }

  /** Every per-piece generator only produces moves of the piece on its square. */
  lemma PieceMovesGenerated(s: State, r: int, c: int, prior: seq<Move>)
    requires InBounds(r, c)
    ensures AllGenerated(s, r, c, PieceMoves(s, r, c, prior))
  {
    if s.grid[r][c].Some? {
      match s.grid[r][c].value.kind
      case Pawn => PawnMovesGenerated(s, r, c);
      case Rook => SlideRaysGenerated(s, r, c, RookDirections, 0);
      case Knight => JumpTargetsGenerated(s, r, c, KnightOffsets, 0);
      case Bishop => BishopMovesGenerated(s, r, c);
      case Queen => QueenMovesGenerated(s, r, c, prior);
      case King => KingMovesGenerated(s, r, c);
    }
  }

  /** A move of the full generator, with the square of the mover's piece it came from. */
  predicate FromMover(s: State, m: Move)
  {
    MoveInBounds(m) && MoverOwns(s, m.startRow, m.startCol) && Generated(s, m.startRow, m.startCol, m)
  }

  /** get_valid_moves() only produces moves of the side to move's pieces. */
  lemma {:induction false} MovesBeforeFromMover(s: State, r: nat, c: nat)
    requires LoopPoint(r, c)
    ensures forall i | 0 <= i < |MovesBefore(s, r, c)| :: FromMover(s, MovesBefore(s, r, c)[i])
    decreases r, c
  {
    if c == 0 && r > 0 {
      MovesBeforeFromMover(s, r - 1, 8);
    } else if c > 0 {
      MovesBeforeFromMover(s, r, c - 1);
      var acc := MovesBefore(s, r, c - 1);
      var here := if MoverOwns(s, r, c - 1) then PieceMoves(s, r, c - 1, acc) else [];
      PieceMovesGenerated(s, r, c - 1, acc);
      forall i | 0 <= i < |acc + here|
        ensures FromMover(s, (acc + here)[i])
      {
        if i < |acc| { assert (acc + here)[i] == acc[i]; }
        else { assert (acc + here)[i] == here[i - |acc|]; assert Generated(s, r, c - 1, here[i - |acc|]); }
      }
    }
  }

  lemma AllMovesFromMover(s: State)
    ensures forall i | 0 <= i < |AllMoves(s)| :: FromMover(s, AllMoves(s)[i])
  {
    MovesBeforeFromMover(s, 8, 0);
  }
}
