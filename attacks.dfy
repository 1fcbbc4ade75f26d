/**
 * The unfiltered attack generators and the attack test (chess_engine/board.py:692-884):
 * what square_under_attack collects for the side not to move, and is_in_check.
 */
module Attacks {
  import opened Wrappers
  import opened Pieces
  import opened Moves
  import opened BoardState

  /** Up, right, down, left. */
  const RookDirections: seq<(int, int)> := [(-1, 0), (0, 1), (1, 0), (0, -1)]

  /** Up-left, up-right, down-right, down-left. */
  const BishopDirections: seq<(int, int)> := [(-1, -1), (-1, 1), (1, 1), (1, -1)]

  const KnightOffsets: seq<(int, int)> :=
    [(-2, -1), (-2, 1), (-1, -2), (-1, 2), (1, -2), (1, 2), (2, -1), (2, 1)]

  /** Direction lists whose components are -1, 0 or 1. */
  predicate UnitSteps(dirs: seq<(int, int)>)
  {
    forall k | 0 <= k < |dirs| :: -1 <= dirs[k].0 <= 1 && -1 <= dirs[k].1 <= 1
  }

  /** -1 (up the board) for white, +1 for black. */
  function PawnDirection(c: Color): int
  {
    if c == White then -1 else 1
  }

  /** _get_pawn_attacks: the two forward diagonals that are on the board. */
  function PawnAttacks(g: Grid, r: int, c: int): (ms: seq<Move>)
    requires InBounds(r, c)
  {
    if IsKindAt(g[r][c], Pawn) then
      var er := r + PawnDirection(g[r][c].value.color);
      (if InBounds(er, c - 1) then [PlainMove(r, c, er, c - 1)] else []) +
      (if InBounds(er, c + 1) then [PlainMove(r, c, er, c + 1)] else [])
    else []
  }

  /**
   * One sliding direction from its i-th square (er, ec) = (r + dr * i, c + dc * i) on: every
   * square up to and including the first occupied one. The next square is reached by adding
   * the direction once more.
   */
  function AttackRay(g: Grid, r: int, c: int, er: int, ec: int, dr: int, dc: int, i: int): seq<Move>
    decreases g, 8 - i
  {
    if i >= 8 then []
    else if !InBounds(er, ec) then []
    else if g[er][ec].Some? then [PlainMove(r, c, er, ec)]
    else [PlainMove(r, c, er, ec)] + AttackRay(g, r, c, er + dr, ec + dc, dr, dc, i + 1)
  }

  /** The rays of dirs[k..], in order. */
  function AttackRays(g: Grid, r: int, c: int, dirs: seq<(int, int)>, k: nat): seq<Move>
    decreases g, |dirs| - k
  {
    if k >= |dirs| then []
    else AttackRay(g, r, c, r + dirs[k].0, c + dirs[k].1, dirs[k].0, dirs[k].1, 1) + AttackRays(g, r, c, dirs, k + 1)
  }

  /** The on-board targets of offs[k..], in order (the knight's jumps). */
  function OffsetTargets(r: int, c: int, offs: seq<(int, int)>, k: nat): seq<Move>
    decreases r, |offs| - k
  {
    if k >= |offs| then []
    else
      (if InBounds(r + offs[k].0, c + offs[k].1) then [PlainMove(r, c, r + offs[k].0, c + offs[k].1)] else []) +
      OffsetTargets(r, c, offs, k + 1)
  }

  /**
   * The on-board king neighbours from the pass d_row = a - 1, d_col = b - 1 of the nested
   * loops over [-1, 0, 1] on, skipping (0, 0).
   */
  function KingTargets(r: int, c: int, a: nat, b: nat): seq<Move>
    decreases r, 3 - a, 3 - b
  {
    if a >= 3 then []
    else if b >= 3 then KingTargets(r, c, a + 1, 0)
    else KingTarget(r, c, a, b) + KingTargets(r, c, a, b + 1)
  }

  /** The pass d_row = a - 1, d_col = b - 1: the neighbour, when it is one and on the board. */
  function KingTarget(r: int, c: int, a: int, b: int): seq<Move>
  {
    var dr, dc := a - 1, b - 1;
    if (dr, dc) != (0, 0) && InBounds(r + dr, c + dc) then [PlainMove(r, c, r + dr, c + dc)] else []
  }

  /** The attack generator square_under_attack dispatches to for the piece on (r, c). */
  function PieceAttacks(g: Grid, r: int, c: int): seq<Move>
    requires InBounds(r, c)
  {
    match g[r][c]
    case None => []
    case Some(p) =>
      match p.kind
      case Pawn => PawnAttacks(g, r, c)
      case Rook => AttackRays(g, r, c, RookDirections, 0)
      case Knight => OffsetTargets(r, c, KnightOffsets, 0)
      case Bishop => AttackRays(g, r, c, BishopDirections, 0)
      case Queen => AttackRays(g, r, c, RookDirections, 0) + AttackRays(g, r, c, BishopDirections, 0)
      case King => KingTargets(r, c, 0, 0)
  }

  /** The attacks contributed by the square (r, c) when its piece has colour side. */
  function SquareAttacks(g: Grid, side: Color, r: int, c: int): seq<Move>
    requires InBounds(r, c)
  {
    if g[r][c].Some? && g[r][c].value.color == side then PieceAttacks(g, r, c) else []
  }

  /**
   * The attacks of the pieces of colour side on the squares from (r, c) on, in the order of
   * the nested row and column loops. (The grid heads the decreases clause, unchanged by
   * every call, so that the verifier does not unroll all 64 squares on its own.)
   */
  function AttacksFrom(g: Grid, side: Color, r: nat, c: nat): seq<Move>
    decreases g, 8 - r, 8 - c
  {
    if r >= 8 then []
    else if c >= 8 then AttacksFrom(g, side, r + 1, 0)
    else SquareAttacks(g, side, r, c) + AttacksFrom(g, side, r, c + 1)
  }

  /** The list square_under_attack builds after flipping the turn: the attacks of the side not to move. */
  function OpponentAttacks(s: State): seq<Move>
  {
    AttacksFrom(s.grid, Opponent(Mover(s)), 0, 0)
  }

  predicate Hits(ms: seq<Move>, r: int, c: int)
  {
    exists i | 0 <= i < |ms| :: ms[i].endRow == r && ms[i].endCol == c
  }

  /** square_under_attack(row, col). */
  predicate SquareUnderAttack(s: State, r: int, c: int)
  {
    Hits(OpponentAttacks(s), r, c)
  }

  /** is_in_check: the cached king square of the side to move is attacked. */
  predicate InCheck(s: State)
  {
    SquareUnderAttack(s, KingLocation(s, Mover(s)).0, KingLocation(s, Mover(s)).1)
  }

  lemma {:induction false} HitsAppend(a: seq<Move>, b: seq<Move>, r: int, c: int)
    ensures Hits(a + b, r, c) <==> Hits(a, r, c) || Hits(b, r, c)
  {
    if Hits(a + b, r, c) {
      var i :| 0 <= i < |a + b| && (a + b)[i].endRow == r && (a + b)[i].endCol == c;
      if i >= |a| { assert b[i - |a|] == (a + b)[i]; } else { assert a[i] == (a + b)[i]; }
    }
    if Hits(a, r, c) {
      var i :| 0 <= i < |a| && a[i].endRow == r && a[i].endCol == c;
      assert (a + b)[i] == a[i];
    }
    if Hits(b, r, c) {
      var i :| 0 <= i < |b| && b[i].endRow == r && b[i].endCol == c;
      assert (a + b)[|a| + i] == b[i];
    }
  }

  /** The square (row, col) is visited at or after (r, c) by the nested loops. */
  predicate After(r: int, c: int, row: int, col: int)
  {
    (row == r && c <= col < 8) || (r < row < 8 && 0 <= col < 8)
  }

  /** Some piece of colour side on a square visited from (r, c) on attacks (tr, tc). */
  predicate SomeAttackerFrom(g: Grid, side: Color, r: nat, c: nat, tr: int, tc: int)
  {
    exists row, col | 0 <= row < 8 && 0 <= col < 8 && After(r, c, row, col) ::
      Hits(SquareAttacks(g, side, row, col), tr, tc)
  }

  lemma {:induction false} AttacksFromHits(g: Grid, side: Color, r: nat, c: nat, tr: int, tc: int)
    ensures Hits(AttacksFrom(g, side, r, c), tr, tc) <==> SomeAttackerFrom(g, side, r, c, tr, tc)
    decreases 8 - r, 8 - c
  {
    if r < 8 && c >= 8 {
      AttacksFromHits(g, side, r + 1, 0, tr, tc);
      if SomeAttackerFrom(g, side, r, c, tr, tc) {
        var row, col :| 0 <= row < 8 && 0 <= col < 8 && After(r, c, row, col) && Hits(SquareAttacks(g, side, row, col), tr, tc);
        assert After(r + 1, 0, row, col);
      }
      if SomeAttackerFrom(g, side, r + 1, 0, tr, tc) {
        var row, col :| 0 <= row < 8 && 0 <= col < 8 && After(r + 1, 0, row, col) && Hits(SquareAttacks(g, side, row, col), tr, tc);
        assert After(r, c, row, col);
      }
    } else if r < 8 {
      HitsAppend(SquareAttacks(g, side, r, c), AttacksFrom(g, side, r, c + 1), tr, tc);
      AttacksFromHits(g, side, r, c + 1, tr, tc);
      if SomeAttackerFrom(g, side, r, c, tr, tc) {
        var row, col :| 0 <= row < 8 && 0 <= col < 8 && After(r, c, row, col) && Hits(SquareAttacks(g, side, row, col), tr, tc);
        if (row, col) != (r, c) { assert After(r, c + 1, row, col); }
      }
      if SomeAttackerFrom(g, side, r, c + 1, tr, tc) {
        var row, col :| 0 <= row < 8 && 0 <= col < 8 && After(r, c + 1, row, col) && Hits(SquareAttacks(g, side, row, col), tr, tc);
        assert After(r, c, row, col);
      }
      if Hits(SquareAttacks(g, side, r, c), tr, tc) {
        assert After(r, c, r, c);
      }
    }
  }

  /**
   * square_under_attack holds exactly when some piece of the side not to move has the
   * square among its unfiltered attack moves.
   */
  lemma SquareUnderAttackIffAttacker(s: State, r: int, c: int)
    ensures SquareUnderAttack(s, r, c) <==>
      exists row, col | 0 <= row < 8 && 0 <= col < 8 ::
        s.grid[row][col].Some? && s.grid[row][col].value.color == Opponent(Mover(s)) &&
        Hits(PieceAttacks(s.grid, row, col), r, c)
  {
    var g, opp := s.grid, Opponent(Mover(s));
    AttacksFromHits(g, opp, 0, 0, r, c);
    if SquareUnderAttack(s, r, c) {
      var row, col :| 0 <= row < 8 && 0 <= col < 8 && After(0, 0, row, col) && Hits(SquareAttacks(g, opp, row, col), r, c);
      assert g[row][col].Some? && g[row][col].value.color == opp && Hits(PieceAttacks(g, row, col), r, c);
    }
    if exists row, col | 0 <= row < 8 && 0 <= col < 8 ::
        g[row][col].Some? && g[row][col].value.color == opp && Hits(PieceAttacks(g, row, col), r, c) {
      var row, col :| 0 <= row < 8 && 0 <= col < 8 &&
        g[row][col].Some? && g[row][col].value.color == opp && Hits(PieceAttacks(g, row, col), r, c);
      assert After(0, 0, row, col) && Hits(SquareAttacks(g, opp, row, col), r, c);
    }
  }
}
