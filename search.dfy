/**
 * The search of ChessAI (chess_engine/ai_minimax.py): the value tables, the depth for a
 * difficulty, the static evaluation, and minimax with alpha-beta over the board, which
 * borrows the board for every make_move / recursive search / undo_move of a child.
 */
module Search {
  import opened Wrappers
  import opened Pieces
  import opened Moves
  import opened BoardState
  import opened Attacks
  import opened Generators
  import opened Legality
  import opened MakeUndo
  import opened Scores

  /** PIECE_VALUES. */
  function PieceValue(k: Kind): int
  {
    match k
    case Pawn => 10
    case Knight => 30
    case Bishop => 30
    case Rook => 50
    case Queen => 90
    case King => 900
  }

  const PawnBonuses: seq<seq<int>> := [
    [0, 0, 0, 0, 0, 0, 0, 0],
    [50, 50, 50, 50, 50, 50, 50, 50],
    [10, 10, 20, 30, 30, 20, 10, 10],
    [5, 5, 10, 25, 25, 10, 5, 5],
    [0, 0, 0, 20, 20, 0, 0, 0],
    [5, -5, -10, 0, 0, -10, -5, 5],
    [5, 10, 10, -20, -20, 10, 10, 5],
    [0, 0, 0, 0, 0, 0, 0, 0]]

  const KnightBonuses: seq<seq<int>> := [
    [-50, -40, -30, -30, -30, -30, -40, -50],
    [-40, -20, 0, 0, 0, 0, -20, -40],
    [-30, 0, 10, 15, 15, 10, 0, -30],
    [-30, 5, 15, 20, 20, 15, 5, -30],
    [-30, 0, 15, 20, 20, 15, 0, -30],
    [-30, 5, 10, 15, 15, 10, 5, -30],
    [-40, -20, 0, 5, 5, 0, -20, -40],
    [-50, -40, -30, -30, -30, -30, -40, -50]]

  const BishopBonuses: seq<seq<int>> := [
    [-20, -10, -10, -10, -10, -10, -10, -20],
    [-10, 0, 0, 0, 0, 0, 0, -10],
    [-10, 0, 10, 10, 10, 10, 0, -10],
    [-10, 5, 5, 10, 10, 5, 5, -10],
    [-10, 0, 5, 10, 10, 5, 0, -10],
    [-10, 10, 10, 10, 10, 10, 10, -10],
    [-10, 5, 0, 0, 0, 0, 5, -10],
    [-20, -10, -10, -10, -10, -10, -10, -20]]

  const RookBonuses: seq<seq<int>> := [
    [0, 0, 0, 0, 0, 0, 0, 0],
    [5, 10, 10, 10, 10, 10, 10, 5],
    [-5, 0, 0, 0, 0, 0, 0, -5],
    [-5, 0, 0, 0, 0, 0, 0, -5],
    [-5, 0, 0, 0, 0, 0, 0, -5],
    [-5, 0, 0, 0, 0, 0, 0, -5],
    [-5, 0, 0, 0, 0, 0, 0, -5],
    [0, 0, 0, 5, 5, 0, 0, 0]]

  const QueenBonuses: seq<seq<int>> := [
    [-20, -10, -10, -5, -5, -10, -10, -20],
    [-10, 0, 0, 0, 0, 0, 0, -10],
    [-10, 0, 5, 5, 5, 5, 0, -10],
    [-5, 0, 5, 5, 5, 5, 0, -5],
    [0, 0, 5, 5, 5, 5, 0, -5],
    [-10, 5, 5, 5, 5, 5, 0, -10],
    [-10, 0, 5, 0, 0, 0, 0, -10],
    [-20, -10, -10, -5, -5, -10, -10, -20]]

  const KingBonuses: seq<seq<int>> := [
    [-30, -40, -40, -50, -50, -40, -40, -30],
    [-30, -40, -40, -50, -50, -40, -40, -30],
    [-30, -40, -40, -50, -50, -40, -40, -30],
    [-30, -40, -40, -50, -50, -40, -40, -30],
    [-20, -30, -30, -40, -40, -30, -30, -20],
    [-10, -20, -20, -20, -20, -20, -20, -10],
    [20, 20, 0, 0, 0, 0, 20, 20],
    [20, 30, 10, 0, 0, 10, 30, 20]]

  /** POSITION_BONUSES: every kind has a table. */
  function BonusTable(k: Kind): (t: seq<seq<int>>)
    ensures |t| == 8 && forall r | 0 <= r < 8 :: |t[r]| == 8
  {
    match k
    case Pawn => PawnBonuses
    case Knight => KnightBonuses
    case Bishop => BishopBonuses
    case Rook => RookBonuses
    case Queen => QueenBonuses
    case King => KingBonuses
  }

  /**
   * What the piece p on (r, c) adds to the score: its value plus its table entry, the table
   * read on row r for black and on row 7 - r for white; positive for white, negative for black.
   */
  function PieceScore(p: Piece, r: int, c: int): int
    requires InBounds(r, c)
  {
    var posRow := if p.color == Black then r else 7 - r;
    var v := PieceValue(p.kind) + BonusTable(p.kind)[posRow][c];
    if p.color == White then v else -v
  }

  function CellScore(x: Cell, r: int, c: int): int
    requires InBounds(r, c)
  {
    if x.Some? then PieceScore(x.value, r, c) else 0
  }

  /** The material loop of _evaluate_position from square (r, c) on, in the order of the nested loops. */
  function ScoreFrom(g: Grid, r: nat, c: nat): int
    decreases 8 - r, 8 - c
  {
    if r >= 8 then 0
    else if c >= 8 then ScoreFrom(g, r + 1, 0)
    else CellScore(g[r][c], r, c) + ScoreFrom(g, r, c + 1)
  }

  /** The piece scores of row r from column c on. */
  function RowScore(g: Grid, r: int, c: nat): int
    requires 0 <= r < 8
    decreases 8 - c
  {
    if c >= 8 then 0 else CellScore(g[r][c], r, c) + RowScore(g, r, c + 1)
  }

  /** _evaluate_position: the checkmate and stalemate scores, otherwise the material and table sum. */
  function Evaluate(s: State): int
  {
    if s.checkmate then (if s.whiteToMove then -10000 else 10000)
    else if s.stalemate then 0
    else ScoreFrom(s.grid, 0, 0)
  }

  /** The scores of the rows from r on. */
  function Rows(g: Grid, r: nat): int
    decreases 8 - r
  {
    if r >= 8 then 0 else RowScore(g, r, 0) + Rows(g, r + 1)
  }

  /** The scores of the rows above row n. */
  function RowsAbove(g: Grid, n: nat): int
    requires n <= 8
  {
    if n == 0 then 0 else RowsAbove(g, n - 1) + RowScore(g, n - 1, 0)
  }

  /**
   * The terminal scores (checkmate: -10000 with white to move, 10000 with black to move;
   * stalemate: 0), otherwise the sum of every row's piece scores.
   */
  lemma EvaluateTerminal(s: State)
    ensures s.checkmate && s.whiteToMove ==> Evaluate(s) == -10000
    ensures s.checkmate && !s.whiteToMove ==> Evaluate(s) == 10000
    ensures !s.checkmate && s.stalemate ==> Evaluate(s) == 0
    ensures !s.checkmate && !s.stalemate ==> Evaluate(s) == Rows(s.grid, 0)
  {
    ScoreFromRows(s.grid, 0);
  }

  /** The nested loops visit row r from column c, then the later rows. */
  lemma {:induction false} ScoreFromRow(g: Grid, r: nat, c: nat)
    requires r < 8
    ensures ScoreFrom(g, r, c) == RowScore(g, r, c) + ScoreFrom(g, r + 1, 0)
    decreases 8 - c
  {
    if c < 8 {
      ScoreFromRow(g, r, c + 1);
    }
  }

  lemma {:induction false} ScoreFromRows(g: Grid, r: nat)
    ensures ScoreFrom(g, r, 0) == Rows(g, r)
    decreases 8 - r
  {
    if r < 8 {
      ScoreFromRow(g, r, 0);
      ScoreFromRows(g, r + 1);
    }
  }

  lemma {:induction false} AboveAndFrom(g: Grid, n: nat)
    requires n <= 8
    ensures RowsAbove(g, n) + Rows(g, n) == Rows(g, 0)
  {
    if n > 0 {
      AboveAndFrom(g, n - 1);
    }
  }

  /** The colour-swapped piece on the vertically mirrored square. */
  function Mirror(g: Grid): (h: Grid)
    ensures forall r, c | 0 <= r < 8 && 0 <= c < 8 :: h[r][c] == SwapColor(g[7 - r][c])
  {
    seq(8, r requires 0 <= r < 8 => seq(8, c requires 0 <= c < 8 => SwapColor(g[7 - r][c])))
  }

  function SwapColor(x: Cell): Cell
  {
    if x.Some? then Some(x.value.(color := Opponent(x.value.color))) else None
  }

  lemma {:induction false} MirrorRow(g: Grid, r: int, c: nat)
    requires 0 <= r < 8
    ensures RowScore(Mirror(g), r, c) == -RowScore(g, 7 - r, c)
    decreases 8 - c
  {
    if c < 8 {
      MirrorRow(g, r, c + 1);
    }
  }

  lemma {:induction false} MirrorRows(g: Grid, k: nat)
    requires k <= 8
    ensures Rows(Mirror(g), k) == -RowsAbove(g, 8 - k)
    decreases 8 - k
  {
    if k < 8 {
      MirrorRows(g, k + 1);
      MirrorRow(g, k, 0);
      assert RowsAbove(g, 8 - k) == RowsAbove(g, 7 - k) + RowScore(g, 7 - k, 0);
    }
  }

  /**
   * Mirroring the board vertically and swapping every piece's colour negates the score of a
   * position that is neither checkmate nor stalemate.
   */
  lemma MirrorNegates(s: State, t: State)
    requires !s.checkmate && !s.stalemate && !t.checkmate && !t.stalemate
    requires t.grid == Mirror(s.grid)
    ensures Evaluate(t) == -Evaluate(s)
  {
    ScoreFromRows(s.grid, 0);
    ScoreFromRows(t.grid, 0);
    MirrorRows(s.grid, 0);
    AboveAndFrom(s.grid, 8);
  }

  /** Two cells holding pieces of the same colour and kind, or both empty. */
  predicate SameShape(x: Cell, y: Cell)
  {
    (x.Some? <==> y.Some?) && (x.Some? ==> x.value.color == y.value.color && x.value.kind == y.value.kind)
  }

  /** Two grids holding the same colours and kinds on every square score the same. */
  lemma {:induction false} SameShapeRow(g: Grid, h: Grid, r: int, c: nat)
    requires 0 <= r < 8
    requires forall col | 0 <= col < 8 :: SameShape(g[r][col], h[r][col])
    ensures RowScore(g, r, c) == RowScore(h, r, c)
    decreases 8 - c
  {
    if c < 8 {
      SameShapeRow(g, h, r, c + 1);
    }
  }

  lemma {:induction false} SameShapeRows(g: Grid, h: Grid, k: nat)
    requires forall r, c | 0 <= r < 8 && 0 <= c < 8 :: SameShape(g[r][c], h[r][c])
    ensures Rows(g, k) == Rows(h, k)
    decreases 8 - k
  {
    if k < 8 {
      SameShapeRow(g, h, k, 0);
      SameShapeRows(g, h, k + 1);
    }
  }

  lemma InitialCellMirror(r: int, c: int)
    requires 0 <= r < 8 && 0 <= c < 8
    ensures SameShape(InitialCell(r, c), SwapColor(InitialCell(7 - r, c)))
  {
  }

  /** A position that is its own colour-swapped mirror image, up to piece identities, scores 0. */
  lemma SymmetricScoresZero(s: State)
    requires !s.checkmate && !s.stalemate
    requires forall r, c | 0 <= r < 8 && 0 <= c < 8 :: SameShape(s.grid[r][c], Mirror(s.grid)[r][c])
    ensures Evaluate(s) == 0
  {
    var h := Mirror(s.grid);
    SameShapeRows(s.grid, h, 0);
    MirrorNegates(s, s.(grid := h));
    ScoreFromRows(s.grid, 0);
    ScoreFromRows(h, 0);
  }

  /** The starting position scores 0. */
  lemma InitialScoresZero()
    ensures Evaluate(Initial()) == 0
  {
    var s := Initial();
    forall r, c | 0 <= r < 8 && 0 <= c < 8
      ensures SameShape(s.grid[r][c], Mirror(s.grid)[r][c])
    {
      InitialCellMirror(r, c);
    }
    SymmetricScoresZero(s);
  }

  /** _get_depth_from_difficulty: the depth_map lookup with default 3. */
  function DepthFromDifficulty(difficulty: int): (depth: int)
    ensures 1 <= difficulty <= 5 ==> depth == difficulty
    ensures !(1 <= difficulty <= 5) ==> depth == 3
    ensures 1 <= depth <= 5
  {
    var depthMap := map[1 := 1, 2 := 2, 3 := 3, 4 := 4, 5 := 5];
    if difficulty in depthMap then depthMap[difficulty] else 3
  }

  /** A board the search can borrow: the board invariant, exact king caches and no en-passant square. */
  predicate Searchable(s: State)
  {
    Good(s) && KingsCached(s) && s.enPassant == None
  }

  /**
   * What a search promises to hand back to its caller: the same cells, king locations, turn,
   * log, castling rights and en-passant square. Pieces may have been marked as moved.
   */
  predicate Restores(s: State, t: State)
  {
    t.grid == s.grid && t.whiteKing == s.whiteKing && t.blackKing == s.blackKing &&
    t.whiteToMove == s.whiteToMove && t.log == s.log && t.rights == s.rights &&
    t.enPassant == s.enPassant && s.moved <= t.moved
  }

  /** A move built from this board whose two squares differ. */
  predicate Playable(s: State, m: Move)
  {
    BoardMove(s, m) && (m.startRow, m.startCol) != (m.endRow, m.endCol)
  }

  predicate AllPlayable(s: State, ms: seq<Move>, k: nat)
  {
    forall i | k <= i < |ms| :: Playable(s, ms[i])
  }

  lemma AllMovesPlayable(s: State)
    requires s.enPassant == None
    ensures AllPlayable(s, AllMoves(s), 0)
  {
    AllMovesFromMover(s);
  }

  /** A borrowed board handed back restored still accepts the moves generated before. */
  lemma PlayableKept(s: State, t: State, ms: seq<Move>, k: nat)
    requires AllPlayable(s, ms, k) && Restores(s, t)
    ensures AllPlayable(t, ms, k)
  {
    forall i | k <= i < |ms|
      ensures Playable(t, ms[i])
    {
      assert Playable(s, ms[i]);
    }
  }

  /**
   * make_move, a search that hands the board back as it found it, then undo_move: the board
   * is as before the make_move, up to moved pieces.
   */
  lemma RoundTrip(s: State, m: Move, p: State)
    requires Searchable(s) && Playable(s, m)
    requires Good(p) && Restores(Make(s, m), p)
    ensures p.log != [] && MoveInBounds(Last(p.log))
    ensures Searchable(Undo(p).1) && Restores(s, Undo(p).1)
  {
    var t := Make(s, m);
    assert Last(p.log) == m;
    UndoAfterPlace(s, m, p);
    UndoPreservesGood(p);
    KingsCachedTransfer(s, Undo(p).1);
  }

  /** The king caches are exact on any state with the same cells and cached squares. */
  lemma KingsCachedTransfer(s: State, u: State)
    requires KingsCached(s) && u.grid == s.grid && u.whiteKing == s.whiteKing && u.blackKing == s.blackKing
    ensures KingsCached(u)
  {
    assert forall c: Color :: KingLocation(u, c) == KingLocation(s, c);
  }

  /** The result of a search: its score, the board handed back and the number of nodes counted. */
  datatype Outcome = Outcome(score: Ext, state: State, nodes: nat)

  /**
   * _minimax(board, depth, alpha, beta, is_maximizing): a leaf at depth 0 or on a board flagged
   * checkmate or stalemate, otherwise the loop over the unfiltered moves of get_valid_moves().
   * Each call counts one node.
   */
  function Minimax(s: State, depth: nat, alpha: Ext, beta: Ext, maximizing: bool): (o: Outcome)
    requires Searchable(s)
    ensures Searchable(o.state) && Restores(s, o.state) && o.nodes >= 1
    decreases depth, 1
  {
    if depth == 0 || s.checkmate || s.stalemate then Outcome(Fin(Evaluate(s)), s, 1)
    else
      AllMovesPlayable(s);
      var o := Siblings(s, AllMoves(s), 0, depth, alpha, beta, maximizing, Worst(maximizing));
      Outcome(o.score, o.state, o.nodes + 1)
  }

  /** A leaf of the search: the static evaluation, one node, the board untouched. */
  lemma MinimaxLeaf(s: State, depth: nat, alpha: Ext, beta: Ext, maximizing: bool)
    requires Searchable(s) && (depth == 0 || s.checkmate || s.stalemate)
    ensures Minimax(s, depth, alpha, beta, maximizing) == Outcome(Fin(Evaluate(s)), s, 1)
  {
  }

  /** An inner node of the search: the move loop over every generated move, plus this node. */
  lemma MinimaxInner(s: State, depth: nat, alpha: Ext, beta: Ext, maximizing: bool)
    requires Searchable(s) && depth > 0 && !s.checkmate && !s.stalemate
    ensures AllPlayable(s, AllMoves(s), 0)
    ensures var o := Siblings(s, AllMoves(s), 0, depth, alpha, beta, maximizing, Worst(maximizing));
      Minimax(s, depth, alpha, beta, maximizing) == Outcome(o.score, o.state, o.nodes + 1)
  {
    AllMovesPlayable(s);
  }

  /** One child: make_move, the search one level down for the other side, undo_move. */
  function Child(s: State, m: Move, depth: nat, alpha: Ext, beta: Ext, maximizing: bool): (o: Outcome)
    requires Searchable(s) && Playable(s, m) && 0 < depth
    ensures Searchable(o.state) && Restores(s, o.state)
    decreases depth, 0, 0
  {
    MakePreservesGood(s, m);
    MakePreservesKingsCached(s, m);
    var sub := Minimax(Make(s, m), depth - 1, alpha, beta, !maximizing);
    RoundTrip(s, m, sub.state);
    Outcome(sub.score, Undo(sub.state).1, sub.nodes)
  }

  /** A move of the board's own leaves a board the search can go on with. */
  lemma PlayKeepsSearchable(s: State, m: Move)
    requires Searchable(s) && Playable(s, m)
    ensures Searchable(Make(s, m))
  {
    MakePreservesGood(s, m);
    MakePreservesKingsCached(s, m);
  }

  /** What a caller playing one child on a board relies on, step by step. */
  lemma ChildSteps(s: State, m: Move, depth: nat, alpha: Ext, beta: Ext, maximizing: bool)
    requires Searchable(s) && Playable(s, m) && 0 < depth
    ensures BoardMove(s, m) && Searchable(Make(s, m))
    ensures var sub := Minimax(Make(s, m), depth - 1, alpha, beta, !maximizing);
      Child(s, m, depth, alpha, beta, maximizing) == Outcome(sub.score, Undo(sub.state).1, sub.nodes)
  {
    MakePreservesGood(s, m);
    MakePreservesKingsCached(s, m);
  }

  /**
   * The move loop from the k-th move on, with the running best score and window: the best
   * score takes each child's score in, the window follows it, and the loop breaks once
   * beta <= alpha.
   */
  function Siblings(s: State, ms: seq<Move>, k: nat, depth: nat, alpha: Ext, beta: Ext, maximizing: bool, best: Ext): (o: Outcome)
    requires Searchable(s) && 0 < depth && k <= |ms| && AllPlayable(s, ms, k)
    ensures Searchable(o.state) && Restores(s, o.state)
    decreases depth, 0, |ms| - k
  {
    if k == |ms| then Outcome(best, s, 0)
    else
      var c := Child(s, ms[k], depth, alpha, beta, maximizing);
      var best' := Pick(maximizing, best, c.score);
      var alpha' := if maximizing then Max(alpha, best') else alpha;
      var beta' := if maximizing then beta else Min(beta, best');
      if Le(beta', alpha') then Outcome(best', c.state, c.nodes)
      else
        PlayableKept(s, c.state, ms, k + 1);
        var rest := Siblings(c.state, ms, k + 1, depth, alpha', beta', maximizing, best');
        Outcome(rest.score, rest.state, c.nodes + rest.nodes)
  }

  /** The move get_best_move picks so far, its score, every child's score, the board and the nodes. */
  datatype Choice = Choice(move: Option<Move>, score: Ext, scores: seq<Ext>, state: State, nodes: nat)

  /**
   * The root loop of get_best_move from the k-th move on: every move is searched with the
   * window narrowed by the best score so far, never pruned; a strictly better score takes
   * over the best move.
   */
  function Root(s: State, ms: seq<Move>, k: nat, depth: nat, alpha: Ext, beta: Ext, maximizing: bool, c: Choice): (r: Choice)
    requires Searchable(s) && 0 < depth && k <= |ms| && AllPlayable(s, ms, k)
    ensures Searchable(r.state) && Restores(s, r.state)
    decreases |ms| - k
  {
    if k == |ms| then c.(state := s)
    else
      var child := Child(s, ms[k], depth, alpha, beta, maximizing);
      var c' := Step(ms, k, maximizing, c, child);
      var alpha' := if maximizing then Max(alpha, c'.score) else alpha;
      var beta' := if maximizing then beta else Min(beta, c'.score);
      PlayableKept(s, child.state, ms, k + 1);
      Root(child.state, ms, k + 1, depth, alpha', beta', maximizing, c')
  }

  /** The root loop after the last move: the choice as it stands, with the board handed back. */
  lemma RootEnd(s: State, ms: seq<Move>, depth: nat, alpha: Ext, beta: Ext, maximizing: bool, c: Choice)
    requires Searchable(s) && 0 < depth
    ensures Root(s, ms, |ms|, depth, alpha, beta, maximizing, c) == c.(state := s)
  {
  }

  /** One pass of the root loop: the k-th child, then the rest with the updated choice and window. */
  lemma RootUnfold(s: State, ms: seq<Move>, k: nat, depth: nat, alpha: Ext, beta: Ext, maximizing: bool, c: Choice)
    requires Searchable(s) && 0 < depth && k < |ms| && AllPlayable(s, ms, k)
    ensures Playable(s, ms[k])
    ensures var child := Child(s, ms[k], depth, alpha, beta, maximizing);
      var c' := Step(ms, k, maximizing, c, child);
      Searchable(child.state) && AllPlayable(child.state, ms, k + 1) &&
      Root(s, ms, k, depth, alpha, beta, maximizing, c) ==
        Root(child.state, ms, k + 1, depth, if maximizing then Max(alpha, c'.score) else alpha,
             if maximizing then beta else Min(beta, c'.score), maximizing, c')
  {
    var child := Child(s, ms[k], depth, alpha, beta, maximizing);
    PlayableKept(s, child.state, ms, k + 1);
  }

  /**
   * The bookkeeping after the k-th child: a strictly better score takes over the best score
   * and move, the score joins the list, and the board and node count are the child's.
   */
  function Step(ms: seq<Move>, k: nat, maximizing: bool, c: Choice, child: Outcome): Choice
    requires k < |ms|
  {
    var better := Better(maximizing, child.score, c.score);
    Choice(if better then Some(ms[k]) else c.move, if better then child.score else c.score,
           c.scores + [child.score], child.state, c.nodes + child.nodes)
  }

  /**
   * What get_best_move's bookkeeping promises after the first |c.scores| moves of ms: no
   * child score is strictly better than the best score; with no move chosen the best score
   * is still the starting one; a chosen move is the first move searched whose score is the
   * best score, every earlier one being strictly worse.
   */
  predicate Chosen(ms: seq<Move>, maximizing: bool, c: Choice)
  {
    |c.scores| <= |ms| &&
    (forall j | 0 <= j < |c.scores| :: !Better(maximizing, c.scores[j], c.score)) &&
    (c.move.None? ==> c.score == Worst(maximizing)) &&
    (c.move.Some? ==> exists i | 0 <= i < |c.scores| :: FirstBest(ms, maximizing, c, i))
  }

  predicate FirstBest(ms: seq<Move>, maximizing: bool, c: Choice, i: int)
    requires 0 <= i < |c.scores| <= |ms|
  {
    c.move == Some(ms[i]) && c.scores[i] == c.score &&
    forall j | 0 <= j < i :: Better(maximizing, c.score, c.scores[j])
  }

  /** One pass of the root loop keeps Chosen. */
  lemma ChosenStep(ms: seq<Move>, maximizing: bool, c: Choice, child: Outcome)
    requires Chosen(ms, maximizing, c) && |c.scores| < |ms|
    ensures Chosen(ms, maximizing, Step(ms, |c.scores|, maximizing, c, child))
  {
    var k, v := |c.scores|, child.score;
    var better := Better(maximizing, v, c.score);
    var c' := Step(ms, k, maximizing, c, child);
    LeTotal(v, c.score);
    forall j | 0 <= j < k
      ensures c'.scores[j] == c.scores[j]
      ensures !Better(maximizing, c.scores[j], c'.score)
      ensures better ==> Better(maximizing, c'.score, c.scores[j])
    {
      LeTotal(c.scores[j], c.score); LeTotal(c.scores[j], v);
      if better {
        if maximizing { LeTrans(c.scores[j], c.score, v); } else { LeTrans(v, c.score, c.scores[j]); }
      }
    }
    if better {
      assert FirstBest(ms, maximizing, c', k);
    } else if c.move.Some? {
      var i :| 0 <= i < k && FirstBest(ms, maximizing, c, i);
      assert FirstBest(ms, maximizing, c', i);
    }
  }

  /** The root loop keeps Chosen from the k-th move to the end, and scores every move. */
  lemma {:induction false} RootChooses(s: State, ms: seq<Move>, k: nat, depth: nat, alpha: Ext, beta: Ext,
                                       maximizing: bool, c: Choice)
    requires Searchable(s) && 0 < depth && k <= |ms| && AllPlayable(s, ms, k)
    requires |c.scores| == k && Chosen(ms, maximizing, c)
    ensures var r := Root(s, ms, k, depth, alpha, beta, maximizing, c);
      Chosen(ms, maximizing, r) && |r.scores| == |ms|
    decreases |ms| - k
  {
    if k < |ms| {
      var child := Child(s, ms[k], depth, alpha, beta, maximizing);
      var c' := Step(ms, k, maximizing, c, child);
      ChosenStep(ms, maximizing, c, child);
      PlayableKept(s, child.state, ms, k + 1);
      var alpha' := if maximizing then Max(alpha, c'.score) else alpha;
      var beta' := if maximizing then beta else Min(beta, c'.score);
      RootChooses(child.state, ms, k + 1, depth, alpha', beta', maximizing, c');
      assert Root(s, ms, k, depth, alpha, beta, maximizing, c) == Root(child.state, ms, k + 1, depth, alpha', beta', maximizing, c');
    } else {
      ChosenWithBoard(ms, maximizing, c, s);
    }
  }

  /** Chosen does not depend on the board a choice carries. */
  lemma ChosenWithBoard(ms: seq<Move>, maximizing: bool, c: Choice, s: State)
    requires Chosen(ms, maximizing, c)
    ensures Chosen(ms, maximizing, c.(state := s))
  {
    if c.move.Some? {
      var i :| 0 <= i < |c.scores| && FirstBest(ms, maximizing, c, i);
      assert FirstBest(ms, maximizing, c.(state := s), i);
    }
  }

  /**
   * get_best_move(board, color) on the path where none of its random branches is taken: None
   * without moves, otherwise the root loop over get_valid_moves() at depth max_depth - 1.
   */
  function BestMove(s: State, maxDepth: nat, white: bool): (r: Choice)
    requires Searchable(s) && 1 <= maxDepth
    ensures Searchable(r.state) && Restores(s, r.state)
  {
    var ms := AllMoves(s);
    if ms == [] then Choice(None, Worst(white), [], s, 0)
    else
      AllMovesPlayable(s);
      Root(s, ms, 0, maxDepth, NegInf, PosInf, white, Choice(None, Worst(white), [], s, 0))
  }

  /** With valid moves, the deterministic path is the root loop over all of them from the start. */
  lemma BestMoveIsRoot(s: State, maxDepth: nat, white: bool)
    requires Searchable(s) && 1 <= maxDepth && AllMoves(s) != []
    ensures AllPlayable(s, AllMoves(s), 0)
    ensures BestMove(s, maxDepth, white) ==
            Root(s, AllMoves(s), 0, maxDepth, NegInf, PosInf, white, Choice(None, Worst(white), [], s, 0))
  {
    AllMovesPlayable(s);
  }

  /**
   * get_best_move's deterministic path returns None exactly when there is no valid move or
   * no child scores better than the starting infinity; otherwise it returns the first move
   * whose child score is the best one, and no child scores better.
   */
  lemma BestMoveChooses(s: State, maxDepth: nat, white: bool)
    requires Searchable(s) && 1 <= maxDepth
    ensures var r := BestMove(s, maxDepth, white);
      Chosen(AllMoves(s), white, r) && |r.scores| == |AllMoves(s)|
  {
    var ms := AllMoves(s);
    if ms != [] {
      AllMovesPlayable(s);
      RootChooses(s, ms, 0, maxDepth, NegInf, PosInf, white, Choice(None, Worst(white), [], s, 0));
    }
  }

  /** What a capturing move takes, by PIECE_VALUES; 0 for a move that captures nothing. */
  function CapturedValue(m: Move): int
  {
    if m.pieceCaptured.Some? then PieceValue(m.pieceCaptured.value.kind) else 0
  }

  /** `[move for move in valid_moves if move.piece_captured]`. */
  function Captures(ms: seq<Move>): (r: seq<Move>)
    ensures forall m :: m in r <==> m in ms && m.pieceCaptured.Some?
    ensures |r| <= |ms|
  {
    if ms == [] then []
    else (if ms[0].pieceCaptured.Some? then [ms[0]] else []) + Captures(ms[1..])
  }

  predicate Descending(ms: seq<Move>)
  {
    forall i, j | 0 <= i < j < |ms| :: CapturedValue(ms[i]) >= CapturedValue(ms[j])
  }

  /** Puts m after every move of the descending list worth at least as much, before the first worth less. */
  function InsertDesc(sorted: seq<Move>, m: Move): (r: seq<Move>)
    ensures multiset(r) == multiset(sorted) + multiset{m}
  {
    if sorted == [] then [m]
    else if CapturedValue(sorted[0]) >= CapturedValue(m) then
      assert sorted == [sorted[0]] + sorted[1..];
      [sorted[0]] + InsertDesc(sorted[1..], m)
    else [m] + sorted
  }

  /** Inserting a move worth at most v into a list worth at most v gives a list worth at most v. */
  lemma {:induction false} InsertBounded(sorted: seq<Move>, m: Move, v: int)
    requires forall k | 0 <= k < |sorted| :: CapturedValue(sorted[k]) <= v
    requires CapturedValue(m) <= v
    ensures forall k | 0 <= k < |InsertDesc(sorted, m)| :: CapturedValue(InsertDesc(sorted, m)[k]) <= v
  {
    if sorted != [] && CapturedValue(sorted[0]) >= CapturedValue(m) {
      InsertBounded(sorted[1..], m, v);
      var rest := InsertDesc(sorted[1..], m);
      assert InsertDesc(sorted, m) == [sorted[0]] + rest;
    }
  }

  /** Inserting into a descending list keeps it descending. */
  lemma {:induction false} InsertKeepsDescending(sorted: seq<Move>, m: Move)
    requires Descending(sorted)
    ensures Descending(InsertDesc(sorted, m))
  {
    if sorted != [] && CapturedValue(sorted[0]) >= CapturedValue(m) {
      var rest := InsertDesc(sorted[1..], m);
      InsertKeepsDescending(sorted[1..], m);
      InsertBounded(sorted[1..], m, CapturedValue(sorted[0]));
      var r := [sorted[0]] + rest;
      assert InsertDesc(sorted, m) == r;
      forall i, j | 0 <= i < j < |r|
        ensures CapturedValue(r[i]) >= CapturedValue(r[j])
      {
        assert r[j] == rest[j - 1];
        if i > 0 {
          assert r[i] == rest[i - 1];
        }
      }
    }
  }

  /**
   * `capturing_moves.sort(key=captured value, reverse=True)`: the same moves, most valuable
   * capture first. Each move is inserted after the equal ones already placed, which keeps
   * the list order among equal values as Python's stable sort does.
   */
  function SortDesc(ms: seq<Move>): (r: seq<Move>)
    ensures multiset(r) == multiset(ms)
    ensures Descending(r)
  {
    if ms == [] then []
    else
      assert ms == ms[..|ms| - 1] + [ms[|ms| - 1]];
      InsertKeepsDescending(SortDesc(ms[..|ms| - 1]), ms[|ms| - 1]);
      InsertDesc(SortDesc(ms[..|ms| - 1]), ms[|ms| - 1])
  }

  /**
   * `capturing_moves[random.randint(0, top_n - 1)]` after the sort, top_n being
   * min(3, len(capturing_moves)): one of the first three captures of the sorted list.
   */
  function TopCapture(caps: seq<Move>, pick: nat): (m: Move)
    requires caps != []
    ensures m in caps
    ensures |SortDesc(caps)| == |caps|
    ensures m in SortDesc(caps)[..if 3 < |caps| then 3 else |caps|]
    ensures forall i | 3 <= i < |caps| :: CapturedValue(SortDesc(caps)[i]) <= CapturedValue(m)
  {
    var sorted := SortDesc(caps);
    assert |sorted| == |caps| by { assert |multiset(sorted)| == |multiset(caps)|; }
    var topN := if 3 < |sorted| then 3 else |sorted|;
    var k := pick % topN;
    var m := sorted[k];
    assert m == sorted[..topN][k];
    assert m in multiset(sorted);
    m
  }

  /** `random.choice(ms)` with the drawn index taken modulo the length of the list. */
  function Drawn(ms: seq<Move>, pick: nat): (m: Move)
    requires ms != []
    ensures m in ms
  {
    ms[pick % |ms|]
  }

  /** The outcomes of the calls into `random` get_best_move may make, in the order it makes them. */
  datatype Draws = Draws(pick: nat, captureRoll: real, capturePick: nat, lateRoll: real, latePick: nat)

  /** What get_best_move returns, the board it hands back and the node counter it leaves. */
  datatype Decision = Decision(move: Option<Move>, state: State, nodes: nat)

  /**
   * get_best_move(board, color) with the draws of `random` given: None without moves; at
   * difficulty 1 the drawn move; with capturing moves and a capture roll below 0.8 a drawn
   * one of the (at most) three most valuable captures; otherwise the root search, after
   * which difficulties up to 3 return the drawn move on a roll below 0.3. A drawn index is
   * taken modulo the length of the list it selects from.
   */
  function Decide(s: State, difficulty: int, maxDepth: nat, white: bool, d: Draws): (r: Decision)
    requires Searchable(s) && 1 <= maxDepth
    ensures Searchable(r.state) && Restores(s, r.state)
  {
    var ms := AllMoves(s);
    if ms == [] then Decision(None, s, 0)
    else if difficulty == 1 then Decision(Some(Drawn(ms, d.pick)), s, 0)
    else
      var caps := Captures(ms);
      if caps != [] && d.captureRoll < 0.8 then
        Decision(Some(TopCapture(caps, d.capturePick)), s, 0)
      else
        var c := BestMove(s, maxDepth, white);
        if difficulty <= 3 && d.lateRoll < 0.3 then Decision(Some(Drawn(ms, d.latePick)), c.state, c.nodes)
        else Decision(c.move, c.state, c.nodes)
  }

  /** The deterministic path returns one of the valid moves, if any. */
  lemma BestMoveIsValid(s: State, maxDepth: nat, white: bool)
    requires Searchable(s) && 1 <= maxDepth
    ensures var c := BestMove(s, maxDepth, white);
      c.move.Some? ==> c.move.value in AllMoves(s)
  {
    BestMoveChooses(s, maxDepth, white);
    var c := BestMove(s, maxDepth, white);
    if c.move.Some? {
      var i :| 0 <= i < |c.scores| && FirstBest(AllMoves(s), white, c, i);
    }
  }

  /**
   * get_best_move only ever returns one of the valid moves, returns None when there is
   * none, always returns one at difficulty 1, and on the capture branch returns a capture.
   */
  lemma DecideChoosesValidMove(s: State, difficulty: int, maxDepth: nat, white: bool, d: Draws)
    requires Searchable(s) && 1 <= maxDepth
    ensures var r := Decide(s, difficulty, maxDepth, white, d);
      (r.move.Some? ==> r.move.value in AllMoves(s)) &&
      (AllMoves(s) == [] ==> r.move.None?) &&
      (difficulty == 1 && AllMoves(s) != [] ==> r.move.Some?) &&
      (difficulty != 1 && Captures(AllMoves(s)) != [] && d.captureRoll < 0.8 ==>
         r.move.Some? && r.move.value.pieceCaptured.Some?)
  {
    var ms := AllMoves(s);
    var r := Decide(s, difficulty, maxDepth, white, d);
    if ms == [] {
      assert r.move == None;
    } else if difficulty == 1 {
      assert r.move == Some(Drawn(ms, d.pick));
    } else {
      var caps := Captures(ms);
      if caps != [] && d.captureRoll < 0.8 {
        var m := TopCapture(caps, d.capturePick);
        assert r.move == Some(m);
        assert m in caps;
      } else if difficulty <= 3 && d.lateRoll < 0.3 {
        assert r.move == Some(Drawn(ms, d.latePick));
      } else {
        BestMoveIsValid(s, maxDepth, white);
        assert r.move == BestMove(s, maxDepth, white).move;
      }
    }
  }
}
