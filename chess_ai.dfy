/**
 * The ChessAI object (chess_engine/ai_minimax.py:9-303): its difficulty, search depth and
 * node counter, and the methods that search a borrowed Board, each proved equal to the
 * definitions of module Search.
 */
module AI {
  import opened Wrappers
  import opened Pieces
  import opened Moves
  import opened BoardState
  import opened MakeUndo
  import opened Scores
  import opened ChessBoard
  import Search
  import Generators

  class ChessAI {
    const difficulty: int
    const maxDepth: int
    var nodesEvaluated: nat

    /** __init__(difficulty): the depth for the difficulty, and no node counted yet. */
    constructor(difficulty: int)
      ensures this.difficulty == difficulty && maxDepth == Search.DepthFromDifficulty(difficulty)
      ensures 1 <= maxDepth <= 5 && nodesEvaluated == 0
    {
      this.difficulty := difficulty;
      maxDepth := Search.DepthFromDifficulty(difficulty);
      nodesEvaluated := 0;
    }

    /** _evaluate_position: the terminal scores, otherwise the double loop over the squares. */
    method EvaluatePosition(board: Board) returns (score: int)
      ensures score == Search.Evaluate(board.State())
    {
      if board.checkmate {
        if board.whiteToMove {
          return -10000;
        } else {
          return 10000;
        }
      }
      if board.stalemate {
        return 0;
      }
      var g := board.grid;
      score := 0;
      for row := 0 to 8
        invariant score == Search.RowsAbove(g, row)
      {
        for col := 0 to 8
          invariant score == Search.RowsAbove(g, row) + Search.RowScore(g, row, 0) - Search.RowScore(g, row, col)
        {
          var piece := g[row][col];
          if piece.Some? {
            var pieceValue := Search.PieceValue(piece.value.kind);
            var posRow := if piece.value.color == Black then row else 7 - row;
            var positionBonus := Search.BonusTable(piece.value.kind)[posRow][col];
            if piece.value.color == White {
              score := score + (pieceValue + positionBonus);
            } else {
              score := score - (pieceValue + positionBonus);
            }
          }
        }
      }
      Search.ScoreFromRows(g, 0);
      Search.AboveAndFrom(g, 8);
    }

    /**
     * One child of a search: make_move, the search one level down for the other side,
     * undo_move.
     */
    method PlayChild(board: Board, m: Move, depth: nat, alpha: Ext, beta: Ext, maximizing: bool) returns (score: Ext)
      requires board.Valid() && Search.Searchable(board.State()) && Search.Playable(board.State(), m) && 0 < depth
      modifies this`nodesEvaluated, board
      ensures board.Valid()
      ensures var o := Search.Child(old(board.State()), m, depth, alpha, beta, maximizing);
        score == o.score && board.State() == o.state && nodesEvaluated == old(nodesEvaluated) + o.nodes
      decreases depth, 0
    {
      ghost var s := board.State();
      Search.ChildSteps(s, m, depth, alpha, beta, maximizing);
      assert this as object != board as object;
      board.MakeMove(m);
      score := SearchAndUndo(board, depth - 1, alpha, beta, !maximizing);
    }

    /** The search one level down for the other side, then undo_move. */
    method SearchAndUndo(board: Board, depth: nat, alpha: Ext, beta: Ext, maximizing: bool) returns (score: Ext)
      requires board.Valid() && Search.Searchable(board.State())
      modifies this`nodesEvaluated, board
      ensures board.Valid()
      ensures var o := Search.Minimax(old(board.State()), depth, alpha, beta, maximizing);
        score == o.score && board.State() == Undo(o.state).1 && nodesEvaluated == old(nodesEvaluated) + o.nodes
      decreases depth, 3
    {
      score := Minimax(board, depth, alpha, beta, maximizing);
      var _ := board.UndoMove();
    }

    /**
     * _minimax(board, depth, alpha, beta, is_maximizing): counts the node, evaluates a leaf,
     * otherwise runs the maximizing or the minimizing move loop with its cut-off.
     */
    method Minimax(board: Board, depth: nat, alpha: Ext, beta: Ext, maximizing: bool) returns (score: Ext)
      requires board.Valid() && Search.Searchable(board.State())
      modifies this`nodesEvaluated, board
      ensures board.Valid()
      ensures var o := Search.Minimax(old(board.State()), depth, alpha, beta, maximizing);
        score == o.score && board.State() == o.state && nodesEvaluated == old(nodesEvaluated) + o.nodes
      decreases depth, 2
    {
      nodesEvaluated := nodesEvaluated + 1;
      if depth == 0 || board.checkmate || board.stalemate {
        Search.MinimaxLeaf(board.State(), depth, alpha, beta, maximizing);
        var v := EvaluatePosition(board);
        return Fin(v);
      }
      Search.MinimaxInner(board.State(), depth, alpha, beta, maximizing);
      var moves := board.GetValidMoves();
      if maximizing {
        score := MaxLoop(board, moves, depth, alpha, beta);
      } else {
        score := MinLoop(board, moves, depth, alpha, beta);
      }
    }

    /** The maximizing loop of _minimax: max_score and alpha follow each child; break once beta <= alpha. */
    method MaxLoop(board: Board, moves: seq<Move>, depth: nat, alpha: Ext, beta: Ext) returns (maxScore: Ext)
      requires board.Valid() && Search.Searchable(board.State()) && 0 < depth
      requires Search.AllPlayable(board.State(), moves, 0)
      modifies this`nodesEvaluated, board
      ensures board.Valid()
      ensures var o := Search.Siblings(old(board.State()), moves, 0, depth, alpha, beta, true, NegInf);
        maxScore == o.score && board.State() == o.state && nodesEvaluated == old(nodesEvaluated) + o.nodes
      decreases depth, 1
    {
      ghost var target := Search.Siblings(board.State(), moves, 0, depth, alpha, beta, true, NegInf);
      maxScore := NegInf;
      var a := alpha;
      var i := 0;
      while i < |moves|
        invariant 0 <= i <= |moves|
        invariant board.Valid() && Search.Searchable(board.State()) && Search.AllPlayable(board.State(), moves, i)
        invariant var rest := Search.Siblings(board.State(), moves, i, depth, a, beta, true, maxScore);
          rest.score == target.score && rest.state == target.state &&
          nodesEvaluated + rest.nodes == old(nodesEvaluated) + target.nodes
        decreases |moves| - i
      {
        ghost var t := board.State();
        var score := PlayChild(board, moves[i], depth, a, beta, true);
        maxScore := Max(maxScore, score);
        a := Max(a, maxScore);
        if Le(beta, a) {
          break;
        }
        Search.PlayableKept(t, board.State(), moves, i + 1);
        i := i + 1;
      }
    }

    /** The minimizing loop of _minimax: min_score and beta follow each child; break once beta <= alpha. */
    method MinLoop(board: Board, moves: seq<Move>, depth: nat, alpha: Ext, beta: Ext) returns (minScore: Ext)
      requires board.Valid() && Search.Searchable(board.State()) && 0 < depth
      requires Search.AllPlayable(board.State(), moves, 0)
      modifies this`nodesEvaluated, board
      ensures board.Valid()
      ensures var o := Search.Siblings(old(board.State()), moves, 0, depth, alpha, beta, false, PosInf);
        minScore == o.score && board.State() == o.state && nodesEvaluated == old(nodesEvaluated) + o.nodes
      decreases depth, 1
    {
      ghost var target := Search.Siblings(board.State(), moves, 0, depth, alpha, beta, false, PosInf);
      minScore := PosInf;
      var b := beta;
      var i := 0;
      while i < |moves|
        invariant 0 <= i <= |moves|
        invariant board.Valid() && Search.Searchable(board.State()) && Search.AllPlayable(board.State(), moves, i)
        invariant var rest := Search.Siblings(board.State(), moves, i, depth, alpha, b, false, minScore);
          rest.score == target.score && rest.state == target.state &&
          nodesEvaluated + rest.nodes == old(nodesEvaluated) + target.nodes
        decreases |moves| - i
      {
        ghost var t := board.State();
        var score := PlayChild(board, moves[i], depth, alpha, b, false);
        minScore := Min(minScore, score);
        b := Min(b, minScore);
        if Le(b, alpha) {
          break;
        }
        Search.PlayableKept(t, board.State(), moves, i + 1);
        i := i + 1;
      }
    }

    /**
     * get_best_move(board, color), color being white exactly when `white` holds and the
     * outcomes of the calls into `random` being given as draws: resets the node counter,
     * then returns what Search.Decide describes and leaves the board it describes.
     */
    method GetBestMove(board: Board, white: bool, draws: Search.Draws) returns (move: Option<Move>)
      requires board.Valid() && Search.Searchable(board.State()) && 1 <= maxDepth
      modifies this`nodesEvaluated, board
      ensures board.Valid()
      ensures var d := Search.Decide(old(board.State()), difficulty, maxDepth, white, draws);
        move == d.move && board.State() == d.state && nodesEvaluated == d.nodes
    {
      nodesEvaluated := 0;
      var validMoves := board.GetValidMoves();
      if validMoves == [] {
        return None;
      }
      if difficulty == 1 {
        return Some(Search.Drawn(validMoves, draws.pick));
      }
      var capturingMoves := Search.Captures(validMoves);
      if capturingMoves != [] && draws.captureRoll < 0.8 {
        return Some(Search.TopCapture(capturingMoves, draws.capturePick));
      }
      var bestMove := SearchMoves(board, validMoves, white);
      if difficulty <= 3 && draws.lateRoll < 0.3 {
        return Some(Search.Drawn(validMoves, draws.latePick));
      }
      return bestMove;
    }

    /** The search part of get_best_move over the valid moves of the board, as Search.BestMove. */
    method SearchMoves(board: Board, moves: seq<Move>, white: bool) returns (bestMove: Option<Move>)
      requires board.Valid() && Search.Searchable(board.State()) && 1 <= maxDepth
      requires moves == Generators.AllMoves(board.State()) && moves != []
      modifies this`nodesEvaluated, board
      ensures board.Valid()
      ensures var r := Search.BestMove(old(board.State()), maxDepth, white);
        bestMove == r.move && board.State() == r.state && nodesEvaluated == old(nodesEvaluated) + r.nodes
    {
      Search.BestMoveIsRoot(board.State(), maxDepth, white);
      bestMove := RootLoop(board, moves, white);
    }

    /**
     * The loop of get_best_move over the valid moves: each child is searched at depth
     * max_depth - 1 with the window narrowed by the best score so far, and a strictly
     * better score takes over best_move.
     */
    method RootLoop(board: Board, moves: seq<Move>, white: bool) returns (bestMove: Option<Move>)
      requires board.Valid() && Search.Searchable(board.State()) && 1 <= maxDepth
      requires Search.AllPlayable(board.State(), moves, 0)
      modifies this`nodesEvaluated, board
      ensures board.Valid()
      ensures var r := Search.Root(old(board.State()), moves, 0, maxDepth, NegInf, PosInf, white,
                                   Search.Choice(None, Worst(white), [], old(board.State()), 0));
        bestMove == r.move && board.State() == r.state && nodesEvaluated == old(nodesEvaluated) + r.nodes
    {
      ghost var s := board.State();
      ghost var c := Search.Choice(None, Worst(white), [], s, 0);
      ghost var target := Search.Root(s, moves, 0, maxDepth, NegInf, PosInf, white, c);
      var depth: nat := maxDepth;
      bestMove := None;
      var bestScore := Worst(white);
      var alpha, beta := NegInf, PosInf;
      var i := 0;
      ghost var st := s;
      while i < |moves|
        invariant 0 <= i <= |moves| && board.Valid() && board.State() == st
        invariant Search.Searchable(st) && Search.AllPlayable(st, moves, i)
        invariant c.move == bestMove && c.score == bestScore && nodesEvaluated == old(nodesEvaluated) + c.nodes
        invariant Search.Root(st, moves, i, depth, alpha, beta, white, c) == target
        decreases |moves| - i
      {
        bestMove, bestScore, alpha, beta, c := RootChild(board, moves, i, depth, white, bestMove, bestScore, alpha, beta, c, target);
        st := board.State();
        i := i + 1;
      }
      Search.RootEnd(st, moves, depth, alpha, beta, white, c);
    }

    /** One pass of the loop of get_best_move: the i-th child is searched, then the bookkeeping. */
    method RootChild(board: Board, moves: seq<Move>, i: nat, depth: nat, white: bool, bestMove: Option<Move>, bestScore: Ext,
                     alpha: Ext, beta: Ext, ghost c: Search.Choice, ghost target: Search.Choice)
      returns (bestMove': Option<Move>, bestScore': Ext, alpha': Ext, beta': Ext, ghost c': Search.Choice)
      requires board.Valid() && Search.Searchable(board.State()) && 0 < depth && i < |moves|
      requires Search.AllPlayable(board.State(), moves, i)
      requires c.move == bestMove && c.score == bestScore
      requires Search.Root(board.State(), moves, i, depth, alpha, beta, white, c) == target
      modifies this`nodesEvaluated, board
      ensures board.Valid() && Search.Searchable(board.State()) && Search.AllPlayable(board.State(), moves, i + 1)
      ensures c'.move == bestMove' && c'.score == bestScore' && nodesEvaluated - old(nodesEvaluated) == c'.nodes - c.nodes
      ensures Search.Root(board.State(), moves, i + 1, depth, alpha', beta', white, c') == target
      decreases depth, 2
    {
      ghost var t := board.State();
      ghost var child := Search.Child(t, moves[i], depth, alpha, beta, white);
      Search.RootUnfold(t, moves, i, depth, alpha, beta, white, c);
      var score := PlayChild(board, moves[i], depth, alpha, beta, white);
      c' := Search.Step(moves, i, white, c, child);
      bestMove', bestScore', alpha', beta' := KeepBest(white, bestMove, bestScore, alpha, beta, score, moves[i]);
    }

    /**
     * The bookkeeping of get_best_move after one child: for white a strictly greater score,
     * for black a strictly smaller one, takes over best_score and best_move; then alpha
     * (white) or beta (black) follows best_score.
     */
    static method KeepBest(white: bool, bestMove: Option<Move>, bestScore: Ext, alpha: Ext, beta: Ext, score: Ext, m: Move)
      returns (move': Option<Move>, score': Ext, alpha': Ext, beta': Ext)
      ensures Better(white, score, bestScore) ==> move' == Some(m) && score' == score
      ensures !Better(white, score, bestScore) ==> move' == bestMove && score' == bestScore
      ensures alpha' == (if white then Max(alpha, score') else alpha)
      ensures beta' == (if white then beta else Min(beta, score'))
    {
      move', score', alpha', beta' := bestMove, bestScore, alpha, beta;
      if white {
        if Lt(bestScore, score) {
          score' := score;
          move' := Some(m);
        }
        alpha' := Max(alpha, score');
      } else {
        if Lt(score, bestScore) {
          score' := score;
          move' := Some(m);
        }
        beta' := Min(beta, score');
      }
    }
  }
}
