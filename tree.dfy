/**
 * The search of chess_engine/ai_minimax.py over an abstract game tree: every node has the
 * score _evaluate_position would give it, a flag for checkmate or stalemate, and the
 * positions its valid moves lead to, in generation order. Over such a tree the alpha-beta
 * search of _minimax (fail-soft: it returns the running max_score or min_score, not the
 * window bound) returns exactly the plain minimax value when it starts from the full window,
 * and get_best_move's loop picks the first move whose exact minimax value is best.
 */
module GameTree {
  import opened Wrappers
  import opened Scores

  datatype Tree = Node(score: int, over: bool, children: seq<Tree>)

  /** Plain minimax without pruning: the reference the pruned search is proved against. */
  function Value(t: Tree, depth: nat, maximizing: bool): Ext
    decreases depth, 1
  {
    if depth == 0 || t.over then Fin(t.score)
    else Fold(t.children, 0, depth, maximizing, Worst(maximizing))
  }

  /** The best of acc and the values of kids[k..], each searched one ply deeper. */
  function Fold(kids: seq<Tree>, k: nat, depth: nat, maximizing: bool, acc: Ext): Ext
    requires 0 < depth
    decreases depth, 0, |kids| - k
  {
    if k >= |kids| then acc
    else Fold(kids, k + 1, depth, maximizing, Pick(maximizing, acc, Value(kids[k], depth - 1, !maximizing)))
  }

  /** _minimax(board, depth, alpha, beta, is_maximizing). */
  function AlphaBeta(t: Tree, depth: nat, alpha: Ext, beta: Ext, maximizing: bool): Ext
    decreases depth, 1
  {
    if depth == 0 || t.over then Fin(t.score)
    else Scan(t.children, 0, depth, alpha, beta, maximizing, Worst(maximizing))
  }

  /**
   * The move loop of _minimax from the k-th move on, with the running best score and the
   * current window: after each child the best score and then the window are updated, and
   * the loop stops once beta <= alpha.
   */
  function Scan(kids: seq<Tree>, k: nat, depth: nat, alpha: Ext, beta: Ext, maximizing: bool, best: Ext): Ext
    requires 0 < depth
    decreases depth, 0, |kids| - k
  {
    if k >= |kids| then best
    else
      var v := AlphaBeta(kids[k], depth - 1, alpha, beta, !maximizing);
      var best' := Pick(maximizing, best, v);
      var alpha' := if maximizing then Max(alpha, best') else alpha;
      var beta' := if maximizing then beta else Min(beta, best');
      if Le(beta', alpha') then best'
      else Scan(kids, k + 1, depth, alpha', beta', maximizing, best')
  }

  /**
   * The values of kids[k..]: the fold's result is at least as good as the accumulator and
   * every one of them, and it is the accumulator or one of them.
   */
  lemma {:induction false} FoldIsBest(kids: seq<Tree>, k: nat, depth: nat, maximizing: bool, acc: Ext)
    requires 0 < depth && k <= |kids|
    ensures var r := Fold(kids, k, depth, maximizing, acc);
      !Better(maximizing, acc, r) &&
      (forall j | k <= j < |kids| :: !Better(maximizing, Value(kids[j], depth - 1, !maximizing), r)) &&
      (r == acc || exists j | k <= j < |kids| :: r == Value(kids[j], depth - 1, !maximizing))
    decreases |kids| - k
  {
    if k < |kids| {
      var v := Value(kids[k], depth - 1, !maximizing);
      var acc' := Pick(maximizing, acc, v);
      FoldIsBest(kids, k + 1, depth, maximizing, acc');
      var r := Fold(kids, k + 1, depth, maximizing, acc');
      LeTotal(acc, acc'); LeTotal(acc', r); LeTotal(v, acc');
      if maximizing {
        LeTrans(acc, acc', r); LeTrans(v, acc', r);
      } else {
        LeTrans(r, acc', acc); LeTrans(r, acc', v);
      }
      forall j | k <= j < |kids|
        ensures !Better(maximizing, Value(kids[j], depth - 1, !maximizing), r)
      {
        if j == k { LeTotal(v, r); }
      }
    }
  }

  /**
   * A node with children that is not over has as its minimax value the best of its
   * children's values: none is better and one of them is it.
   */
  lemma ValueIsBestChild(t: Tree, depth: nat, maximizing: bool)
    requires 0 < depth && !t.over && |t.children| > 0
    ensures var r := Value(t, depth, maximizing);
      (forall j | 0 <= j < |t.children| :: !Better(maximizing, Value(t.children[j], depth - 1, !maximizing), r)) &&
      (exists j | 0 <= j < |t.children| :: r == Value(t.children[j], depth - 1, !maximizing))
  {
    FoldIsBest(t.children, 0, depth, maximizing, Worst(maximizing));
    var r := Value(t, depth, maximizing);
    if r == Worst(maximizing) {
      var v := Value(t.children[0], depth - 1, !maximizing);
      assert !Better(maximizing, v, r);
      LeTotal(v, r);
    }
  }

  /**
   * The fail-soft bounds of the pruned search in the window (alpha, beta): a score strictly
   * inside the window is exact, a score at or below alpha is an upper bound of the exact
   * value, and a score at or above beta a lower bound.
   */
  predicate Bounds(v: Ext, exact: Ext, alpha: Ext, beta: Ext)
  {
    (Lt(alpha, v) && Lt(v, beta) ==> v == exact) &&
    (Le(v, alpha) ==> Le(exact, v)) &&
    (Le(beta, v) ==> Le(v, exact))
  }

  lemma {:induction false} AlphaBetaBounds(t: Tree, depth: nat, alpha: Ext, beta: Ext, maximizing: bool)
    requires Lt(alpha, beta)
    ensures Bounds(AlphaBeta(t, depth, alpha, beta, maximizing), Value(t, depth, maximizing), alpha, beta)
    decreases depth, 1
  {
    if depth > 0 && !t.over {
      if maximizing {
        ScanMaxBounds(t.children, 0, depth, alpha, beta, NegInf, NegInf, alpha);
      } else {
        ScanMinBounds(t.children, 0, depth, alpha, beta, PosInf, PosInf, beta);
      }
    }
  }

  /**
   * A maximizing move loop from the k-th move on, entered with the window (alpha, beta)
   * where alpha = max(alpha0, best), best the search's running score and exact the plain
   * running maximum of the children already searched.
   */
  predicate MaxLoop(alpha0: Ext, alpha: Ext, beta: Ext, best: Ext, exact: Ext)
  {
    Lt(alpha, beta) && alpha == Max(alpha0, best) && Le(exact, best) && (Lt(alpha0, best) ==> exact == best)
  }

  /** The minimizing move loop, with beta = min(beta0, best). */
  predicate MinLoop(beta0: Ext, alpha: Ext, beta: Ext, best: Ext, exact: Ext)
  {
    Lt(alpha, beta) && beta == Min(beta0, best) && Le(best, exact) && (Lt(best, beta0) ==> exact == best)
  }

  /** The loop ends with no move left. */
  lemma MaxLoopEnd(alpha0: Ext, alpha: Ext, beta: Ext, best: Ext, exact: Ext)
    requires MaxLoop(alpha0, alpha, beta, best, exact)
    ensures Bounds(best, exact, alpha0, beta)
  {
    LeTotal(alpha0, best); LeTotal(best, beta); LeTotal(exact, best);
    LeTrans(best, alpha, beta);
  }

  /**
   * The child scored v (exact value m) ends the loop: then v was at or above beta, so the
   * score returned is v and the exact value of the node, at least m, is at least v.
   */
  lemma MaxLoopCut(alpha0: Ext, alpha: Ext, beta: Ext, best: Ext, v: Ext, m: Ext, rest: Ext)
    requires Lt(alpha, beta) && alpha == Max(alpha0, best)
    requires Bounds(v, m, alpha, beta) && Le(beta, Max(alpha, Max(best, v))) && Le(m, rest)
    ensures Bounds(Max(best, v), rest, alpha0, beta)
  {
    LeTotal(alpha0, best); LeTotal(best, v); LeTotal(alpha, v); LeTotal(v, beta); LeTotal(m, v);
    LeTrans(best, alpha, beta);
    LeTrans(alpha0, alpha, beta);
    if Le(beta, v) {
      LeTrans(v, m, rest);
    }
  }

  /** The child scored v (exact value m) does not end the loop: the loop invariant holds again. */
  lemma MaxLoopStep(alpha0: Ext, alpha: Ext, beta: Ext, best: Ext, exact: Ext, v: Ext, m: Ext)
    requires MaxLoop(alpha0, alpha, beta, best, exact) && Bounds(v, m, alpha, beta)
    requires !Le(beta, Max(alpha, Max(best, v)))
    ensures MaxLoop(alpha0, Max(alpha, Max(best, v)), beta, Max(best, v), Max(exact, m))
  {
    LeTotal(alpha0, best); LeTotal(best, v); LeTotal(alpha, v); LeTotal(v, beta); LeTotal(m, v);
    LeTotal(exact, m); LeTotal(alpha0, v); LeTotal(Max(alpha, Max(best, v)), beta);
    if Le(v, alpha) {
      LeTrans(m, v, alpha);
      LeTrans(m, v, Max(best, v));
    }
  }

  lemma MinLoopEnd(beta0: Ext, alpha: Ext, beta: Ext, best: Ext, exact: Ext)
    requires MinLoop(beta0, alpha, beta, best, exact)
    ensures Bounds(best, exact, alpha, beta0)
  {
    LeTotal(beta0, best); LeTotal(alpha, best); LeTotal(best, exact);
    LeTrans(alpha, beta, best);
  }

  lemma MinLoopCut(beta0: Ext, alpha: Ext, beta: Ext, best: Ext, v: Ext, m: Ext, rest: Ext)
    requires Lt(alpha, beta) && beta == Min(beta0, best)
    requires Bounds(v, m, alpha, beta) && Le(Min(beta, Min(best, v)), alpha) && Le(rest, m)
    ensures Bounds(Min(best, v), rest, alpha, beta0)
  {
    LeTotal(beta0, best); LeTotal(best, v); LeTotal(beta, v); LeTotal(v, alpha); LeTotal(m, v);
    LeTrans(alpha, beta, best);
    LeTrans(alpha, beta, beta0);
    if Le(v, alpha) {
      LeTrans(rest, m, v);
    }
  }

  lemma MinLoopStep(beta0: Ext, alpha: Ext, beta: Ext, best: Ext, exact: Ext, v: Ext, m: Ext)
    requires MinLoop(beta0, alpha, beta, best, exact) && Bounds(v, m, alpha, beta)
    requires !Le(Min(beta, Min(best, v)), alpha)
    ensures MinLoop(beta0, alpha, Min(beta, Min(best, v)), Min(best, v), Min(exact, m))
  {
    LeTotal(beta0, best); LeTotal(best, v); LeTotal(beta, v); LeTotal(v, alpha); LeTotal(m, v);
    LeTotal(exact, m); LeTotal(beta0, v); LeTotal(alpha, Min(beta, Min(best, v)));
    if Le(beta, v) {
      LeTrans(beta, v, m);
      LeTrans(Min(best, v), v, m);
    }
  }

  lemma {:induction false} ScanMaxBounds(kids: seq<Tree>, k: nat, depth: nat, alpha: Ext, beta: Ext,
                                         best: Ext, exact: Ext, alpha0: Ext)
    requires 0 < depth && MaxLoop(alpha0, alpha, beta, best, exact)
    ensures Bounds(Scan(kids, k, depth, alpha, beta, true, best), Fold(kids, k, depth, true, exact), alpha0, beta)
    decreases depth, 0, |kids| - k
  {
    if k < |kids| {
      var v := AlphaBeta(kids[k], depth - 1, alpha, beta, false);
      var m := Value(kids[k], depth - 1, false);
      AlphaBetaBounds(kids[k], depth - 1, alpha, beta, false);
      var best' := Max(best, v);
      var alpha' := Max(alpha, best');
      var exact' := Max(exact, m);
      assert Scan(kids, k, depth, alpha, beta, true, best) ==
        if Le(beta, alpha') then best' else Scan(kids, k + 1, depth, alpha', beta, true, best');
      assert Fold(kids, k, depth, true, exact) == Fold(kids, k + 1, depth, true, exact');
      if Le(beta, alpha') {
        // The rest of the children only raise the exact value.
        FoldIsBest(kids, k + 1, depth, true, exact');
        LeTotal(exact', Fold(kids, k + 1, depth, true, exact'));
        LeTrans(m, exact', Fold(kids, k + 1, depth, true, exact'));
        MaxLoopCut(alpha0, alpha, beta, best, v, m, Fold(kids, k + 1, depth, true, exact'));
      } else {
        MaxLoopStep(alpha0, alpha, beta, best, exact, v, m);
        ScanMaxBounds(kids, k + 1, depth, alpha', beta, best', exact', alpha0);
      }
    } else {
      MaxLoopEnd(alpha0, alpha, beta, best, exact);
    }
  }

  lemma {:induction false} ScanMinBounds(kids: seq<Tree>, k: nat, depth: nat, alpha: Ext, beta: Ext,
                                         best: Ext, exact: Ext, beta0: Ext)
    requires 0 < depth && MinLoop(beta0, alpha, beta, best, exact)
    ensures Bounds(Scan(kids, k, depth, alpha, beta, false, best), Fold(kids, k, depth, false, exact), alpha, beta0)
    decreases depth, 0, |kids| - k
  {
    if k < |kids| {
      var v := AlphaBeta(kids[k], depth - 1, alpha, beta, true);
      var m := Value(kids[k], depth - 1, true);
      AlphaBetaBounds(kids[k], depth - 1, alpha, beta, true);
      var best' := Min(best, v);
      var beta' := Min(beta, best');
      var exact' := Min(exact, m);
      assert Scan(kids, k, depth, alpha, beta, false, best) ==
        if Le(beta', alpha) then best' else Scan(kids, k + 1, depth, alpha, beta', false, best');
      assert Fold(kids, k, depth, false, exact) == Fold(kids, k + 1, depth, false, exact');
      if Le(beta', alpha) {
        FoldIsBest(kids, k + 1, depth, false, exact');
        LeTotal(exact', Fold(kids, k + 1, depth, false, exact'));
        LeTrans(Fold(kids, k + 1, depth, false, exact'), exact', m);
        MinLoopCut(beta0, alpha, beta, best, v, m, Fold(kids, k + 1, depth, false, exact'));
      } else {
        MinLoopStep(beta0, alpha, beta, best, exact, v, m);
        ScanMinBounds(kids, k + 1, depth, alpha, beta', best', exact', beta0);
      }
    } else {
      MinLoopEnd(beta0, alpha, beta, best, exact);
    }
  }

  /** From the full window the pruned search returns the plain minimax value. */
  lemma FullWindowIsMinimax(t: Tree, depth: nat, maximizing: bool)
    ensures AlphaBeta(t, depth, NegInf, PosInf, maximizing) == Value(t, depth, maximizing)
  {
    AlphaBetaBounds(t, depth, NegInf, PosInf, maximizing);
    LeTotal(AlphaBeta(t, depth, NegInf, PosInf, maximizing), Value(t, depth, maximizing));
  }

  /**
   * The move loop of get_best_move from the k-th move on: every child is searched with the
   * current window, a strictly better score replaces the best score and move, and then the
   * maximizing side raises alpha (the other side lowers beta) to the best score; the loop
   * never stops early. The result is the best score and the index of the best move, if any.
   */
  function Root(kids: seq<Tree>, k: nat, depth: nat, alpha: Ext, beta: Ext, maximizing: bool,
                bestScore: Ext, bestMove: Option<nat>): (Ext, Option<nat>)
    decreases |kids| - k
  {
    if k >= |kids| then (bestScore, bestMove)
    else
      var v := AlphaBeta(kids[k], depth, alpha, beta, !maximizing);
      var (score', move') := if Better(maximizing, v, bestScore) then (v, Some(k)) else (bestScore, bestMove);
      var alpha' := if maximizing then Max(alpha, score') else alpha;
      var beta' := if maximizing then beta else Min(beta, score');
      Root(kids, k + 1, depth, alpha', beta', maximizing, score', move')
  }

  /** The root loop's state after the first k moves. */
  predicate RootInv(kids: seq<Tree>, k: nat, depth: nat, maximizing: bool, bestScore: Ext, bestMove: Option<nat>)
    requires k <= |kids|
  {
    (forall j | 0 <= j < k :: !Better(maximizing, Value(kids[j], depth, !maximizing), bestScore)) &&
    (bestMove.None? ==> bestScore == Worst(maximizing)) &&
    (bestMove.Some? ==>
       bestMove.value < k && Value(kids[bestMove.value], depth, !maximizing) == bestScore &&
       forall j | 0 <= j < bestMove.value :: Better(maximizing, bestScore, Value(kids[j], depth, !maximizing)))
  }

  lemma {:induction false} RootKeepsInv(kids: seq<Tree>, k: nat, depth: nat, alpha: Ext, beta: Ext, maximizing: bool,
                                        bestScore: Ext, bestMove: Option<nat>)
    requires k <= |kids| && RootInv(kids, k, depth, maximizing, bestScore, bestMove)
    requires maximizing ==> alpha == bestScore && beta == PosInf
    requires !maximizing ==> alpha == NegInf && beta == bestScore
    ensures var r := Root(kids, k, depth, alpha, beta, maximizing, bestScore, bestMove);
      RootInv(kids, |kids|, depth, maximizing, r.0, r.1)
    decreases |kids| - k
  {
    if k < |kids| {
      var v := AlphaBeta(kids[k], depth, alpha, beta, !maximizing);
      var m := Value(kids[k], depth, !maximizing);
      var (score', move') := if Better(maximizing, v, bestScore) then (v, Some(k)) else (bestScore, bestMove);
      LeTotal(v, bestScore); LeTotal(m, v); LeTotal(m, bestScore);
      if Lt(alpha, beta) {
        AlphaBetaBounds(kids[k], depth, alpha, beta, !maximizing);
      }
      if Better(maximizing, v, bestScore) {
        assert m == v;
        forall j | 0 <= j < k
          ensures Better(maximizing, v, Value(kids[j], depth, !maximizing))
        {
          var w := Value(kids[j], depth, !maximizing);
          LeTotal(w, bestScore); LeTotal(w, v);
          if maximizing { LeTrans(w, bestScore, v); } else { LeTrans(v, bestScore, w); }
        }
      } else if Lt(alpha, beta) {
        if maximizing { LeTrans(m, v, bestScore); } else { LeTrans(bestScore, v, m); }
      }
      assert RootInv(kids, k + 1, depth, maximizing, score', move');
      RootKeepsInv(kids, k + 1, depth, if maximizing then Max(alpha, score') else alpha,
                   if maximizing then beta else Min(beta, score'), maximizing, score', move');
    }
  }

  /**
   * get_best_move over a position with at least one move (its deterministic path): the
   * score it keeps is the plain minimax value of the position one ply deeper than its
   * children are searched, the move it returns when it returns one is the first move whose
   * exact value equals that score, and it returns no move only when every child's value
   * is the worst possible score for the side to move.
   */
  lemma RootPicksFirstBest(t: Tree, depth: nat, maximizing: bool)
    requires !t.over && |t.children| > 0
    ensures var r := Root(t.children, 0, depth, NegInf, PosInf, maximizing, Worst(maximizing), None);
      r.0 == Value(t, depth + 1, maximizing) &&
      (r.1.Some? ==>
         r.1.value < |t.children| && Value(t.children[r.1.value], depth, !maximizing) == r.0 &&
         forall j | 0 <= j < r.1.value :: Better(maximizing, r.0, Value(t.children[j], depth, !maximizing))) &&
      (r.1.None? ==> forall j | 0 <= j < |t.children| :: Value(t.children[j], depth, !maximizing) == Worst(maximizing))
  {
    var kids := t.children;
    RootKeepsInv(kids, 0, depth, NegInf, PosInf, maximizing, Worst(maximizing), None);
    var r := Root(kids, 0, depth, NegInf, PosInf, maximizing, Worst(maximizing), None);
    ValueIsBestChild(t, depth + 1, maximizing);
    var best := Value(t, depth + 1, maximizing);
    var j :| 0 <= j < |kids| && best == Value(kids[j], depth, !maximizing);
    LeTotal(best, r.0);
    if r.1.Some? {
      var i := r.1.value;
      assert !Better(maximizing, Value(kids[i], depth, !maximizing), best);
    }
    if r.1.None? {
      forall i | 0 <= i < |kids|
        ensures Value(kids[i], depth, !maximizing) == Worst(maximizing)
      {
        LeTotal(Value(kids[i], depth, !maximizing), r.0);
      }
    }
  }
}
