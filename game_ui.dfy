/**
 * The non-drawing parts of the game window (ui/game_ui.py): the AI toggle and difficulty
 * cycle, and the two chess IQ estimates computed from the board and the move history.
 */
module GameUi {
  import opened Wrappers
  import opened Pieces
  import opened Moves
  import opened GridCount
  import opened ChessBoard
  import AI
  import ProgressTracker

  /** `(d % 5) + 1`: the next difficulty, 1 to 5 and round again. */
  function NextDifficulty(d: int): (n: int)
    ensures 1 <= n <= 5
    ensures 1 <= d <= 4 ==> n == d + 1
    ensures d == 5 ==> n == 1
  {
    d % 5 + 1
  }

  /** Cycling five times from any level comes back to the same level. */
  lemma CycleOfFive(d: int)
    requires 1 <= d <= 5
    ensures NextDifficulty(NextDifficulty(NextDifficulty(NextDifficulty(NextDifficulty(d))))) == d
  {
  }

  /** The value a captured piece is credited with (the King counts 0). */
  function CapturedValue(m: Move): nat
  {
    if m.pieceCaptured.Some? then MaterialValue(m.pieceCaptured.value.kind) else 0
  }

  /** The move at index i of the history is the player's, moves alternating from white. */
  predicate IsPlayerMove(i: int, playerWhite: bool)
  {
    (i % 2 == 0 && playerWhite) || (i % 2 == 1 && !playerWhite)
  }

  /** The captured value credited to the player (`mine`) or to the opponent in the first n moves. */
  function CapturesBefore(history: seq<Move>, n: int, playerWhite: bool, mine: bool): nat
    requires 0 <= n <= |history|
    decreases n
  {
    if n == 0 then 0
    else CapturesBefore(history, n - 1, playerWhite, mine) +
         (if IsPlayerMove(n - 1, playerWhite) == mine then CapturedValue(history[n - 1]) else 0)
  }

  /** The provisional adjustment for the current state of the game. */
  function StateAdjustment(result: string): int
  {
    if result == "provisional_win" then 5 else if result == "provisional_loss" then -3 else 0
  }

  /** _calculate_provisional_iq: previous IQ plus twice the material edge plus the capture edge, adjusted and clamped. */
  function ProvisionalIq(g: Grid, history: seq<Move>, playerWhite: bool, previousIq: int, result: string): (iq: int)
    ensures 70 <= iq <= 150
  {
    var me := if playerWhite then White else Black;
    var materialAdvantage := Material(g, me) - Material(g, Opponent(me));
    var captureAdvantage := CapturesBefore(history, |history|, playerWhite, true) -
                            CapturesBefore(history, |history|, playerWhite, false);
    ProgressTracker.ClampIq(previousIq + materialAdvantage * 2 + captureAdvantage * 1 + StateAdjustment(result))
  }

  /** Seen from the other colour, the player's and the opponent's capture sums swap. */
  lemma {:induction false} CapturesSwap(history: seq<Move>, n: int, playerWhite: bool)
    requires 0 <= n <= |history|
    ensures CapturesBefore(history, n, !playerWhite, true) == CapturesBefore(history, n, playerWhite, false)
    ensures CapturesBefore(history, n, !playerWhite, false) == CapturesBefore(history, n, playerWhite, true)
    decreases n
  {
    if n > 0 {
      CapturesSwap(history, n - 1, playerWhite);
    }
  }

  /** Crediting a capture to one side: a capture at index n adds its value to exactly one of the two sums. */
  lemma {:induction false} CapturesSplit(history: seq<Move>, n: int, playerWhite: bool)
    requires 0 <= n <= |history|
    ensures CapturesBefore(history, n, playerWhite, true) + CapturesBefore(history, n, playerWhite, false) ==
            CapturedTotal(history, n)
    decreases n
  {
    if n > 0 {
      CapturesSplit(history, n - 1, playerWhite);
    }
  }

  /** The value White captured in a game that starts with White's move, turns alternating. */
  function WhiteCaptures(h: seq<Move>): nat
    decreases |h|
  {
    if h == [] then 0 else CapturedValue(h[0]) + BlackCaptures(h[1..])
  }

  /** The value Black captured in a game that starts with White's move, turns alternating. */
  function BlackCaptures(h: seq<Move>): nat
    decreases |h|
  {
    if h == [] then 0 else WhiteCaptures(h[1..])
  }

  /** A move appended at an even index is White's, at an odd index Black's. */
  lemma {:induction false} CapturesSnoc(a: seq<Move>, x: Move)
    ensures WhiteCaptures(a + [x]) == WhiteCaptures(a) + (if |a| % 2 == 0 then CapturedValue(x) else 0)
    ensures BlackCaptures(a + [x]) == BlackCaptures(a) + (if |a| % 2 == 1 then CapturedValue(x) else 0)
    decreases |a|
  {
    if a == [] {
      assert [x][1..] == [];
    } else {
      assert (a + [x])[1..] == a[1..] + [x];
      CapturesSnoc(a[1..], x);
    }
  }

  /**
   * The loop's sums by colour: playing White, the player is credited with White's captures
   * (the even indices) and the opponent with Black's (the odd ones); playing Black, the reverse.
   */
  lemma {:induction false} CapturesByColour(history: seq<Move>, n: int)
    requires 0 <= n <= |history|
    ensures CapturesBefore(history, n, true, true) == WhiteCaptures(history[..n])
    ensures CapturesBefore(history, n, true, false) == BlackCaptures(history[..n])
    ensures CapturesBefore(history, n, false, true) == BlackCaptures(history[..n])
    ensures CapturesBefore(history, n, false, false) == WhiteCaptures(history[..n])
    decreases n
  {
    if n > 0 {
      CapturesByColour(history, n - 1);
      assert history[..n] == history[..n - 1] + [history[n - 1]];
      CapturesSnoc(history[..n - 1], history[n - 1]);
    }
  }

  /** All captured value in the first n moves, whoever captured it. */
  function CapturedTotal(history: seq<Move>, n: int): nat
    requires 0 <= n <= |history|
    decreases n
  {
    if n == 0 then 0 else CapturedTotal(history, n - 1) + CapturedValue(history[n - 1])
  }

  // ---------------------------------------------------------------- the full IQ score

  /** The move-quality counters of _calculate_iq_score. */
  datatype Tally = Tally(good: int, bad: int, captures: int, checks: int, risks: int, promotions: int)

  /** The moved pawn reached its promotion row. */
  predicate Promotes(m: Move)
  {
    m.pieceMoved.Some? && m.pieceMoved.value.kind == Pawn &&
    ((m.pieceMoved.value.color == White && m.endRow == 0) || (m.pieceMoved.value.color == Black && m.endRow == 7))
  }

  /**
   * The counters after one move: captures (two extra for a queen or rook, one for a bishop or
   * knight), a check given after replaying the move, a promotion, and a risk when the end
   * square is attacked after taking the move back (good if it captured, bad otherwise).
   */
  function CountMove(t: Tally, m: Move, check: bool, attacked: bool): Tally
  {
    var captured := m.pieceCaptured.Some?;
    var capturedKind := if captured then Some(m.pieceCaptured.value.kind) else None;
    var t1 := if captured then
      t.(captures := t.captures + 1,
         good := t.good + (if capturedKind == Some(Queen) || capturedKind == Some(Rook) then 2
                           else if capturedKind == Some(Bishop) || capturedKind == Some(Knight) then 1 else 0))
      else t;
    var t2 := if check then t1.(checks := t1.checks + 1, good := t1.good + 1) else t1;
    var t3 := if Promotes(m) then t2.(promotions := t2.promotions + 1, good := t2.good + 3) else t2;
    if attacked then t3.(risks := t3.risks + 1, good := t3.good + One(captured), bad := t3.bad + One(!captured))
    else t3
  }

  /**
   * The counters over the first n moves. The loop skips index i when `i % 2` is the player's
   * index (0 for white), so the moves it counts are the opponent's.
   */
  function TallyBefore(history: seq<Move>, checks: seq<bool>, attacked: seq<bool>, playerWhite: bool, n: int): Tally
    requires |checks| == |history| && |attacked| == |history| && 0 <= n <= |history|
    decreases n
  {
    if n == 0 then Tally(0, 0, 0, 0, 0, 0)
    else
      var t := TallyBefore(history, checks, attacked, playerWhite, n - 1);
      if (n - 1) % 2 == (if playerWhite then 0 else 1) then t
      else CountMove(t, history[n - 1], checks[n - 1], attacked[n - 1])
  }

  /** The counters tally only the opponent's moves: they never look at a move of the player's. */
  lemma {:induction false} TallySkipsPlayerMoves(history: seq<Move>, checks: seq<bool>, attacked: seq<bool>, playerWhite: bool,
                                                 history2: seq<Move>, checks2: seq<bool>, attacked2: seq<bool>, n: int)
    requires |checks| == |history| && |attacked| == |history| && 0 <= n <= |history|
    requires |history2| == |history| && |checks2| == |history| && |attacked2| == |history|
    requires forall i | 0 <= i < |history| && !IsPlayerMove(i, playerWhite) ::
      history2[i] == history[i] && checks2[i] == checks[i] && attacked2[i] == attacked[i]
    ensures TallyBefore(history, checks, attacked, playerWhite, n) == TallyBefore(history2, checks2, attacked2, playerWhite, n)
    decreases n
  {
    if n > 0 {
      TallySkipsPlayerMoves(history, checks, attacked, playerWhite, history2, checks2, attacked2, n - 1);
    }
  }

  /** The risk bonus, capped at 10. */
  function RiskAdjustment(risks: int): (r: int)
    ensures r <= 10 && (risks <= 10 ==> r == risks)
  {
    if risks * 1 < 10 then risks * 1 else 10
  }

  /** The game-length adjustment: -5 below 10 moves, 0 below 20, then a point per ten moves up to 5. */
  function LengthAdjustment(n: int): (r: int)
    ensures -5 <= r <= 5
  {
    if n < 10 then -5
    else if n < 20 then 0
    else if (n - 20) / 10 < 5 then (n - 20) / 10 else 5
  }

  /** Longer games never get a smaller length adjustment. */
  lemma LengthAdjustmentMonotone(a: int, b: int)
    requires a <= b
    ensures LengthAdjustment(a) <= LengthAdjustment(b)
  {
  }

  /** The result adjustment: more for a win against a stronger AI, 5 for a draw. */
  function ResultAdjustment(result: string, difficulty: int): int
  {
    if result == "win" then 10 + difficulty * 2
    else if result == "loss" then -15 - difficulty * 1
    else 5
  }

  /**
   * _calculate_iq_score: 70 for a loss; otherwise the previous IQ plus the result, move
   * quality, length, AI difficulty, risk and (three times) material adjustments, clamped.
   * `checks[i]` is whether the board was in check after replaying move i and `attacked[i]`
   * whether its end square was attacked after taking it back.
   */
  function IqScore(g: Grid, history: seq<Move>, checks: seq<bool>, attacked: seq<bool>, playerWhite: bool,
                   aiEnabled: bool, aiDifficulty: int, previousIq: int, result: string): (iq: int)
    requires |checks| == |history| && |attacked| == |history|
    ensures result == "loss" ==> iq == 70
    ensures 70 <= iq <= 150
  {
    if result == "loss" then 70
    else
      var me := if playerWhite then White else Black;
      var materialAdjustment := (Material(g, me) - Material(g, Opponent(me))) * 3;
      var t := TallyBefore(history, checks, attacked, playerWhite, |history|);
      var quality := t.good * 2 - t.bad * 3 + t.captures * 3 + t.checks * 2 + t.promotions * 5;
      var aiAdjustment := if aiEnabled then (aiDifficulty - 3) * 5 else 0;
      ProgressTracker.ClampIq(previousIq + ResultAdjustment(result, aiDifficulty) + quality + LengthAdjustment(|history|) +
              aiAdjustment + RiskAdjustment(t.risks) + materialAdjustment)
  }

  /** The game window's state that these operations read and update. */
  class GameWindow {
    const board: Board
    var moveHistory: seq<Move>
    var playerWhite: bool
    var aiEnabled: bool
    var aiDifficulty: int
    var ai: AI.ChessAI

    constructor(board: Board, aiDifficulty: int)
      ensures this.board == board && moveHistory == [] && playerWhite && aiEnabled
      ensures this.aiDifficulty == aiDifficulty && fresh(ai) && ai.difficulty == aiDifficulty
    {
      this.board := board;
      moveHistory := [];
      playerWhite := true;
      aiEnabled := true;
      this.aiDifficulty := aiDifficulty;
      ai := new AI.ChessAI(aiDifficulty);
    }

    /** toggle_ai: the flag flips and nothing else changes. */
    method ToggleAi()
      modifies this`aiEnabled
      ensures aiEnabled == !old(aiEnabled)
    {
      aiEnabled := !aiEnabled;
    }

    /** cycle_ai_difficulty: the next level, and a new AI at that level. */
    method CycleAiDifficulty()
      modifies this`aiDifficulty, this`ai
      ensures aiDifficulty == NextDifficulty(old(aiDifficulty)) && 1 <= aiDifficulty <= 5
      ensures fresh(ai) && ai.difficulty == aiDifficulty
    {
      aiDifficulty := (aiDifficulty % 5) + 1;
      ai := new AI.ChessAI(aiDifficulty);
    }

    /** The material double loop both estimates share: each side's values summed square by square. */
    method CountMaterial() returns (whiteMaterial: int, blackMaterial: int)
      ensures whiteMaterial == Material(board.grid, White) && blackMaterial == Material(board.grid, Black)
    {
      ghost var g := board.grid;
      whiteMaterial, blackMaterial := 0, 0;
      for row := 0 to 8
        invariant whiteMaterial == ValueRows(g, White, row) && blackMaterial == ValueRows(g, Black, row)
      {
        for col := 0 to 8
          invariant whiteMaterial == ValueRows(g, White, row) + ValueInRow(g, White, row, col)
          invariant blackMaterial == ValueRows(g, Black, row) + ValueInRow(g, Black, row, col)
        {
          var piece := board.GetPieceAt(row, col);
          if piece.Some? {
            var value := MaterialValue(piece.value.kind);
            if piece.value.color == White {
              whiteMaterial := whiteMaterial + value;
            } else {
              blackMaterial := blackMaterial + value;
            }
          }
        }
      }
    }

    /** _calculate_provisional_iq, with the previous IQ the progress tracker reports. */
    method CalculateProvisionalIq(result: string, previousIq: int) returns (iq: int)
      ensures iq == ProvisionalIq(board.grid, moveHistory, playerWhite, previousIq, result)
      ensures 70 <= iq <= 150
    {
      var whiteMaterial, blackMaterial := CountMaterial();
      var materialAdvantage := if playerWhite then whiteMaterial - blackMaterial else blackMaterial - whiteMaterial;
      var materialAdjustment := materialAdvantage * 2;
      var playerCaptures, opponentCaptures := 0, 0;
      for i := 0 to |moveHistory|
        invariant playerCaptures == CapturesBefore(moveHistory, i, playerWhite, true)
        invariant opponentCaptures == CapturesBefore(moveHistory, i, playerWhite, false)
      {
        var move := moveHistory[i];
        var isPlayerMove := (i % 2 == 0 && playerWhite) || (i % 2 == 1 && !playerWhite);
        if move.pieceCaptured.Some? {
          if isPlayerMove {
            playerCaptures := playerCaptures + MaterialValue(move.pieceCaptured.value.kind);
          } else {
            opponentCaptures := opponentCaptures + MaterialValue(move.pieceCaptured.value.kind);
          }
        }
      }
      var captureAdjustment := (playerCaptures - opponentCaptures) * 1;
      var provisionalIq := previousIq + materialAdjustment + captureAdjustment;
      if result == "provisional_win" {
        provisionalIq := provisionalIq + 5;
      } else if result == "provisional_loss" {
        provisionalIq := provisionalIq - 3;
      }
      iq := ProgressTracker.ClampIq(provisionalIq);
    }

    /**
     * _calculate_iq_score, with the previous IQ the progress tracker reports and, for each move
     * of the history, what replaying it on the board showed (`checks`, `attacked`).
     */
    method CalculateIqScore(result: string, previousIq: int, checks: seq<bool>, attacked: seq<bool>) returns (iq: int)
      requires |checks| == |moveHistory| && |attacked| == |moveHistory|
      ensures iq == IqScore(board.grid, moveHistory, checks, attacked, playerWhite, aiEnabled, aiDifficulty, previousIq, result)
      ensures result == "loss" ==> iq == 70
      ensures 70 <= iq <= 150
    {
      if result == "loss" {
        return 70;
      }
      var whiteMaterial, blackMaterial := CountMaterial();
      var materialAdvantage := if playerWhite then whiteMaterial - blackMaterial else blackMaterial - whiteMaterial;
      var materialAdjustment := materialAdvantage * 3;
      var resultAdjustment := ResultAdjustment(result, aiDifficulty);
      var t := CountMoves(checks, attacked);
      var quality := t.good * 2 - t.bad * 3 + t.captures * 3 + t.checks * 2 + t.promotions * 5;
      var riskAdjustment := if t.risks * 1 < 10 then t.risks * 1 else 10;
      var gameLength := |moveHistory|;
      var lengthAdjustment;
      if gameLength < 10 {
        lengthAdjustment := -5;
      } else if gameLength < 20 {
        lengthAdjustment := 0;
      } else {
        lengthAdjustment := if (gameLength - 20) / 10 < 5 then (gameLength - 20) / 10 else 5;
      }
      var aiAdjustment := 0;
      if aiEnabled {
        aiAdjustment := (aiDifficulty - 3) * 5;
      }
      var finalIq := previousIq + resultAdjustment + quality + lengthAdjustment + aiAdjustment + riskAdjustment + materialAdjustment;
      iq := ProgressTracker.ClampIq(finalIq);
    }

    /** The move loop of _calculate_iq_score. */
    method CountMoves(checks: seq<bool>, attacked: seq<bool>) returns (t: Tally)
      requires |checks| == |moveHistory| && |attacked| == |moveHistory|
      ensures t == TallyBefore(moveHistory, checks, attacked, playerWhite, |moveHistory|)
    {
      var good, bad, captures, checksGiven, risks, promotions := 0, 0, 0, 0, 0, 0;
      for i := 0 to |moveHistory|
        invariant Tally(good, bad, captures, checksGiven, risks, promotions) ==
                  TallyBefore(moveHistory, checks, attacked, playerWhite, i)
      {
        if i % 2 == (if playerWhite then 0 else 1) {
          continue;
        }
        var move := moveHistory[i];
        if move.pieceCaptured.Some? {
          captures := captures + 1;
          if move.pieceCaptured.value.kind == Queen || move.pieceCaptured.value.kind == Rook {
            good := good + 2;
          } else if move.pieceCaptured.value.kind == Bishop || move.pieceCaptured.value.kind == Knight {
            good := good + 1;
          }
        }
        if checks[i] {
          checksGiven := checksGiven + 1;
          good := good + 1;
        }
        if move.pieceMoved.Some? && move.pieceMoved.value.kind == Pawn {
          if (move.pieceMoved.value.color == White && move.endRow == 0) ||
             (move.pieceMoved.value.color == Black && move.endRow == 7) {
            promotions := promotions + 1;
            good := good + 3;
          }
        }
        if attacked[i] {
          risks := risks + 1;
          if move.pieceCaptured.Some? {
            good := good + 1;
          } else {
            bad := bad + 1;
          }
        }
      }
      t := Tally(good, bad, captures, checksGiven, risks, promotions);
    }
  }
}
