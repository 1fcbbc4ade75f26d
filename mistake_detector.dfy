/**
 * The threshold logic of the mistake detector (analysis/mistake_detector.py): how a loss in
 * centipawns is classified, the perfect-move accuracy, and the missed-mate test.
 */
module MistakeDetector {
  import opened Wrappers

  const InaccuracyThreshold: real := 50.0
  const MistakeThreshold: real := 100.0
  const BlunderThreshold: real := 200.0
  const MissedWinThreshold: real := 300.0

  datatype MistakeType = Blunder | Mistake | Inaccuracy | MissedWin | MissedTactic | MissedMate

  function Description(t: MistakeType): string
  {
    match t
    case Blunder => "A serious mistake that significantly worsens the position"
    case Mistake => "A mistake that worsens the position"
    case Inaccuracy => "A small imprecision that slightly worsens the position"
    case MissedWin => "A missed opportunity to gain a decisive advantage"
    case MissedTactic => "A missed tactical opportunity"
    case MissedMate => "A missed checkmate sequence"
  }

  /** The dictionary classify_mistake returns: a type (None for a good move) and its description. */
  datatype Classification = Classification(kind: Option<MistakeType>, description: string)

  /** classify_mistake: the first threshold the loss reaches, from the most severe down. */
  function ClassifyMistake(evalLoss: real): (c: Classification)
    ensures c.kind == Some(Blunder) <==> evalLoss >= 200.0
    ensures c.kind == Some(Mistake) <==> 100.0 <= evalLoss < 200.0
    ensures c.kind == Some(Inaccuracy) <==> 50.0 <= evalLoss < 100.0
    ensures c.kind == None <==> evalLoss < 50.0
    ensures c.kind.Some? ==> c.description == Description(c.kind.value)
    ensures c.kind.None? ==> c.description == "Good move"
  {
    if evalLoss >= BlunderThreshold then Classification(Some(Blunder), Description(Blunder))
    else if evalLoss >= MistakeThreshold then Classification(Some(Mistake), Description(Mistake))
    else if evalLoss >= InaccuracyThreshold then Classification(Some(Inaccuracy), Description(Inaccuracy))
    else Classification(None, "Good move")
  }

  /** How severe a classification is: 0 for a good move up to 3 for a blunder. */
  function Severity(c: Classification): nat
  {
    match c.kind
    case Some(Blunder) => 3
    case Some(Mistake) => 2
    case Some(Inaccuracy) => 1
    case _ => 0
  }

  /** A larger loss never gets a milder classification. */
  lemma SeverityMonotone(a: real, b: real)
    requires a <= b
    ensures Severity(ClassifyMistake(a)) <= Severity(ClassifyMistake(b))
  {
  }

  /**
   * calculate_accuracy: exactly 100 for a loss that is not positive; otherwise the exponential
   * decay `2 ** (-loss / 100)`, which Python computes in floating point and is passed in here
   * as `decay`, scaled to a percentage and clamped to 0..100.
   */
  function CalculateAccuracy(evalLoss: real, decay: real): (accuracy: real)
    ensures evalLoss <= 0.0 ==> accuracy == 100.0
    ensures 0.0 <= accuracy <= 100.0
    ensures evalLoss > 0.0 && 0.0 <= decay <= 1.0 ==> accuracy == 100.0 * decay
  {
    if evalLoss <= 0.0 then 100.0
    else
      var accuracy := 100.0 * decay;
      if accuracy > 100.0 then 100.0 else if accuracy < 0.0 then 0.0 else accuracy
  }

  /** One entry of the engine's best-move list: its evaluation and, maybe, a description. */
  datatype BestMove = BestMove(evaluation: real, description: Option<string>)

  /** `str.lower()` on ASCII letters; other characters are kept as they are. */
  function Lower(s: string): (t: string)
    ensures |t| == |s|
    ensures forall i | 0 <= i < |s| :: t[i] == if 'A' <= s[i] <= 'Z' then (s[i] as int + 32) as char else s[i]
    decreases |s|
  {
    if |s| == 0 then ""
    else [if 'A' <= s[0] <= 'Z' then (s[0] as int + 32) as char else s[0]] + Lower(s[1..])
  }

  /** `w in s` for strings: w is a prefix of s or occurs further on. */
  predicate Occurs(w: string, s: string)
    decreases |s|
  {
    (|w| <= |s| && s[..|w|] == w) || (|s| > 0 && Occurs(w, s[1..]))
  }

  /** _check_for_missed_mate: the first best move either scores above 10000 or mentions "mate". */
  function CheckForMissedMate(bestMoves: seq<BestMove>): (missed: bool)
    ensures bestMoves == [] ==> !missed
    ensures bestMoves != [] && bestMoves[0].evaluation > 10000.0 ==> missed
    ensures bestMoves != [] ==>
              (missed <==> bestMoves[0].evaluation > 10000.0 ||
                           (bestMoves[0].description.Some? && Occurs("mate", Lower(bestMoves[0].description.value))))
  {
    if bestMoves == [] then false
    else
      var best := bestMoves[0];
      if best.evaluation > 10000.0 then true
      else if best.description.Some? && Occurs("mate", Lower(best.description.value)) then true
      else false
  }

  /** A description written "Mate in 2" counts as a missed mate through the lower-casing. */
  lemma CapitalMateCounts(e: real)
    ensures CheckForMissedMate([BestMove(e, Some("Mate in 2"))])
  {
    var l := Lower("Mate in 2");
    assert l[0] == 'm' && l[1] == 'a' && l[2] == 't' && l[3] == 'e';
    assert l[..4] == "mate";
  }
}
