/** The integer parts of the chess IQ model (iq/iq_model.py): knowledge levels, the Elo estimate, pattern scores. */
module IQModel {
  import opened Wrappers

  /** One row of the knowledge-level table: a name, an inclusive IQ range and an Elo label. */
  datatype Level = Level(name: string, minIq: int, maxIq: int, eloEstimate: string)

  /** The seven knowledge levels, in the order the model lists them. */
  const Levels: seq<Level> := [
    Level("Novice", 0, 79, "< 800"),
    Level("Beginner", 80, 99, "800-1200"),
    Level("Intermediate", 100, 119, "1200-1600"),
    Level("Advanced", 120, 139, "1600-1900"),
    Level("Expert", 140, 159, "1900-2200"),
    Level("Master", 160, 179, "2200-2400"),
    Level("Grandmaster", 180, 200, "> 2400")
  ]

  predicate Contains(l: Level, iq: int)
  {
    l.minIq <= iq <= l.maxIq
  }

  /** The levels cover 0..200 in order, each range non-empty and starting right after the previous one. */
  lemma LevelsContiguous()
    ensures |Levels| == 7 && Levels[0].minIq == 0 && Levels[6].maxIq == 200
    ensures forall i | 0 <= i < 7 :: Levels[i].minIq <= Levels[i].maxIq
    ensures forall i | 0 <= i < 6 :: Levels[i + 1].minIq == Levels[i].maxIq + 1
  {
  }

  /** The scan of get_knowledge_level from position `i`: the first level containing the score, else the first level. */
  function LevelFrom(iq: int, i: nat): (l: Level)
    requires i <= |Levels|
    ensures l in Levels
    ensures Contains(l, iq) || l == Levels[0]
    decreases |Levels| - i
  {
    if i == |Levels| then Levels[0]
    else if Contains(Levels[i], iq) then Levels[i]
    else LevelFrom(iq, i + 1)
  }

  function GetKnowledgeLevel(iq: int): (l: Level)
    ensures l in Levels
  {
    LevelFrom(iq, 0)
  }

  /** For a score in 0..200 the level found is the one and only level whose range holds it. */
  lemma KnowledgeLevelUnique(iq: int)
    requires 0 <= iq <= 200
    ensures Contains(GetKnowledgeLevel(iq), iq)
    ensures forall j | 0 <= j < |Levels| :: Contains(Levels[j], iq) ==> Levels[j] == GetKnowledgeLevel(iq)
  {
    LevelsContiguous();
  }

  /** A score outside 0..200 falls back to the first level, "Novice". */
  lemma KnowledgeLevelFallback(iq: int)
    requires iq < 0 || iq > 200
    ensures GetKnowledgeLevel(iq) == Levels[0] && GetKnowledgeLevel(iq).name == "Novice"
  {
    assert forall j | 0 <= j < |Levels| :: !Contains(Levels[j], iq);
  }

  /** estimate_elo: 800 below 80, then linear segments with slopes 20, 20, 15, 15, 10 and 10. */
  function EstimateElo(iq: int): (elo: int)
    ensures iq < 80 ==> elo == 800
  {
    if iq < 80 then 800
    else if iq < 100 then 800 + (iq - 80) * 20
    else if iq < 120 then 1200 + (iq - 100) * 20
    else if iq < 140 then 1600 + (iq - 120) * 15
    else if iq < 160 then 1900 + (iq - 140) * 15
    else if iq < 180 then 2200 + (iq - 160) * 10
    else 2400 + (iq - 180) * 10
  }

  /** The size of the step from iq to iq + 1 in each segment. */
  function Slope(iq: int): int
  {
    if iq < 80 then 0 else if iq < 120 then 20 else if iq < 160 then 15 else 10
  }

  /** Each step of one IQ point raises the estimate by its segment's slope, so the segments meet without jumps. */
  lemma EloSteps(iq: int)
    ensures EstimateElo(iq + 1) == EstimateElo(iq) + Slope(iq)
  {
  }

  /** The estimate at the segment ends. */
  lemma EloBreakpoints()
    ensures EstimateElo(80) == 800 && EstimateElo(100) == 1200 && EstimateElo(120) == 1600
    ensures EstimateElo(140) == 1900 && EstimateElo(160) == 2200 && EstimateElo(180) == 2400
  {
  }

  /** The estimate never decreases as the score grows. */
  lemma {:induction false} EloMonotone(a: int, b: int)
    requires a <= b
    ensures EstimateElo(a) <= EstimateElo(b)
    decreases b - a
  {
    if a < b {
      EloMonotone(a, b - 1);
      EloSteps(b - 1);
    }
  }

  /** _calculate_pattern_score: missing counts read as 0, capped terms summed, the total clamped to 0..100. */
  function PatternScore(tacticalMotifsFound: Option<int>, patternBasedMoves: Option<int>): (score: int)
    ensures 0 <= score <= 100
    ensures var t := if tacticalMotifsFound.Some? then tacticalMotifsFound.value else 0;
            var p := if patternBasedMoves.Some? then patternBasedMoves.value else 0;
            t >= 0 && p >= 0 ==> score == Min(15 * t, 60) + Min(10 * p, 40)
  {
    var t := if tacticalMotifsFound.Some? then tacticalMotifsFound.value else 0;
    var p := if patternBasedMoves.Some? then patternBasedMoves.value else 0;
    var score := Min(t * 15, 60) + Min(p * 10, 40);
    Max(0, Min(100, score))
  }

  function Min(a: int, b: int): int
  {
    if a <= b then a else b
  }

  function Max(a: int, b: int): int
  {
    if a >= b then a else b
  }
}
