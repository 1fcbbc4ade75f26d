/**
 * Opening recognition (analysis/openings.py): the longest table entry that the played moves
 * start with, the recommended replies, and how far a game strays from them.
 */
module Openings {
  import opened Wrappers
  import opened PyText

  /** The opening table in its insertion order: a space-separated move sequence and its name. */
  const OpeningTable: seq<(string, string)> := [
    ("e2e4 e7e5", "King's Pawn Opening"),
    ("e2e4 e7e5 g1f3", "King's Knight Opening"),
    ("e2e4 e7e5 g1f3 b8c6", "Two Knights Defense"),
    ("e2e4 e7e5 g1f3 b8c6 f1c4", "Italian Game"),
    ("e2e4 e7e5 g1f3 b8c6 f1b5", "Ruy Lopez"),
    ("e2e4 e7e5 f2f4", "King's Gambit"),
    ("e2e4 e7e5 f2f4 e5f4", "King's Gambit Accepted"),
    ("e2e4 e7e5 f2f4 d7d5", "Falkbeer Counter-Gambit"),
    ("e2e4 c7c5", "Sicilian Defense"),
    ("e2e4 c7c5 g1f3", "Open Sicilian"),
    ("e2e4 c7c5 g1f3 d7d6", "Sicilian Defense, Classical Variation"),
    ("e2e4 c7c5 g1f3 b8c6", "Sicilian Defense, Old Sicilian"),
    ("e2e4 c7c5 g1f3 e7e6", "Sicilian Defense, French Variation"),
    ("e2e4 c7c5 b1c3", "Sicilian Defense, Closed Variation"),
    ("e2e4 e7e6", "French Defense"),
    ("e2e4 e7e6 d2d4", "French Defense, Normal Variation"),
    ("e2e4 e7e6 d2d4 d7d5", "French Defense, Classical Variation"),
    ("e2e4 c7c6", "Caro-Kann Defense"),
    ("e2e4 c7c6 d2d4", "Caro-Kann Defense, Main Line"),
    ("e2e4 c7c6 d2d4 d7d5", "Caro-Kann Defense, Classical Variation"),
    ("e2e4 d7d5", "Scandinavian Defense"),
    ("e2e4 d7d5 e4d5 d8d5", "Scandinavian Defense, Queen Recapture"),
    ("e2e4 d7d5 e4d5 g8f6", "Scandinavian Defense, Modern Variation"),
    ("e2e4 g8f6", "Alekhine's Defense"),
    ("e2e4 d7d6", "Pirc Defense"),
    ("d2d4 d7d5", "Queen's Pawn Opening"),
    ("d2d4 d7d5 c2c4", "Queen's Gambit"),
    ("d2d4 d7d5 c2c4 e7e6", "Queen's Gambit Declined"),
    ("d2d4 d7d5 c2c4 c7c6", "Slav Defense"),
    ("d2d4 d7d5 c2c4 d5c4", "Queen's Gambit Accepted"),
    ("d2d4 g8f6", "Indian Defense"),
    ("d2d4 g8f6 c2c4 e7e6", "Queen's Indian Defense"),
    ("d2d4 g8f6 c2c4 g7g6", "King's Indian Defense"),
    ("d2d4 g8f6 c2c4 e7e6 g1f3 b7b6", "Queen's Indian Defense"),
    ("d2d4 g8f6 c2c4 g7g6 b1c3 f8g7", "King's Indian Defense, Main Line"),
    ("d2d4 g8f6 c2c4 c7c5", "Benoni Defense"),
    ("d2d4 f7f5", "Dutch Defense"),
    ("c2c4", "English Opening"),
    ("c2c4 e7e5", "English Opening, Reversed Sicilian"),
    ("c2c4 c7c5", "English Opening, Symmetrical Variation"),
    ("g1f3", "R\U{e9}ti Opening"),
    ("g1f3 d7d5 c2c4", "R\U{e9}ti Opening, King's Indian Attack"),
    ("b2b3", "Larsen's Opening"),
    ("f2f4", "Bird's Opening")
  ]

  /**
   * The recommended moves by opening, move number and colour. Each opening's literal writes the
   * same move number twice, once for "white" and once for "black"; Python keeps the last value
   * of a repeated key, so only the black lists are in the dictionary.
   */
  const Variations: map<string, map<int, map<string, seq<string>>>> := map[
    "Sicilian Defense" := map[3 := map["black" := ["d7d6", "b8c6", "e7e6", "g7g6"]]],
    "French Defense" := map[3 := map["black" := ["d7d5"]]],
    "Ruy Lopez" := map[4 := map["black" := ["g8f6", "f8c5", "f8e7", "a7a6"]]],
    "Queen's Gambit" := map[3 := map["black" := ["e7e6", "c7c6", "d5c4"]]],
    "King's Indian Defense" := map[3 := map["black" := ["f8g7", "d7d6"]]]
  ]

  /** Evaluations of the better-known openings, in centipawns. */
  const Evaluations: map<string, int> := map[
    "King's Pawn Opening" := 15, "Queen's Pawn Opening" := 10, "Sicilian Defense" := -5,
    "French Defense" := 0, "Caro-Kann Defense" := 5, "Ruy Lopez" := 20, "Italian Game" := 15,
    "Queen's Gambit" := 15, "Queen's Gambit Declined" := 5, "Queen's Gambit Accepted" := 0,
    "King's Indian Defense" := 0, "English Opening" := 5, "R\U{e9}ti Opening" := 5
  ]

  const Unknown: string := "Unknown Opening"

  /** `s.startswith(p)`. */
  predicate StartsWith(s: string, p: string)
  {
    |p| <= |s| && s[..|p|] == p
  }

  /** The table sequences are non-empty and no table name is the unknown-opening name. */
  lemma TableShape()
    ensures forall j | 0 <= j < |OpeningTable| :: OpeningTable[j].0 != "" && OpeningTable[j].1 != Unknown
  {
  }

  /** Entry j can be chosen: the move string starts with its sequence, which is longer than the initial maximum 0. */
  predicate Matches(table: seq<(string, string)>, s: string, j: int)
    requires 0 <= j < |table|
  {
    StartsWith(s, table[j].0) && table[j].0 != ""
  }

  /** The length of the table sequence at index b, or 0 for none. */
  function MatchLength(table: seq<(string, string)>, b: Option<nat>): nat
  {
    if b.Some? && b.value < |table| then |table[b.value].0| else 0
  }

  /**
   * The scan of recognize_opening over the first n entries: the first of the longest table
   * sequences the move string starts with, or None when it starts with none of them.
   */
  function LongestMatch(table: seq<(string, string)>, s: string, n: nat): (b: Option<nat>)
    requires n <= |table|
    ensures b.None? <==> forall j | 0 <= j < n :: !Matches(table, s, j)
    ensures b.Some? ==> b.value < n && Matches(table, s, b.value)
    ensures b.Some? ==> forall j | 0 <= j < n && Matches(table, s, j) :: |table[j].0| <= MatchLength(table, b)
    ensures b.Some? ==> forall j | 0 <= j < b.value && Matches(table, s, j) :: |table[j].0| < MatchLength(table, b)
    decreases n
  {
    if n == 0 then None
    else
      var b := LongestMatch(table, s, n - 1);
      assert Matches(table, s, n - 1) <==> StartsWith(s, table[n - 1].0) && |table[n - 1].0| > 0;
      assert b.Some? ==> Matches(table, s, b.value);
      if StartsWith(s, table[n - 1].0) && |table[n - 1].0| > MatchLength(table, b) then Some(n - 1) else b
  }

  /** _get_next_recommended_moves: the list for move number `count // 2 + 1` and the colour to move, or []. */
  function NextRecommendedMoves(variations: map<string, map<int, map<string, seq<string>>>>, name: string, count: nat): (moves: seq<string>)
    ensures moves != [] ==> (name in variations && count / 2 + 1 in variations[name] &&
              (if count % 2 == 0 then "white" else "black") in variations[name][count / 2 + 1] &&
              moves == variations[name][count / 2 + 1][if count % 2 == 0 then "white" else "black"])
    ensures name !in variations ==> moves == []
  {
    var moveNumber := count / 2 + 1;
    var playerColor := if count % 2 == 0 then "white" else "black";
    var forOpening := if name in variations then variations[name] else map[];
    var movesForNumber := if moveNumber in forOpening then forOpening[moveNumber] else map[];
    if playerColor in movesForNumber then movesForNumber[playerColor] else []
  }

  /** Because the white lists were overwritten, a recommendation only ever exists for black (an odd count). */
  lemma OnlyBlackIsRecommended(name: string, count: nat)
    ensures NextRecommendedMoves(Variations, name, count) != [] ==> count % 2 == 1
  {
    if NextRecommendedMoves(Variations, name, count) != [] {
      var m := Variations[name][count / 2 + 1];
      assert m.Keys == {"black"};
    }
  }

  /** _is_mainline: any recognised opening counts as the main line. */
  function IsMainline(moves: seq<string>, name: string): bool
  {
    name != Unknown
  }

  /** The opening record recognize_opening returns (its theory text is not modelled). */
  datatype OpeningInfo = OpeningInfo(name: string, moves: nat, evaluation: int, nextMoves: seq<string>, isMainline: bool)

  /** The record for the opening found by the scan. */
  function Recognized(table: seq<(string, string)>, variations: map<string, map<int, map<string, seq<string>>>>,
                      evaluations: map<string, int>, moves: seq<string>): OpeningInfo
  {
    var best := LongestMatch(table, Join(moves, " "), |table|);
    if best.None? then OpeningInfo(Unknown, |moves|, 0, [], false)
    else
      var name := table[best.value].1;
      OpeningInfo(name, |moves|, if name in evaluations then evaluations[name] else 0,
                  NextRecommendedMoves(variations, name, |moves|), IsMainline(moves, name))
  }

  /** With the real table, the name is "Unknown Opening" exactly when no table sequence starts the moves. */
  lemma UnknownExactlyWithoutMatch(moves: seq<string>)
    ensures Recognized(OpeningTable, Variations, Evaluations, moves).name == Unknown <==>
            forall j | 0 <= j < |OpeningTable| :: !StartsWith(Join(moves, " "), OpeningTable[j].0)
  {
    TableShape();
    var s := Join(moves, " ");
    assert forall j | 0 <= j < |OpeningTable| :: Matches(OpeningTable, s, j) <==> StartsWith(s, OpeningTable[j].0);
  }

  // ---------------------------------------------------------------- opening play

  /** One move that left the recommended moves. */
  datatype Deviation = Deviation(moveNumber: int, player: string, played: string, recommended: seq<string>, explanation: string)

  /** The analysis record analyze_opening_play returns. */
  datatype OpeningAnalysis = OpeningAnalysis(opening: string, accuracy: int, deviations: seq<Deviation>,
                                             improvementSuggestions: seq<string>, theoryMoves: nat)

  /** Move i deviates when the opening has recommendations for it and the move is not among them. */
  predicate Deviates(variations: map<string, map<int, map<string, seq<string>>>>, name: string, i: nat, move: string)
  {
    var recommended := NextRecommendedMoves(variations, name, i);
    recommended != [] && move !in recommended
  }

  /** The deviation record for move i. */
  function DeviationAt(variations: map<string, map<int, map<string, seq<string>>>>, name: string, i: nat, move: string): Deviation
  {
    var recommended := NextRecommendedMoves(variations, name, i);
    Deviation(i / 2 + 1, if i % 2 == 0 then "white" else "black", move, recommended,
              "Instead of " + move + ", theory recommends " + Join(recommended, ", "))
  }

  /** The suggestion added beside a deviation. */
  function Suggestion(d: Deviation): string
  {
    "Move " + IntToString(d.moveNumber) + ": Consider " + Join(d.recommended, ", ") + " instead of " + d.played
  }

  /** The deviations among the first n moves, in order. */
  function DeviationsBefore(variations: map<string, map<int, map<string, seq<string>>>>, name: string, moves: seq<string>, n: nat): (ds: seq<Deviation>)
    requires n <= |moves|
    ensures |ds| <= n
    decreases n
  {
    if n == 0 then []
    else
      DeviationsBefore(variations, name, moves, n - 1) +
      (if Deviates(variations, name, n - 1, moves[n - 1]) then [DeviationAt(variations, name, n - 1, moves[n - 1])] else [])
  }

  /** Every recorded deviation had recommendations and played none of them. */
  lemma {:induction false} DeviationsLeaveTheory(variations: map<string, map<int, map<string, seq<string>>>>, name: string, moves: seq<string>, n: nat)
    requires n <= |moves|
    ensures forall d | d in DeviationsBefore(variations, name, moves, n) :: d.played !in d.recommended && d.recommended != []
    decreases n
  {
    if n > 0 {
      DeviationsLeaveTheory(variations, name, moves, n - 1);
    }
  }

  /** The deviations among the first n + 1 moves: those before, then move n if it deviates. */
  lemma DeviationsStep(variations: map<string, map<int, map<string, seq<string>>>>, name: string, moves: seq<string>, n: nat)
    requires n < |moves|
    ensures var recommended := NextRecommendedMoves(variations, name, n);
      DeviationsBefore(variations, name, moves, n + 1) ==
        DeviationsBefore(variations, name, moves, n) +
        (if recommended != [] && moves[n] !in recommended then [DeviationAt(variations, name, n, moves[n])] else [])
  {
  }

  /** The suggestions, one per deviation. */
  function Suggestions(ds: seq<Deviation>): (ss: seq<string>)
    ensures |ss| == |ds|
  {
    if ds == [] then [] else Suggestions(ds[..|ds| - 1]) + [Suggestion(ds[|ds| - 1])]
  }

  /** Appending a deviation appends its suggestion. */
  lemma SuggestionsSnoc(ds: seq<Deviation>, d: Deviation)
    ensures Suggestions(ds + [d]) == Suggestions(ds) + [Suggestion(d)]
  {
    assert (ds + [d])[..|ds|] == ds;
  }

  /** `max(0, min(100, x))`. */
  function ClampPercent(x: int): (r: int)
    ensures 0 <= r <= 100
    ensures 0 <= x <= 100 ==> r == x
  {
    if x > 100 then 100 else if x < 0 then 0 else x
  }

  /** The analysis of the moves against the recognised opening's recommendations. */
  function OpeningPlay(table: seq<(string, string)>, variations: map<string, map<int, map<string, seq<string>>>>,
                       evaluations: map<string, int>, moves: seq<string>): OpeningAnalysis
  {
    var name := Recognized(table, variations, evaluations, moves).name;
    var ds := DeviationsBefore(variations, name, moves, |moves|);
    OpeningAnalysis(name, ClampPercent(100 - 10 * |ds|), ds, Suggestions(ds), |moves| - |ds|)
  }

  /** When only odd counts (black to move) have recommendations, every deviation is a black move. */
  lemma {:induction false} BlackOnlyDeviations(variations: map<string, map<int, map<string, seq<string>>>>, name: string,
                                               moves: seq<string>, n: nat)
    requires n <= |moves|
    requires forall c: nat :: NextRecommendedMoves(variations, name, c) != [] ==> c % 2 == 1
    ensures forall d | d in DeviationsBefore(variations, name, moves, n) :: d.player == "black"
    decreases n
  {
    if n > 0 {
      BlackOnlyDeviations(variations, name, moves, n - 1);
      DeviationsStep(variations, name, moves, n - 1);
      var recommended := NextRecommendedMoves(variations, name, n - 1);
      if recommended != [] && moves[n - 1] !in recommended {
        assert (n - 1) % 2 == 1;
        assert DeviationAt(variations, name, n - 1, moves[n - 1]).player == "black";
      }
    }
  }

  /** With the real variations every deviation is a black move, at an odd index. */
  lemma DeviationsAreBlack(name: string, moves: seq<string>)
    ensures forall d | d in DeviationsBefore(Variations, name, moves, |moves|) :: d.player == "black"
  {
    forall c: nat ensures NextRecommendedMoves(Variations, name, c) != [] ==> c % 2 == 1 {
      OnlyBlackIsRecommended(name, c);
    }
    BlackOnlyDeviations(Variations, name, moves, |moves|);
  }

  /** An opening without recommendations, the unknown one included, has no deviations. */
  lemma {:induction false} NoRecommendationsNoDeviations(variations: map<string, map<int, map<string, seq<string>>>>,
                                                         name: string, moves: seq<string>, n: nat)
    requires name !in variations && n <= |moves|
    ensures DeviationsBefore(variations, name, moves, n) == []
    decreases n
  {
    if n > 0 {
      NoRecommendationsNoDeviations(variations, name, moves, n - 1);
    }
  }

  /** Playing after an opening without recommendations scores 100 with every move in theory. */
  lemma UnvariedOpeningPlay(table: seq<(string, string)>, variations: map<string, map<int, map<string, seq<string>>>>,
                            evaluations: map<string, int>, moves: seq<string>)
    requires Recognized(table, variations, evaluations, moves).name !in variations
    ensures OpeningPlay(table, variations, evaluations, moves).accuracy == 100
    ensures OpeningPlay(table, variations, evaluations, moves).theoryMoves == |moves|
  {
    NoRecommendationsNoDeviations(variations, Recognized(table, variations, evaluations, moves).name, moves, |moves|);
  }

  /**
   * The loop of analyze_opening_play over the moves: a move outside its recommendations costs
   * 10 points and adds a deviation and its suggestion, any other move is a theory move.
   */
  method ScanDeviations(variations: map<string, map<int, map<string, seq<string>>>>, name: string, moves: seq<string>)
    returns (accuracy: int, deviations: seq<Deviation>, suggestions: seq<string>, theoryMoves: nat)
    ensures deviations == DeviationsBefore(variations, name, moves, |moves|)
    ensures suggestions == Suggestions(deviations)
    ensures accuracy == 100 - 10 * |deviations| && theoryMoves + |deviations| == |moves|
  {
    accuracy, deviations, suggestions, theoryMoves := 100, [], [], 0;
    for i := 0 to |moves|
      invariant deviations == DeviationsBefore(variations, name, moves, i)
      invariant suggestions == Suggestions(deviations)
      invariant accuracy == 100 - 10 * |deviations|
      invariant theoryMoves + |deviations| == i
    {
      accuracy, deviations, suggestions, theoryMoves := ScanMove(variations, name, moves, i, accuracy, deviations, suggestions, theoryMoves);
    }
  }

  /** One pass of the loop of analyze_opening_play, over move i. */
  method ScanMove(variations: map<string, map<int, map<string, seq<string>>>>, name: string, moves: seq<string>, i: nat,
                  accuracy: int, deviations: seq<Deviation>, suggestions: seq<string>, theoryMoves: nat)
    returns (accuracy': int, deviations': seq<Deviation>, suggestions': seq<string>, theoryMoves': nat)
    requires i < |moves| && deviations == DeviationsBefore(variations, name, moves, i)
    requires suggestions == Suggestions(deviations)
    requires accuracy == 100 - 10 * |deviations| && theoryMoves + |deviations| == i
    ensures deviations' == DeviationsBefore(variations, name, moves, i + 1)
    ensures suggestions' == Suggestions(deviations')
    ensures accuracy' == 100 - 10 * |deviations'| && theoryMoves' + |deviations'| == i + 1
  {
    accuracy', deviations', suggestions', theoryMoves' := accuracy, deviations, suggestions, theoryMoves;
    var move := moves[i];
    var recommended := NextRecommendedMoves(variations, name, i);
    DeviationsStep(variations, name, moves, i);
    if recommended != [] && move !in recommended {
      accuracy' := accuracy - 10;
      var deviation := DeviationAt(variations, name, i, move);
      SuggestionsSnoc(deviations, deviation);
      deviations' := deviations + [deviation];
      suggestions' := suggestions + [Suggestion(deviation)];
    } else {
      theoryMoves' := theoryMoves + 1;
    }
  }

  /** The recognizer, holding the three tables __init__ builds. */
  class OpeningRecognizer {
    const openings: seq<(string, string)>
    const variations: map<string, map<int, map<string, seq<string>>>>
    const evaluations: map<string, int>

    constructor()
      ensures openings == OpeningTable && variations == Variations && evaluations == Evaluations
    {
      openings := OpeningTable;
      variations := Variations;
      evaluations := Evaluations;
    }

    /** recognize_opening: the loop over the table keeping the strictly longest sequence the moves start with. */
    method RecognizeOpening(moves: seq<string>) returns (info: OpeningInfo)
      ensures info == Recognized(openings, variations, evaluations, moves)
      ensures info.moves == |moves|
      ensures (forall j | 0 <= j < |openings| :: !Matches(openings, Join(moves, " "), j)) ==>
                info == OpeningInfo(Unknown, |moves|, 0, [], false)
      ensures info.name != Unknown ==>
                (info.isMainline && info.nextMoves == NextRecommendedMoves(variations, info.name, |moves|) &&
                 info.evaluation == (if info.name in evaluations then evaluations[info.name] else 0))
      ensures info.name != Unknown ==>
                (exists j | 0 <= j < |openings| :: Matches(openings, Join(moves, " "), j) && openings[j].1 == info.name &&
                   forall k | 0 <= k < |openings| && Matches(openings, Join(moves, " "), k) :: |openings[k].0| <= |openings[j].0|)
    {
      var moveStr := Join(moves, " ");
      var matching: Option<nat> := None;
      var maxLength := 0;
      for i := 0 to |openings|
        invariant matching == LongestMatch(openings, moveStr, i) && maxLength == MatchLength(openings, matching)
      {
        var sequence := openings[i].0;
        if StartsWith(moveStr, sequence) && |sequence| > maxLength {
          matching := Some(i);
          maxLength := |sequence|;
        }
      }
      if matching.Some? {
        var name := openings[matching.value].1;
        var evaluation := if name in evaluations then evaluations[name] else 0;
        var nextMoves := NextRecommendedMoves(variations, name, |moves|);
        info := OpeningInfo(name, |moves|, evaluation, nextMoves, IsMainline(moves, name));
      } else {
        info := OpeningInfo(Unknown, |moves|, 0, [], false);
      }
    }

    /**
     * analyze_opening_play: 10 points off per deviation, clamped to 0..100; every move is either a
     * theory move or a deviation, and every deviation has its suggestion.
     */
    method AnalyzeOpeningPlay(moves: seq<string>) returns (analysis: OpeningAnalysis)
      ensures analysis == OpeningPlay(openings, variations, evaluations, moves)
      ensures analysis.accuracy == ClampPercent(100 - 10 * |analysis.deviations|)
      ensures analysis.theoryMoves + |analysis.deviations| == |moves|
      ensures |analysis.improvementSuggestions| == |analysis.deviations|
    {
      var openingInfo := RecognizeOpening(moves);
      var accuracy, deviations, suggestions, theoryMoves := ScanDeviations(variations, openingInfo.name, moves);
      analysis := OpeningAnalysis(openingInfo.name, ClampPercent(accuracy), deviations, suggestions, theoryMoves);
    }
  }
}
