/**
 * The player statistics of iq/progress_tracker.py. The tracker keeps one nested record; a
 * section read from the statistics file may be missing, which the getters and some updates
 * repair with defaults. Reading and writing the file is not modelled: the loaded record is a
 * constructor argument and every save is dropped.
 */
module ProgressTracker {
  import opened Wrappers
  import opened PyText

  datatype Games = Games(total: int, wins: int, losses: int, draws: int)
  datatype IqEntry = IqEntry(timestamp: int, iq: int)
  datatype IqStats = IqStats(current: Option<int>, history: seq<IqEntry>)
  datatype AccuracyEntry = AccuracyEntry(timestamp: int, accuracy: real)
  datatype AccuracyStats = AccuracyStats(average: real, history: seq<AccuracyEntry>)
  datatype Mistakes = Mistakes(blunders: int, mistakes: int, inaccuracies: int, goodMoves: int)
  datatype OpeningRecord = OpeningRecord(played: int, wins: int, losses: int, draws: int)

  /**
   * The statistics dictionary. `openings` keeps the dictionary's insertion order as a list of
   * (name, record) pairs; the other sections are None when missing from a loaded file.
   */
  datatype Stats = Stats(games: Option<Games>, iq: Option<IqStats>, accuracy: Option<AccuracyStats>,
                         mistakes: Option<Mistakes>, openings: seq<(string, OpeningRecord)>,
                         improvementAreas: Option<seq<string>>)

  const NoGames := Games(0, 0, 0, 0)
  const NoMistakes := Mistakes(0, 0, 0, 0)

  /** The statistics _load_stats starts from when there is no file; note the current IQ of 1000. */
  function DefaultStats(): (s: Stats)
    ensures s.iq == Some(IqStats(Some(1000), [])) && s.openings == []
  {
    Stats(Some(NoGames), Some(IqStats(Some(1000), [])), Some(AccuracyStats(0.0, [])), Some(NoMistakes), [], Some([]))
  }

  // ---------------------------------------------------------------- updates

  /** One more game, and one more win, loss or draw for those three result strings. */
  function RecordResult(g: Games, result: string): (h: Games)
    ensures h.total == g.total + 1
    ensures h.wins == g.wins + (if result == "win" then 1 else 0)
    ensures h.losses == g.losses + (if result == "loss" then 1 else 0)
    ensures h.draws == g.draws + (if result == "draw" then 1 else 0)
  {
    var g1 := g.(total := g.total + 1);
    if result == "win" then g1.(wins := g1.wins + 1)
    else if result == "loss" then g1.(losses := g1.losses + 1)
    else if result == "draw" then g1.(draws := g1.draws + 1)
    else g1
  }

  /** Exactly one outcome counter moves for a known result and none for any other string. */
  lemma OneOutcomePerGame(g: Games, result: string)
    ensures var h := RecordResult(g, result);
            h.wins + h.losses + h.draws == g.wins + g.losses + g.draws + (if result in {"win", "loss", "draw"} then 1 else 0)
  {
  }

  /** update_game_result: a missing games section starts from zero. */
  function WithGameResult(s: Stats, result: string): (t: Stats)
    ensures t.games.Some? && t == s.(games := t.games)
  {
    s.(games := Some(RecordResult(if s.games.Some? then s.games.value else NoGames, result)))
  }

  /** update_iq: the current IQ is set and one history entry with it is appended. */
  function WithIq(s: Stats, iq: int, timestamp: int): (t: Stats)
    requires s.iq.Some?
    ensures t.iq.Some? && t.iq.value.current == Some(iq)
    ensures t.iq.value.history == s.iq.value.history + [IqEntry(timestamp, iq)]
    ensures t == s.(iq := t.iq)
  {
    s.(iq := Some(IqStats(Some(iq), s.iq.value.history + [IqEntry(timestamp, iq)])))
  }

  /** update_mistakes: each count is added to its counter. */
  function WithMistakes(s: Stats, blunders: int, mistakes: int, inaccuracies: int, goodMoves: int): (t: Stats)
    requires s.mistakes.Some?
    ensures t.mistakes.Some? && t == s.(mistakes := t.mistakes)
    ensures var m, n := s.mistakes.value, t.mistakes.value;
            n.blunders == m.blunders + blunders && n.mistakes == m.mistakes + mistakes &&
            n.inaccuracies == m.inaccuracies + inaccuracies && n.goodMoves == m.goodMoves + goodMoves
  {
    var m := s.mistakes.value;
    s.(mistakes := Some(Mistakes(m.blunders + blunders, m.mistakes + mistakes, m.inaccuracies + inaccuracies,
                                 m.goodMoves + goodMoves)))
  }

  /** The position of the opening called name, if it has an entry. */
  function IndexOf(ops: seq<(string, OpeningRecord)>, name: string): (i: Option<nat>)
    ensures i.Some? ==> i.value < |ops| && ops[i.value].0 == name
    ensures i.None? <==> forall k | 0 <= k < |ops| :: ops[k].0 != name
    decreases |ops|
  {
    if |ops| == 0 then None
    else if ops[|ops| - 1].0 == name then Some(|ops| - 1)
    else IndexOf(ops[..|ops| - 1], name)
  }

  /** No two entries for the same opening, as in a dictionary. */
  predicate UniqueNames(ops: seq<(string, OpeningRecord)>)
  {
    forall i, j | 0 <= i < j < |ops| :: ops[i].0 != ops[j].0
  }

  /** update_opening: a new opening is added at the end with no games; then its played count goes up. */
  function WithOpening(s: Stats, name: string): (t: Stats)
    ensures t == s.(openings := t.openings)
    ensures UniqueNames(s.openings) ==> UniqueNames(t.openings)
    ensures IndexOf(t.openings, name).Some?
  {
    var i := IndexOf(s.openings, name);
    if i.None? then
      var ops := s.openings + [(name, OpeningRecord(1, 0, 0, 0))];
      assert ops[|s.openings|].0 == name;
      s.(openings := ops)
    else
      var r := s.openings[i.value].1;
      var ops := s.openings[i.value := (name, r.(played := r.played + 1))];
      assert ops[i.value].0 == name;
      s.(openings := ops)
  }

  /** Playing an opening adds one to its played count and leaves every other opening alone. */
  lemma OpeningPlayedOnce(s: Stats, name: string)
    requires UniqueNames(s.openings)
    ensures var t := WithOpening(s, name);
            IndexOf(t.openings, name).Some? &&
            t.openings[IndexOf(t.openings, name).value].1.played ==
              (if IndexOf(s.openings, name).Some? then s.openings[IndexOf(s.openings, name).value].1.played else 0) + 1
    ensures var t := WithOpening(s, name);
            forall k | 0 <= k < |s.openings| && s.openings[k].0 != name :: t.openings[k] == s.openings[k]
  {
    var t := WithOpening(s, name);
    var i := IndexOf(s.openings, name);
    if i.None? {
      assert IndexOf(t.openings, name) == Some(|s.openings|);
    } else {
      assert IndexOf(t.openings, name) == i by {
        IndexOfUnique(t.openings, name, i.value);
      }
    }
  }

  /** With unique names, the entry found for a name is the only one with it. */
  lemma IndexOfUnique(ops: seq<(string, OpeningRecord)>, name: string, k: nat)
    requires UniqueNames(ops) && k < |ops| && ops[k].0 == name
    ensures IndexOf(ops, name) == Some(k)
  {
  }

  /**
   * update_opening_result: an opening that has no entry is first played through update_opening
   * (so its played count becomes 1), then its win, loss or draw count goes up.
   */
  function WithOpeningResult(s: Stats, name: string, result: string): (t: Stats)
    ensures t == s.(openings := t.openings) && |t.openings| >= |s.openings|
    ensures UniqueNames(s.openings) ==> UniqueNames(t.openings)
    ensures IndexOf(s.openings, name).Some? ==>
              var i := IndexOf(s.openings, name).value;
              var r, r1 := s.openings[i].1, t.openings[i].1;
              |t.openings| == |s.openings| && t.openings[i].0 == name &&
              r1.played == r.played &&
              r1.wins == r.wins + (if result == "win" then 1 else 0) &&
              r1.losses == r.losses + (if result == "loss" then 1 else 0) &&
              r1.draws == r.draws + (if result == "draw" then 1 else 0) &&
              forall k | 0 <= k < |s.openings| && k != i :: t.openings[k] == s.openings[k]
  {
    var s1 := if IndexOf(s.openings, name).None? then WithOpening(s, name) else s;
    var i := IndexOf(s1.openings, name).value;
    var r := s1.openings[i].1;
    var r1 := if result == "win" then r.(wins := r.wins + 1)
              else if result == "loss" then r.(losses := r.losses + 1)
              else if result == "draw" then r.(draws := r.draws + 1)
              else r;
    s1.(openings := s1.openings[i := (name, r1)])
  }

  /** A result for an opening never seen before leaves it with exactly one game played. */
  lemma NewOpeningResult(s: Stats, name: string, result: string)
    requires IndexOf(s.openings, name).None?
    ensures var t := WithOpeningResult(s, name, result);
            t.openings == s.openings + [(name, t.openings[|s.openings|].1)] &&
            t.openings[|s.openings|].1.played == 1 &&
            t.openings[|s.openings|].1.wins == (if result == "win" then 1 else 0)
  {
    var s1 := WithOpening(s, name);
    assert IndexOf(s1.openings, name) == Some(|s.openings|);
  }

  /** No element appears twice. */
  predicate NoDuplicates(xs: seq<string>)
  {
    forall i, j | 0 <= i < j < |xs| :: xs[i] != xs[j]
  }

  /** add_improvement_area: the area is appended only when it is not listed yet. */
  function WithImprovementArea(s: Stats, area: string): (t: Stats)
    requires s.improvementAreas.Some?
    ensures t.improvementAreas.Some? && t == s.(improvementAreas := t.improvementAreas)
    ensures area in s.improvementAreas.value ==> t == s
    ensures area !in s.improvementAreas.value ==> t.improvementAreas.value == s.improvementAreas.value + [area]
    ensures NoDuplicates(s.improvementAreas.value) ==> NoDuplicates(t.improvementAreas.value)
    ensures area in t.improvementAreas.value
  {
    var areas := s.improvementAreas.value;
    if area !in areas then s.(improvementAreas := Some(areas + [area])) else s
  }

  /** Adding the same area twice is adding it once. */
  lemma ImprovementAreaIdempotent(s: Stats, area: string)
    requires s.improvementAreas.Some?
    ensures WithImprovementArea(WithImprovementArea(s, area), area) == WithImprovementArea(s, area)
  {
  }

  // ---------------------------------------------------------------- getters

  /** `max(min(x, 150), 70)`, the clamp get_stats applies and the game window's IQ scores share. */
  function ClampIq(x: int): (r: int)
    ensures 70 <= r <= 150 && (70 <= x <= 150 ==> r == x)
    ensures x > 150 ==> r == 150
    ensures x < 70 ==> r == 70
  {
    if x > 150 then 150 else if x < 70 then 70 else x
  }

  /**
   * get_stats: missing sections get their defaults (an IQ section starts at 110) and a
   * current IQ that is present is clamped into 70..150; the openings are untouched.
   */
  function Filled(s: Stats): (t: Stats)
    ensures t.games.Some? && t.iq.Some? && t.accuracy.Some? && t.mistakes.Some? && t.improvementAreas.Some?
    ensures t.openings == s.openings
    ensures s.games.Some? ==> t.games == s.games
    ensures s.mistakes.Some? ==> t.mistakes == s.mistakes
    ensures s.accuracy.Some? ==> t.accuracy == s.accuracy
    ensures s.improvementAreas.Some? ==> t.improvementAreas == s.improvementAreas
    ensures s.games.None? ==> t.games == Some(NoGames)
    ensures s.accuracy.None? ==> t.accuracy == Some(AccuracyStats(0.0, []))
    ensures s.mistakes.None? ==> t.mistakes == Some(NoMistakes)
    ensures s.improvementAreas.None? ==> t.improvementAreas == Some([])
    ensures s.iq.None? ==> t.iq == Some(IqStats(Some(110), []))
    ensures t.iq.value.current.Some? ==> 70 <= t.iq.value.current.value <= 150
    ensures s.iq.Some? ==> t.iq.value.history == s.iq.value.history &&
                           (t.iq.value.current.Some? <==> s.iq.value.current.Some?)
    ensures s.iq.Some? && s.iq.value.current.Some? ==>
              t.iq.value.current == Some(ClampIq(s.iq.value.current.value))
  {
    var games := if s.games.Some? then s.games else Some(NoGames);
    var iq := if s.iq.Some? then s.iq.value else IqStats(Some(110), []);
    var accuracy := if s.accuracy.Some? then s.accuracy else Some(AccuracyStats(0.0, []));
    var mistakes := if s.mistakes.Some? then s.mistakes else Some(NoMistakes);
    var areas := if s.improvementAreas.Some? then s.improvementAreas else Some([]);
    var iq1 := if iq.current.Some? then iq.(current := Some(ClampIq(iq.current.value))) else iq;
    Stats(games, Some(iq1), accuracy, mistakes, s.openings, areas)
  }

  /** Filling in twice changes nothing more: get_stats is idempotent. */
  lemma FilledIdempotent(s: Stats)
    ensures Filled(Filled(s)) == Filled(s)
  {
  }

  /** The tracker that starts without a file reports the default 1000 clamped to 150. */
  lemma DefaultIqReadsAs150()
    ensures Filled(DefaultStats()).iq.value.current == Some(150)
  {
  }

  /** `history[-limit:]`. */
  function Trend<T>(history: seq<T>, limit: int): seq<T>
  {
    From(history, -limit)
  }

  /** A positive limit returns the last min(limit, n) entries in order; a limit of 0 returns all of them. */
  lemma TrendIsSuffix<T>(history: seq<T>, limit: int)
    ensures limit > 0 ==> Trend(history, limit) == history[|history| - (if limit < |history| then limit else |history|)..]
    ensures limit == 0 ==> Trend(history, limit) == history
  {
    if limit > 0 {
      LastSlice(history, limit);
    }
  }

  /** One row of get_best_openings. */
  datatype OpeningRate = OpeningRate(name: string, played: int, winRate: real)

  /** An opening's row: its name, games and win rate in percent. */
  function RateOf(op: (string, OpeningRecord)): OpeningRate
    requires op.1.played > 0
  {
    OpeningRate(op.0, op.1.played, (op.1.wins as real / op.1.played as real) * 100.0)
  }

  /** The openings with at least one game, with their win rate in percent, in dictionary order. */
  function Rated(ops: seq<(string, OpeningRecord)>): (rs: seq<OpeningRate>)
    ensures |rs| <= |ops|
    ensures forall k | 0 <= k < |rs| :: rs[k].played > 0
    decreases |ops|
  {
    if |ops| == 0 then []
    else
      var last := ops[|ops| - 1];
      Rated(ops[..|ops| - 1]) + (if last.1.played > 0 then [RateOf(last)] else [])
  }

  /** Every played opening has its row, and every row is that of a played opening. */
  lemma {:induction false} RatedMembers(ops: seq<(string, OpeningRecord)>)
    ensures var rs := Rated(ops);
      (forall k | 0 <= k < |ops| && ops[k].1.played > 0 :: RateOf(ops[k]) in rs) &&
      (forall k | 0 <= k < |rs| :: exists j | 0 <= j < |ops| :: ops[j].1.played > 0 && rs[k] == RateOf(ops[j]))
    decreases |ops|
  {
    if |ops| > 0 {
      var init := ops[..|ops| - 1];
      var last := ops[|ops| - 1];
      RatedMembers(init);
      var rest := Rated(init);
      var rs := Rated(ops);
      assert rs == rest + (if last.1.played > 0 then [RateOf(last)] else []);
      forall k | 0 <= k < |ops| && ops[k].1.played > 0
        ensures RateOf(ops[k]) in rs
      {
        if k < |init| {
          assert ops[k] == init[k];
        }
      }
      forall k | 0 <= k < |rs|
        ensures exists j | 0 <= j < |ops| :: ops[j].1.played > 0 && rs[k] == RateOf(ops[j])
      {
        if k < |rest| {
          assert rs[k] == rest[k];
          var j :| 0 <= j < |init| && init[j].1.played > 0 && rest[k] == RateOf(init[j]);
          assert ops[j] == init[j];
        } else {
          assert ops[|ops| - 1] == last;
        }
      }
    }
  }

  /** One more opening adds its row when it has been played. */
  lemma RatedStep(ops: seq<(string, OpeningRecord)>, i: nat)
    requires i < |ops|
    ensures Rated(ops[..i + 1]) == Rated(ops[..i]) + (if ops[i].1.played > 0 then [RateOf(ops[i])] else [])
  {
    assert ops[..i + 1][..i] == ops[..i];
    assert ops[..i + 1][i] == ops[i];
  }

  /** Rating distributes over concatenation, so the rows keep the dictionary's order. */
  lemma {:induction false} RatedAppend(a: seq<(string, OpeningRecord)>, b: seq<(string, OpeningRecord)>)
    ensures Rated(a + b) == Rated(a) + Rated(b)
    decreases |b|
  {
    if |b| == 0 {
      assert a + b == a;
    } else {
      var b0 := b[..|b| - 1];
      assert (a + b)[..|a + b| - 1] == a + b0;
      assert (a + b)[|a + b| - 1] == b[|b| - 1];
      RatedAppend(a, b0);
    }
  }

  predicate SortedByRate(s: seq<OpeningRate>)
  {
    forall i, j | 0 <= i < j < |s| :: s[i].winRate >= s[j].winRate
  }

  /** Inserting after every element with at least the same rate keeps equal rates in their order. */
  function InsertByRate(x: OpeningRate, s: seq<OpeningRate>): (r: seq<OpeningRate>)
    requires SortedByRate(s)
    ensures SortedByRate(r)
    ensures multiset(r) == multiset(s) + multiset{x}
    ensures forall i | 0 <= i < |r| :: r[i] == x || r[i] in s
    decreases |s|
  {
    if |s| == 0 then [x]
    else if s[0].winRate >= x.winRate then
      var rest := InsertByRate(x, s[1..]);
      RateConsSorted(s, x, rest);
      [s[0]] + rest
    else [x] + s
  }

  lemma RateConsSorted(s: seq<OpeningRate>, x: OpeningRate, rest: seq<OpeningRate>)
    requires |s| > 0 && SortedByRate(s) && s[0].winRate >= x.winRate
    requires SortedByRate(rest) && multiset(rest) == multiset(s[1..]) + multiset{x}
    requires forall i | 0 <= i < |rest| :: rest[i] == x || rest[i] in s[1..]
    ensures SortedByRate([s[0]] + rest)
    ensures multiset([s[0]] + rest) == multiset(s) + multiset{x}
    ensures forall i | 0 <= i < |rest| + 1 :: ([s[0]] + rest)[i] == x || ([s[0]] + rest)[i] in s
  {
    assert s == [s[0]] + s[1..];
    forall i | 0 <= i < |rest|
      ensures s[0].winRate >= rest[i].winRate
    {
      assert rest[i] in multiset(rest);
    }
  }

  /** The entries of s with rate v, in their order in s. */
  function WithRate(s: seq<OpeningRate>, v: real): (r: seq<OpeningRate>)
    ensures |r| <= |s|
    decreases |s|
  {
    if |s| == 0 then []
    else (if s[0].winRate == v then [s[0]] else []) + WithRate(s[1..], v)
  }

  lemma {:induction false} WithRateAppend(a: seq<OpeningRate>, b: seq<OpeningRate>, v: real)
    ensures WithRate(a + b, v) == WithRate(a, v) + WithRate(b, v)
    decreases |a|
  {
    if |a| == 0 {
      assert a + b == b;
    } else {
      var head := if a[0].winRate == v then [a[0]] else [];
      assert (a + b)[0] == a[0];
      assert (a + b)[1..] == a[1..] + b;
      assert WithRate(a + b, v) == head + WithRate(a[1..] + b, v);
      assert WithRate(a, v) == head + WithRate(a[1..], v);
      WithRateAppend(a[1..], b, v);
    }
  }

  /** WithRate of entries all rated below v is empty. */
  lemma {:induction false} WithRateBelow(s: seq<OpeningRate>, v: real)
    requires forall i | 0 <= i < |s| :: s[i].winRate < v
    ensures WithRate(s, v) == []
    decreases |s|
  {
    if |s| > 0 {
      WithRateBelow(s[1..], v);
    }
  }

  /** Putting one entry in front of two lists that agree on rate v up to a tail keeps them agreeing. */
  lemma ConsWithRate(h: OpeningRate, r: seq<OpeningRate>, t: seq<OpeningRate>, tail: seq<OpeningRate>, v: real)
    requires WithRate(r, v) == WithRate(t, v) + tail
    ensures WithRate([h] + r, v) == WithRate([h] + t, v) + tail
  {
    assert ([h] + r)[1..] == r;
    assert ([h] + t)[1..] == t;
  }

  /** Insertion is stable: x goes after every entry of its own rate. */
  lemma {:induction false} InsertByRateStable(x: OpeningRate, s: seq<OpeningRate>, v: real)
    requires SortedByRate(s)
    ensures WithRate(InsertByRate(x, s), v) == WithRate(s, v) + (if x.winRate == v then [x] else [])
    decreases |s|
  {
    var own := if x.winRate == v then [x] else [];
    if |s| == 0 {
    } else if s[0].winRate >= x.winRate {
      var rest := InsertByRate(x, s[1..]);
      InsertByRateStable(x, s[1..], v);
      ConsWithRate(s[0], rest, s[1..], own, v);
      assert [s[0]] + s[1..] == s;
    } else {
      InsertInFrontStable(x, s, v);
    }
  }

  /** An entry rated above the head of a sorted list is rated above all of it, so no entry of its rate follows it. */
  lemma InsertInFrontStable(x: OpeningRate, s: seq<OpeningRate>, v: real)
    requires SortedByRate(s) && |s| > 0 && s[0].winRate < x.winRate
    ensures WithRate([x] + s, v) == WithRate(s, v) + (if x.winRate == v then [x] else [])
  {
    if x.winRate == v {
      WithRateBelow(s, v);
    }
    assert ([x] + s)[1..] == s;
  }

  /** The entries of rate v of init + [last]: those of init, then last when it has rate v. */
  lemma SnocWithRate(init: seq<OpeningRate>, last: OpeningRate, v: real)
    ensures WithRate(init + [last], v) == WithRate(init, v) + (if last.winRate == v then [last] else [])
  {
    WithRateAppend(init, [last], v);
    assert [last][1..] == [];
  }

  /** The sort is stable: the entries of each rate keep their order from s. */
  lemma {:induction false} SortByRateStable(s: seq<OpeningRate>, v: real)
    ensures WithRate(SortByRate(s), v) == WithRate(s, v)
    decreases |s|
  {
    if |s| > 0 {
      var init, last := s[..|s| - 1], s[|s| - 1];
      assert s == init + [last];
      SortByRateStable(init, v);
      InsertByRateStable(last, SortByRate(init), v);
      SnocWithRate(init, last, v);
    }
  }

  /** `sort(key=win_rate, reverse=True)`, as an insertion sort that keeps equal rates in their order (SortByRateStable). */
  function SortByRate(s: seq<OpeningRate>): (r: seq<OpeningRate>)
    ensures SortedByRate(r)
    ensures multiset(r) == multiset(s)
    ensures forall i | 0 <= i < |r| :: r[i] in s
    decreases |s|
  {
    if |s| == 0 then []
    else
      assert s == s[..|s| - 1] + [s[|s| - 1]];
      InsertByRate(s[|s| - 1], SortByRate(s[..|s| - 1]))
  }

  /** get_best_openings: the played openings by win rate, highest first, cut with `[:limit]`. */
  function BestOpenings(ops: seq<(string, OpeningRecord)>, limit: int): (best: seq<OpeningRate>)
    ensures SortedByRate(best)
    ensures limit >= 0 ==> |best| == if limit < |Rated(ops)| then limit else |Rated(ops)|
    ensures multiset(best) <= multiset(Rated(ops))
    ensures forall k | 0 <= k < |best| :: best[k].played > 0
    ensures forall x, i | 0 <= i < |best| && multiset(best)[x] < multiset(Rated(ops))[x] :: x.winRate <= best[i].winRate
  {
    var rated := Rated(ops);
    var sorted := SortByRate(rated);
    PrefixFacts(rated, sorted, SliceIndex(limit, |sorted|));
    PrefixIsTop(sorted, SliceIndex(limit, |sorted|));
    UpTo(sorted, limit)
  }

  /** A prefix of a list sorted by rate holds the best rates: whatever is left out rates no higher than anything kept. */
  lemma PrefixIsTop(sorted: seq<OpeningRate>, n: nat)
    requires SortedByRate(sorted) && n <= |sorted|
    ensures forall x, i | 0 <= i < n && multiset(sorted[..n])[x] < multiset(sorted)[x] :: x.winRate <= sorted[..n][i].winRate
  {
    assert sorted == sorted[..n] + sorted[n..];
    forall x, i | 0 <= i < n && multiset(sorted[..n])[x] < multiset(sorted)[x]
      ensures x.winRate <= sorted[..n][i].winRate
    {
      assert multiset(sorted) == multiset(sorted[..n]) + multiset(sorted[n..]);
      assert x in multiset(sorted[n..]);
      var j :| 0 <= j < |sorted[n..]| && sorted[n..][j] == x;
      assert sorted[n + j] == x;
    }
  }

  /** A prefix of the sorted played openings is sorted, holds only played openings, and comes from them. */
  lemma PrefixFacts(rated: seq<OpeningRate>, sorted: seq<OpeningRate>, n: nat)
    requires forall k | 0 <= k < |rated| :: rated[k].played > 0
    requires SortedByRate(sorted) && multiset(sorted) == multiset(rated)
    requires forall i | 0 <= i < |sorted| :: sorted[i] in rated
    requires n <= |sorted|
    ensures |sorted| == |rated|
    ensures SortedByRate(sorted[..n])
    ensures multiset(sorted[..n]) <= multiset(rated)
    ensures forall k | 0 <= k < n :: sorted[..n][k].played > 0
  {
    assert |sorted| == |multiset(sorted)| == |rated|;
    assert sorted == sorted[..n] + sorted[n..];
    forall k | 0 <= k < n
      ensures sorted[..n][k].played > 0
    {
      assert sorted[k] in rated;
    }
  }

  const DefaultSuggestions: seq<string> := [
    "Analyze your games to identify recurring mistakes",
    "Study basic tactical patterns",
    "Practice endgames to improve your technique"]

  /** The average accuracy of the last three of the last five accuracy entries, when there are at least three. */
  function RecentAverage(history: seq<AccuracyEntry>): Option<real>
  {
    var trend := Trend(history, 5);
    if |trend| >= 3 then
      var last := From(trend, -3);
      Some((last[0].accuracy + last[1].accuracy + last[2].accuracy) / 3.0)
    else None
  }

  const BlunderTip := "Focus on reducing blunders by double-checking your moves"
  const TacticsTip := "Work on tactical awareness to increase good move percentage"
  const AccuracyTip := "Practice calculation to improve your move accuracy"

  /** The tips of the three rules, in the order the rules are checked. */
  const RuleTips: seq<string> := [BlunderTip, TacticsTip, AccuracyTip]

  /** The position of a rule's tip in RuleTips. */
  function RuleRank(tip: string): nat
  {
    if tip == BlunderTip then 0 else if tip == TacticsTip then 1 else 2
  }

  /** More than 30% of the recorded mistakes are blunders. */
  predicate ManyBlunders(m: Mistakes)
  {
    var total := m.blunders + m.mistakes + m.inaccuracies;
    total > 0 && m.blunders as real / total as real > 0.3
  }

  /** There are recorded mistakes and more blunders than good moves. */
  predicate FewGoodMoves(m: Mistakes)
  {
    m.blunders + m.mistakes + m.inaccuracies > 0 && m.blunders > m.goodMoves
  }

  /** The recent average accuracy exists and is below 50. */
  predicate LowAccuracy(a: AccuracyStats)
  {
    var recent := RecentAverage(a.history);
    recent.Some? && recent.value < 50.0
  }

  /**
   * get_improvement_suggestions: a blunder share above 0.3, more blunders than good moves and a
   * recent accuracy below 50 each add their tip, in that order; when none does, the three default tips.
   */
  function ImprovementSuggestions(s: Stats): (tips: seq<string>)
    requires s.mistakes.Some? && s.accuracy.Some?
    ensures tips != []
    ensures !ManyBlunders(s.mistakes.value) && !FewGoodMoves(s.mistakes.value) && !LowAccuracy(s.accuracy.value) ==>
              tips == DefaultSuggestions
    ensures ManyBlunders(s.mistakes.value) ==> tips[0] == BlunderTip
    ensures FewGoodMoves(s.mistakes.value) ==> TacticsTip in tips
    ensures LowAccuracy(s.accuracy.value) ==> tips[|tips| - 1] == AccuracyTip
    ensures var m, a := s.mistakes.value, s.accuracy.value;
            (ManyBlunders(m) || FewGoodMoves(m) || LowAccuracy(a)) ==>
              (BlunderTip in tips <==> ManyBlunders(m)) &&
              (TacticsTip in tips <==> FewGoodMoves(m)) &&
              (AccuracyTip in tips <==> LowAccuracy(a)) &&
              (forall i | 0 <= i < |tips| :: tips[i] in RuleTips) &&
              (forall i, j | 0 <= i < j < |tips| :: RuleRank(tips[i]) < RuleRank(tips[j]))
  {
    var m := s.mistakes.value;
    var tips := (if ManyBlunders(m) then [BlunderTip] else []) +
                (if FewGoodMoves(m) then [TacticsTip] else []) +
                (if LowAccuracy(s.accuracy.value) then [AccuracyTip] else []);
    if tips == [] then DefaultSuggestions else tips
  }

  /** With no mistakes recorded and fewer than three accuracy entries, the advice is the default list. */
  lemma FreshPlayerGetsDefaults(s: Stats)
    requires s.mistakes == Some(NoMistakes) && s.accuracy.Some? && |s.accuracy.value.history| < 3
    ensures ImprovementSuggestions(s) == DefaultSuggestions
  {
    assert |Trend(s.accuracy.value.history, 5)| <= |s.accuracy.value.history|;
  }

  // ---------------------------------------------------------------- the tracker

  class ProgressTracker {
    var stats: Stats

    /** __init__ when there is no statistics file: the defaults. */
    constructor()
      ensures stats == DefaultStats()
    {
      stats := DefaultStats();
    }

    /** __init__ with the record read from the statistics file. */
    constructor Loaded(loaded: Stats)
      requires UniqueNames(loaded.openings)
      ensures stats == loaded
    {
      stats := loaded;
    }

    method UpdateGameResult(result: string)
      modifies this
      ensures stats == WithGameResult(old(stats), result)
    {
      var games := if stats.games.Some? then stats.games.value else NoGames;
      games := games.(total := games.total + 1);
      if result == "win" {
        games := games.(wins := games.wins + 1);
      } else if result == "loss" {
        games := games.(losses := games.losses + 1);
      } else if result == "draw" {
        games := games.(draws := games.draws + 1);
      }
      stats := stats.(games := Some(games));
    }

    /** update_iq, with the clock reading `int(time.time())` passed in. */
    method UpdateIq(iq: int, timestamp: int)
      requires stats.iq.Some?
      modifies this
      ensures stats == WithIq(old(stats), iq, timestamp)
    {
      stats := stats.(iq := Some(IqStats(Some(iq), stats.iq.value.history + [IqEntry(timestamp, iq)])));
    }

    method UpdateMistakes(blunders: int, mistakes: int, inaccuracies: int, goodMoves: int)
      requires stats.mistakes.Some?
      modifies this
      ensures stats == WithMistakes(old(stats), blunders, mistakes, inaccuracies, goodMoves)
    {
      var m := stats.mistakes.value;
      m := m.(blunders := m.blunders + blunders);
      m := m.(mistakes := m.mistakes + mistakes);
      m := m.(inaccuracies := m.inaccuracies + inaccuracies);
      m := m.(goodMoves := m.goodMoves + goodMoves);
      stats := stats.(mistakes := Some(m));
    }

    method UpdateOpening(name: string)
      modifies this
      ensures stats == WithOpening(old(stats), name)
    {
      var i := IndexOf(stats.openings, name);
      if i.None? {
        stats := stats.(openings := stats.openings + [(name, OpeningRecord(0, 0, 0, 0))]);
        i := Some(|stats.openings| - 1);
      }
      var r := stats.openings[i.value].1;
      stats := stats.(openings := stats.openings[i.value := (name, r.(played := r.played + 1))]);
    }

    method UpdateOpeningResult(name: string, result: string)
      modifies this
      ensures stats == WithOpeningResult(old(stats), name, result)
    {
      if IndexOf(stats.openings, name).None? {
        UpdateOpening(name);
      }
      var i := IndexOf(stats.openings, name).value;
      var r := stats.openings[i].1;
      if result == "win" {
        r := r.(wins := r.wins + 1);
      } else if result == "loss" {
        r := r.(losses := r.losses + 1);
      } else if result == "draw" {
        r := r.(draws := r.draws + 1);
      }
      stats := stats.(openings := stats.openings[i := (name, r)]);
    }

    method AddImprovementArea(area: string)
      requires stats.improvementAreas.Some?
      modifies this
      ensures stats == WithImprovementArea(old(stats), area)
    {
      if area !in stats.improvementAreas.value {
        stats := stats.(improvementAreas := Some(stats.improvementAreas.value + [area]));
      }
    }

    /** get_stats: repairs the record in place and returns it. */
    method GetStats() returns (s: Stats)
      modifies this
      ensures stats == Filled(old(stats)) && s == stats
    {
      if stats.games.None? {
        stats := stats.(games := Some(NoGames));
      }
      if stats.iq.None? {
        stats := stats.(iq := Some(IqStats(Some(110), [])));
      }
      if stats.accuracy.None? {
        stats := stats.(accuracy := Some(AccuracyStats(0.0, [])));
      }
      if stats.mistakes.None? {
        stats := stats.(mistakes := Some(NoMistakes));
      }
      if stats.improvementAreas.None? {
        stats := stats.(improvementAreas := Some([]));
      }
      if stats.iq.Some? && stats.iq.value.current.Some? {
        stats := stats.(iq := Some(stats.iq.value.(current := Some(ClampIq(stats.iq.value.current.value)))));
      }
      s := stats;
    }

    /** get_iq_trend. */
    method GetIqTrend(limit: int) returns (trend: seq<IqEntry>)
      requires stats.iq.Some?
      ensures trend == Trend(stats.iq.value.history, limit)
    {
      trend := From(stats.iq.value.history, -limit);
    }

    /** get_best_openings: the loop collecting played openings, then the sort and the cut. */
    method GetBestOpenings(limit: int) returns (best: seq<OpeningRate>)
      ensures best == BestOpenings(stats.openings, limit)
    {
      var ops := stats.openings;
      var openingStats: seq<OpeningRate> := [];
      for i := 0 to |ops|
        invariant openingStats == Rated(ops[..i])
      {
        RatedStep(ops, i);
        var r := ops[i].1;
        if r.played > 0 {
          var winRate := (r.wins as real / r.played as real) * 100.0;
          openingStats := openingStats + [OpeningRate(ops[i].0, r.played, winRate)];
        }
      }
      assert ops[..|ops|] == ops;
      best := UpTo(SortByRate(openingStats), limit);
    }

    method GetImprovementSuggestions() returns (tips: seq<string>)
      requires stats.mistakes.Some? && stats.accuracy.Some?
      ensures tips == ImprovementSuggestions(stats) && tips != []
    {
      tips := ImprovementSuggestions(stats);
    }
  }
}
