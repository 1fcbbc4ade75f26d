/**
 * Forsyth-Edwards Notation as the game state writes and reads it (chess_engine/rules.py:246-401):
 * the piece placement rank by rank with runs of empty squares as digits, the side to move, the
 * castling rights in KQkq order, the en-passant square, and the two move clocks. Python's
 * exceptions are the error values of the parser and the writer.
 */
module Fen {
  import opened Wrappers
  import opened Pieces
  import opened Moves
  import opened BoardState
  import PyText

  /** An exception the FEN code lets through, with the message where the source gives one. */
  datatype PyError = ValueError(message: string) | IndexError | KeyError

  /** What FEN says about a square: the colour and type of its piece, if any. */
  type Square = Option<(Color, Kind)>

  /** Eight ranks of eight squares, the top rank (row 0) first. */
  type Placement = p: seq<seq<Square>> | |p| == 8 && forall r | 0 <= r < 8 :: |p[r]| == 8
    witness seq(8, _ => seq(8, _ => None))

  /** Everything get_fen reads: the board's pieces, turn, castling rights and en-passant square, and the clocks. */
  datatype Position = Position(
    placement: Placement,
    whiteToMove: bool,
    rights: Rights,
    enPassant: Option<(int, int)>,
    halfMove: int,
    fullMove: int)

  function SquareOf(x: Cell): (q: Square)
    ensures q.Some? <==> x.Some?
    ensures x.Some? ==> q.value == (x.value.color, x.value.kind)
  {
    if x.Some? then Some((x.value.color, x.value.kind)) else None
  }

  /** The colours and types on a board, without the identities of its piece objects. */
  function PlacementOf(g: Grid): (p: Placement)
    ensures forall r, c | 0 <= r < 8 && 0 <= c < 8 :: p[r][c] == SquareOf(g[r][c])
  {
    seq(8, r requires 0 <= r < 8 => seq(8, c requires 0 <= c < 8 => SquareOf(g[r][c])))
  }

  /** The position a board and the two clocks describe. */
  function PositionOf(s: State, halfMove: int, fullMove: int): Position
  {
    Position(PlacementOf(s.grid), s.whiteToMove, s.rights, s.enPassant, halfMove, fullMove)
  }

  // ---------------------------------------------------------------- ASCII letters

  predicate IsUpper(ch: char)
  {
    'A' <= ch <= 'Z'
  }

  function Lower(ch: char): (l: char)
    ensures IsUpper(ch) ==> 'a' <= l <= 'z'
  {
    if IsUpper(ch) then (ch as int + 32) as char else ch
  }

  function Upper(ch: char): (u: char)
    ensures 'a' <= ch <= 'z' ==> IsUpper(u)
  {
    if 'a' <= ch <= 'z' then (ch as int - 32) as char else ch
  }

  /** The characters a written FEN field is made of: digits, letters, '/' and '-'. */
  predicate FenChar(ch: char)
  {
    '0' <= ch <= '9' || 'A' <= ch <= 'Z' || 'a' <= ch <= 'z' || ch == '/' || ch == '-'
  }

  predicate FenWord(s: string)
  {
    forall i | 0 <= i < |s| :: FenChar(s[i])
  }

  lemma FenWordNoSpace(s: string)
    requires FenWord(s)
    ensures PyText.NoSpace(s)
  {
  }

  // ---------------------------------------------------------------- writing

  /** The piece symbol: the type letter, lower-cased for black. */
  function Symbol(q: (Color, Kind)): (ch: char)
    ensures ch in "PRNBQKprnbqk"
    ensures IsUpper(ch) <==> q.0 == White
    ensures KindOfLetter(Upper(ch)) == Some(q.1)
  {
    if q.0 == White then KindLetter(q.1) else Lower(KindLetter(q.1))
  }

  /** `str(empty_count)` when the count is positive. */
  function Run(empty: nat): (s: string)
    ensures 0 < empty < 10 ==> s == [PyText.DigitChar(empty)]
    ensures empty == 0 ==> s == ""
    ensures FenWord(s)
  {
    if empty > 0 then PyText.NatDigits(empty) else ""
  }

  /** The rest of one rank, `empty` squares of the current run already passed. */
  function RowFen(cells: seq<Square>, empty: nat): (s: string)
    ensures FenWord(s) && '/' !in s
    decreases |cells|
  {
    if |cells| == 0 then Run(empty)
    else if cells[0].Some? then Run(empty) + [Symbol(cells[0].value)] + RowFen(cells[1..], 0)
    else RowFen(cells[1..], empty + 1)
  }

  /** The eight ranks, each written on its own. */
  function RankStrings(p: Placement): (rs: seq<string>)
    ensures |rs| == 8
    ensures forall r | 0 <= r < 8 :: rs[r] == RowFen(p[r], 0)
  {
    seq(8, r requires 0 <= r < 8 => RowFen(p[r], 0))
  }

  /** Field 1: the ranks joined by '/'. */
  function PlacementFen(p: Placement): string
  {
    PyText.Join(RankStrings(p), "/")
  }

  /** Field 3: "KQkq" with the missing rights left out, "-" when none is left. */
  function CastlingFen(rights: Rights): (s: string)
    ensures s != "" && FenWord(s)
    ensures ('K' in s <==> rights.wks) && ('Q' in s <==> rights.wqs)
    ensures ('k' in s <==> rights.bks) && ('q' in s <==> rights.bqs)
  {
    var s := (if rights.wks then "K" else "") + (if rights.wqs then "Q" else "") +
             (if rights.bks then "k" else "") + (if rights.bqs then "q" else "");
    if s == "" then "-" else s
  }

  /** Field 4: the file and rank of the en-passant square, "-" without one; a square off the board is a KeyError. */
  function EnPassantFen(ep: Option<(int, int)>): (r: Result<string, PyError>)
    ensures r.Err? <==> ep.Some? && !InBounds(ep.value.0, ep.value.1)
    ensures r.Ok? ==> r.value != "" && FenWord(r.value)
  {
    if ep.None? then Ok("-")
    else if InBounds(ep.value.0, ep.value.1) then Ok(RankFile(ep.value.0, ep.value.1))
    else Err(KeyError)
  }

  /** The six fields get_fen writes, in order. */
  function FenFields(p: Position, ep: string): seq<string>
  {
    [PlacementFen(p.placement), if p.whiteToMove then "w" else "b", CastlingFen(p.rights), ep,
     PyText.IntToString(p.halfMove), PyText.IntToString(p.fullMove)]
  }

  /** get_fen: the six fields separated by single spaces. */
  function Fen(p: Position): (r: Result<string, PyError>)
    ensures r.Err? <==> EnPassantFen(p.enPassant).Err?
  {
    match EnPassantFen(p.enPassant)
    case Err(e) => Err(e)
    case Ok(ep) => Ok(PyText.Unwords(FenFields(p, ep)))
  }

  // ---------------------------------------------------------------- reading

  /** A rank being read: its eight squares and the last king square of each colour read so far. */
  datatype RankRead = RankRead(cells: seq<Square>, whiteKing: Option<(int, int)>, blackKing: Option<(int, int)>)

  /** Where a king of colour c read at (r, col) leaves the two king locations. */
  function KingsAfterRead(q: (Color, Kind), r: int, col: int, wk: Option<(int, int)>, bk: Option<(int, int)>): (Option<(int, int)>, Option<(int, int)>)
  {
    if q.1 != King then (wk, bk)
    else if q.0 == White then (Some((r, col)), bk) else (wk, Some((r, col)))
  }

  /**
   * The loop over one rank's characters from column `col`: a digit skips that many squares, a
   * piece letter places its piece (an IndexError past the last column) and moves on, and any
   * other character moves on without placing anything.
   */
  function ParseRank(s: string, col: nat, row: seq<Square>, r: int, wk: Option<(int, int)>, bk: Option<(int, int)>): (res: Result<RankRead, PyError>)
    requires |row| == 8
    ensures res.Ok? ==> |res.value.cells| == 8
    decreases |s|
  {
    if |s| == 0 then Ok(RankRead(row, wk, bk))
    else if PyText.DigitValue(s[0]).Some? then ParseRank(s[1..], col + PyText.DigitValue(s[0]).value, row, r, wk, bk)
    else
      var colour := if IsUpper(s[0]) then White else Black;
      match KindOfLetter(Upper(s[0]))
      case None => ParseRank(s[1..], col + 1, row, r, wk, bk)
      case Some(kind) =>
        if col >= 8 then Err(IndexError)
        else
          var kings := KingsAfterRead((colour, kind), r, col, wk, bk);
          ParseRank(s[1..], col + 1, row[col := Some((colour, kind))], r, kings.0, kings.1)
  }

  /** The king square of colour c recorded while reading rank r is still unchanged, or a king of that colour placed from column col on. */
  predicate KingRecorded(res: RankRead, c: Color, before: Option<(int, int)>, r: int, col: int)
    requires |res.cells| == 8
  {
    var k := if c == White then res.whiteKing else res.blackKing;
    k == before || (k.Some? && k.value.0 == r && 0 <= col <= k.value.1 < 8 && res.cells[k.value.1] == Some((c, King)))
  }

  /** Every king of colour c placed in the rank from column col on is recorded. */
  predicate KingsPlacedRecorded(res: RankRead, c: Color, row: seq<Square>, r: int, col: int)
    requires |res.cells| == 8 && |row| == 8
  {
    var k := if c == White then res.whiteKing else res.blackKing;
    forall j | 0 <= col <= j < 8 && res.cells[j] != row[j] && res.cells[j] == Some((c, King)) :: k.Some? && k.value.0 == r
  }

  /**
   * Reading a rank places pieces only from column col on, and leaves each king location on the
   * last king of that colour it placed.
   */
  lemma {:induction false} RankReadFacts(s: string, col: nat, row: seq<Square>, r: int, wk: Option<(int, int)>, bk: Option<(int, int)>)
    requires |row| == 8 && ParseRank(s, col, row, r, wk, bk).Ok?
    ensures var res := ParseRank(s, col, row, r, wk, bk).value;
      (forall j | 0 <= j < 8 && j < col :: res.cells[j] == row[j]) &&
      KingRecorded(res, White, wk, r, col) && KingRecorded(res, Black, bk, r, col) &&
      KingsPlacedRecorded(res, White, row, r, col) && KingsPlacedRecorded(res, Black, row, r, col)
    decreases |s|
  {
    if |s| > 0 {
      if PyText.DigitValue(s[0]).Some? {
        RankReadFacts(s[1..], col + PyText.DigitValue(s[0]).value, row, r, wk, bk);
      } else {
        var colour := if IsUpper(s[0]) then White else Black;
        match KindOfLetter(Upper(s[0]))
        case None => RankReadFacts(s[1..], col + 1, row, r, wk, bk);
        case Some(kind) =>
          var q := (colour, kind);
          var kings := KingsAfterRead(q, r, col, wk, bk);
          var row' := row[col := Some(q)];
          RankReadFacts(s[1..], col + 1, row', r, kings.0, kings.1);
          var res := ParseRank(s[1..], col + 1, row', r, kings.0, kings.1).value;
          assert ParseRank(s, col, row, r, wk, bk).value == res;
          PieceFacts(res, q, row, col, r, wk, bk);
      }
    }
  }

  /** The rank facts after placing piece q at column col follow from those of the rest of the rank. */
  lemma PieceFacts(res: RankRead, q: (Color, Kind), row: seq<Square>, col: nat, r: int, wk: Option<(int, int)>, bk: Option<(int, int)>)
    requires |row| == 8 && |res.cells| == 8 && col < 8
    requires var kings := KingsAfterRead(q, r, col, wk, bk); var row' := row[col := Some(q)];
      (forall j | 0 <= j < 8 && j < col + 1 :: res.cells[j] == row'[j]) &&
      KingRecorded(res, White, kings.0, r, col + 1) && KingRecorded(res, Black, kings.1, r, col + 1) &&
      KingsPlacedRecorded(res, White, row', r, col + 1) && KingsPlacedRecorded(res, Black, row', r, col + 1)
    ensures (forall j | 0 <= j < 8 && j < col :: res.cells[j] == row[j]) &&
      KingRecorded(res, White, wk, r, col) && KingRecorded(res, Black, bk, r, col) &&
      KingsPlacedRecorded(res, White, row, r, col) && KingsPlacedRecorded(res, Black, row, r, col)
  {
    assert res.cells[col] == Some(q);
  }

  /** The placement read so far and the last king square of each colour. */
  datatype PlacementRead = PlacementRead(placement: Placement, whiteKing: Option<(int, int)>, blackKing: Option<(int, int)>)

  /** The loop over the ranks from rank index `i`, each read into the cleared board's row. */
  function ParseRanks(ranks: seq<string>, i: nat, p: Placement, wk: Option<(int, int)>, bk: Option<(int, int)>): (res: Result<PlacementRead, PyError>)
    requires |ranks| == 8 && i <= 8
    decreases 8 - i
  {
    if i == 8 then Ok(PlacementRead(p, wk, bk))
    else
      match ParseRank(ranks[i], 0, p[i], i, wk, bk)
      case Err(e) => Err(e)
      case Ok(read) => ParseRanks(ranks, i + 1, p[i := read.cells], read.whiteKing, read.blackKing)
  }

  /** The king location of colour c is still `before`, or on a king of that colour in rank i or below. */
  predicate KingFound(res: PlacementRead, c: Color, before: Option<(int, int)>, i: int)
  {
    var k := if c == White then res.whiteKing else res.blackKing;
    k == before || (k.Some? && 0 <= i <= k.value.0 < 8 && 0 <= k.value.1 < 8 && res.placement[k.value.0][k.value.1] == Some((c, King)))
  }

  /** Every king of colour c placed in rank i or below is found. */
  predicate KingsPlacedFound(res: PlacementRead, c: Color, p: Placement, i: int)
  {
    var k := if c == White then res.whiteKing else res.blackKing;
    forall r, j | 0 <= i <= r < 8 && 0 <= j < 8 && res.placement[r][j] != p[r][j] && res.placement[r][j] == Some((c, King)) :: k.Some?
  }

  /** Reading the ranks from i on leaves the earlier ranks alone and the king locations on the last kings placed. */
  lemma {:induction false} RanksReadFacts(ranks: seq<string>, i: nat, p: Placement, wk: Option<(int, int)>, bk: Option<(int, int)>)
    requires |ranks| == 8 && i <= 8 && ParseRanks(ranks, i, p, wk, bk).Ok?
    ensures var res := ParseRanks(ranks, i, p, wk, bk).value;
      (forall r | 0 <= r < i :: res.placement[r] == p[r]) &&
      KingFound(res, White, wk, i) && KingFound(res, Black, bk, i) &&
      KingsPlacedFound(res, White, p, i) && KingsPlacedFound(res, Black, p, i)
    decreases 8 - i
  {
    if i < 8 {
      var read := ParseRank(ranks[i], 0, p[i], i, wk, bk).value;
      RankReadFacts(ranks[i], 0, p[i], i, wk, bk);
      var p' := p[i := read.cells];
      RanksReadFacts(ranks, i + 1, p', read.whiteKing, read.blackKing);
      var res := ParseRanks(ranks, i, p, wk, bk).value;
      assert res == ParseRanks(ranks, i + 1, p', read.whiteKing, read.blackKing).value;
      assert res.placement[i] == read.cells;
      KingStep(res, read, White, wk, p, p', i);
      KingStep(res, read, Black, bk, p, p', i);
    }
  }

  /** The king facts of rank i and of the ranks below it combine. */
  lemma KingStep(res: PlacementRead, read: RankRead, c: Color, before: Option<(int, int)>, p: Placement, p': Placement, i: nat)
    requires i < 8 && |read.cells| == 8 && p' == p[i := read.cells] && res.placement[i] == read.cells
    requires KingRecorded(read, c, before, i, 0) && KingsPlacedRecorded(read, c, p[i], i, 0)
    requires KingFound(res, c, if c == White then read.whiteKing else read.blackKing, i + 1)
    requires KingsPlacedFound(res, c, p', i + 1)
    ensures KingFound(res, c, before, i) && KingsPlacedFound(res, c, p, i)
  {
  }

  /** Field 4 read back: "-" is no square; otherwise its first two characters name the file and the rank. */
  function ParseEnPassant(field: string): (r: Result<Option<(int, int)>, PyError>)
    ensures r.Ok? && r.value.Some? ==> InBounds(r.value.value.0, r.value.value.1)
  {
    if field == "-" then Ok(None)
    else if |field| < 2 then Err(IndexError)
    else
      var c := FileToCol(field[0]);
      var r := RankToRow(field[1]);
      if c.Some? && r.Some? then Ok(Some((r.value, c.value))) else Err(KeyError)
  }

  /** `int(s)`, with the ValueError Python raises for anything else. */
  function ParseClock(s: string): Result<int, PyError>
  {
    match PyText.ParseInt(s)
    case Some(n) => Ok(n)
    case None => Err(ValueError("invalid literal for int() with base 10: '" + s + "'"))
  }

  /** What from_fen reads: the position and where the last 'K' and 'k' were placed. */
  datatype Parsed = Parsed(position: Position, whiteKing: Option<(int, int)>, blackKing: Option<(int, int)>)

  /** The cleared board from_fen starts from. */
  function EmptyPlacement(): (p: Placement)
    ensures forall r, c | 0 <= r < 8 && 0 <= c < 8 :: p[r][c] == None
  {
    seq(8, _ => seq(8, _ => None))
  }

  /**
   * from_fen: six whitespace-separated fields and eight '/'-separated ranks or a ValueError;
   * then the ranks, the side to move ("w" or anything else for black), the castling letters
   * wherever they occur in field 3, the en-passant square and the two clocks.
   */
  function ParseFen(fen: string): (r: Result<Parsed, PyError>)
    ensures |PyText.Words(fen)| != 6 ==> r == Err(ValueError("Invalid FEN: wrong number of fields"))
    ensures |PyText.Words(fen)| == 6 && |PyText.Split(PyText.Words(fen)[0], '/')| != 8 ==>
      r == Err(ValueError("Invalid FEN: wrong number of rows"))
  {
    var parts := PyText.Words(fen);
    if |parts| != 6 then Err(ValueError("Invalid FEN: wrong number of fields"))
    else ParseFields(parts)
  }

  /** The six fields of from_fen, read in order; the first error raised is the result. */
  function ParseFields(parts: seq<string>): (r: Result<Parsed, PyError>)
    requires |parts| == 6
    ensures |PyText.Split(parts[0], '/')| != 8 ==> r == Err(ValueError("Invalid FEN: wrong number of rows"))
  {
    var ranks := PyText.Split(parts[0], '/');
    if |ranks| != 8 then Err(ValueError("Invalid FEN: wrong number of rows"))
    else
      var read := ParseRanks(ranks, 0, EmptyPlacement(), None, None);
      var ep := ParseEnPassant(parts[3]);
      var half := ParseClock(parts[4]);
      var full := ParseClock(parts[5]);
      if read.Err? then Err(read.error)
      else if ep.Err? then Err(ep.error)
      else if half.Err? then Err(half.error)
      else if full.Err? then Err(full.error)
      else
        var rights := Rights('K' in parts[2], 'k' in parts[2], 'Q' in parts[2], 'q' in parts[2]);
        Ok(Parsed(Position(read.value.placement, parts[1] == "w", rights, ep.value, half.value, full.value),
                  read.value.whiteKing, read.value.blackKing))
  }

  /** from_fen leaves each king location on a king of that colour, and finds one whenever the placement has one. */
  lemma ParsedKings(fen: string)
    requires ParseFen(fen).Ok?
    ensures var pr := ParseFen(fen).value;
      pr.whiteKing.Some? ==> (InBounds(pr.whiteKing.value.0, pr.whiteKing.value.1) &&
        pr.position.placement[pr.whiteKing.value.0][pr.whiteKing.value.1] == Some((White, King)))
    ensures var pr := ParseFen(fen).value;
      pr.blackKing.Some? ==> (InBounds(pr.blackKing.value.0, pr.blackKing.value.1) &&
        pr.position.placement[pr.blackKing.value.0][pr.blackKing.value.1] == Some((Black, King)))
    ensures var pr := ParseFen(fen).value;
      (exists r, c | 0 <= r < 8 && 0 <= c < 8 :: pr.position.placement[r][c] == Some((White, King))) ==> pr.whiteKing.Some?
    ensures var pr := ParseFen(fen).value;
      (exists r, c | 0 <= r < 8 && 0 <= c < 8 :: pr.position.placement[r][c] == Some((Black, King))) ==> pr.blackKing.Some?
  {
    var parts := PyText.Words(fen);
    var ranks := PyText.Split(parts[0], '/');
    assert ParseFen(fen) == ParseFields(parts);
    RanksReadFacts(ranks, 0, EmptyPlacement(), None, None);
  }

  // ---------------------------------------------------------------- the round trip

  /** Reading back a rank written from column k with a run of e empty squares pending. */
  lemma {:induction false} RankRoundTrip(cells: seq<Square>, k: nat, e: nat, base: seq<Square>, r: int, wk: Option<(int, int)>, bk: Option<(int, int)>)
    requires |cells| == 8 && |base| == 8 && e <= k <= 8
    requires forall j | k - e <= j < k :: cells[j] == None
    requires forall j | 0 <= j < k - e :: base[j] == cells[j]
    requires forall j | k - e <= j < 8 :: base[j] == None
    ensures ParseRank(RowFen(cells[k..], e), k - e, base, r, wk, bk).Ok?
    ensures ParseRank(RowFen(cells[k..], e), k - e, base, r, wk, bk).value.cells == cells
    decreases 8 - k
  {
    if k == 8 {
      assert cells[k..] == [];
      RunRead(e, k - e, base, r, wk, bk);
      assert base == cells;
    } else if cells[k].None? {
      assert cells[k..][1..] == cells[k + 1..];
      assert RowFen(cells[k..], e) == RowFen(cells[k + 1..], e + 1);
      RankRoundTrip(cells, k + 1, e + 1, base, r, wk, bk);
    } else {
      var q := cells[k].value;
      assert cells[k..][1..] == cells[k + 1..];
      var tail := RowFen(cells[k + 1..], 0);
      assert RowFen(cells[k..], e) == Run(e) + [Symbol(q)] + tail;
      var kings := KingsAfterRead(q, r, k, wk, bk);
      var base' := base[k := Some(q)];
      PieceRead(q, tail, e, k - e, base, r, wk, bk);
      assert ParseRank(RowFen(cells[k..], e), k - e, base, r, wk, bk) == ParseRank(tail, k + 1, base', r, kings.0, kings.1);
      RankRoundTrip(cells, k + 1, 0, base', r, kings.0, kings.1);
    }
  }

  /** Reading a run digit at the end of a rank moves to the end of the run. */
  lemma RunRead(e: nat, col: nat, base: seq<Square>, r: int, wk: Option<(int, int)>, bk: Option<(int, int)>)
    requires |base| == 8 && e < 10
    ensures ParseRank(Run(e), col, base, r, wk, bk) == Ok(RankRead(base, wk, bk))
  {
    if e > 0 {
      assert Run(e)[1..] == "";
    }
  }

  /** Reading a run digit and then a piece symbol places the piece after the run. */
  lemma PieceRead(q: (Color, Kind), tail: string, e: nat, col: nat, base: seq<Square>, r: int, wk: Option<(int, int)>, bk: Option<(int, int)>)
    requires |base| == 8 && col + e < 8
    ensures var kings := KingsAfterRead(q, r, col + e, wk, bk);
      ParseRank(Run(e) + [Symbol(q)] + tail, col, base, r, wk, bk) ==
      ParseRank(tail, col + e + 1, base[col + e := Some(q)], r, kings.0, kings.1)
  {
    var t := [Symbol(q)] + tail;
    SymbolRead(q, tail, col + e, base, r, wk, bk);
    RunSkip(e, t, col, base, r, wk, bk);
    assert Run(e) + [Symbol(q)] + tail == Run(e) + t;
  }

  /** A piece symbol read at column col < 8 places its piece there. */
  lemma SymbolRead(q: (Color, Kind), tail: string, col: nat, base: seq<Square>, r: int, wk: Option<(int, int)>, bk: Option<(int, int)>)
    requires |base| == 8 && col < 8
    ensures var kings := KingsAfterRead(q, r, col, wk, bk);
      ParseRank([Symbol(q)] + tail, col, base, r, wk, bk) ==
      ParseRank(tail, col + 1, base[col := Some(q)], r, kings.0, kings.1)
  {
    var t := [Symbol(q)] + tail;
    assert t[0] == Symbol(q) && t[1..] == tail;
    assert PyText.DigitValue(Symbol(q)).None?;
  }

  /** A run digit read at column col moves the column past the run. */
  lemma RunSkip(e: nat, t: string, col: nat, base: seq<Square>, r: int, wk: Option<(int, int)>, bk: Option<(int, int)>)
    requires |base| == 8 && e < 10
    ensures ParseRank(Run(e) + t, col, base, r, wk, bk) == ParseRank(t, col + e, base, r, wk, bk)
  {
    if e > 0 {
      var s := Run(e) + t;
      assert s[0] == PyText.DigitChar(e) && s[1..] == t;
    } else {
      assert Run(e) + t == t;
    }
  }

  /** Reading back the ranks from index i over a placement that already holds the earlier ones. */
  lemma {:induction false} RanksRoundTrip(p: Placement, i: nat, acc: Placement, wk: Option<(int, int)>, bk: Option<(int, int)>)
    requires i <= 8
    requires forall r | 0 <= r < i :: acc[r] == p[r]
    requires forall r, c | i <= r < 8 && 0 <= c < 8 :: acc[r][c] == None
    ensures ParseRanks(RankStrings(p), i, acc, wk, bk).Ok?
    ensures ParseRanks(RankStrings(p), i, acc, wk, bk).value.placement == p
    decreases 8 - i
  {
    if i == 8 {
      assert acc == p;
    } else {
      assert p[i][0..] == p[i];
      RankRoundTrip(p[i], 0, 0, acc[i], i, wk, bk);
      var read := ParseRank(RankStrings(p)[i], 0, acc[i], i, wk, bk).value;
      RanksRoundTrip(p, i + 1, acc[i := read.cells], read.whiteKing, read.blackKing);
    }
  }

  /** The written ranks contain no '/', so splitting the first field gives them back. */
  lemma SplitRanks(p: Placement)
    ensures PyText.Split(PlacementFen(p), '/') == RankStrings(p)
  {
    PyText.SplitJoin(RankStrings(p), '/');
  }

  /** A join of FEN words by '/' is a FEN word. */
  lemma {:induction false} JoinFenWord(parts: seq<string>)
    requires forall i | 0 <= i < |parts| :: FenWord(parts[i])
    ensures FenWord(PyText.Join(parts, "/"))
    decreases |parts|
  {
    if |parts| > 1 {
      JoinFenWord(parts[1..]);
    }
  }

  lemma IntWord(n: int)
    ensures PyText.IntToString(n) != "" && PyText.NoSpace(PyText.IntToString(n))
  {
    var s := PyText.IntToString(n);
    var d := PyText.NatDigits(if n < 0 then -n else n);
    assert forall i | 0 <= i < |d| :: PyText.DigitValue(d[i]).Some?;
  }

  /** Every field get_fen writes is a non-empty word without spaces. */
  lemma FieldsAreWords(p: Position, ep: string)
    requires ep != "" && FenWord(ep)
    ensures forall i | 0 <= i < 6 :: FenFields(p, ep)[i] != "" && PyText.NoSpace(FenFields(p, ep)[i])
  {
    var fs := FenFields(p, ep);
    JoinFenWord(RankStrings(p.placement));
    FenWordNoSpace(fs[0]);
    FenWordNoSpace(fs[2]);
    FenWordNoSpace(ep);
    IntWord(p.halfMove);
    IntWord(p.fullMove);
    assert fs[0] != "" by {
      assert |PyText.Join(RankStrings(p.placement), "/")| >= 1;
    }
  }

  /** from_fen reads back exactly the position get_fen wrote. */
  lemma FenRoundTrip(p: Position)
    requires Fen(p).Ok?
    ensures ParseFen(Fen(p).value).Ok?
    ensures ParseFen(Fen(p).value).value.position == p
  {
    var ep := EnPassantFen(p.enPassant).value;
    var fs := FenFields(p, ep);
    FieldsAreWords(p, ep);
    PyText.WordsUnwords(fs);
    FieldsRoundTrip(p, ep);
  }

  /** Reading the six written fields gives the position back. */
  lemma FieldsRoundTrip(p: Position, ep: string)
    requires EnPassantFen(p.enPassant) == Ok(ep)
    ensures ParseFields(FenFields(p, ep)).Ok?
    ensures ParseFields(FenFields(p, ep)).value.position == p
  {
    var fs := FenFields(p, ep);
    SplitRanks(p.placement);
    RanksRoundTrip(p.placement, 0, EmptyPlacement(), None, None);
    PyText.IntRoundTrip(p.halfMove);
    PyText.IntRoundTrip(p.fullMove);
    if p.enPassant.Some? {
      assert ep == RankFile(p.enPassant.value.0, p.enPassant.value.1);
    }
  }

  /** A canonical FEN string, one get_fen can write, is written again unchanged after from_fen. */
  lemma CanonicalFenStable(s: string, p: Position)
    requires Fen(p) == Ok(s)
    ensures ParseFen(s).Ok? && Fen(ParseFen(s).value.position) == Ok(s)
  {
    FenRoundTrip(p);
  }
}
