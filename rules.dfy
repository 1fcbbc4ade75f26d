/**
 * The game state that sits on top of a board (chess_engine/rules.py): the move history, the
 * half-move clock and full-move number, the repetition table keyed by a board snapshot, and the
 * game-end rules (checkmate and stalemate, insufficient material, the 50-move rule, threefold
 * repetition). Writing a FEN string is a method over the board; reading one is FromFen, proved equal to Fen.ParseFen.
 */
module Rules {
  import opened Wrappers
  import opened Pieces
  import opened Moves
  import opened BoardState
  import opened MakeUndo
  import opened Generators
  import opened GridCount
  import opened ChessBoard
  import opened Fen
  import PyText

  // ---------------------------------------------------------------- the repetition key

  /** One occupied square of the snapshot: row, column, colour and type. */
  type Entry = (int, int, Color, Kind)

  /** get_board_state's tuple: the occupied squares, the four castling rights, the en-passant square and the turn. */
  datatype BoardKey = BoardKey(
    pieces: seq<Entry>,
    wks: bool, wqs: bool, bks: bool, bqs: bool,
    enPassant: Option<(int, int)>,
    whiteToMove: bool)

  /** The entry for square (r, c), if it is occupied. */
  function EntryAt(p: Placement, r: int, c: int): seq<Entry>
    requires 0 <= r < 8 && 0 <= c < 8
  {
    if p[r][c].Some? then [(r, c, p[r][c].value.0, p[r][c].value.1)] else []
  }

  /** The entries of row r, columns 0..col-1, in column order. */
  function RowEntries(p: Placement, r: int, col: int): seq<Entry>
    requires 0 <= r < 8 && 0 <= col <= 8
  {
    if col == 0 then [] else RowEntries(p, r, col - 1) + EntryAt(p, r, col - 1)
  }

  /** The entries of rows 0..r-1, row by row. */
  function RowsEntries(p: Placement, r: int): seq<Entry>
    requires 0 <= r <= 8
  {
    if r == 0 then [] else RowsEntries(p, r - 1) + RowEntries(p, r - 1, 8)
  }

  /** What get_board_state returns for a board. */
  function KeyOf(s: State): BoardKey
  {
    BoardKey(RowsEntries(PlacementOf(s.grid), 8), s.rights.wks, s.rights.wqs, s.rights.bks, s.rights.bqs,
             s.enPassant, s.whiteToMove)
  }

  lemma {:induction false} RowEntriesMembers(p: Placement, r: int, col: int, e: Entry)
    requires 0 <= r < 8 && 0 <= col <= 8
    ensures e in RowEntries(p, r, col) <==> e.0 == r && 0 <= e.1 < col && p[r][e.1] == Some((e.2, e.3))
  {
    if col > 0 {
      RowEntriesMembers(p, r, col - 1, e);
    }
  }

  lemma {:induction false} RowsEntriesMembers(p: Placement, r: int, e: Entry)
    requires 0 <= r <= 8
    ensures e in RowsEntries(p, r) <==> 0 <= e.0 < r && 0 <= e.1 < 8 && p[e.0][e.1] == Some((e.2, e.3))
  {
    if r > 0 {
      RowsEntriesMembers(p, r - 1, e);
      RowEntriesMembers(p, r - 1, 8, e);
    }
  }

  /** The snapshot lists exactly the occupied squares, each with the colour and type standing there. */
  lemma KeyEntries(s: State, e: Entry)
    ensures e in KeyOf(s).pieces <==> InBounds(e.0, e.1) && SquareOf(s.grid[e.0][e.1]) == Some((e.2, e.3))
  {
    RowsEntriesMembers(PlacementOf(s.grid), 8, e);
  }

  /** Square (a.0, a.1) comes before square (b.0, b.1) in row-major order. */
  predicate Earlier(a: Entry, b: Entry)
  {
    a.0 < b.0 || (a.0 == b.0 && a.1 < b.1)
  }

  /** Strictly increasing squares: as Python compares the tuples, such a list is already sorted. */
  predicate Ascending(es: seq<Entry>)
  {
    forall i, j | 0 <= i < j < |es| :: Earlier(es[i], es[j])
  }

  lemma AscendingJoin(a: seq<Entry>, b: seq<Entry>)
    requires Ascending(a) && Ascending(b)
    requires forall i, j | 0 <= i < |a| && 0 <= j < |b| :: Earlier(a[i], b[j])
    ensures Ascending(a + b)
  {
  }

  lemma {:induction false} RowEntriesAscending(p: Placement, r: int, col: int)
    requires 0 <= r < 8 && 0 <= col <= 8
    ensures Ascending(RowEntries(p, r, col))
    ensures forall i | 0 <= i < |RowEntries(p, r, col)| :: RowEntries(p, r, col)[i].0 == r && 0 <= RowEntries(p, r, col)[i].1 < col
  {
    if col > 0 {
      RowEntriesAscending(p, r, col - 1);
      AscendingJoin(RowEntries(p, r, col - 1), EntryAt(p, r, col - 1));
    }
  }

  lemma {:induction false} RowsEntriesAscending(p: Placement, r: int)
    requires 0 <= r <= 8
    ensures Ascending(RowsEntries(p, r))
    ensures forall i | 0 <= i < |RowsEntries(p, r)| :: 0 <= RowsEntries(p, r)[i].0 < r
  {
    if r > 0 {
      RowsEntriesAscending(p, r - 1);
      RowEntriesAscending(p, r - 1, 8);
      AscendingJoin(RowsEntries(p, r - 1), RowEntries(p, r - 1, 8));
    }
  }

  /** The loops visit the squares in row-major order, so `sorted(board_repr)` leaves the list as it is. */
  lemma KeySorted(s: State)
    ensures Ascending(KeyOf(s).pieces)
  {
    RowsEntriesAscending(PlacementOf(s.grid), 8);
  }

  /** Two boards share a snapshot exactly when colours and types agree on every square and the rights, en-passant square and turn agree. */
  lemma KeyDeterminesPosition(s: State, t: State)
    ensures KeyOf(s) == KeyOf(t) <==>
      PlacementOf(s.grid) == PlacementOf(t.grid) && s.rights == t.rights &&
      s.enPassant == t.enPassant && s.whiteToMove == t.whiteToMove
  {
    var p, q := PlacementOf(s.grid), PlacementOf(t.grid);
    if KeyOf(s) == KeyOf(t) {
      forall r, c | 0 <= r < 8 && 0 <= c < 8
        ensures p[r][c] == q[r][c]
      {
        if p[r][c].Some? {
          var e := (r, c, p[r][c].value.0, p[r][c].value.1);
          RowsEntriesMembers(p, 8, e);
          RowsEntriesMembers(q, 8, e);
        } else if q[r][c].Some? {
          var e := (r, c, q[r][c].value.0, q[r][c].value.1);
          RowsEntriesMembers(p, 8, e);
          RowsEntriesMembers(q, 8, e);
        }
      }
      assert forall r | 0 <= r < 8 :: p[r] == q[r];
    }
  }

  // ---------------------------------------------------------------- insufficient material

  /** The tallies has_insufficient_material keeps for one colour: five counters and the set of bishop shades. */
  datatype Men = Men(knights: nat, bishops: nat, rooks: nat, queens: nat, pawns: nat, shades: set<int>)

  /** One square's piece added to colour c's tallies; a bishop also adds its square's shade. */
  function AddMan(m: Men, x: Cell, c: Color, shade: int): Men
  {
    if x.None? || x.value.color != c then m
    else match x.value.kind
      case Knight => m.(knights := m.knights + 1)
      case Bishop => m.(bishops := m.bishops + 1, shades := m.shades + {shade})
      case Rook => m.(rooks := m.rooks + 1)
      case Queen => m.(queens := m.queens + 1)
      case Pawn => m.(pawns := m.pawns + 1)
      case King => m
  }

  /** Tallies m with row r, columns 0..col-1, added. */
  function MenRow(g: Grid, c: Color, r: int, col: int, m: Men): Men
    requires 0 <= r < 8 && 0 <= col <= 8
  {
    if col == 0 then m else AddMan(MenRow(g, c, r, col - 1, m), g[r][col - 1], c, (r + col - 1) % 2)
  }

  /** Colour c's tallies over rows 0..r-1. */
  function MenRows(g: Grid, c: Color, r: int): Men
    requires 0 <= r <= 8
  {
    if r == 0 then Men(0, 0, 0, 0, 0, {}) else MenRow(g, c, r - 1, 8, MenRows(g, c, r - 1))
  }

  function MenOf(g: Grid, c: Color): Men
  {
    MenRows(g, c, 8)
  }

  predicate NoMen(m: Men)
  {
    m.knights == 0 && m.bishops == 0 && m.rooks == 0 && m.queens == 0 && m.pawns == 0
  }

  predicate OneMinor(m: Men)
  {
    m.knights + m.bishops == 1 && m.rooks == 0 && m.queens == 0 && m.pawns == 0
  }

  predicate TwoKnights(m: Men)
  {
    m.knights == 2 && m.bishops == 0 && m.rooks == 0 && m.queens == 0 && m.pawns == 0
  }

  predicate LoneBishop(m: Men)
  {
    m.knights == 0 && m.bishops == 1 && m.rooks == 0 && m.queens == 0 && m.pawns == 0 && |m.shades| == 1
  }

  /**
   * The four draws: bare kings; a single minor piece against a bare king; two knights against
   * a bare king; one bishop each, standing on squares of the same shade.
   */
  predicate Insufficient(w: Men, b: Men)
  {
    (NoMen(w) && NoMen(b)) ||
    (OneMinor(w) && NoMen(b)) || (OneMinor(b) && NoMen(w)) ||
    (TwoKnights(w) && NoMen(b)) || (TwoKnights(b) && NoMen(w)) ||
    (LoneBishop(w) && LoneBishop(b) && w.shades == b.shades)
  }

  predicate InsufficientOn(g: Grid)
  {
    Insufficient(MenOf(g, White), MenOf(g, Black))
  }

  /** Each counter of a row's tallies grows by the row's count of that type. */
  lemma {:induction false} MenRowCounts(g: Grid, c: Color, r: int, col: int, m: Men)
    requires 0 <= r < 8 && 0 <= col <= 8
    ensures var n := MenRow(g, c, r, col, m);
      n.knights == m.knights + CountInRow(g, c, {Knight}, r, col) &&
      n.bishops == m.bishops + CountInRow(g, c, {Bishop}, r, col) &&
      n.rooks == m.rooks + CountInRow(g, c, {Rook}, r, col) &&
      n.queens == m.queens + CountInRow(g, c, {Queen}, r, col) &&
      n.pawns == m.pawns + CountInRow(g, c, {Pawn}, r, col)
  {
    if col > 0 {
      MenRowCounts(g, c, r, col - 1, m);
    }
  }

  lemma {:induction false} MenRowsCounts(g: Grid, c: Color, r: int)
    requires 0 <= r <= 8
    ensures var n := MenRows(g, c, r);
      n.knights == CountRows(g, c, {Knight}, r) && n.bishops == CountRows(g, c, {Bishop}, r) &&
      n.rooks == CountRows(g, c, {Rook}, r) && n.queens == CountRows(g, c, {Queen}, r) &&
      n.pawns == CountRows(g, c, {Pawn}, r)
  {
    if r > 0 {
      MenRowsCounts(g, c, r - 1);
      MenRowCounts(g, c, r - 1, 8, MenRows(g, c, r - 1));
    }
  }

  /** The five counters are the board's piece counts by type. */
  lemma MenCounts(g: Grid, c: Color)
    ensures MenOf(g, c).knights == Count(g, c, {Knight}) && MenOf(g, c).bishops == Count(g, c, {Bishop})
    ensures MenOf(g, c).rooks == Count(g, c, {Rook}) && MenOf(g, c).queens == Count(g, c, {Queen})
    ensures MenOf(g, c).pawns == Count(g, c, {Pawn})
  {
    MenRowsCounts(g, c, 8);
  }

  /** A bishop of colour c stands on (r, col) and the square's shade is s. */
  predicate BishopOn(g: Grid, c: Color, r: int, col: int, s: int)
    requires 0 <= r < 8 && 0 <= col < 8
  {
    IsOf(g[r][col], c, {Bishop}) && (r + col) % 2 == s
  }

  lemma {:induction false} MenRowShades(g: Grid, c: Color, r: int, col: int, m: Men, s: int)
    requires 0 <= r < 8 && 0 <= col <= 8
    ensures s in MenRow(g, c, r, col, m).shades <==>
      s in m.shades || exists j | 0 <= j < col :: BishopOn(g, c, r, j, s)
  {
    if col > 0 {
      MenRowShades(g, c, r, col - 1, m, s);
      if BishopOn(g, c, r, col - 1, s) {
        assert s in MenRow(g, c, r, col, m).shades;
      }
    }
  }

  lemma {:induction false} MenRowsShades(g: Grid, c: Color, r: int, s: int)
    requires 0 <= r <= 8
    ensures s in MenRows(g, c, r).shades <==>
      exists i, j | 0 <= i < r && 0 <= j < 8 :: BishopOn(g, c, i, j, s)
  {
    if r > 0 {
      MenRowsShades(g, c, r - 1, s);
      MenRowShades(g, c, r - 1, 8, MenRows(g, c, r - 1), s);
      var last := r - 1;
      if exists j | 0 <= j < 8 :: BishopOn(g, c, last, j, s) {
        var j :| 0 <= j < 8 && BishopOn(g, c, last, j, s);
        assert exists i, j | 0 <= i < r && 0 <= j < 8 :: BishopOn(g, c, i, j, s);
      }
      if exists i, j | 0 <= i < r && 0 <= j < 8 :: BishopOn(g, c, i, j, s) {
        var i, j :| 0 <= i < r && 0 <= j < 8 && BishopOn(g, c, i, j, s);
        if i < last {
          assert exists i, j | 0 <= i < last && 0 <= j < 8 :: BishopOn(g, c, i, j, s);
        }
      }
    }
  }

  /** The shade set holds exactly the shades of the squares colour c's bishops stand on. */
  lemma ShadeMembers(g: Grid, c: Color, s: int)
    ensures s in MenOf(g, c).shades <==> exists i, j | 0 <= i < 8 && 0 <= j < 8 :: BishopOn(g, c, i, j, s)
  {
    MenRowsShades(g, c, 8, s);
  }

  /** No more shades than bishops, and at least one shade once there is a bishop. */
  predicate ShadesFit(m: Men)
  {
    |m.shades| <= m.bishops && (m.bishops > 0 ==> m.shades != {})
  }

  lemma {:induction false} MenRowFits(g: Grid, c: Color, r: int, col: int, m: Men)
    requires 0 <= r < 8 && 0 <= col <= 8 && ShadesFit(m)
    ensures ShadesFit(MenRow(g, c, r, col, m))
  {
    if col > 0 {
      MenRowFits(g, c, r, col - 1, m);
    }
  }

  lemma {:induction false} MenRowsFit(g: Grid, c: Color, r: int)
    requires 0 <= r <= 8
    ensures ShadesFit(MenRows(g, c, r))
  {
    if r > 0 {
      MenRowsFit(g, c, r - 1);
      MenRowFits(g, c, r - 1, 8, MenRows(g, c, r - 1));
    }
  }

  /** A rook, a queen or a pawn on the board, of either colour, means play goes on. */
  lemma HeavyMaterialPlaysOn(g: Grid, c: Color)
    requires Count(g, c, {Rook}) > 0 || Count(g, c, {Queen}) > 0 || Count(g, c, {Pawn}) > 0
    ensures !InsufficientOn(g)
  {
    MenCounts(g, c);
  }

  /** Kings alone are a draw. */
  lemma BareKingsDraw(g: Grid)
    requires Count(g, White, {Knight, Bishop, Rook, Queen, Pawn}) == 0
    requires Count(g, Black, {Knight, Bishop, Rook, Queen, Pawn}) == 0
    ensures InsufficientOn(g)
  {
    NoneLeft(g, White);
    NoneLeft(g, Black);
  }

  lemma NoneLeft(g: Grid, c: Color)
    requires Count(g, c, {Knight, Bishop, Rook, Queen, Pawn}) == 0
    ensures NoMen(MenOf(g, c))
  {
    MenCounts(g, c);
    assert {Knight} + {Bishop, Rook, Queen, Pawn} == {Knight, Bishop, Rook, Queen, Pawn};
    assert {Bishop} + {Rook, Queen, Pawn} == {Bishop, Rook, Queen, Pawn};
    assert {Rook} + {Queen, Pawn} == {Rook, Queen, Pawn};
    assert {Queen} + {Pawn} == {Queen, Pawn};
    CountUnion(g, c, {Knight}, {Bishop, Rook, Queen, Pawn});
    CountUnion(g, c, {Bishop}, {Rook, Queen, Pawn});
    CountUnion(g, c, {Rook}, {Queen, Pawn});
    CountUnion(g, c, {Queen}, {Pawn});
  }

  /** With one bishop a side and nothing else, the game is drawn exactly when both bishops stand on the same shade. */
  lemma LoneBishopsDrawOnSameShade(g: Grid, r1: int, c1: int, r2: int, c2: int)
    requires InBounds(r1, c1) && IsOf(g[r1][c1], White, {Bishop})
    requires InBounds(r2, c2) && IsOf(g[r2][c2], Black, {Bishop})
    requires forall c: Color :: (Count(g, c, {Bishop}) == 1 && Count(g, c, {Knight}) == 0 &&
      Count(g, c, {Rook}) == 0 && Count(g, c, {Queen}) == 0 && Count(g, c, {Pawn}) == 0)
    ensures InsufficientOn(g) <==> (r1 + c1) % 2 == (r2 + c2) % 2
  {
    MenCounts(g, White);
    MenCounts(g, Black);
    MenRowsFit(g, White, 8);
    MenRowsFit(g, Black, 8);
    var w, b := MenOf(g, White), MenOf(g, Black);
    var s1, s2 := (r1 + c1) % 2, (r2 + c2) % 2;
    assert BishopOn(g, White, r1, c1, s1);
    assert BishopOn(g, Black, r2, c2, s2);
    ShadeMembers(g, White, s1);
    ShadeMembers(g, Black, s2);
    assert |w.shades| == 1 && |b.shades| == 1;
    SingletonIs(w.shades, s1);
    SingletonIs(b.shades, s2);
  }

  lemma SingletonIs(a: set<int>, x: int)
    requires |a| == 1 && x in a
    ensures a == {x}
  {
    assert a == (a - {x}) + {x};
    assert |a - {x}| == 0;
  }

  // ---------------------------------------------------------------- game end

  /**
   * check_game_end's verdict as (result, reason), or None: no move at all is checkmate (won by
   * the side that just moved) or stalemate; then insufficient material, then a half-move clock
   * of at least 100, then a snapshot seen at least three times.
   */
  function EndReason(noMoves: bool, inCheck: bool, whiteToMove: bool, insufficient: bool, halfMove: int, seen: int): (r: Option<(string, string)>)
    ensures r.Some? <==> noMoves || insufficient || halfMove >= 100 || seen >= 3
    ensures r.Some? && r.value.0 != "1/2-1/2" <==> noMoves && inCheck
    ensures noMoves && inCheck ==> r.value == (if whiteToMove then "0-1" else "1-0", "Checkmate")
  {
    if noMoves then
      if inCheck then Some((if !whiteToMove then "1-0" else "0-1", "Checkmate"))
      else Some(("1/2-1/2", "Stalemate"))
    else if insufficient then Some(("1/2-1/2", "Insufficient material"))
    else if halfMove >= 100 then Some(("1/2-1/2", "50-move rule"))
    else if seen >= 3 then Some(("1/2-1/2", "Threefold repetition"))
    else None
  }

  /** `dict.get(key, 0)`. */
  function Seen(reps: map<BoardKey, int>, k: BoardKey): int
  {
    if k in reps then reps[k] else 0
  }

  // ---------------------------------------------------------------- clocks and repetition counts

  /** A pawn move or a capture resets the half-move clock. */
  predicate ResetsClock(m: Move)
  {
    (m.pieceMoved.Some? && m.pieceMoved.value.kind == Pawn) || m.pieceCaptured.Some?
  }

  function HalfMoveAfter(h: int, m: Move): (r: int)
    ensures ResetsClock(m) ==> r == 0
    ensures !ResetsClock(m) ==> r == h + 1
  {
    if ResetsClock(m) then 0 else h + 1
  }

  /** undo_move's approximation: one less, not below zero after a resetting move. */
  function HalfMoveBack(h: int, m: Move): (r: int)
    ensures ResetsClock(m) ==> r >= 0 && r >= h - 1
    ensures !ResetsClock(m) ==> r == h - 1
  {
    if ResetsClock(m) then (if h - 1 > 0 then h - 1 else 0) else h - 1
  }

  /** Undoing a move that did not reset the clock restores it; undoing one that did leaves 0, whatever the clock was before. */
  lemma HalfMoveRoundTrip(h: int, m: Move)
    ensures !ResetsClock(m) ==> HalfMoveBack(HalfMoveAfter(h, m), m) == h
    ensures ResetsClock(m) ==> HalfMoveBack(HalfMoveAfter(h, m), m) == 0
  {
  }

  /** The full-move number goes up when the move leaves black to move. */
  function FullMoveAfter(n: int, whiteToMoveAfter: bool): (r: int)
    ensures r == n + 1 <==> !whiteToMoveAfter
    ensures whiteToMoveAfter ==> r == n
  {
    if !whiteToMoveAfter then n + 1 else n
  }

  /** undo_move lowers it when the undo leaves white to move. */
  function FullMoveBack(n: int, whiteToMoveAfter: bool): (r: int)
    ensures r == n - 1 <==> whiteToMoveAfter
    ensures !whiteToMoveAfter ==> r == n
  {
    if whiteToMoveAfter then n - 1 else n
  }

  /** Undo restores the full-move number, since it hands the turn back. */
  lemma FullMoveRoundTrip(n: int, whiteToMove: bool)
    ensures FullMoveBack(FullMoveAfter(n, !whiteToMove), whiteToMove) == n
  {
  }

  /** Every count in the table is at least one: a count that drops to zero is deleted. */
  predicate CountsPositive(reps: map<BoardKey, int>)
  {
    forall k | k in reps :: reps[k] >= 1
  }

  /** make_move's update: one more sighting of k. */
  function Counted(reps: map<BoardKey, int>, k: BoardKey): (r: map<BoardKey, int>)
    ensures r.Keys == reps.Keys + {k} && r[k] == Seen(reps, k) + 1
    ensures forall j | j in reps && j != k :: r[j] == reps[j]
    ensures CountsPositive(reps) ==> CountsPositive(r)
  {
    reps[k := Seen(reps, k) + 1]
  }

  /** undo_move's update: one sighting fewer, the entry deleted at zero, a KeyError when k is missing. */
  function Uncounted(reps: map<BoardKey, int>, k: BoardKey): (r: Result<map<BoardKey, int>, PyError>)
    ensures r.Err? <==> k !in reps
    ensures r.Err? ==> r.error == KeyError
    ensures r.Ok? ==> forall j | j in reps && j != k :: j in r.value && r.value[j] == reps[j]
    ensures r.Ok? && CountsPositive(reps) ==> CountsPositive(r.value)
  {
    if k !in reps then Err(KeyError)
    else if reps[k] - 1 == 0 then Ok(reps - {k})
    else Ok(reps[k := reps[k] - 1])
  }

  /** Counting a snapshot and then uncounting it gives the table back. */
  lemma CountRoundTrip(reps: map<BoardKey, int>, k: BoardKey)
    requires CountsPositive(reps)
    ensures Uncounted(Counted(reps, k), k) == Ok(reps)
  {
    var c := Counted(reps, k);
    if k in reps {
      assert c[k := reps[k]] == reps;
    } else {
      assert c - {k} == reps;
    }
  }

  // ---------------------------------------------------------------- the game state as a value

  /** Every field of a GameState, with the board's state in place of the board object. */
  datatype Game = Game(
    board: State,
    history: seq<Move>,
    halfMove: int,
    fullMove: int,
    reps: map<BoardKey, int>,
    over: bool,
    result: Option<string>,
    reason: Option<string>)

  /** check_game_end: the verdict, when there is one, recorded; otherwise nothing changes. */
  function CheckedEnd(g: Game): (r: Game)
    ensures r == g.(over := r.over, result := r.result, reason := r.reason)
    ensures var e := EndReason(|AllMoves(g.board)| == 0, g.board.inCheck, g.board.whiteToMove,
                               InsufficientOn(g.board.grid), g.halfMove, Seen(g.reps, KeyOf(g.board)));
      if e.Some? then r.over && r.result == Some(e.value.0) && r.reason == Some(e.value.1) else r == g
  {
    var e := EndReason(|AllMoves(g.board)| == 0, g.board.inCheck, g.board.whiteToMove,
                       InsufficientOn(g.board.grid), g.halfMove, Seen(g.reps, KeyOf(g.board)));
    if e.Some? then g.(over := true, result := Some(e.value.0), reason := Some(e.value.1)) else g
  }

  /**
   * make_move with the legality verdict as an input: an illegal move changes nothing; a legal
   * one is made on the board and logged, the clocks move on, the new snapshot is counted and
   * the game end is checked.
   */
  function MadeMove(g: Game, m: Move, legal: bool): (r: (bool, Game))
    requires MoveInBounds(m)
    ensures r.0 == legal
    ensures !legal ==> r.1 == g
    ensures legal ==> r.1.board == Make(g.board, m) && r.1.history == g.history + [m]
  {
    if !legal then (false, g) else (true, CheckedEnd(Booked(g, m, Make(g.board, m))))
  }

  /** make_move's bookkeeping once the board has reached state b: the move logged, the clocks moved on, b's snapshot counted. */
  function Booked(g: Game, m: Move, b: State): (r: Game)
    ensures r.board == b && r.history == g.history + [m] && r.reps == Counted(g.reps, KeyOf(b))
    ensures r.halfMove == HalfMoveAfter(g.halfMove, m) && r.fullMove == FullMoveAfter(g.fullMove, b.whiteToMove)
    ensures r.over == g.over && r.result == g.result && r.reason == g.reason
  {
    Game(b, g.history + [m], HalfMoveAfter(g.halfMove, m), FullMoveAfter(g.fullMove, b.whiteToMove),
         Counted(g.reps, KeyOf(b)), g.over, g.result, g.reason)
  }

  /**
   * undo_move: Ok(false) with no history; otherwise the last move is popped, the current
   * snapshot is uncounted (a KeyError, with only the pop done, when it was never counted), the
   * board's last move is undone, the clocks step back and the end flags are cleared.
   */
  function UndoneMove(g: Game): (r: (Result<bool, PyError>, Game))
    requires Good(g.board) && (forall i | 0 <= i < |g.history| :: g.history[i].pieceMoved.Some?)
    ensures g.history == [] <==> r.0 == Ok(false)
    ensures g.history == [] ==> r.1 == g
    ensures g.history != [] ==> r.1.history == g.history[..|g.history| - 1]
    ensures r.0.Err? <==> g.history != [] && KeyOf(g.board) !in g.reps
  {
    if g.history == [] then (Ok(false), g)
    else
      var last := g.history[|g.history| - 1];
      var history := g.history[..|g.history| - 1];
      match Uncounted(g.reps, KeyOf(g.board))
      case Err(e) => (Err(e), g.(history := history))
      case Ok(reps) =>
        assert g.board.log != [] ==> LogEntrySafe(g.board, g.board.log[|g.board.log| - 1]);
        (Ok(true), Unbooked(g, reps, Undo(g.board).1))
  }

  /** undo_move's bookkeeping once the board is back at state b: the history popped, the table given, the clocks back, no verdict. */
  function Unbooked(g: Game, reps: map<BoardKey, int>, b: State): (r: Game)
    requires g.history != []
    ensures r.board == b && r.history == g.history[..|g.history| - 1] && r.reps == reps
    ensures r.halfMove == HalfMoveBack(g.halfMove, g.history[|g.history| - 1])
    ensures r.fullMove == FullMoveBack(g.fullMove, b.whiteToMove)
    ensures !r.over && r.result.None? && r.reason.None?
  {
    Game(b, g.history[..|g.history| - 1], HalfMoveBack(g.halfMove, g.history[|g.history| - 1]),
         FullMoveBack(g.fullMove, b.whiteToMove), reps, false, None, None)
  }

  /**
   * A legal move made and then undone leaves the history, the full-move number and the
   * repetition table as they were, restores the board's squares, kings, turn and log, and
   * clears the end flags; the half-move clock comes back unless the move was a pawn move or a
   * capture, after which it is 0.
   */
  lemma MakeUndoRoundTrip(g: Game, m: Move)
    requires Good(g.board) && KingsCached(g.board) && CountsPositive(g.reps)
    requires forall i | 0 <= i < |g.history| :: g.history[i].pieceMoved.Some?
    requires (m.startRow, m.startCol) != (m.endRow, m.endCol) && m.pieceMoved.Some?
    requires BoardMove(g.board, m) && m.pieceCaptured == g.board.grid[m.endRow][m.endCol]
    ensures Good(MadeMove(g, m, true).1.board)
    ensures var u := UndoneMove(MadeMove(g, m, true).1);
      u.0 == Ok(true) && u.1.history == g.history && u.1.fullMove == g.fullMove && u.1.reps == g.reps &&
      u.1.board.grid == g.board.grid && u.1.board.log == g.board.log && u.1.board.whiteToMove == g.board.whiteToMove &&
      u.1.board.whiteKing == g.board.whiteKing && u.1.board.blackKing == g.board.blackKing &&
      (!ResetsClock(m) ==> u.1.halfMove == g.halfMove) && (ResetsClock(m) ==> u.1.halfMove == 0) &&
      !u.1.over && u.1.result.None? && u.1.reason.None?
  {
    var made := MadeMove(g, m, true).1;
    var b := Make(g.board, m);
    MakePreservesGood(g.board, m);
    assert made.history == g.history + [m] && (g.history + [m])[..|g.history|] == g.history;
    assert made.reps == Counted(g.reps, KeyOf(b));
    CountRoundTrip(g.reps, KeyOf(b));
    MakeThenUndo(g.board, m);
    HalfMoveRoundTrip(g.halfMove, m);
    FullMoveRoundTrip(g.fullMove, g.board.whiteToMove);
  }

  /** The rank from an occupied column on: the pending run, the symbol, then the rest from an empty run. */
  lemma RowFenPiece(cells: seq<Square>, col: int, e: nat)
    requires 0 <= col < |cells| && cells[col].Some?
    ensures RowFen(cells[col..], e) == Run(e) + [Symbol(cells[col].value)] + RowFen(cells[col + 1..], 0)
  {
    assert cells[col..][1..] == cells[col + 1..];
  }

  /** The rank from an empty column on: one more square in the pending run. */
  lemma RowFenEmpty(cells: seq<Square>, col: int, e: nat)
    requires 0 <= col < |cells| && cells[col].None?
    ensures RowFen(cells[col..], e) == RowFen(cells[col + 1..], e + 1)
  {
    assert cells[col..][1..] == cells[col + 1..];
  }

  lemma Regroup(a: string, b: string, c: string, d: string)
    ensures a + (b + c + d) == (a + b + c) + d
  {
  }

  /** Six fields joined by single spaces, as get_fen appends them one after the other. */
  lemma JoinSix(a: string, b: string, c: string, d: string, e: string, f: string)
    ensures PyText.Unwords([a, b, c, d, e, f]) == a + (" " + b) + (" " + c) + (" " + d) + (" " + e) + (" " + f)
  {
    var fs := [a, b, c, d, e, f];
    assert fs[1..] == [b, c, d, e, f] && fs[2..] == [c, d, e, f] && fs[3..] == [d, e, f] && fs[4..] == [e, f] && fs[5..] == [f];
    assert [e, f][1..] == [f] && [d, e, f][1..] == [e, f] && [c, d, e, f][1..] == [d, e, f] && [b, c, d, e, f][1..] == [c, d, e, f];
    assert PyText.Join([f], " ") == f;
    var j4 := PyText.Join([e, f], " ");
    assert j4 == e + " " + f;
    var j3 := PyText.Join([d, e, f], " ");
    assert j3 == d + " " + j4;
    var j2 := PyText.Join([c, d, e, f], " ");
    assert j2 == c + " " + j3;
    var j1 := PyText.Join([b, c, d, e, f], " ");
    assert j1 == b + " " + j2;
    assert PyText.Join(fs, " ") == a + " " + j1;
  }

  // ---------------------------------------------------------------- the GameState object

  class GameState {
    const board: Board
    var moveHistory: seq<Move>
    var halfMoveClock: int
    var fullMoveNumber: int
    var repetitionCount: map<BoardKey, int>
    var gameOver: bool
    var result: Option<string>
    var resultReason: Option<string>

    /** Every field, with the board's state in place of the board. */
    function Snapshot(): Game
      reads this, board
    {
      Game(board.State(), moveHistory, halfMoveClock, fullMoveNumber, repetitionCount, gameOver, result, resultReason)
    }

    /** A valid board, a history of moves that carry their piece, and positive repetition counts. */
    predicate Valid()
      reads this, board
    {
      board.Valid() && (forall i | 0 <= i < |moveHistory| :: moveHistory[i].pieceMoved.Some?) &&
      CountsPositive(repetitionCount)
    }

    /** __init__: no history, clocks at 0 and 1, no repetitions, the game not over. */
    constructor(b: Board)
      requires b.Valid()
      ensures board == b && Valid()
      ensures Snapshot() == Game(b.State(), [], 0, 1, map[], false, None, None)
    {
      board := b;
      moveHistory := [];
      halfMoveClock := 0;
      fullMoveNumber := 1;
      repetitionCount := map[];
      gameOver := false;
      result := None;
      resultReason := None;
    }

    /** The pieces of row `row`, columns 0..7, appended to `acc`. */
    method RowPieces(row: int, acc: seq<Entry>) returns (res: seq<Entry>)
      requires 0 <= row < 8
      ensures res == acc + RowEntries(PlacementOf(board.grid), row, 8)
    {
      ghost var p := PlacementOf(board.grid);
      res := acc;
      for col := 0 to 8
        invariant res == acc + RowEntries(p, row, col)
      {
        var piece := board.GetPieceAt(row, col);
        if piece.Some? {
          res := res + [(row, col, piece.value.color, piece.value.kind)];
        }
      }
    }

    /** get_board_state. */
    method GetBoardState() returns (key: BoardKey)
      ensures key == KeyOf(board.State())
    {
      var boardRepr := [];
      for row := 0 to 8
        invariant boardRepr == RowsEntries(PlacementOf(board.grid), row)
      {
        boardRepr := RowPieces(row, boardRepr);
      }
      // The entries already come in increasing (row, col) order (KeySorted), so sorting them changes nothing.
      key := BoardKey(boardRepr, board.rights.wks, board.rights.wqs, board.rights.bks, board.rights.bqs,
                      board.enPassant, board.whiteToMove);
    }

    /** The tallies of row `row` added to both colours' tallies. */
    method TallyRow(row: int, white: Men, black: Men) returns (w: Men, b: Men)
      requires 0 <= row < 8
      ensures w == MenRow(board.grid, White, row, 8, white) && b == MenRow(board.grid, Black, row, 8, black)
    {
      w, b := white, black;
      for col := 0 to 8
        invariant w == MenRow(board.grid, White, row, col, white) && b == MenRow(board.grid, Black, row, col, black)
      {
        var piece := board.GetPieceAt(row, col);
        if piece.None? {
          continue;
        }
        var shade := (row + col) % 2;
        if piece.value.color == White {
          match piece.value.kind
          case Knight => w := w.(knights := w.knights + 1);
          case Bishop => w := w.(bishops := w.bishops + 1, shades := w.shades + {shade});
          case Rook => w := w.(rooks := w.rooks + 1);
          case Queen => w := w.(queens := w.queens + 1);
          case Pawn => w := w.(pawns := w.pawns + 1);
          case King =>
        } else {
          match piece.value.kind
          case Knight => b := b.(knights := b.knights + 1);
          case Bishop => b := b.(bishops := b.bishops + 1, shades := b.shades + {shade});
          case Rook => b := b.(rooks := b.rooks + 1);
          case Queen => b := b.(queens := b.queens + 1);
          case Pawn => b := b.(pawns := b.pawns + 1);
          case King =>
        }
      }
    }

    /** has_insufficient_material: the two tallies over the whole board, then the four drawn cases. */
    method HasInsufficientMaterial() returns (insufficient: bool)
      ensures insufficient == InsufficientOn(board.grid)
    {
      var white, black := Men(0, 0, 0, 0, 0, {}), Men(0, 0, 0, 0, 0, {});
      for row := 0 to 8
        invariant white == MenRows(board.grid, White, row) && black == MenRows(board.grid, Black, row)
      {
        white, black := TallyRow(row, white, black);
      }
      if NoMen(white) && NoMen(black) {
        return true;
      }
      if (OneMinor(white) && NoMen(black)) || (OneMinor(black) && NoMen(white)) {
        return true;
      }
      if (TwoKnights(white) && NoMen(black)) || (TwoKnights(black) && NoMen(white)) {
        return true;
      }
      if LoneBishop(white) && LoneBishop(black) && white.shades == black.shades {
        return true;
      }
      return false;
    }

    /** check_game_end. */
    method CheckGameEnd()
      requires Valid()
      modifies this, board
      ensures Valid() && Snapshot() == CheckedEnd(old(Snapshot()))
    {
      var validMoves := board.GetValidMoves();
      if |validMoves| == 0 {
        gameOver := true;
        if board.inCheck {
          result := Some(if !board.whiteToMove then "1-0" else "0-1");
          resultReason := Some("Checkmate");
        } else {
          result := Some("1/2-1/2");
          resultReason := Some("Stalemate");
        }
        return;
      }
      var insufficient := HasInsufficientMaterial();
      if insufficient {
        gameOver, result, resultReason := true, Some("1/2-1/2"), Some("Insufficient material");
        return;
      }
      if halfMoveClock >= 100 {
        gameOver, result, resultReason := true, Some("1/2-1/2"), Some("50-move rule");
        return;
      }
      var key := GetBoardState();
      if Seen(repetitionCount, key) >= 3 {
        gameOver, result, resultReason := true, Some("1/2-1/2"), Some("Threefold repetition");
        return;
      }
    }

    /** make_move, the legality verdict given as `legal`. */
    method MakeMove(m: Move, legal: bool) returns (made: bool)
      requires Valid() && BoardMove(board.State(), m) && m.pieceMoved.Some?
      modifies this, board
      ensures Valid() && (made, Snapshot()) == MadeMove(old(Snapshot()), m, legal)
    {
      if !legal {
        return false;
      }
      ghost var g := Snapshot();
      board.MakeMove(m);
      var key := GetBoardState();
      BookMove(m, key);
      assert Snapshot() == Booked(g, m, board.State());
      CheckGameEnd();
      return true;
    }

    /** The part of make_move after the board's own make_move and before check_game_end. */
    method BookMove(m: Move, key: BoardKey)
      requires m.pieceMoved.Some? && CountsPositive(repetitionCount)
      requires forall i | 0 <= i < |moveHistory| :: moveHistory[i].pieceMoved.Some?
      modifies this
      ensures CountsPositive(repetitionCount) && forall i | 0 <= i < |moveHistory| :: moveHistory[i].pieceMoved.Some?
      ensures moveHistory == old(moveHistory) + [m] && repetitionCount == Counted(old(repetitionCount), key)
      ensures halfMoveClock == HalfMoveAfter(old(halfMoveClock), m) && fullMoveNumber == FullMoveAfter(old(fullMoveNumber), board.whiteToMove)
      ensures gameOver == old(gameOver) && result == old(result) && resultReason == old(resultReason)
    {
      moveHistory := moveHistory + [m];
      if m.pieceMoved.value.kind == Pawn || m.pieceCaptured.Some? {
        halfMoveClock := 0;
      } else {
        halfMoveClock := halfMoveClock + 1;
      }
      if !board.whiteToMove {
        fullMoveNumber := fullMoveNumber + 1;
      }
      repetitionCount := repetitionCount[key := Seen(repetitionCount, key) + 1];
    }

    /** undo_move: Ok(false) with nothing to undo, Err(KeyError) when the current snapshot was never counted. */
    method UndoMove() returns (undone: Result<bool, PyError>)
      requires Valid()
      modifies this, board
      ensures Valid() && (undone, Snapshot()) == UndoneMove(old(Snapshot()))
    {
      if |moveHistory| == 0 {
        return Ok(false);
      }
      ghost var g := Snapshot();
      var lastMove := moveHistory[|moveHistory| - 1];
      moveHistory := moveHistory[..|moveHistory| - 1];
      var key := GetBoardState();
      if key !in repetitionCount {
        return Err(KeyError);
      }
      Uncount(key);
      ghost var reps := repetitionCount;
      var _ := board.UndoMove();
      StepBack(lastMove);
      assert Snapshot() == Unbooked(g, reps, board.State());
      return Ok(true);
    }

    /** `repetition_count[key] -= 1`, and the entry deleted when it reaches zero. */
    method Uncount(key: BoardKey)
      requires key in repetitionCount && CountsPositive(repetitionCount)
      modifies this`repetitionCount
      ensures Uncounted(old(repetitionCount), key) == Ok(repetitionCount) && CountsPositive(repetitionCount)
    {
      ghost var before := repetitionCount;
      repetitionCount := repetitionCount[key := repetitionCount[key] - 1];
      if repetitionCount[key] == 0 {
        repetitionCount := repetitionCount - {key};
        assert repetitionCount == before - {key};
      }
    }

    /** undo_move after the board's own undo_move: the clocks step back and the verdict is cleared. */
    method StepBack(lastMove: Move)
      requires lastMove.pieceMoved.Some?
      modifies this`halfMoveClock, this`fullMoveNumber, this`gameOver, this`result, this`resultReason
      ensures halfMoveClock == HalfMoveBack(old(halfMoveClock), lastMove)
      ensures fullMoveNumber == FullMoveBack(old(fullMoveNumber), board.whiteToMove)
      ensures !gameOver && result.None? && resultReason.None?
    {
      if lastMove.pieceMoved.value.kind == Pawn || lastMove.pieceCaptured.Some? {
        halfMoveClock := if halfMoveClock - 1 > 0 then halfMoveClock - 1 else 0;
      } else {
        halfMoveClock := halfMoveClock - 1;
      }
      if board.whiteToMove {
        fullMoveNumber := fullMoveNumber - 1;
      }
      gameOver, result, resultReason := false, None, None;
    }

    /** One rank as get_fen's inner loop writes it: piece symbols, and the length of each run of empty squares. */
    method RankFen(row: int) returns (s: string)
      requires 0 <= row < 8
      ensures s == RowFen(PlacementOf(board.grid)[row], 0)
    {
      ghost var cells := PlacementOf(board.grid)[row];
      ghost var total := RowFen(cells, 0);
      s := "";
      var emptyCount: nat := 0;
      assert cells[0..] == cells;
      for col := 0 to 8
        invariant s + RowFen(cells[col..], emptyCount) == total
      {
        var piece := board.GetPieceAt(row, col);
        if piece.Some? {
          ghost var before, run := s, Run(emptyCount);
          RowFenPiece(cells, col, emptyCount);
          if emptyCount > 0 {
            s := s + PyText.NatDigits(emptyCount);
            emptyCount := 0;
          }
          var symbol := PieceSymbol(piece.value);
          assert cells[col] == Some((piece.value.color, piece.value.kind));
          s := s + [symbol];
          Regroup(before, run, [symbol], RowFen(cells[col + 1..], 0));
        } else {
          RowFenEmpty(cells, col, emptyCount);
          emptyCount := emptyCount + 1;
        }
      }
      assert cells[8..] == [];
      if emptyCount > 0 {
        s := s + PyText.NatDigits(emptyCount);
      }
    }

    /** A piece's letter in get_fen: its kind's letter, lower-cased for Black. */
    static method PieceSymbol(piece: Piece) returns (symbol: char)
      ensures symbol == Symbol((piece.color, piece.kind))
    {
      symbol := KindLetter(piece.kind);
      if piece.color == Black {
        symbol := Lower(symbol);
      }
    }

    /** get_fen: the ranks joined by '/', then the turn, the castling rights, the en-passant square and the two clocks. */
    method GetFen() returns (fen: Result<string, PyError>)
      ensures fen == Fen.Fen(PositionOf(board.State(), halfMoveClock, fullMoveNumber))
    {
      ghost var pos := PositionOf(board.State(), halfMoveClock, fullMoveNumber);
      var placement := WritePlacement();
      var turn := if board.whiteToMove then "w" else "b";
      var castling := WriteCastling();
      var ep := WriteEnPassant();
      if ep.Err? {
        return Err(ep.error);
      }
      var half, full := PyText.IntToString(halfMoveClock), PyText.IntToString(fullMoveNumber);
      JoinSix(placement, turn, castling, ep.value, half, full);
      assert FenFields(pos, ep.value) == [placement, turn, castling, ep.value, half, full];
      return Ok(placement + (" " + turn) + (" " + castling) + (" " + ep.value) + (" " + half) + (" " + full));
    }

    /** get_fen's castling field: the letters of the rights still held, or '-' when none is. */
    method WriteCastling() returns (castling: string)
      ensures castling == CastlingFen(board.rights)
    {
      castling := "";
      if board.rights.wks {
        castling := castling + "K";
      }
      if board.rights.wqs {
        castling := castling + "Q";
      }
      if board.rights.bks {
        castling := castling + "k";
      }
      if board.rights.bqs {
        castling := castling + "q";
      }
      assert castling == (if board.rights.wks then "K" else "") + (if board.rights.wqs then "Q" else "") +
                         (if board.rights.bks then "k" else "") + (if board.rights.bqs then "q" else "");
      if castling == "" {
        castling := "-";
      }
    }

    /** get_fen's en-passant field: the square's name, '-' when there is none, a KeyError for a square off the board. */
    method WriteEnPassant() returns (ep: Result<string, PyError>)
      ensures ep == EnPassantFen(board.enPassant)
    {
      if board.enPassant.None? {
        return Ok("-");
      }
      var file, rank := ColToFile(board.enPassant.value.1), RowToRank(board.enPassant.value.0);
      if file.None? || rank.None? {
        return Err(KeyError);
      }
      return Ok([file.value, rank.value]);
    }

    /** get_fen's first loop: each rank, with '/' after every rank but the last. */
    method WritePlacement() returns (s: string)
      ensures s == PlacementFen(PlacementOf(board.grid))
    {
      ghost var ranks := RankStrings(PlacementOf(board.grid));
      s := "";
      for row := 0 to 8
        invariant row == 0 ==> s == ""
        invariant 0 < row ==> s == PyText.Join(ranks[..row], "/") + (if row < 8 then "/" else "")
      {
        var rank := RankFen(row);
        if row > 0 {
          PyText.JoinSnoc(ranks[..row], rank, "/");
          assert ranks[..row] + [rank] == ranks[..row + 1];
        } else {
          assert ranks[..1] == [rank];
        }
        s := s + rank;
        if row < 7 {
          s := s + "/";
        }
      }
      assert ranks[..8] == ranks;
    }

    /**
     * from_fen's loop over the characters of one rank: a digit skips that many columns, a piece
     * letter writes its piece at the current column (an IndexError past the last one), a king
     * also moves its colour's location there, and any other character only advances the column.
     */
    static method ReadRank(s: string, row: seq<Square>, r: int, wk: Option<(int, int)>, bk: Option<(int, int)>)
      returns (res: Result<RankRead, PyError>)
      requires |row| == 8
      ensures res == ParseRank(s, 0, row, r, wk, bk)
    {
      var cells, col: nat, whiteKing, blackKing := row, 0, wk, bk;
      assert s[0..] == s;
      for i := 0 to |s|
        invariant |cells| == 8
        invariant ParseRank(s[i..], col, cells, r, whiteKing, blackKing) == ParseRank(s, 0, row, r, wk, bk)
      {
        assert s[i..][1..] == s[i + 1..];
        var ch := s[i];
        var digit := PyText.DigitValue(ch);
        if digit.Some? {
          col := col + digit.value;
        } else {
          var colour := if IsUpper(ch) then White else Black;
          var kind := KindOfLetter(Upper(ch));
          if kind.Some? {
            if col >= 8 {
              return Err(IndexError);
            }
            cells := cells[col := Some((colour, kind.value))];
            if kind.value == King {
              if colour == White {
                whiteKing := Some((r, col));
              } else {
                blackKing := Some((r, col));
              }
            }
          }
          col := col + 1;
        }
      }
      assert s[|s|..] == [];
      return Ok(RankRead(cells, whiteKing, blackKing));
    }

    /** from_fen's loop over the eight ranks, each read into the cleared board's row. */
    static method ReadRanks(ranks: seq<string>) returns (res: Result<PlacementRead, PyError>)
      requires |ranks| == 8
      ensures res == ParseRanks(ranks, 0, EmptyPlacement(), None, None)
    {
      var p := EmptyPlacement();
      var whiteKing: Option<(int, int)>, blackKing: Option<(int, int)> := None, None;
      for i := 0 to 8
        invariant ParseRanks(ranks, i, p, whiteKing, blackKing) == ParseRanks(ranks, 0, EmptyPlacement(), None, None)
      {
        var read := ReadRank(ranks[i], p[i], i, whiteKing, blackKing);
        if read.Err? {
          return Err(read.error);
        }
        p, whiteKing, blackKing := p[i := read.value.cells], read.value.whiteKing, read.value.blackKing;
      }
      return Ok(PlacementRead(p, whiteKing, blackKing));
    }

    /**
     * from_fen: six whitespace-separated fields and eight '/'-separated ranks, or a ValueError;
     * then the ranks, the side to move, the castling letters, the en-passant square and the two
     * clocks, in that order, the first error raised being the result.
     */
    static method FromFen(fen: string) returns (r: Result<Parsed, PyError>)
      ensures r == ParseFen(fen)
    {
      var parts := PyText.Words(fen);
      if |parts| != 6 {
        return Err(ValueError("Invalid FEN: wrong number of fields"));
      }
      var rows := PyText.Split(parts[0], '/');
      if |rows| != 8 {
        return Err(ValueError("Invalid FEN: wrong number of rows"));
      }
      var read := ReadRanks(rows);
      if read.Err? {
        return Err(read.error);
      }
      var whiteToMove := parts[1] == "w";
      var rights := Rights('K' in parts[2], 'k' in parts[2], 'Q' in parts[2], 'q' in parts[2]);
      var ep := ParseEnPassant(parts[3]);
      if ep.Err? {
        return Err(ep.error);
      }
      var half := ParseClock(parts[4]);
      if half.Err? {
        return Err(half.error);
      }
      var full := ParseClock(parts[5]);
      if full.Err? {
        return Err(full.error);
      }
      return Ok(Parsed(Position(read.value.placement, whiteToMove, rights, ep.value, half.value, full.value),
                       read.value.whiteKing, read.value.blackKing));
    }
  }
}
