/**
 * The state a Board object holds (chess_engine/board.py:15-36), the starting position
 * (chess_engine/board.py:38-69) and the temporary make that the board's check filters perform.
 */
module BoardState {
  import opened Wrappers
  import opened Pieces
  import opened Moves

  /** CastlingRights(wks, bks, wqs, bqs). */
  datatype Rights = Rights(wks: bool, bks: bool, wqs: bool, bqs: bool)

  /**
   * Every field of a Board that the engine reads or writes. `moved` is the set of piece
   * identities whose has_moved attribute is true; `nextId` is the next identity a new
   * piece object receives.
   */
  datatype State = State(
    grid: Grid,
    log: seq<Move>,
    whiteToMove: bool,
    whiteKing: (int, int),
    blackKing: (int, int),
    checkmate: bool,
    stalemate: bool,
    inCheck: bool,
    enPassant: Option<(int, int)>,
    rights: Rights,
    moved: set<nat>,
    nextId: nat)

  /** The colour whose turn it is. */
  function Mover(s: State): (c: Color)
    ensures c == White <==> s.whiteToMove
  {
    if s.whiteToMove then White else Black
  }

  /** `white_to_move = not white_to_move`. */
  function Flip(s: State): (t: State)
    ensures t.whiteToMove == !s.whiteToMove && Mover(t) == Opponent(Mover(s))
    ensures t.(whiteToMove := s.whiteToMove) == s
  {
    s.(whiteToMove := !s.whiteToMove)
  }

  function KingSideRight(rights: Rights, c: Color): bool
  {
    if c == White then rights.wks else rights.bks
  }

  function QueenSideRight(rights: Rights, c: Color): bool
  {
    if c == White then rights.wqs else rights.bqs
  }

  /** The cached location of the king of colour c. */
  function KingLocation(s: State, c: Color): (int, int)
  {
    if c == White then s.whiteKing else s.blackKing
  }

  /** The piece on a square when it belongs to the side to move. */
  predicate MoverOwns(s: State, r: int, c: int)
    requires InBounds(r, c)
  {
    s.grid[r][c].Some? && s.grid[r][c].value.color == Mover(s)
  }

  /** The back rank order of _initialize_board. */
  function BackRank(c: int): Kind
  {
    if c == 0 || c == 7 then Rook
    else if c == 1 || c == 6 then Knight
    else if c == 2 || c == 5 then Bishop
    else if c == 3 then Queen
    else King
  }

  /**
   * The identity _initialize_board gives each piece: the pawns first (black then white,
   * column by column), then rooks, knights, bishops, queens and kings in the order created.
   */
  function BackRankId(r: int, c: int): nat
  {
    var colour := if r == 0 then 0 else 1;
    if c == 0 || c == 7 then 16 + (if c == 0 then 0 else 1) + 2 * colour
    else if c == 1 || c == 6 then 20 + (if c == 1 then 0 else 1) + 2 * colour
    else if c == 2 || c == 5 then 24 + (if c == 2 then 0 else 1) + 2 * colour
    else if c == 3 then 28 + colour
    else 30 + colour
  }

  function InitialCell(r: int, c: int): Cell
  {
    if r == 1 && 0 <= c then Some(Piece(Black, Pawn, 2 * c))
    else if r == 6 && 0 <= c then Some(Piece(White, Pawn, 2 * c + 1))
    else if r == 0 then Some(Piece(Black, BackRank(c), BackRankId(r, c)))
    else if r == 7 then Some(Piece(White, BackRank(c), BackRankId(r, c)))
    else None
  }

  function InitialGrid(): Grid
  {
    seq(8, r => seq(8, c => InitialCell(r, c)))
  }

  /** A freshly constructed Board. */
  function Initial(): (s: State)
    ensures s.whiteToMove && s.log == [] && s.moved == {}
    ensures s.whiteKing == (7, 4) && s.blackKing == (0, 4)
  {
    State(InitialGrid(), [], true, (7, 4), (0, 4), false, false, false, None,
          Rights(true, true, true, true), {}, 32)
  }

  /**
   * The columns on which an unmoved king may stand while its side holds a castling right:
   * _get_castle_moves reads two squares to the right and three to the left of the king.
   * An unmoved king with a kingside right on file g or h raises an IndexError there; one with
   * a queenside right on file a or b reads wrapped negative indices and is ruled out as well.
   */
  predicate CastleColumnOk(rights: Rights, c: Color, col: int)
  {
    (KingSideRight(rights, c) ==> col <= 5) && (QueenSideRight(rights, c) ==> col >= 2)
  }

  predicate UnmovedKing(x: Cell, moved: set<nat>)
  {
    x.Some? && x.value.kind == King && x.value.id !in moved
  }

  predicate CastleSafe(s: State)
  {
    forall r, c | 0 <= r < 8 && 0 <= c < 8 && UnmovedKing(s.grid[r][c], s.moved) ::
      CastleColumnOk(s.rights, s.grid[r][c].value.color, c)
  }

  /**
   * What undo_move will put back is safe as well: every logged move is on the board, its
   * moved piece is marked as moved, and a captured unmoved king returns to a safe column.
   */
  predicate LogEntrySafe(s: State, m: Move)
  {
    MoveInBounds(m) &&
    (m.pieceMoved.Some? ==> m.pieceMoved.value.id in s.moved) &&
    (UnmovedKing(m.pieceCaptured, s.moved) ==>
       CastleColumnOk(s.rights, m.pieceCaptured.value.color, m.endCol))
  }

  predicate LogSafe(s: State)
  {
    forall i | 0 <= i < |s.log| :: LogEntrySafe(s, s.log[i])
  }

  predicate FreshCell(x: Cell, nextId: nat)
  {
    x.Some? ==> x.value.id < nextId
  }

  /**
   * Every piece object on the board or in the log, and every identity marked as moved, is
   * older than `nextId`, so a promotion's new Queen is a new object.
   */
  predicate IdsFresh(s: State)
  {
    (forall i | i in s.moved :: i < s.nextId) &&
    (forall r, c | 0 <= r < 8 && 0 <= c < 8 :: FreshCell(s.grid[r][c], s.nextId)) &&
    (forall i | 0 <= i < |s.log| :: FreshCell(s.log[i].pieceMoved, s.nextId) && FreshCell(s.log[i].pieceCaptured, s.nextId))
  }

  /** The invariant every Board keeps: the source never indexes off the grid from such a state. */
  predicate Good(s: State)
  {
    CastleSafe(s) && LogSafe(s) && IdsFresh(s)
  }

  /** The cached king squares are where the kings stand. */
  predicate KingsCached(s: State)
  {
    forall r, c | 0 <= r < 8 && 0 <= c < 8 && IsKindAt(s.grid[r][c], King) ::
      KingLocation(s, s.grid[r][c].value.color) == (r, c)
  }

  /** A move built by Move(start, end, self) from this board, both squares on the board. */
  predicate BoardMove(s: State, m: Move)
  {
    MoveInBounds(m) && m == MoveOn(s.grid, s.enPassant, m.startRow, m.startCol, m.endRow, m.endCol)
  }

  lemma InitialIsGood()
    ensures Good(Initial()) && KingsCached(Initial())
  {
  }

  /**
   * The temporary make of the check filters (chess_engine/board.py:126-144, 210-228,
   * 921-939): the piece moves to the end square, the start square empties, and a moving
   * king updates its colour's cached location.
   */
  function TempMake(s: State, m: Move): (t: State)
    requires MoveInBounds(m)
    ensures t.grid[m.endRow][m.endCol] == (if (m.startRow, m.startCol) == (m.endRow, m.endCol) then None
                                           else s.grid[m.startRow][m.startCol])
    ensures t.grid[m.startRow][m.startCol] == None
    ensures forall r, c | InBounds(r, c) && (r, c) != (m.startRow, m.startCol) && (r, c) != (m.endRow, m.endCol) ::
      t.grid[r][c] == s.grid[r][c]
    ensures t.whiteToMove == s.whiteToMove && t.moved == s.moved && t.log == s.log
  {
    var piece := s.grid[m.startRow][m.startCol];
    var g := Put(Put(s.grid, m.endRow, m.endCol, piece), m.startRow, m.startCol, None);
    var t := s.(grid := g);
    if IsKindAt(piece, King) then
      if piece.value.color == White then t.(whiteKing := (m.endRow, m.endCol))
      else t.(blackKing := (m.endRow, m.endCol))
    else t
  }

  /**
   * Writing the two saved cells back (start first) and the saved king location undoes a
   * temporary make.
   */
  lemma TempMakeRestored(s: State, m: Move)
    requires MoveInBounds(m)
    ensures var t := TempMake(s, m);
      Put(Put(t.grid, m.startRow, m.startCol, s.grid[m.startRow][m.startCol]), m.endRow, m.endCol, s.grid[m.endRow][m.endCol]) == s.grid &&
      t.(grid := s.grid, whiteKing := s.whiteKing, blackKing := s.blackKing) == s &&
      (!IsKindAt(s.grid[m.startRow][m.startCol], King) ==> t.whiteKing == s.whiteKing && t.blackKing == s.blackKing) &&
      (IsKindAt(s.grid[m.startRow][m.startCol], King) && s.grid[m.startRow][m.startCol].value.color == White ==> t.blackKing == s.blackKing) &&
      (IsKindAt(s.grid[m.startRow][m.startCol], King) && s.grid[m.startRow][m.startCol].value.color == Black ==> t.whiteKing == s.whiteKing)
  {
    PutBack(s.grid, m.startRow, m.startCol, m.endRow, m.endCol);
  }
}
