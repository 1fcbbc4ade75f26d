/**
 * Moves (chess_engine/move.py): the rank/file tables, a move's coordinates and the
 * capture, castle, en-passant and promotion information a move reads off the board.
 */
module Moves {
  import opened Wrappers
  import opened Pieces

  /** ranks_to_rows: "1".."8" name rows 7..0. */
  function RankToRow(ch: char): (r: Option<int>)
    ensures r.Some? <==> '1' <= ch <= '8'
    ensures r.Some? ==> 0 <= r.value < 8 && r.value == 7 - (ch as int - '1' as int)
  {
    if '1' <= ch <= '8' then Some(7 - (ch as int - '1' as int)) else None
  }

  /** rows_to_ranks, built by inverting ranks_to_rows. */
  function RowToRank(r: int): (ch: Option<char>)
    ensures ch.Some? <==> 0 <= r < 8
  {
    if 0 <= r < 8 then Some(('8' as int - r) as char) else None
  }

  /** files_to_cols: "a".."h" name columns 0..7. */
  function FileToCol(ch: char): (c: Option<int>)
    ensures c.Some? <==> 'a' <= ch <= 'h'
    ensures c.Some? ==> 0 <= c.value < 8 && c.value == ch as int - 'a' as int
  {
    if 'a' <= ch <= 'h' then Some(ch as int - 'a' as int) else None
  }

  /** cols_to_files, built by inverting files_to_cols. */
  function ColToFile(c: int): (ch: Option<char>)
    ensures ch.Some? <==> 0 <= c < 8
  {
    if 0 <= c < 8 then Some(('a' as int + c) as char) else None
  }

  /** rows_to_ranks is exactly the inverse of ranks_to_rows. */
  lemma RankTablesInverse(ch: char, r: int)
    ensures RankToRow(ch).Some? ==> RowToRank(RankToRow(ch).value) == Some(ch)
    ensures 0 <= r < 8 ==> RankToRow(RowToRank(r).value) == Some(r)
  {
  }

  /** cols_to_files is exactly the inverse of files_to_cols. */
  lemma FileTablesInverse(ch: char, c: int)
    ensures FileToCol(ch).Some? ==> ColToFile(FileToCol(ch).value) == Some(ch)
    ensures 0 <= c < 8 ==> FileToCol(ColToFile(c).value) == Some(c)
  {
  }

  /** A Move object: coordinates, the pieces read from the board and the derived flags. */
  datatype Move = Move(
    startRow: int, startCol: int, endRow: int, endCol: int,
    pieceMoved: Cell, pieceCaptured: Cell,
    isCastle: bool, isEnPassant: bool, isPromotion: bool,
    promotionChoice: char)

  predicate MoveInBounds(m: Move)
  {
    InBounds(m.startRow, m.startCol) && InBounds(m.endRow, m.endCol)
  }

  /** Move(start, end) without a board: no pieces, no flags, promotion to a queen. */
  function PlainMove(sr: int, sc: int, er: int, ec: int): (m: Move)
    ensures m.startRow == sr && m.startCol == sc && m.endRow == er && m.endCol == ec
    ensures m.pieceMoved.None? && m.pieceCaptured.None?
    ensures !m.isCastle && !m.isEnPassant && !m.isPromotion && m.promotionChoice == 'Q'
  {
    Move(sr, sc, er, ec, None, None, false, false, false, 'Q')
  }

  predicate IsKindAt(x: Cell, k: Kind)
  {
    x.Some? && x.value.kind == k
  }

  /** Move(start, end, board): the pieces and flags are read from the grid and the en-passant square. */
  function MoveOn(g: Grid, ep: Option<(int, int)>, sr: int, sc: int, er: int, ec: int): (m: Move)
    requires InBounds(sr, sc) && InBounds(er, ec)
    ensures m.startRow == sr && m.startCol == sc && m.endRow == er && m.endCol == ec
    ensures m.pieceMoved == g[sr][sc]
    ensures m.isEnPassant <==> IsKindAt(g[sr][sc], Pawn) && ep == Some((er, ec))
    ensures m.pieceCaptured == if m.isEnPassant then g[sr][ec] else g[er][ec]
    ensures m.isCastle <==> IsKindAt(g[sr][sc], King) && (ec - sc == 2 || sc - ec == 2)
    ensures m.isPromotion <==> IsKindAt(g[sr][sc], Pawn) && (er == 0 || er == 7)
    ensures m.promotionChoice == 'Q'
  {
    var moved := g[sr][sc];
    var ep := IsKindAt(moved, Pawn) && ep == Some((er, ec));
    var castle := IsKindAt(moved, King) && (ec - sc == 2 || sc - ec == 2);
    var promo := IsKindAt(moved, Pawn) && (er == 0 || er == 7);
    Move(sr, sc, er, ec, moved, if ep then g[sr][ec] else g[er][ec], castle, ep, promo, 'Q')
  }

  /** get_rank_file: the file letter then the rank digit of a square. */
  function RankFile(r: int, c: int): (s: string)
    requires InBounds(r, c)
    ensures |s| == 2
    ensures FileToCol(s[0]) == Some(c) && RankToRow(s[1]) == Some(r)
  {
    [ColToFile(c).value, RowToRank(r).value]
  }

  /** get_chess_notation, e.g. "e2e4": reading the four characters back gives the four coordinates. */
  function Notation(m: Move): (s: string)
    requires MoveInBounds(m)
    ensures |s| == 4
    ensures FileToCol(s[0]) == Some(m.startCol) && RankToRow(s[1]) == Some(m.startRow)
    ensures FileToCol(s[2]) == Some(m.endCol) && RankToRow(s[3]) == Some(m.endRow)
  {
    RankFile(m.startRow, m.startCol) + RankFile(m.endRow, m.endCol)
  }

  /** Two in-bounds moves have the same notation exactly when they have the same coordinates. */
  lemma NotationInjective(a: Move, b: Move)
    requires MoveInBounds(a) && MoveInBounds(b)
    ensures Notation(a) == Notation(b) <==> SameSquares(a, b)
  {
    if Notation(a) == Notation(b) {
      assert Notation(a)[0] == Notation(b)[0] && Notation(a)[1] == Notation(b)[1];
      assert Notation(a)[2] == Notation(b)[2] && Notation(a)[3] == Notation(b)[3];
    }
  }

  /** Move.__eq__: the four coordinates and nothing else. */
  predicate SameSquares(a: Move, b: Move)
  {
    a.startRow == b.startRow && a.startCol == b.startCol && a.endRow == b.endRow && a.endCol == b.endCol
  }

  /** Equality of moves ignores the pieces and every flag, and is an equivalence. */
  lemma SameSquaresIgnoresFlags(a: Move, b: Move, c: Move, moved: Cell, captured: Cell, f1: bool, f2: bool, f3: bool, ch: char)
    ensures SameSquares(a, b) <==> SameSquares(a.(pieceMoved := moved, pieceCaptured := captured,
                                                   isCastle := f1, isEnPassant := f2, isPromotion := f3,
                                                   promotionChoice := ch), b)
    ensures SameSquares(a, a)
    ensures SameSquares(a, b) ==> SameSquares(b, a)
    ensures SameSquares(a, b) && SameSquares(b, c) ==> SameSquares(a, c)
  {
  }

  /** Move.__str__: castling notation, pawn moves by square, other pieces by letter. */
  function MoveString(m: Move): (s: string)
    requires !m.isCastle ==> InBounds(m.endRow, m.endCol)
    requires !m.isCastle && IsKindAt(m.pieceMoved, Pawn) && m.pieceCaptured.Some? ==> 0 <= m.startCol < 8
    ensures m.isCastle ==> (s == "O-O" <==> m.endCol == 6) && (s != "O-O" ==> s == "O-O-O")
    ensures !m.isCastle ==> |s| >= 2 && s[|s| - 2..] == RankFile(m.endRow, m.endCol)
    ensures !m.isCastle && IsKindAt(m.pieceMoved, Pawn) ==>
      if m.pieceCaptured.Some? then |s| == 4 && s[1] == 'x' && FileToCol(s[0]) == Some(m.startCol)
      else |s| == 2
    ensures !m.isCastle && !IsKindAt(m.pieceMoved, Pawn) ==>
      |s| == (if m.pieceMoved.Some? then 1 else 0) + (if m.pieceCaptured.Some? then 1 else 0) + 2 &&
      (m.pieceMoved.Some? ==> s[0] == KindLetter(m.pieceMoved.value.kind)) &&
      (m.pieceCaptured.Some? ==> s[|s| - 3] == 'x')
  {
    if m.isCastle then
      if m.endCol == 6 then "O-O" else "O-O-O"
    else
      var square := RankFile(m.endRow, m.endCol);
      if IsKindAt(m.pieceMoved, Pawn) then
        if m.pieceCaptured.Some? then [ColToFile(m.startCol).value, 'x'] + square else square
      else
        var letter := if m.pieceMoved.Some? then [KindLetter(m.pieceMoved.value.kind)] else "";
        letter + (if m.pieceCaptured.Some? then "x" else "") + square
  }
}
