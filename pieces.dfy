/** Chess pieces (chess_engine/pieces.py) and the 8x8 grid of optional pieces that holds them. */
module Pieces {
  import opened Wrappers

  /** The two colour codes a piece carries: 'w' and 'b'. */
  datatype Color = White | Black

  /** The six concrete piece classes; the bare base class has no type letter and is not modelled. */
  datatype Kind = Pawn | Rook | Knight | Bishop | Queen | King

  /**
   * A piece object: its colour, its type and its identity. The source keeps a mutable
   * has_moved attribute on each object; a board keeps that as the set of identities
   * whose pieces have moved, so that two cells or a move holding the same object agree.
   */
  datatype Piece = Piece(color: Color, kind: Kind, id: nat)

  type Cell = Option<Piece>

  /** The board as the source holds it: 8 rows of 8 optional pieces. */
  type Grid = g: seq<seq<Cell>> | |g| == 8 && forall r | 0 <= r < 8 :: |g[r]| == 8
    witness seq(8, _ => seq(8, _ => None))

  function Opponent(c: Color): (o: Color)
    ensures o != c
  {
    if c == White then Black else White
  }

  /**
   * Constructing any subclass: the given colour and the class's type, as a new object
   * whose has_moved is False whenever every moved identity is below `nextId`.
   */
  function NewPiece(c: Color, k: Kind, nextId: nat, moved: set<nat>): (p: Piece)
    ensures p.color == c && p.kind == k
    ensures (forall i | i in moved :: i < nextId) ==> !HasMoved(p, moved)
  {
    Piece(c, k, nextId)
  }

  /** has_moved of a piece object under the board's set of moved identities. */
  predicate HasMoved(p: Piece, moved: set<nat>)
  {
    p.id in moved
  }

  /** The colour code stored in the piece. */
  function ColorCode(c: Color): (ch: char)
    ensures ch == 'w' || ch == 'b'
    ensures (ch == 'w') <==> c == White
  {
    if c == White then 'w' else 'b'
  }

  /** The type letter each subclass fixes in its constructor. */
  function KindLetter(k: Kind): (ch: char)
    ensures ch in "PRNBQK"
  {
    match k
    case Pawn => 'P'
    case Rook => 'R'
    case Knight => 'N'
    case Bishop => 'B'
    case Queen => 'Q'
    case King => 'K'
  }

  /** The inverse of KindLetter: which subclass a type letter names, if any. */
  function KindOfLetter(ch: char): (k: Option<Kind>)
    ensures k.Some? <==> ch in "PRNBQK"
  {
    if ch == 'P' then Some(Pawn)
    else if ch == 'R' then Some(Rook)
    else if ch == 'N' then Some(Knight)
    else if ch == 'B' then Some(Bishop)
    else if ch == 'Q' then Some(Queen)
    else if ch == 'K' then Some(King)
    else None
  }

  lemma KindLetterRoundTrip(k: Kind, ch: char)
    ensures KindOfLetter(KindLetter(k)) == Some(k)
    ensures KindOfLetter(ch).Some? ==> KindLetter(KindOfLetter(ch).value) == ch
  {
  }

  /** str(piece): the colour code followed by the type letter, e.g. "wP". */
  function PieceString(p: Piece): (s: string)
    ensures |s| == 2
    ensures (s[0] == 'w') <==> p.color == White
    ensures KindOfLetter(s[1]) == Some(p.kind)
  {
    [ColorCode(p.color), KindLetter(p.kind)]
  }

  /** The string of a piece says its colour and type exactly, and nothing about which object it is. */
  lemma PieceStringDeterminesPiece(p: Piece, q: Piece)
    ensures PieceString(p) == PieceString(q) <==> p.color == q.color && p.kind == q.kind
  {
    if PieceString(p) == PieceString(q) {
      assert PieceString(p)[1] == PieceString(q)[1];
      assert KindOfLetter(PieceString(p)[1]) == Some(p.kind);
    }
  }

  function Put(g: Grid, r: int, c: int, x: Cell): (h: Grid)
    requires 0 <= r < 8 && 0 <= c < 8
    ensures h[r][c] == x
    ensures forall i, j | 0 <= i < 8 && 0 <= j < 8 && (i, j) != (r, c) :: h[i][j] == g[i][j]
  {
    g[r := g[r][c := x]]
  }

  predicate InBounds(r: int, c: int)
  {
    0 <= r < 8 && 0 <= c < 8
  }

  /**
   * Writing the moved piece to the end square and None to the start square, then writing the
   * two saved cells back (start first), leaves the grid as it was.
   */
  lemma PutBack(g: Grid, sr: int, sc: int, er: int, ec: int)
    requires 0 <= sr < 8 && 0 <= sc < 8 && 0 <= er < 8 && 0 <= ec < 8
    ensures Put(Put(Put(Put(g, er, ec, g[sr][sc]), sr, sc, None), sr, sc, g[sr][sc]), er, ec, g[er][ec]) == g
  {
    var h := Put(Put(Put(Put(g, er, ec, g[sr][sc]), sr, sc, None), sr, sc, g[sr][sc]), er, ec, g[er][ec]);
    forall r | 0 <= r < 8
      ensures h[r] == g[r]
    {
      assert forall c | 0 <= c < 8 :: h[r][c] == g[r][c];
    }
  }

  lemma AppendAssoc<T>(a: seq<T>, b: seq<T>, c: seq<T>)
    ensures (a + b) + c == a + (b + c)
  {
  }

  /** Moving the head of the second part of a split list to the end of the first part. */
  lemma ShiftOne<T>(a: seq<T>, x: T, r: seq<T>, t: seq<T>)
    requires a + ([x] + r) == t
    ensures (a + [x]) + r == t
  {
    AppendAssoc(a, [x], r);
  }
}

