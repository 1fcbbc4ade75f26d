/**
 * The coordinate arithmetic of the board widget (ui/board_view.py): which screen pixel lies on
 * the board, which square a pixel falls in, and where a square is drawn, in either orientation.
 */
module BoardView {
  import opened Wrappers
  import opened PyText

  /** A square seen from the other side of the board. */
  function Mirror(p: (int, int)): (int, int)
  {
    (7 - p.0, 7 - p.1)
  }

  /** get_board_position for a given orientation; None where `// square_size` divides by zero. */
  function BoardPosition(squareSize: int, offsetX: int, offsetY: int, flipped: bool, x: int, y: int): (p: Option<(int, int)>)
    ensures p.Some? <==> squareSize != 0
  {
    match (FloorDiv(x - offsetX, squareSize), FloorDiv(y - offsetY, squareSize))
    case (Some(col), Some(row)) => Some(if flipped then Mirror((row, col)) else (row, col))
    case _ => None
  }

  /** get_screen_position for a given orientation: the top-left pixel of the square. */
  function ScreenPosition(squareSize: int, offsetX: int, offsetY: int, flipped: bool, row: int, col: int): (int, int)
  {
    var (r, c) := if flipped then Mirror((row, col)) else (row, col);
    (offsetX + c * squareSize, offsetY + r * squareSize)
  }

  /** Where the board is drawn and which way up. */
  class View {
    const boardSize: int
    const squareSize: int
    const offsetX: int
    const offsetY: int
    var flipped: bool

    /** A view of the given size and offset, white at the bottom; the square side is `board_size // 8`. */
    constructor(boardSize: int, offsetX: int, offsetY: int)
      ensures this.boardSize == boardSize && this.offsetX == offsetX && this.offsetY == offsetY
      ensures FloorDiv(boardSize, 8) == Some(squareSize)
      ensures !flipped
    {
      this.boardSize := boardSize;
      this.squareSize := boardSize / 8;
      this.offsetX := offsetX;
      this.offsetY := offsetY;
      this.flipped := false;
    }

    /** flip_board: the orientation toggles, so flipping twice restores it. */
    method FlipBoard()
      modifies this`flipped
      ensures flipped == !old(flipped)
    {
      flipped := !flipped;
    }

    /** is_within_board: the half-open box from the offset, board_size wide and high. */
    predicate IsWithinBoard(x: int, y: int)
      reads this
    {
      offsetX <= x < offsetX + boardSize && offsetY <= y < offsetY + boardSize
    }

    function GetBoardPosition(x: int, y: int): Option<(int, int)>
      reads this
    {
      BoardPosition(squareSize, offsetX, offsetY, flipped, x, y)
    }

    function GetScreenPosition(row: int, col: int): (int, int)
      reads this
    {
      ScreenPosition(squareSize, offsetX, offsetY, flipped, row, col)
    }

    /** On a board whose size is a positive multiple of 8, every pixel on the board lies in a square 0..7 x 0..7. */
    lemma WithinBoardIsSquare(x: int, y: int)
      requires FloorDiv(boardSize, 8) == Some(squareSize)
      requires boardSize > 0 && boardSize % 8 == 0
      requires IsWithinBoard(x, y)
      ensures GetBoardPosition(x, y).Some?
      ensures var p := GetBoardPosition(x, y).value; 0 <= p.0 < 8 && 0 <= p.1 < 8
    {
      QuotientBelow8(x - offsetX, squareSize);
      QuotientBelow8(y - offsetY, squareSize);
    }
  }

  /** A pixel offset inside 8 squares falls in one of squares 0..7. */
  lemma QuotientBelow8(d: int, q: int)
    requires q > 0 && 0 <= d < 8 * q
    ensures 0 <= d / q < 8
  {
  }

  /** Dividing a multiple of a positive number by that number gives the factor back. */
  lemma MulDivCancel(c: int, q: int)
    requires q > 0
    ensures (c * q) / q == c
  {
    var k := (c * q) / q;
    var rem := (c * q) % q;
    assert c * q == k * q + rem && 0 <= rem < q;
    var e := c - k;
    assert e * q == c * q - k * q;
    assert e * q == rem;
  }

  /** Converting a square to its pixel and back gives the square, in both orientations. */
  lemma ScreenBoardRoundTrip(squareSize: int, offsetX: int, offsetY: int, flipped: bool, row: int, col: int)
    requires squareSize > 0
    requires 0 <= row < 8 && 0 <= col < 8
    ensures var (x, y) := ScreenPosition(squareSize, offsetX, offsetY, flipped, row, col);
      BoardPosition(squareSize, offsetX, offsetY, flipped, x, y) == Some((row, col))
  {
    var (r, c) := if flipped then Mirror((row, col)) else (row, col);
    MulDivCancel(c, squareSize);
    MulDivCancel(r, squareSize);
    assert offsetX + c * squareSize - offsetX == c * squareSize;
    assert offsetY + r * squareSize - offsetY == r * squareSize;
  }

  /** A flipped view maps every pixel to the mirror square, and every square to the mirror square's pixel. */
  lemma FlippedMirrors(squareSize: int, offsetX: int, offsetY: int, x: int, y: int, row: int, col: int)
    ensures var p := BoardPosition(squareSize, offsetX, offsetY, false, x, y);
      BoardPosition(squareSize, offsetX, offsetY, true, x, y) == if p.Some? then Some(Mirror(p.value)) else None
    ensures ScreenPosition(squareSize, offsetX, offsetY, true, row, col) ==
            ScreenPosition(squareSize, offsetX, offsetY, false, 7 - row, 7 - col)
  {
  }
}
