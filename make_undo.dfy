/**
 * make_move and undo_move of the Board (chess_engine/board.py:611-690) on the state they
 * update, and the round trip between them.
 */
module MakeUndo {
  import opened Wrappers
  import opened Pieces
  import opened Moves
  import opened BoardState
  import opened Attacks
  import opened Legality

  /** The pawn on the start square reaches the last rank of its colour. */
  predicate PromotesOn(x: Cell, endRow: int)
  {
    IsKindAt(x, Pawn) && ((x.value.color == White && endRow == 0) || (x.value.color == Black && endRow == 7))
  }

  /** has_moved := True on the logged piece object. */
  function MarkMoved(moved: set<nat>, x: Cell): (ids: set<nat>)
    ensures moved <= ids && (x.Some? ==> x.value.id in ids)
    ensures forall i | i in ids && i !in moved :: x.Some? && i == x.value.id
  {
    if x.Some? then moved + {x.value.id} else moved
  }

  /** The cells after make_move: the piece on the start square moves to the end square, a promoting pawn as a new Queen. */
  function MovedGrid(s: State, m: Move): (g: Grid)
    requires MoveInBounds(m)
  {
    var piece := s.grid[m.startRow][m.startCol];
    var g := Put(Put(s.grid, m.endRow, m.endCol, piece), m.startRow, m.startCol, None);
    if PromotesOn(piece, m.endRow) then Put(g, m.endRow, m.endCol, Some(NewPiece(piece.value.color, Queen, s.nextId, s.moved)))
    else g
  }

  /** The king locations after a move of the logged piece `x` to (r, c). */
  function KingsAfter(s: State, x: Cell, r: int, c: int): ((int, int), (int, int))
  {
    if IsKindAt(x, King) then
      if x.value.color == White then ((r, c), s.blackKing) else (s.whiteKing, (r, c))
    else (s.whiteKing, s.blackKing)
  }

  /**
   * make_move up to the flag updates: the board cell moves (a promoting pawn becomes a new
   * Queen), the move is logged, the king location follows the logged piece, the logged piece
   * is marked as moved and the turn passes.
   */
  function Place(s: State, m: Move): (t: State)
    requires MoveInBounds(m)
    ensures t.grid == MovedGrid(s, m)
    ensures t.log == s.log + [m] && t.whiteToMove == !s.whiteToMove
    ensures (t.whiteKing, t.blackKing) == KingsAfter(s, m.pieceMoved, m.endRow, m.endCol)
    ensures t.moved == MarkMoved(s.moved, m.pieceMoved)
    ensures t.nextId == if PromotesOn(s.grid[m.startRow][m.startCol], m.endRow) then s.nextId + 1 else s.nextId
    ensures t.rights == s.rights && t.enPassant == s.enPassant
  {
    var (wk, bk) := KingsAfter(s, m.pieceMoved, m.endRow, m.endCol);
    s.(grid := MovedGrid(s, m), log := s.log + [m], whiteKing := wk, blackKing := bk,
       moved := MarkMoved(s.moved, m.pieceMoved),
       nextId := if PromotesOn(s.grid[m.startRow][m.startCol], m.endRow) then s.nextId + 1 else s.nextId,
       whiteToMove := !s.whiteToMove)
  }

  /** Place is determined by the fields it sets and the ones it keeps. */
  lemma PlaceByFields(s: State, m: Move, t: State)
    requires MoveInBounds(m)
    requires t.grid == MovedGrid(s, m) && t.log == s.log + [m] && t.whiteToMove == !s.whiteToMove
    requires (t.whiteKing, t.blackKing) == KingsAfter(s, m.pieceMoved, m.endRow, m.endCol)
    requires t.moved == MarkMoved(s.moved, m.pieceMoved)
    requires t.nextId == if PromotesOn(s.grid[m.startRow][m.startCol], m.endRow) then s.nextId + 1 else s.nextId
    requires t.rights == s.rights && t.enPassant == s.enPassant
    requires t.inCheck == s.inCheck && t.checkmate == s.checkmate && t.stalemate == s.stalemate
    ensures t == Place(s, m)
  {
  }

  /** Two states that agree on every field except in_check, checkmate and stalemate. */
  predicate SameButFlags(t: State, p: State)
  {
    t.(inCheck := p.inCheck, checkmate := p.checkmate, stalemate := p.stalemate) == p
  }

  /** make_move: Place, then in_check, checkmate and stalemate recomputed in that order. */
  function Make(s: State, m: Move): (t: State)
    requires MoveInBounds(m)
    ensures t.log == s.log + [m] && t.whiteToMove == !s.whiteToMove
    ensures t.moved == MarkMoved(s.moved, m.pieceMoved)
    ensures var p := Place(s, m);
      t.grid == p.grid && t.whiteKing == p.whiteKing && t.blackKing == p.blackKing &&
      t.nextId == p.nextId && t.rights == p.rights && t.enPassant == p.enPassant
    ensures SameButFlags(t, Place(s, m))
  {
    var p := Place(s, m);
    var u := p.(inCheck := InCheck(p));
    var v := u.(checkmate := IsCheckmate(u));
    v.(stalemate := IsStalemate(v))
  }

  /** The last entry of the move log. */
  function Last(log: seq<Move>): Move
    requires log != []
  {
    log[|log| - 1]
  }

  /**
   * undo_move: False and no change on an empty log; otherwise the last entry is popped, its
   * two pieces are put back (start first, then end), a logged king returns its location to
   * the start square, the turn passes back, in_check is recomputed and the other flags cleared.
   */
  function Undo(s: State): (r: (bool, State))
    requires s.log != [] ==> MoveInBounds(Last(s.log))
    ensures r.0 <==> s.log != []
    ensures !r.0 ==> r.1 == s
    ensures r.0 ==> r.1.grid == RestoredGrid(s.grid, Last(s.log))
    ensures r.0 ==> (r.1.whiteKing, r.1.blackKing) == KingsAfter(s, Last(s.log).pieceMoved, Last(s.log).startRow, Last(s.log).startCol)
    ensures r.0 ==> r.1.log == s.log[..|s.log| - 1] && r.1.whiteToMove == !s.whiteToMove
    ensures r.0 ==> r.1.inCheck == InCheck(r.1) && !r.1.checkmate && !r.1.stalemate
    ensures r.0 ==> r.1.moved == s.moved && r.1.nextId == s.nextId && r.1.rights == s.rights && r.1.enPassant == s.enPassant
  {
    if s.log == [] then (false, s)
    else
      var f := Unplace(s);
      (true, f.(inCheck := InCheck(f), checkmate := false, stalemate := false))
  }

  /** undo_move up to the flag updates: the log is popped, the pieces and the king location go back, the turn passes back. */
  function Unplace(s: State): (t: State)
    requires s.log != [] && MoveInBounds(Last(s.log))
    ensures t.log == s.log[..|s.log| - 1] && t.whiteToMove == !s.whiteToMove
    ensures t.moved == s.moved && t.nextId == s.nextId && t.rights == s.rights && t.enPassant == s.enPassant
  {
    var m := Last(s.log);
    var (wk, bk) := KingsAfter(s, m.pieceMoved, m.startRow, m.startCol);
    s.(grid := RestoredGrid(s.grid, m), log := s.log[..|s.log| - 1], whiteKing := wk, blackKing := bk,
       whiteToMove := !s.whiteToMove)
  }

  /** Unplace is determined by the fields it sets and the ones it keeps. */
  lemma UnplaceByFields(s: State, t: State)
    requires s.log != [] && MoveInBounds(Last(s.log))
    requires t.grid == RestoredGrid(s.grid, Last(s.log)) && t.log == s.log[..|s.log| - 1] && t.whiteToMove == !s.whiteToMove
    requires (t.whiteKing, t.blackKing) == KingsAfter(s, Last(s.log).pieceMoved, Last(s.log).startRow, Last(s.log).startCol)
    requires t.moved == s.moved && t.nextId == s.nextId && t.rights == s.rights && t.enPassant == s.enPassant
    requires t.inCheck == s.inCheck && t.checkmate == s.checkmate && t.stalemate == s.stalemate
    ensures t == Unplace(s)
  {
  }

  /** The cells after undo_move: the logged pieces back on the start square, then the end square. */
  function RestoredGrid(g: Grid, m: Move): Grid
    requires MoveInBounds(m)
  {
    Put(Put(g, m.startRow, m.startCol, m.pieceMoved), m.endRow, m.endCol, m.pieceCaptured)
  }

  /** The cells make_move leaves: the moved (or promoted) piece on the end square, the start square empty. */
  lemma MovedCells(s: State, m: Move)
    requires MoveInBounds(m) && (m.startRow, m.startCol) != (m.endRow, m.endCol)
    ensures var g := MovedGrid(s, m); var piece := s.grid[m.startRow][m.startCol];
      g[m.startRow][m.startCol] == None &&
      (!PromotesOn(piece, m.endRow) ==> g[m.endRow][m.endCol] == piece) &&
      (forall r, c | InBounds(r, c) && (r, c) != (m.startRow, m.startCol) && (r, c) != (m.endRow, m.endCol) ::
         g[r][c] == s.grid[r][c])
  {
  }

  /** Putting back the two pieces read before the move gives back the board. */
  lemma RestoredMovedGrid(s: State, m: Move)
    requires MoveInBounds(m) && (m.startRow, m.startCol) != (m.endRow, m.endCol)
    requires m.pieceMoved == s.grid[m.startRow][m.startCol] && m.pieceCaptured == s.grid[m.endRow][m.endCol]
    ensures RestoredGrid(MovedGrid(s, m), m) == s.grid
  {
    MovedCells(s, m);
    var g := RestoredGrid(MovedGrid(s, m), m);
    forall r, c | 0 <= r < 8 && 0 <= c < 8
      ensures g[r][c] == s.grid[r][c]
    {
    }
    GridsEqual(g, s.grid);
  }

  /** A pawn reaching the last rank is replaced by a Queen of its colour, a new piece object. */
  lemma PromotionMakesQueen(s: State, m: Move)
    requires MoveInBounds(m) && (m.startRow, m.startCol) != (m.endRow, m.endCol)
    requires PromotesOn(s.grid[m.startRow][m.startCol], m.endRow)
    requires IdsFresh(s) && (m.pieceMoved.Some? ==> m.pieceMoved.value.id < s.nextId)
    ensures var t := Make(s, m); var q := t.grid[m.endRow][m.endCol];
      q.Some? && q.value.kind == Queen && q.value.color == s.grid[m.startRow][m.startCol].value.color &&
      !HasMoved(q.value, t.moved) && t.nextId == s.nextId + 1
  {
  }

  lemma CachedKingAt(s: State, r: int, c: int)
    requires KingsCached(s) && InBounds(r, c) && IsKindAt(s.grid[r][c], King)
    ensures KingLocation(s, s.grid[r][c].value.color) == (r, c)
  {
  }

  /** A king moved to (er, ec) and back to its cached square (sr, sc) leaves both locations as they were. */
  lemma KingsBack(s: State, p: State, x: Cell, sr: int, sc: int, er: int, ec: int)
    requires (p.whiteKing, p.blackKing) == KingsAfter(s, x, er, ec)
    requires IsKindAt(x, King) ==> KingLocation(s, x.value.color) == (sr, sc)
    ensures KingsAfter(p, x, sr, sc) == (s.whiteKing, s.blackKing)
  {
  }

  /** is_in_check reads only the cells, the two king locations and the turn. */
  lemma InCheckReads(s: State, t: State)
    requires s.grid == t.grid && s.whiteKing == t.whiteKing && s.blackKing == t.blackKing
    requires s.whiteToMove == t.whiteToMove
    ensures InCheck(s) == InCheck(t)
  {
    assert OpponentAttacks(s) == OpponentAttacks(t);
  }

  lemma GridsEqual(g: Grid, h: Grid)
    requires forall r, c | 0 <= r < 8 && 0 <= c < 8 :: g[r][c] == h[r][c]
    ensures g == h
  {
    forall r | 0 <= r < 8
      ensures g[r] == h[r]
    {
      assert forall c | 0 <= c < 8 :: g[r][c] == h[r][c];
    }
  }

  /**
   * make_move then undo_move, for a move whose pieces were read from this board and whose
   * squares differ, restores every cell, both king locations, the turn and the log. has_moved
   * is not restored: the moved piece stays marked. in_check is recomputed to its value on
   * the restored board and the two terminal flags are cleared.
   */
  lemma MakeThenUndo(s: State, m: Move)
    requires MoveInBounds(m) && (m.startRow, m.startCol) != (m.endRow, m.endCol)
    requires m.pieceMoved == s.grid[m.startRow][m.startCol] && m.pieceCaptured == s.grid[m.endRow][m.endCol]
    requires KingsCached(s)
    ensures var (ok, t) := Undo(Make(s, m));
      ok && t.grid == s.grid && t.whiteKing == s.whiteKing && t.blackKing == s.blackKing &&
      t.whiteToMove == s.whiteToMove && t.log == s.log &&
      t.moved == MarkMoved(s.moved, m.pieceMoved) && t.inCheck == InCheck(s) &&
      !t.checkmate && !t.stalemate && t.rights == s.rights && t.enPassant == s.enPassant
  {
    UndoAfterPlace(s, m, Make(s, m));
  }

  /**
   * The round trip for any state whose cells, log, turn, king locations, rights and en-passant
   * square are those Place leaves; the moved set and the flags may be anything.
   */
  lemma UndoAfterPlace(s: State, m: Move, p: State)
    requires MoveInBounds(m) && (m.startRow, m.startCol) != (m.endRow, m.endCol)
    requires m.pieceMoved == s.grid[m.startRow][m.startCol] && m.pieceCaptured == s.grid[m.endRow][m.endCol]
    requires KingsCached(s)
    requires p.grid == MovedGrid(s, m) && p.log == s.log + [m] && p.whiteToMove == !s.whiteToMove
    requires (p.whiteKing, p.blackKing) == KingsAfter(s, m.pieceMoved, m.endRow, m.endCol)
    requires p.rights == s.rights && p.enPassant == s.enPassant
    ensures var (ok, t) := Undo(p);
      ok && t.grid == s.grid && t.whiteKing == s.whiteKing && t.blackKing == s.blackKing &&
      t.whiteToMove == s.whiteToMove && t.log == s.log &&
      t.moved == p.moved && t.inCheck == InCheck(s) &&
      !t.checkmate && !t.stalemate && t.rights == s.rights && t.enPassant == s.enPassant
  {
    assert Last(p.log) == m;
    assert p.log[..|p.log| - 1] == s.log;
    RestoredMovedGrid(s, m);
    var t := Undo(p).1;
    assert t.grid == s.grid;
    if IsKindAt(m.pieceMoved, King) {
      CachedKingAt(s, m.startRow, m.startCol);
    }
    KingsBack(s, p, m.pieceMoved, m.startRow, m.startCol, m.endRow, m.endCol);
    InCheckReads(t, s);
  }

  lemma LogEntrySafeGrows(s: State, t: State, e: Move)
    requires LogEntrySafe(s, e) && s.moved <= t.moved && s.rights == t.rights
    ensures LogEntrySafe(t, e)
  {
  }

  lemma PlaceKeepsCastleSafe(s: State, m: Move)
    requires CastleSafe(s) && BoardMove(s, m)
    ensures CastleSafe(Place(s, m))
  {
    var t := Place(s, m);
    forall r, c | 0 <= r < 8 && 0 <= c < 8 && UnmovedKing(t.grid[r][c], t.moved)
      ensures CastleColumnOk(t.rights, t.grid[r][c].value.color, c)
    {
      if (m.startRow, m.startCol) != (m.endRow, m.endCol) {
        MovedCells(s, m);
      }
      assert (r, c) != (m.startRow, m.startCol) && (r, c) != (m.endRow, m.endCol);
    }
  }

  lemma PlaceKeepsLogSafe(s: State, m: Move)
    requires CastleSafe(s) && LogSafe(s) && BoardMove(s, m)
    ensures LogSafe(Place(s, m))
  {
    var t := Place(s, m);
    forall i | 0 <= i < |t.log|
      ensures LogEntrySafe(t, t.log[i])
    {
      if i < |s.log| {
        assert t.log[i] == s.log[i];
        LogEntrySafeGrows(s, t, s.log[i]);
      } else {
        assert t.log[i] == m;
      }
    }
  }

  lemma PlaceKeepsIdsFresh(s: State, m: Move)
    requires IdsFresh(s) && BoardMove(s, m)
    ensures IdsFresh(Place(s, m))
  {
    var t := Place(s, m);
    forall r, c | 0 <= r < 8 && 0 <= c < 8
      ensures FreshCell(t.grid[r][c], t.nextId)
    {
      if (m.startRow, m.startCol) != (m.endRow, m.endCol) {
        MovedCells(s, m);
      }
    }
    forall i | 0 <= i < |t.log|
      ensures FreshCell(t.log[i].pieceMoved, t.nextId) && FreshCell(t.log[i].pieceCaptured, t.nextId)
    {
      if i < |s.log| { assert t.log[i] == s.log[i]; } else { assert t.log[i] == m; }
    }
  }

  /** make_move of a move built from the board keeps the board invariant. */
  lemma MakePreservesGood(s: State, m: Move)
    requires Good(s) && BoardMove(s, m)
    ensures Good(Make(s, m))
  {
    PlaceKeepsGood(s, m);
    FlagsIgnored(Make(s, m), Place(s, m));
  }

  lemma PlaceKeepsGood(s: State, m: Move)
    requires Good(s) && BoardMove(s, m)
    ensures Good(Place(s, m))
  {
    PlaceKeepsCastleSafe(s, m);
    PlaceKeepsLogSafe(s, m);
    PlaceKeepsIdsFresh(s, m);
  }

  /** The board invariant and the king cache do not read the three flags. */
  lemma FlagsIgnored(t: State, p: State)
    requires SameButFlags(t, p)
    ensures Good(t) <==> Good(p)
    ensures KingsCached(t) <==> KingsCached(p)
  {
    assert t.grid == p.grid && t.log == p.log && t.moved == p.moved && t.rights == p.rights;
  }

  lemma UndoKeepsCells(s: State)
    requires Good(s) && s.log != []
    ensures MoveInBounds(Last(s.log))
    ensures CastleSafe(Unplace(s))
    ensures forall r, c | 0 <= r < 8 && 0 <= c < 8 :: FreshCell(Unplace(s).grid[r][c], Unplace(s).nextId)
  {
    var m := Last(s.log);
    assert LogEntrySafe(s, m);
    assert FreshCell(m.pieceMoved, s.nextId) && FreshCell(m.pieceCaptured, s.nextId);
    var t := Unplace(s);
    forall r, c | 0 <= r < 8 && 0 <= c < 8
      ensures FreshCell(t.grid[r][c], t.nextId)
      ensures UnmovedKing(t.grid[r][c], t.moved) ==> CastleColumnOk(t.rights, t.grid[r][c].value.color, c)
    {
      if (r, c) != (m.startRow, m.startCol) && (r, c) != (m.endRow, m.endCol) {
        assert t.grid[r][c] == s.grid[r][c];
      }
    }
  }

  lemma UndoKeepsLog(s: State)
    requires Good(s) && s.log != []
    ensures MoveInBounds(Last(s.log))
    ensures LogSafe(Unplace(s))
    ensures var t := Unplace(s);
      forall i | 0 <= i < |t.log| :: FreshCell(t.log[i].pieceMoved, t.nextId) && FreshCell(t.log[i].pieceCaptured, t.nextId)
  {
    assert LogEntrySafe(s, Last(s.log));
    var t := Unplace(s);
    forall i | 0 <= i < |t.log|
      ensures LogEntrySafe(t, t.log[i])
      ensures FreshCell(t.log[i].pieceMoved, t.nextId) && FreshCell(t.log[i].pieceCaptured, t.nextId)
    {
      assert t.log[i] == s.log[i];
    }
  }

  /** undo_move keeps the board invariant. */
  lemma UndoPreservesGood(s: State)
    requires Good(s)
    ensures s.log != [] ==> MoveInBounds(Last(s.log))
    ensures s.log != [] ==> Good(Undo(s).1)
  {
    if s.log != [] {
      UnplaceKeepsGood(s);
      FlagsIgnored(Undo(s).1, Unplace(s));
    }
  }

  /** A state with its three flags replaced. */
  function Flagged(p: State, check: bool, mate: bool, stale: bool): (t: State)
    ensures SameButFlags(t, p)
    ensures t.inCheck == check && t.checkmate == mate && t.stalemate == stale
  {
    p.(inCheck := check, checkmate := mate, stalemate := stale)
  }

  /** The last two steps of make_move: checkmate, then stalemate, each computed from the state before it is set. */
  function GameEnd(u: State): (t: State)
    ensures SameButFlags(t, u) && t.inCheck == u.inCheck
  {
    var v := Flagged(u, u.inCheck, IsCheckmate(u), u.stalemate);
    Flagged(v, u.inCheck, v.checkmate, IsStalemate(v))
  }

  lemma GameEndSteps(u: State, v: State, t: State)
    requires v == Flagged(u, u.inCheck, IsCheckmate(u), u.stalemate)
    requires t == Flagged(v, v.inCheck, v.checkmate, IsStalemate(v))
    ensures t == GameEnd(u)
  {
  }

  /** make_move is Place followed by the three flags, each computed from the state before it is set. */
  lemma MakeIsPlaceFlagged(s: State, m: Move, p: State, check: bool)
    requires MoveInBounds(m) && p == Place(s, m) && check == InCheck(p)
    ensures Make(s, m) == GameEnd(Flagged(p, check, p.checkmate, p.stalemate))
  {
  }

  /** undo_move is Unplace followed by in_check recomputed and both game-end flags cleared. */
  lemma UndoIsUnplaceFlagged(s: State, check: bool)
    requires Good(s) && s.log != [] && check == InCheck(Unplace(s))
    ensures MoveInBounds(Last(s.log))
    ensures Undo(s) == (true, Flagged(Unplace(s), check, false, false))
    ensures Good(Flagged(Unplace(s), check, false, false))
  {
    UnplaceKeepsGood(s);
    FlagsIgnored(Flagged(Unplace(s), check, false, false), Unplace(s));
  }

  lemma UnplaceKeepsGood(s: State)
    requires Good(s) && s.log != []
    ensures MoveInBounds(Last(s.log))
    ensures Good(Unplace(s))
  {
    UndoKeepsCells(s);
    UndoKeepsLog(s);
  }

  /** make_move of a move whose logged piece was read from its start square keeps the king cache exact. */
  lemma MakePreservesKingsCached(s: State, m: Move)
    requires KingsCached(s) && MoveInBounds(m) && (m.startRow, m.startCol) != (m.endRow, m.endCol)
    requires m.pieceMoved == s.grid[m.startRow][m.startCol]
    ensures KingsCached(Make(s, m))
  {
    PlaceKeepsKingsCached(s, m);
    FlagsIgnored(Make(s, m), Place(s, m));
  }

  lemma PlaceKeepsKingsCached(s: State, m: Move)
    requires KingsCached(s) && MoveInBounds(m) && (m.startRow, m.startCol) != (m.endRow, m.endCol)
    requires m.pieceMoved == s.grid[m.startRow][m.startCol]
    ensures KingsCached(Place(s, m))
  {
    var t := Place(s, m);
    MovedCells(s, m);
    forall r, c | 0 <= r < 8 && 0 <= c < 8 && IsKindAt(t.grid[r][c], King)
      ensures KingLocation(t, t.grid[r][c].value.color) == (r, c)
    {
      if (r, c) != (m.endRow, m.endCol) {
        assert t.grid[r][c] == s.grid[r][c];
      }
    }
  }
}

