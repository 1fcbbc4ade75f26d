# Chess IQ Analyzer: the engine and analysis core in Dafny

This project models the chess engine of Chess IQ Analyzer and the integer and string parts of its analysis, rating and settings code. It states and proves what those parts promise.

**The engine** (`chess_engine/`)
- A `Board` is a class. Its fields are the 8×8 grid of optional pieces, the move log, the turn, the cached king squares, the castling rights, the en-passant square and the check, checkmate and stalemate flags.
  - Every method of the class (`make_move`, `undo_move`, the per-piece generators, the attack generators, `square_under_attack`, `is_valid_move`, `is_checkmate`, `is_stalemate`) is proved equal to a pure function of its state.
  - Those functions live in modules `BoardState`, `Attacks`, `Generators`, `Legality` and `MakeUndo`.
- Piece objects are values with an identity. The board's `moved` set holds the identities whose `has_moved` is true. This keeps the sharing of one piece object between a board cell and the move log's `piece_moved` exact.
- `ChessAI` searches a borrowed board with make, recurse and undo. It is proved equal to the search of module `Search`.
  - On an abstract game tree with the same loop structure (module `GameTree`), alpha-beta from the full window equals plain minimax.
  - The root loop keeps the first of the best moves.
- `GameState` (module `Rules`) keeps the half-move and full-move clocks and the repetition table. It also holds:
  - the end-of-game verdict: checkmate, stalemate, insufficient material, the 100 half-move rule and threefold repetition;
  - the FEN writer `get_fen`;
  - the FEN reader `from_fen`.

  For every position `get_fen` can write, `from_fen` reads it back exactly (module `Fen`). FEN follows section 16.1 of the PGN standard.

**The analysis and rating code**
- The centipawn evaluator of the analysis package, and the `classify_mistake` thresholds.
- Opening recognition by the longest matching move prefix, and scoring of deviations from the opening.
- The material, pawn-structure, endgame, mobility and player-statistics counts of the analyzer.
- The IQ-to-Elo and knowledge-level tables.
- The player-statistics tracker, a class over its record, with the files left out.
- The recursive configuration merge and its dotted-path reads and writes.
- The board widget's pixel↔square arithmetic.
- The two IQ estimates of the game window.
- The `minutes+increment` time-control parser.

**Behaviour modelled as the code is written**, where it differs from its documentation:
- `get_valid_moves(pos)` and `is_checkmate` flip the turn before `is_in_check`. They therefore reject moves that leave the opponent's king attacked. Only `is_valid_move` tests the mover's own king.
- `get_valid_moves()` without a position is unfiltered. The search and `is_stalemate` use it.
- `make_move` and `undo_move` never set `en_passant_possible`. Only `from_fen` sets it, and the model returns that position as a fresh value. The search therefore requires it to be `None`.
- Castling rights are never cleared, and a castling king moves without its rook.
- `undo_move` does not restore `has_moved`.
- The queen's pawn-capture rule looks at the shared `moves` list.
- `GameState.make_move` raises the full-move number after White's move, when the move leaves Black to move.
- `from_fen` skips a letter that names no piece type and only advances the column.
- `get_iq_trend(0)` returns the whole history, because of Python's `[-0:]`.
- `_calculate_iq_score` tallies the opponent's moves: it skips the moves at the player's own parity.
- The variation tables repeat the key 3, so only the black lists survive. A recommendation therefore exists only for Black.
- The statistics tracker starts a fresh player at a current IQ of 1000. `get_stats` reports it clamped to 150.

Calls into `random` are given as a `Draws` value, and the clock reading of `update_iq` is a parameter. The contents of the configuration file and of the statistics file are parameters too.

## Model

| member | source | states |
|---|---|---|
| Pieces.Opponent | chess_engine/board.py:716 | the other colour is never the same colour |
| Pieces.NewPiece | chess_engine/pieces.py:9-18 | a new piece keeps the colour and type given, and its has_moved is false |
| Pieces.ColorCode | chess_engine/pieces.py:9-18 | the colour code is 'w' exactly for White and 'b' otherwise |
| Pieces.KindLetter | chess_engine/pieces.py:25-76 | each subclass's type letter is one of P R N B Q K |
| Pieces.KindOfLetter | chess_engine/pieces.py:25-76 | exactly the six type letters name a subclass |
| Pieces.KindLetterRoundTrip | chess_engine/pieces.py:25-76 | type letters and subclasses are mutually inverse |
| Pieces.PieceString | chess_engine/pieces.py:20-22 | str(piece) has two characters: the colour code, then the type letter |
| Pieces.PieceStringDeterminesPiece | chess_engine/pieces.py:20-22 | two pieces print the same exactly when their colour and type agree |
| Pieces.Put | chess_engine/board.py:629-635 | a cell assignment changes that one cell and no other |
| Pieces.PutBack | chess_engine/board.py:629-635 | writing the two saved cells back undoes the two writes of a move |
| Moves.RankToRow | chess_engine/move.py:12-13 | "1".."8" map to rows 7..0, and nothing else maps |
| Moves.RowToRank | chess_engine/move.py:14-15 | exactly rows 0..7 have a rank |
| Moves.FileToCol | chess_engine/move.py:18-19 | "a".."h" map to columns 0..7, and nothing else maps |
| Moves.ColToFile | chess_engine/move.py:20-21 | exactly columns 0..7 have a file |
| Moves.RankTablesInverse | chess_engine/move.py:12-15 | rows_to_ranks is the exact inverse of ranks_to_rows |
| Moves.FileTablesInverse | chess_engine/move.py:18-21 | cols_to_files is the exact inverse of files_to_cols |
| Moves.PlainMove | chess_engine/move.py:23-46 | a move built without a board has its squares, no pieces, no flags and promotion choice 'Q' |
| Moves.MoveOn | chess_engine/move.py:47-64 | with a board, castle holds iff a king moves two files, promotion iff a pawn ends on row 0 or 7, and en passant iff a pawn ends on the en-passant square |
| Moves.RankFile | chess_engine/move.py:76-87 | get_rank_file is two characters that read back as the column and the row |
| Moves.Notation | chess_engine/move.py:66-74 | get_chess_notation is four characters that read back as the four coordinates |
| Moves.NotationInjective | chess_engine/move.py:66-87 | two notations are equal exactly when the coordinates are |
| Moves.SameSquaresIgnoresFlags | chess_engine/move.py:89-104 | equality of moves ignores pieces and flags, and is an equivalence |
| Moves.MoveString | chess_engine/move.py:106-136 | castles print O-O for column 6 and otherwise O-O-O; pawn moves print the square, or the file, 'x' and the square; other pieces print the letter, an 'x' for a capture and then the square |
| BoardState.Mover | chess_engine/board.py:20 | the side to move is White exactly when white_to_move holds |
| BoardState.Flip | chess_engine/board.py:716-740 | flipping the turn changes only the turn |
| BoardState.Initial | chess_engine/board.py:15-36 | a new board has White to move, an empty log, no moved piece, and the kings cached on e1 and e8 |
| BoardState.InitialIsGood | chess_engine/board.py:15-69 | the starting board satisfies the board invariant, and its king cache is exact |
| BoardState.TempMake | chess_engine/board.py:126-144 | the temporary make moves the piece, empties the start square and changes no other cell, the turn or the log |
| BoardState.TempMakeRestored | chess_engine/board.py:151-162 | restoring the two saved cells and the king location undoes the temporary make |
| Attacks.HitsAppend | chess_engine/board.py:742-747 | a move ends on a square in a concatenation iff it does in one of the parts |
| Attacks.AttacksFromHits | chess_engine/board.py:720-738 | the collected attacks hit a square iff some piece of that colour on a visited square attacks it |
| Attacks.SquareUnderAttackIffAttacker | chess_engine/board.py:704-747 | square_under_attack holds iff some piece of the side not to move has the square among its unfiltered attacks |
| ChessBoard.Board.constructor | chess_engine/board.py:15-36 | a new board's state is the starting position, which keeps the invariant |
| ChessBoard.Board.InitializeBoard | chess_engine/board.py:38-69 | _initialize_board fills the grid with the starting position, giving 32 fresh piece objects |
| ChessBoard.Board.PlaceBackRanks | chess_engine/board.py:48-69 | the back-rank placements complete the starting grid |
| ChessBoard.Board.PlaceNew | chess_engine/board.py:48-69 | one placement writes a new piece object to one cell |
| ChessBoard.Board.GetPieceAt | chess_engine/board.py:71-84 | get_piece_at is the cell on the board and None off it |
| ChessBoard.Board.GetPawnAttacks | chess_engine/board.py:749-772 | the moves list gains exactly the pawn's on-board forward diagonals |
| ChessBoard.Board.GetRayAttack | chess_engine/board.py:784-799 | one direction's distance loop appends the squares up to the first piece |
| ChessBoard.Board.GetRayAttacks | chess_engine/board.py:780-799 | the direction loop appends each ray in order |
| ChessBoard.Board.GetRookAttacks | chess_engine/board.py:774-799 | _get_rook_attacks appends the four straight rays |
| ChessBoard.Board.GetBishopAttacks | chess_engine/board.py:824-849 | _get_bishop_attacks appends the four diagonal rays |
| ChessBoard.Board.GetQueenAttacks | chess_engine/board.py:851-862 | _get_queen_attacks appends the rook rays, then the bishop rays |
| ChessBoard.Board.GetOffsetAttacks | chess_engine/board.py:810-822 | the offset loop appends each on-board target in order |
| ChessBoard.Board.GetKnightAttacks | chess_engine/board.py:801-822 | _get_knight_attacks appends the knight's on-board targets |
| ChessBoard.Board.GetKingTarget | chess_engine/board.py:873-884 | one pass appends the neighbour when it is a neighbour and on the board |
| ChessBoard.Board.GetKingRowAttacks | chess_engine/board.py:873-884 | one d_row pass appends that row's neighbours |
| ChessBoard.Board.GetKingAttacks | chess_engine/board.py:864-884 | _get_king_attacks appends the on-board neighbours |
| ChessBoard.Board.GetPieceAttacks | chess_engine/board.py:724-736 | the dispatch appends the attacks of the piece's type |
| ChessBoard.Board.GetSquareAttacks | chess_engine/board.py:720-736 | a square adds attacks only when its piece has the given colour |
| ChessBoard.Board.CollectRowAttacks | chess_engine/board.py:720-736 | one row of the double loop appends that row's attacks |
| ChessBoard.Board.CollectAttacks | chess_engine/board.py:720-736 | the double loop collects the attacks of every piece of the colour |
| ChessBoard.Board.AnyEndsOn | chess_engine/board.py:742-747 | the final loop finds a move ending on the square iff one exists |
| ChessBoard.Board.SquareUnderAttack | chess_engine/board.py:704-747 | square_under_attack leaves the whole state as it was, and answers as Attacks.SquareUnderAttack |
| ChessBoard.Board.IsInCheck | chess_engine/board.py:692-702 | is_in_check changes nothing, and answers whether the mover's cached king square is attacked |
| ChessBoard.Board.GetPawnForward | chess_engine/board.py:288-303 | the pawn's single step, then the double step from its start row |
| ChessBoard.Board.GetPawnCapture | chess_engine/board.py:305-319 | one diagonal: a capture of an enemy piece, or else onto the en-passant square |
| ChessBoard.Board.GetPawnMoves | chess_engine/board.py:280-319 | _get_pawn_moves appends exactly Generators.PawnMoves |
| ChessBoard.Board.GetSlideRay | chess_engine/board.py:330-356 | one rook direction: empty squares, then an enemy piece, stopping at any piece |
| ChessBoard.Board.GetSlideRays | chess_engine/board.py:327-356 | the rook's direction loop, in order |
| ChessBoard.Board.GetRookMoves | chess_engine/board.py:321-356 | _get_rook_moves appends exactly Generators.RookMoves |
| ChessBoard.Board.GetJumps | chess_engine/board.py:367-386 | the knight's jumps onto empty or enemy squares, in offset order |
| ChessBoard.Board.GetKnightMoves | chess_engine/board.py:358-386 | _get_knight_moves appends exactly Generators.KnightMoves |
| ChessBoard.Board.GetSplitRay | chess_engine/board.py:400-440 | one diagonal: ordinary moves to one list, captures of an enemy pawn to the other |
| ChessBoard.Board.GetSplitRays | chess_engine/board.py:397-440 | the direction loop of the split rays, in order |
| ChessBoard.Board.GetBishopMoves | chess_engine/board.py:388-445 | _get_bishop_moves keeps the pawn captures only when the bishop has no other move |
| ChessBoard.Board.GetQueenRays | chess_engine/board.py:456-531 | the rook directions, then the bishop directions, with the pawn captures apart |
| ChessBoard.Board.GetQueenMoves | chess_engine/board.py:447-538 | _get_queen_moves keeps the pawn captures only when the shared list is still empty |
| ChessBoard.Board.GetKingStep | chess_engine/board.py:554-567 | one pass of the king's nested loops: a step onto an empty or enemy square |
| ChessBoard.Board.GetKingRowSteps | chess_engine/board.py:552-567 | one d_row pass of the king's steps |
| ChessBoard.Board.GetKingSteps | chess_engine/board.py:549-567 | the king's eight neighbours, in loop order |
| ChessBoard.Board.GetKingsideCastle | chess_engine/board.py:586-597 | the kingside half of _get_castle_moves, with the state unchanged |
| ChessBoard.Board.GetQueensideCastle | chess_engine/board.py:599-609 | the queenside half, reading col - 3 as a Python index, with the state unchanged |
| ChessBoard.Board.GetSafeCastle | chess_engine/board.py:592-597 | the two attack tests of one castling side, the second only when the first fails |
| ChessBoard.Board.GetCastleMoves | chess_engine/board.py:573-609 | nothing while in check or for a king that has moved; then kingside and queenside |
| ChessBoard.Board.GetKingMoves | chess_engine/board.py:540-571 | _get_king_moves appends the neighbours, then the castling moves |
| ChessBoard.Board.GetPieceMoves | chess_engine/board.py:187-204 | the dispatch appends exactly Generators.PieceMoves and leaves the state unchanged |
| ChessBoard.Board.TempMove | chess_engine/board.py:126-144 | the temporary make is BoardState.TempMake, returning the saved cells and king square |
| ChessBoard.Board.RestoreTempMove | chess_engine/board.py:151-162 | the restore returns the board to the state before the temporary make |
| ChessBoard.Board.CheckAfterTempMove | chess_engine/board.py:210-237 | the check test after a temporary make, with the turn flipped when asked, leaves the state unchanged |
| ChessBoard.Board.KeepUnchecked | chess_engine/board.py:206-243 | the filter loop keeps exactly Legality.Kept |
| ChessBoard.Board.KeepIfUnchecked | chess_engine/board.py:206-243 | one pass of the filter loop |
| ChessBoard.Board.GetValidMovesAt | chess_engine/board.py:168-245 | get_valid_moves(pos) is Legality.ValidMovesAt, with the state unchanged |
| ChessBoard.Board.CollectRowMoves | chess_engine/board.py:257-278 | one row of the full generator |
| ChessBoard.Board.GetValidMoves | chess_engine/board.py:257-278 | get_valid_moves() is Generators.AllMoves, unfiltered, with the state unchanged |
| ChessBoard.Board.FindListed | chess_engine/board.py:116-124 | the search finds a listed move with the same coordinates iff one exists |
| ChessBoard.Board.IsValidMove | chess_engine/board.py:86-166 | is_valid_move answers as Legality.IsValidMove, with the state unchanged |
| ChessBoard.Board.ListedAndSafe | chess_engine/board.py:116-162 | the search by coordinates, then the own-king test |
| ChessBoard.Board.AnyEscape | chess_engine/board.py:910-960 | the inner move loop of is_checkmate finds an escape iff the filter keeps some move |
| ChessBoard.Board.SquareHasEscape | chess_engine/board.py:894-960 | a square offers an escape iff get_valid_moves(pos) is non-empty there |
| ChessBoard.Board.RowHasEscape | chess_engine/board.py:894-960 | one row of is_checkmate's loops |
| ChessBoard.Board.IsCheckmate | chess_engine/board.py:886-966 | is_checkmate answers as Legality.IsCheckmate, with the state unchanged |
| ChessBoard.Board.IsStalemate | chess_engine/board.py:968-980 | is_stalemate answers as Legality.IsStalemate, with the state unchanged |
| ChessBoard.Board.PlaceMove | chess_engine/board.py:611-652 | make_move up to the flags is MakeUndo.Place |
| ChessBoard.Board.RecordMove | chess_engine/board.py:638-652 | the log gains the move, the turn passes, the king cache follows the logged piece and the piece is marked moved, and nothing else changes |
| ChessBoard.Board.UpdateKingLocation | chess_engine/board.py:640-645 | a logged king's colour has its cached square set, and nothing else changes |
| ChessBoard.Board.MovePiece | chess_engine/board.py:622-635 | the cell updates of make_move, with a new Queen for a promoting pawn |
| ChessBoard.Board.MakeMove | chess_engine/board.py:611-657 | make_move is MakeUndo.Make and keeps the board invariant |
| ChessBoard.Board.RecordGameEnd | chess_engine/board.py:655-657 | the checkmate and then the stalemate flag are recomputed |
| ChessBoard.Board.RecordCheckmate | chess_engine/board.py:656 | checkmate is set from is_checkmate, and nothing else changes |
| ChessBoard.Board.RecordStalemate | chess_engine/board.py:657 | stalemate is set from is_stalemate, and nothing else changes |
| ChessBoard.Board.SetFlags | chess_engine/board.py:654-657 | only the three flags change |
| ChessBoard.Board.UnplaceMove | chess_engine/board.py:666-683 | undo_move up to the flags is MakeUndo.Unplace |
| ChessBoard.Board.UndoMove | chess_engine/board.py:659-690 | undo_move is MakeUndo.Undo and keeps the board invariant |
| Generators.CastleGuardsHold | chess_engine/board.py:586-609 | on a board that keeps the invariant, the castle lookups stay on the row |
| Generators.PawnMovesGenerated | chess_engine/board.py:280-319 | every pawn move starts on the pawn's square, ends on the board and never lands on an own piece |
| Generators.SlideRaysGenerated | chess_engine/board.py:321-356 | the same for every rook ray |
| Generators.JumpTargetsGenerated | chess_engine/board.py:358-386 | the same for every knight jump |
| Generators.SplitRaysGenerated | chess_engine/board.py:388-538 | the same for both lists of every bishop and queen ray |
| Generators.KingStepsGenerated | chess_engine/board.py:540-571 | the same for every king step |
| Generators.CastleMovesGenerated | chess_engine/board.py:573-609 | the same for every castling move |
| Generators.PieceMovesGenerated | chess_engine/board.py:187-204 | every per-piece generator produces only moves of the piece on its square |
| Generators.MovesBeforeFromMover | chess_engine/board.py:257-278 | at every point of the loops, the full generator's moves start on squares of the side to move |
| Generators.AllMovesFromMover | chess_engine/board.py:257-278 | every move of get_valid_moves() moves a piece of the side to move |
| OpeningMoves.InitialIsStart | chess_engine/board.py:15-69 | the starting board is a start position |
| OpeningMoves.PawnRow | chess_engine/board.py:280-303 | the pawns of the first c files list two forward moves each, in file order: moves 2f and 2f + 1 belong to the pawn on file f |
| OpeningMoves.RookBlocked | chess_engine/board.py:321-356 | a rook in the start position has no move |
| OpeningMoves.KnightJumpsTwice | chess_engine/board.py:358-386 | a knight in the start position has exactly its two jumps to the third rank |
| OpeningMoves.BishopBlocked | chess_engine/board.py:388-445 | a bishop in the start position has no move |
| OpeningMoves.QueenBlocked | chess_engine/board.py:447-538 | the queen in the start position has no move |
| OpeningMoves.KingBlocked | chess_engine/board.py:540-609 | the king in the start position has no move and no castling move |
| OpeningMoves.BackRankRow | chess_engine/board.py:257-278 | the back rank adds only the knights' jumps, in order |
| OpeningMoves.StartMoveCount | chess_engine/board.py:257-278 | a start position lists 20 moves: 16 pawn moves, then 4 knight moves |
| OpeningMoves.InitialMoveCount | chess_engine/board.py:257-278 | the new board's get_valid_moves() lists 20 moves: 16 pawn moves, then 4 knight moves |
| Legality.Kept | chess_engine/board.py:206-243 | the moves the filter keeps are a subsequence of the list |
| Legality.KeptExactly | chess_engine/board.py:206-243 | a move is kept iff it is listed and its temporary make, with the turn flipped, is not in check |
| Legality.KeptNone | chess_engine/board.py:206-243 | the filter keeps nothing iff it rejects every move of the list |
| Legality.ValidMovesAtExactly | chess_engine/board.py:168-245 | get_valid_moves(pos) returns a move iff its piece's generator yields it and the filter keeps it |
| Legality.IsValidMoveExactly | chess_engine/board.py:86-166 | is_valid_move accepts iff the move is on the board, moves a piece of the side to move onto no own piece, matches a generated and kept move by coordinates, and leaves the mover's own king unattacked |
| Legality.IsValidMoveRejects | chess_engine/board.py:97-162 | is_valid_move rejects off-board coordinates, an empty start, the wrong colour, an own piece on the end square, and a move leaving the mover's king attacked |
| Legality.NoEscapeBeforeExactly | chess_engine/board.py:894-960 | is_checkmate's loops find no escape iff no visited square offers a kept move |
| Legality.StuckBeforeStart | chess_engine/board.py:894-960 | nothing is visited before the first square |
| Legality.StuckBeforeRow | chess_engine/board.py:894-960 | the equivalence carries over from one row to the next |
| Legality.StuckBeforeStep | chess_engine/board.py:894-960 | the equivalence carries over from one square to the next |
| Legality.CheckmateExactly | chess_engine/board.py:886-966 | is_checkmate holds iff the mover is in check and no square offers a move that get_valid_moves(pos) keeps |
| Legality.EmptyBefore | chess_engine/board.py:257-278 | when the full generator lists nothing, every square's generator received an empty list and added nothing |
| Legality.StalemateHasNoValidMoves | chess_engine/board.py:968-980 | a stalemated side has no move get_valid_moves(pos) offers on any square |
| Legality.CheckmateExcludesStalemate | chess_engine/board.py:886-980 | checkmate and stalemate exclude each other |
| MakeUndo.MarkMoved | chess_engine/board.py:649 | has_moved is set on the logged piece object |
| MakeUndo.Place | chess_engine/board.py:611-652 | the end cell gets the moved piece (a new Queen on promotion), the start empties, the log gains the move, the king cache follows and the turn flips |
| MakeUndo.PlaceByFields | chess_engine/board.py:611-652 | Place is fixed by the fields it sets and the fields it keeps |
| MakeUndo.Make | chess_engine/board.py:611-657 | make_move is Place, then in_check, checkmate and stalemate recomputed in that order |
| MakeUndo.Undo | chess_engine/board.py:659-690 | undo_move is False and no change on an empty log; otherwise it pops one entry, puts both pieces back, returns the king square, hands back the turn and recomputes the flags |
| MakeUndo.Unplace | chess_engine/board.py:666-683 | undo_move up to the flags: the log is popped, the pieces and the king location go back, the turn passes back |
| MakeUndo.UnplaceByFields | chess_engine/board.py:666-683 | Unplace is fixed by the fields it sets and the fields it keeps |
| MakeUndo.MovedCells | chess_engine/board.py:622-635 | make_move leaves the moved or promoted piece on the end square and the start square empty |
| MakeUndo.RestoredMovedGrid | chess_engine/board.py:672-676 | putting back the two logged pieces gives back the board |
| MakeUndo.PromotionMakesQueen | chess_engine/board.py:622-635 | a pawn reaching the last rank becomes a new Queen of its colour |
| MakeUndo.KingsBack | chess_engine/board.py:640-683 | a king moved and moved back leaves both cached squares as they were |
| MakeUndo.InCheckReads | chess_engine/board.py:692-702 | is_in_check reads only the cells, the king squares and the turn |
| MakeUndo.MakeThenUndo | chess_engine/board.py:629-683 | make_move then undo_move of a move read from the board restores every cell, both king squares, the turn and the log |
| MakeUndo.UndoAfterPlace | chess_engine/board.py:629-683 | the round trip holds whatever the moved set and the flags are |
| MakeUndo.MakePreservesGood | chess_engine/board.py:611-657 | make_move of a move built from the board keeps the board invariant |
| MakeUndo.FlagsIgnored | chess_engine/board.py:654-657 | the board invariant and the king cache do not read the flags |
| MakeUndo.UndoPreservesGood | chess_engine/board.py:659-690 | undo_move keeps the board invariant |
| MakeUndo.Flagged | chess_engine/board.py:654-657 | replacing the flags changes only the flags |
| MakeUndo.GameEnd | chess_engine/board.py:655-657 | checkmate, then stalemate, each computed from the state before it is set |
| MakeUndo.MakeIsPlaceFlagged | chess_engine/board.py:611-657 | make_move is Place followed by the three flags |
| MakeUndo.UndoIsUnplaceFlagged | chess_engine/board.py:659-690 | undo_move is Unplace, then in_check recomputed and both end flags cleared |
| MakeUndo.MakePreservesKingsCached | chess_engine/board.py:640-645 | make_move keeps the king cache exact |
| Scores.LeTotal | chess_engine/ai_minimax.py:216-257 | the order of scores with the two infinities is total and antisymmetric |
| Scores.LeTrans | chess_engine/ai_minimax.py:216-257 | the order is transitive |
| Scores.Max | chess_engine/ai_minimax.py:225-226 | max is at least both arguments and is one of them |
| Scores.Min | chess_engine/ai_minimax.py:246-247 | min is at most both arguments and is one of them |
| GameTree.FoldIsBest | chess_engine/ai_minimax.py:216-257 | the best of a list of child values is at least as good as all of them and is one of them, or the start value |
| GameTree.ValueIsBestChild | chess_engine/ai_minimax.py:216-257 | a node's minimax value is its best child's value |
| GameTree.AlphaBetaBounds | chess_engine/ai_minimax.py:193-257 | the pruned value is exact inside the window, and on the right side of the exact value outside it |
| GameTree.MaxLoopEnd | chess_engine/ai_minimax.py:216-236 | the maximizing loop's invariant gives the bound at the end |
| GameTree.MaxLoopCut | chess_engine/ai_minimax.py:232-234 | a cut-off returns a score that bounds the exact value |
| GameTree.MaxLoopStep | chess_engine/ai_minimax.py:222-234 | one child without a cut-off restores the loop invariant |
| GameTree.MinLoopEnd | chess_engine/ai_minimax.py:237-257 | the minimizing loop's invariant gives the bound at the end |
| GameTree.MinLoopCut | chess_engine/ai_minimax.py:253-255 | a cut-off returns a score that bounds the exact value |
| GameTree.MinLoopStep | chess_engine/ai_minimax.py:243-255 | one child without a cut-off restores the loop invariant |
| GameTree.ScanMaxBounds | chess_engine/ai_minimax.py:216-236 | the maximizing move loop bounds the exact value of the children |
| GameTree.ScanMinBounds | chess_engine/ai_minimax.py:237-257 | the minimizing move loop bounds the exact value of the children |
| GameTree.FullWindowIsMinimax | chess_engine/ai_minimax.py:193-257 | from alpha -∞ and beta +∞ the pruned search returns the plain minimax value |
| GameTree.RootKeepsInv | chess_engine/ai_minimax.py:164-185 | the root loop keeps the first strictly best child |
| GameTree.RootPicksFirstBest | chess_engine/ai_minimax.py:164-185 | the root keeps the minimax value and the first move reaching it, or no move when every child is as bad as the start |
| Search.BonusTable | chess_engine/ai_minimax.py:27-88 | every piece type has an 8×8 bonus table |
| Search.EvaluateTerminal | chess_engine/ai_minimax.py:259-303 | -10000 on checkmate with White to move, 10000 with Black to move, 0 on stalemate, otherwise the sum over the rows |
| Search.ScoreFromRow | chess_engine/ai_minimax.py:283-301 | the double loop visits a row, then the rows after it |
| Search.ScoreFromRows | chess_engine/ai_minimax.py:283-301 | the double loop's sum is the sum of the row sums |
| Search.Mirror | chess_engine/ai_minimax.py:283-301 | the mirror holds the colour-swapped piece of the vertically opposite square |
| Search.MirrorNegates | chess_engine/ai_minimax.py:283-301 | a mirrored, colour-swapped position scores the negation |
| Search.SameShapeRows | chess_engine/ai_minimax.py:283-301 | the score reads only colours and types, not piece identities |
| Search.SymmetricScoresZero | chess_engine/ai_minimax.py:283-301 | a position that is its own mirror scores 0 |
| Search.InitialScoresZero | chess_engine/ai_minimax.py:283-301 | the starting position scores 0 |
| Search.DepthFromDifficulty | chess_engine/ai_minimax.py:101-118 | difficulty 1..5 is its own depth, and any other difficulty gives depth 3 |
| Search.PlayableKept | chess_engine/ai_minimax.py:167-173 | a board handed back restored still accepts the moves generated before |
| Search.RoundTrip | chess_engine/ai_minimax.py:220-247 | make_move, a search that restores the board, then undo_move, leave the board as it was up to moved pieces |
| Search.Minimax | chess_engine/ai_minimax.py:193-257 | the search hands the board back with its cells, turn, kings and log as it found them, having counted at least one node |
| Search.MinimaxLeaf | chess_engine/ai_minimax.py:207-211 | at depth 0 or on a flagged board the result is the static score, one node, the board untouched |
| Search.MinimaxInner | chess_engine/ai_minimax.py:213-257 | an inner node is the move loop over every generated move, plus one node |
| Search.Child | chess_engine/ai_minimax.py:220-247 | one child hands the board back as it found it |
| Search.PlayKeepsSearchable | chess_engine/ai_minimax.py:220-222 | a board's own move leaves a board the search can go on with |
| Search.ChildSteps | chess_engine/ai_minimax.py:220-247 | one child is make_move, the search one level down for the other side, and undo_move |
| Search.Siblings | chess_engine/ai_minimax.py:216-257 | the move loop with its cut-off hands the board back as it found it |
| Search.Root | chess_engine/ai_minimax.py:164-185 | the root loop hands the board back as it found it |
| Search.RootEnd | chess_engine/ai_minimax.py:164-185 | after the last move the root loop's choice stands |
| Search.RootUnfold | chess_engine/ai_minimax.py:164-185 | one pass of the root loop: the child, then the rest with the narrowed window |
| Search.ChosenStep | chess_engine/ai_minimax.py:176-185 | one pass keeps the first strictly best move |
| Search.RootChooses | chess_engine/ai_minimax.py:164-185 | the root loop scores every move and keeps the first strictly best one |
| Search.BestMove | chess_engine/ai_minimax.py:120-191 | get_best_move's path without random branches hands the board back as it found it |
| Search.BestMoveIsRoot | chess_engine/ai_minimax.py:134-185 | with valid moves, that path is the root loop over all of them |
| Search.BestMoveChooses | chess_engine/ai_minimax.py:164-185 | the path scores every valid move and keeps the first strictly best one |
| Search.Captures | chess_engine/ai_minimax.py:152 | the capturing moves are exactly the valid moves that capture |
| Search.InsertDesc | chess_engine/ai_minimax.py:155 | insertion adds exactly the one move |
| Search.InsertKeepsDescending | chess_engine/ai_minimax.py:155 | inserting into a list sorted by captured value keeps it sorted |
| Search.SortDesc | chess_engine/ai_minimax.py:155 | the sort is a permutation, sorted by captured value with the largest first |
| Search.TopCapture | chess_engine/ai_minimax.py:157-162 | the drawn capture is one of the first min(3, n) captures sorted by captured value, so no capture outside that top three is worth more |
| Search.Drawn | chess_engine/ai_minimax.py:140-141 | random.choice returns a member of the list |
| Search.Decide | chess_engine/ai_minimax.py:120-191 | get_best_move with its random draws given hands the board back as it found it |
| Search.BestMoveIsValid | chess_engine/ai_minimax.py:134-191 | the deterministic path returns a valid move, if any |
| Search.DecideChoosesValidMove | chess_engine/ai_minimax.py:120-191 | get_best_move returns only valid moves, None exactly without moves at all, always a move at difficulty 1, and a capture on the capture branch |
| AI.ChessAI.constructor | chess_engine/ai_minimax.py:90-99 | the difficulty kept, its depth from the depth table, no node counted |
| AI.ChessAI.EvaluatePosition | chess_engine/ai_minimax.py:259-303 | _evaluate_position's double loop is Search.Evaluate |
| AI.ChessAI.PlayChild | chess_engine/ai_minimax.py:220-247 | one child on the board is Search.Child, nodes counted |
| AI.ChessAI.SearchAndUndo | chess_engine/ai_minimax.py:222-247 | the recursive search, then undo_move |
| AI.ChessAI.Minimax | chess_engine/ai_minimax.py:193-257 | _minimax on the board is Search.Minimax: score, board and node count |
| AI.ChessAI.MaxLoop | chess_engine/ai_minimax.py:216-236 | the maximizing loop is Search.Siblings |
| AI.ChessAI.MinLoop | chess_engine/ai_minimax.py:237-257 | the minimizing loop is Search.Siblings |
| AI.ChessAI.GetBestMove | chess_engine/ai_minimax.py:120-191 | get_best_move is Search.Decide: move, board and node count |
| AI.ChessAI.SearchMoves | chess_engine/ai_minimax.py:164-185 | the search part is Search.BestMove |
| AI.ChessAI.RootLoop | chess_engine/ai_minimax.py:164-185 | the root loop over the valid moves is Search.Root |
| AI.ChessAI.RootChild | chess_engine/ai_minimax.py:167-185 | one pass of the root loop |
| AI.ChessAI.KeepBest | chess_engine/ai_minimax.py:176-185 | a strictly better score takes over the best move and score, and the window follows |
| Rules.KeyEntries | chess_engine/rules.py:117-122 | the snapshot lists exactly the occupied squares, each with its colour and type |
| Rules.KeySorted | chess_engine/rules.py:125 | the loops visit the squares in row-major order, so the sort leaves the list as it is |
| Rules.KeyDeterminesPosition | chess_engine/rules.py:109-132 | two boards share a snapshot iff colours and types agree on every square and the rights, en-passant square and turn agree |
| Rules.MenCounts | chess_engine/rules.py:180-216 | the ten counters are the board's piece counts by colour and type |
| Rules.ShadeMembers | chess_engine/rules.py:197-210 | the shade set holds exactly the square colours the bishops of that colour stand on |
| Rules.HeavyMaterialPlaysOn | chess_engine/rules.py:219-244 | a rook, queen or pawn of either colour means material is sufficient |
| Rules.BareKingsDraw | chess_engine/rules.py:219-221 | kings alone are insufficient material |
| Rules.LoneBishopsDrawOnSameShade | chess_engine/rules.py:238-242 | with one bishop each and nothing else, material is insufficient iff both bishops stand on the same shade |
| Rules.EndReason | chess_engine/rules.py:134-170 | the verdict in order: no move (checkmate if in check, won by the side that moved, else stalemate), insufficient material, 100 half-moves, threefold repetition |
| Rules.HalfMoveAfter | chess_engine/rules.py:50-53 | the clock resets after a pawn move or capture and otherwise goes up by one |
| Rules.HalfMoveBack | chess_engine/rules.py:91-96 | undo lowers the clock by one, and not below zero after a resetting move |
| Rules.HalfMoveRoundTrip | chess_engine/rules.py:50-96 | undoing a move that did not reset the clock restores it; undoing one that did leaves 0 |
| Rules.FullMoveAfter | chess_engine/rules.py:56-57 | the full-move number goes up when the move leaves Black to move |
| Rules.FullMoveBack | chess_engine/rules.py:99-100 | undo lowers it when the undo leaves White to move |
| Rules.FullMoveRoundTrip | chess_engine/rules.py:56-100 | undo restores the full-move number |
| Rules.Counted | chess_engine/rules.py:60-61 | make_move adds one sighting of the snapshot |
| Rules.Uncounted | chess_engine/rules.py:82-85 | undo removes one sighting, deleting the entry at zero, and is a KeyError for a missing snapshot |
| Rules.CountRoundTrip | chess_engine/rules.py:60-85 | counting and then uncounting a snapshot gives the table back |
| Rules.CheckedEnd | chess_engine/rules.py:134-170 | check_game_end records the verdict, when there is one, and otherwise changes nothing |
| Rules.MadeMove | chess_engine/rules.py:29-66 | an illegal move changes nothing; a legal one is made and logged, the clocks move on, the snapshot is counted and the end is checked |
| Rules.Booked | chess_engine/rules.py:47-61 | the bookkeeping after the board's make_move |
| Rules.UndoneMove | chess_engine/rules.py:68-107 | false without history; otherwise pop, uncount (a KeyError when never counted), undo the board, clocks back, verdict cleared |
| Rules.Unbooked | chess_engine/rules.py:91-105 | the bookkeeping after the board's undo_move |
| Rules.MakeUndoRoundTrip | chess_engine/rules.py:29-107 | a legal move made and undone restores the history, the full-move number, the repetition table and the board's squares, kings, turn and log |
| Rules.RowFenPiece | chess_engine/rules.py:260-269 | an occupied column writes the pending run, then the symbol |
| Rules.RowFenEmpty | chess_engine/rules.py:270-271 | an empty column lengthens the pending run |
| Rules.JoinSix | chess_engine/rules.py:280-311 | the six fields are joined by single spaces |
| Rules.GameState.constructor | chess_engine/rules.py:13-27 | no history, clocks at 0 and 1, no repetitions, the game not over |
| Rules.GameState.RowPieces | chess_engine/rules.py:119-122 | one row of the snapshot loop |
| Rules.GameState.GetBoardState | chess_engine/rules.py:109-132 | get_board_state is the snapshot of Rules.KeyEntries with the rights, en-passant square and turn |
| Rules.GameState.TallyRow | chess_engine/rules.py:186-216 | one row of the counting loop adds that row's counts |
| Rules.GameState.HasInsufficientMaterial | chess_engine/rules.py:172-244 | the counting loops, then exactly the four drawn cases: K v K, K and one minor v K, K and two knights v K, K and B v K and B on the same shade |
| Rules.GameState.CheckGameEnd | chess_engine/rules.py:134-170 | check_game_end records Rules.EndReason |
| Rules.GameState.MakeMove | chess_engine/rules.py:29-66 | make_move is Rules.MadeMove, with the legality verdict given |
| Rules.GameState.BookMove | chess_engine/rules.py:47-61 | the log, the clocks and the count after the board's make_move |
| Rules.GameState.UndoMove | chess_engine/rules.py:68-107 | undo_move is Rules.UndoneMove |
| Rules.GameState.Uncount | chess_engine/rules.py:82-85 | the sighting is removed and the entry deleted at zero |
| Rules.GameState.StepBack | chess_engine/rules.py:91-105 | the clocks step back and the verdict is cleared |
| Rules.GameState.RankFen | chess_engine/rules.py:256-274 | one rank as the inner loop writes it is Fen.RowFen |
| Rules.GameState.PieceSymbol | chess_engine/rules.py:266-268 | the type letter, lower-cased for Black |
| Rules.GameState.GetFen | chess_engine/rules.py:246-313 | get_fen writes Fen.Fen of the position |
| Rules.GameState.WriteCastling | chess_engine/rules.py:283-296 | the letters K Q k q of the rights held, in that order, or '-' |
| Rules.GameState.WriteEnPassant | chess_engine/rules.py:299-305 | the square's name, '-' without one, a KeyError off the board |
| Rules.GameState.WritePlacement | chess_engine/rules.py:256-277 | each rank, with '/' after every rank but the last |
| Rules.GameState.ReadRank | chess_engine/rules.py:342-371 | the loop over one rank's characters is Fen.ParseRank |
| Rules.GameState.ReadRanks | chess_engine/rules.py:342-371 | the loop over the eight ranks is Fen.ParseRanks |
| Rules.GameState.FromFen | chess_engine/rules.py:315-401 | from_fen is Fen.ParseFen |
| Fen.PlacementOf | chess_engine/rules.py:256-277 | the placement is the colours and types of the board |
| Fen.Symbol | chess_engine/rules.py:266-268 | the symbol names its piece's type, and is lower-case exactly for Black |
| Fen.Run | chess_engine/rules.py:261-274 | a run is written as its decimal length, and only when positive |
| Fen.RowFen | chess_engine/rules.py:256-274 | a rank's text holds no '/' and no space |
| Fen.RankStrings | chess_engine/rules.py:256-277 | eight rank strings |
| Fen.CastlingFen | chess_engine/rules.py:283-296 | the castling field is non-empty and lists the rights in KQkq order, or is '-' |
| Fen.EnPassantFen | chess_engine/rules.py:299-305 | the en-passant field is '-', a square's name, or a KeyError |
| Fen.Fen | chess_engine/rules.py:246-313 | get_fen is the six fields joined by single spaces |
| Fen.ParseRank | chess_engine/rules.py:342-371 | a digit skips that many squares, a piece letter places its piece or raises IndexError past the last column, anything else only advances |
| Fen.RankReadFacts | chess_engine/rules.py:342-371 | reading a rank writes only from the given column on, and leaves each king location on the last king of that colour |
| Fen.RanksReadFacts | chess_engine/rules.py:342-371 | reading the ranks leaves earlier ranks alone and the king locations on the last kings placed |
| Fen.ParseEnPassant | chess_engine/rules.py:382-390 | '-' is no square; otherwise the first two characters name the file and the rank |
| Fen.EmptyPlacement | chess_engine/rules.py:327-330 | from_fen starts from a cleared board |
| Fen.ParseFen | chess_engine/rules.py:315-401 | a ValueError unless there are 6 fields and 8 ranks; otherwise the ranks, the turn, the castling letters anywhere in the field, the en-passant square and the clocks, the first error raised |
| Fen.ParseFields | chess_engine/rules.py:342-399 | the fields are read in order and the first error raised is the result |
| Fen.ParsedKings | chess_engine/rules.py:363-369 | each king location is on a king of that colour, found whenever the placement has one |
| Fen.RankRoundTrip | chess_engine/rules.py:256-371 | a written rank reads back as the placement's row |
| Fen.RanksRoundTrip | chess_engine/rules.py:256-371 | the written ranks read back as the placement |
| Fen.SplitRanks | chess_engine/rules.py:276-338 | splitting the written placement on '/' gives the eight ranks |
| Fen.FieldsAreWords | chess_engine/rules.py:246-313 | every written field is a non-empty word without spaces |
| Fen.FenRoundTrip | chess_engine/rules.py:246-401 | from_fen reads back exactly the position get_fen wrote |
| Fen.FieldsRoundTrip | chess_engine/rules.py:280-399 | the written turn, rights, en-passant square and clocks read back |
| Fen.CanonicalFenStable | chess_engine/rules.py:246-401 | a FEN string get_fen can write is written again unchanged after from_fen |
| Evaluation.SameKeys | analysis/evaluation.py:13-113 | both dictionaries know the same type letters, so both terms fail on the same boards |
| Evaluation.EvaluateMaterial | analysis/evaluation.py:156-178 | the loop sums +value for white cells and -value for the others, failing at a cell it cannot score |
| Evaluation.EvaluatePiecePositions | analysis/evaluation.py:180-204 | the loop adds table[row][col] for white and subtracts table[7-row][col] for black |
| Evaluation.ScoreTerm | analysis/evaluation.py:166-202 | the loop both terms share computes that term over the board |
| Evaluation.PositionScore | analysis/evaluation.py:115-154 | the evaluation is material plus position bonus, the placeholder terms adding 0, failing exactly where material fails |
| Evaluation.EvaluatePosition | analysis/evaluation.py:115-154 | evaluate_position is Evaluation.PositionScore |
| Evaluation.SwapColour | analysis/evaluation.py:171-202 | swapping the colour keeps the length and keeps "--" |
| Evaluation.Mirror | analysis/evaluation.py:171-202 | the mirror holds the colour-swapped cell of the vertically opposite square |
| Evaluation.MirrorNegates | analysis/evaluation.py:171-202 | mirroring and swapping colours negates evaluate_position, or keeps it failing |
| Evaluation.SymmetricIsLevel | analysis/evaluation.py:171-202 | a board that is its own mirror evaluates to 0 |
| Evaluation.FindBestMoves | analysis/evaluation.py:262-280 | find_best_moves is e2e4 0.5, d2d4 0.4, c2c4 0.3 for every board, depth and count |
| GridCount.RowValueByKind | analysis/analyzer.py:373-397 | within a row, the cell-by-cell sum equals the weighted piece counts |
| GridCount.RowsValueByKind | analysis/analyzer.py:373-397 | over the rows, the cell-by-cell sum equals the weighted counts |
| GridCount.MaterialByKind | analysis/analyzer.py:373-397 | summing cell values and weighing the counts give the same material |
| GridCount.CountUnion | analysis/analyzer.py:596-624 | counting two disjoint sets of types is adding the counts |
| MistakeDetector.ClassifyMistake | analysis/mistake_detector.py:142-171 | blunder iff loss ≥ 200, mistake iff 100 ≤ loss < 200, inaccuracy iff 50 ≤ loss < 100, otherwise no type and "Good move" |
| MistakeDetector.SeverityMonotone | analysis/mistake_detector.py:152-171 | a larger loss never gets a milder classification |
| MistakeDetector.CalculateAccuracy | analysis/mistake_detector.py:173-197 | exactly 100 when the loss is not positive, and otherwise the decay clamped to 0..100 |
| MistakeDetector.Lower | analysis/mistake_detector.py:217 | lower-casing keeps the length and maps A–Z to a–z |
| MistakeDetector.CheckForMissedMate | analysis/mistake_detector.py:199-222 | False for an empty list; True iff the first entry scores above 10000 or mentions "mate" |
| MistakeDetector.CapitalMateCounts | analysis/mistake_detector.py:209-217 | "Mate in 2" counts through the lower-casing |
| Analyzer.KindCounts | analysis/analyzer.py:362-398 | the counts cover the five non-king types |
| Analyzer.CalculateMaterialBalance | analysis/analyzer.py:362-398 | the counts exclude kings, each value is material weighted 1/3/3/5/9, and advantage is white minus black |
| Analyzer.CountRowMaterial | analysis/analyzer.py:373-390 | one row of the counting loop gives the counts up to the end of the row |
| Analyzer.CountSquareMaterial | analysis/analyzer.py:381-386 | one square: a non-king piece adds one to its colour's count of its type, anything else changes nothing |
| Analyzer.PawnFiles | analysis/analyzer.py:497-506 | eight per-file pawn counts |
| Analyzer.DoubledIsSetSize | analysis/analyzer.py:506-511 | the doubled count is the number of files with more than one pawn |
| Analyzer.IsolatedIsSetSize | analysis/analyzer.py:517-538 | the isolated count is the number of files with pawns and no pawn on a neighbouring file |
| Analyzer.EvaluatePawnStructure | analysis/analyzer.py:486-545 | each colour's doubled and isolated counts are the sizes of those file sets |
| Analyzer.CountPawnFiles | analysis/analyzer.py:497-504 | the double loop fills the per-file counts |
| Analyzer.CountIsolated | analysis/analyzer.py:517-538 | the isolation loop over the eight files |
| Analyzer.EndgameSimplified | analysis/analyzer.py:626-636 | an endgame iff there is no queen, or neither side has two major pieces |
| Analyzer.QueenAndRookNotEndgame | analysis/analyzer.py:626-636 | with a white queen and a white rook, White has two majors and a queen is on the board, so it is not an endgame |
| Analyzer.IsEndgame | analysis/analyzer.py:586-636 | _is_endgame is the three conditions the source combines |
| Analyzer.AnyQueen | analysis/analyzer.py:596-624 | the scan finds a queen iff either side has one |
| Analyzer.CalculatePieceActivity | analysis/analyzer.py:400-431 | the mobilities are the full generator's counts for each side, and the board, its turn included, is restored |
| Analyzer.Filter | analysis/analyzer.py:238 | a comprehension keeps only elements of the list that pass, and keeps every element that passes |
| Analyzer.FilterMultiset | analysis/analyzer.py:238 | each passing element is kept as often as the list holds it, and no other element is kept |
| Analyzer.FilterAppend | analysis/analyzer.py:238 | the comprehension distributes over concatenation, so the kept elements stay in their order |
| Analyzer.FilterFilterCount | analysis/analyzer.py:252-262 | filtering the player's moves by a class keeps as many moves as are both the player's and in that class |
| Analyzer.InsertByLoss | analysis/analyzer.py:272 | insertion keeps the list sorted by loss and adds exactly the one element |
| Analyzer.SortByLoss | analysis/analyzer.py:272 | the sort is a permutation sorted by eval_loss, largest first |
| Analyzer.TopLosses | analysis/analyzer.py:271-273 | min(3, n) entries of the list, largest loss first, none repeated beyond its count in the list, and every entry left out loses no more than each one kept |
| Analyzer.LossPrefixIsTop | analysis/analyzer.py:272-273 | the `[:3]` cut of the sorted list keeps the largest losses |
| Analyzer.WithLossAppend | analysis/analyzer.py:272 | the entries of one loss distribute over concatenation |
| Analyzer.InsertByLossStable | analysis/analyzer.py:272 | an inserted entry goes after every entry of its own loss |
| Analyzer.SortByLossStable | analysis/analyzer.py:272 | the sort is stable, as `sorted` is: the entries of each loss keep their order, which decides which tied mistakes are shown |
| Analyzer.TopMistakes | analysis/analyzer.py:272-287 | min(3, n) entries, each the formatted dictionary of the TopLosses entry at the same place |
| Analyzer.PlayerStatsShape | analysis/analyzer.py:238-309 | the NoMoves record, whose blunders entry is an empty list, exactly when the player has no moves; otherwise the move count and the blunder, inaccuracy, best-move and missed-win counts are the numbers of the player's moves in each class |
| Analyzer.PlayerTopMistakes | analysis/analyzer.py:271-301 | exactly min(3, n) top mistakes for the player's n mistakes, blunders and inaccuracies, each a formatted erroneous move of the player |
| Analyzer.PlayerTopLosses | analysis/analyzer.py:271-287 | the player's top mistakes are the formatted TopLosses of `mistakes + blunders + inaccuracies` |
| Analyzer.StatsMistakes | analysis/analyzer.py:271-301 | a player with moves gets the top mistakes of the combined list |
| Analyzer.AllMistakesOfPlayer | analysis/analyzer.py:252-272 | mistakes + blunders + inaccuracies holds only the player's moves of those three types |
| Analyzer.TopMistakesFrom | analysis/analyzer.py:272-287 | the formatted top entries of such a list come from the player's erroneous moves |
| Analyzer.TopMistakesSorted | analysis/analyzer.py:272-273 | the top mistakes are sorted by loss, largest first, come from the list, and are its largest: an element not shown loses no more than any entry shown |
| Analyzer.MissedWinsCounted | analysis/analyzer.py:259-262 | a missed win has a best move above 300, a loss above 200, and another move played |
| Openings.TableShape | analysis/openings.py:23-71 | the table's move sequences are non-empty and no name is "Unknown Opening" |
| Openings.LongestMatch | analysis/openings.py:129-138 | the first of the longest table sequences that start the moves, or None |
| Openings.NextRecommendedMoves | analysis/openings.py:232-252 | the list for move number count // 2 + 1 and the colour to move, or [] |
| Openings.OnlyBlackIsRecommended | analysis/openings.py:73-96 | the repeated key 3 keeps only the black lists |
| Openings.UnknownExactlyWithoutMatch | analysis/openings.py:118-166 | the name is "Unknown Opening" exactly when no table sequence starts the moves |
| Openings.DeviationsLeaveTheory | analysis/openings.py:296-329 | every deviation had recommendations and played none of them |
| Openings.DeviationsStep | analysis/openings.py:296-329 | one more move adds it to the deviations exactly when it deviates |
| Openings.SuggestionsSnoc | analysis/openings.py:310-315 | each deviation adds its own suggestion |
| Openings.ClampPercent | analysis/openings.py:332 | the clamp into 0..100 |
| Openings.DeviationsAreBlack | analysis/openings.py:296-329 | with the real variations, every deviation is a Black move |
| Openings.NoRecommendationsNoDeviations | analysis/openings.py:296-329 | an opening without recommendations has no deviations |
| Openings.UnvariedOpeningPlay | analysis/openings.py:271-335 | play after an opening without recommendations scores 100 with every move in theory |
| Openings.ScanDeviations | analysis/openings.py:296-329 | the scan of analyze_opening_play costs 10 points per deviation and adds its suggestion |
| Openings.ScanMove | analysis/openings.py:296-329 | one pass of the scan |
| Openings.OpeningRecognizer.constructor | analysis/openings.py:12-116 | the opening, variation and evaluation tables |
| Openings.OpeningRecognizer.RecognizeOpening | analysis/openings.py:118-166 | the longest matching opening, its evaluation or 0, its next moves and its mainline flag; "Unknown Opening", 0, [] and False without a match; moves is the number of moves |
| Openings.OpeningRecognizer.AnalyzeOpeningPlay | analysis/openings.py:271-335 | accuracy is clamp(100 - 10 × deviations), theory moves plus deviations is the number of moves, one suggestion per deviation |
| IQModel.LevelsContiguous | iq/iq_model.py:36-44 | the levels cover 0..200 in order, without gaps or overlaps |
| IQModel.LevelFrom | iq/iq_model.py:145-150 | the scan finds the first level holding the score, else the first level |
| IQModel.GetKnowledgeLevel | iq/iq_model.py:135-150 | get_knowledge_level is a level of the table |
| IQModel.KnowledgeLevelUnique | iq/iq_model.py:145-147 | for a score in 0..200 the level found is the only level holding it |
| IQModel.KnowledgeLevelFallback | iq/iq_model.py:150 | a score outside 0..200 gets "Novice" |
| IQModel.EstimateElo | iq/iq_model.py:170-195 | 800 below 80, then linear segments of slope 20, 20, 15, 15, 10, 10 |
| IQModel.EloSteps | iq/iq_model.py:184-195 | each IQ point raises the estimate by its segment's slope |
| IQModel.EloBreakpoints | iq/iq_model.py:184-195 | 80→800, 100→1200, 120→1600, 140→1900, 160→2200, 180→2400 |
| IQModel.EloMonotone | iq/iq_model.py:182-195 | the estimate never decreases |
| IQModel.PatternScore | iq/iq_model.py:333-343 | min(15t, 60) + min(10p, 40), missing counts as 0, clamped to 0..100 |
| ProgressTracker.DefaultStats | iq/progress_tracker.py:35-58 | the defaults of a fresh record |
| ProgressTracker.RecordResult | iq/progress_tracker.py:103-110 | one more game, and one more win, loss or draw for those strings |
| ProgressTracker.OneOutcomePerGame | iq/progress_tracker.py:103-110 | exactly one outcome counter moves for a known result, none otherwise |
| ProgressTracker.WithGameResult | iq/progress_tracker.py:86-113 | update_game_result, a missing section starting from zero |
| ProgressTracker.WithIq | iq/progress_tracker.py:115-132 | the current IQ is set and one history entry appended |
| ProgressTracker.WithMistakes | iq/progress_tracker.py:158-175 | each count is added to its counter and nothing else changes |
| ProgressTracker.IndexOf | iq/progress_tracker.py:186-194 | the position of the opening with that name, if any |
| ProgressTracker.WithOpening | iq/progress_tracker.py:177-197 | a new opening is added with no games; then its played count goes up |
| ProgressTracker.OpeningPlayedOnce | iq/progress_tracker.py:177-197 | the played count goes up by one and every other opening is unchanged |
| ProgressTracker.IndexOfUnique | iq/progress_tracker.py:186-194 | with unique names the entry found is the only one |
| ProgressTracker.WithOpeningResult | iq/progress_tracker.py:199-220 | an unseen opening is played first; for an opening already listed its win, loss or draw count goes up by one for those results, its played count stays, and every other opening is unchanged |
| ProgressTracker.NewOpeningResult | iq/progress_tracker.py:199-220 | a result for a new opening leaves it with one game played |
| ProgressTracker.WithImprovementArea | iq/progress_tracker.py:222-234 | the area is appended only when not listed |
| ProgressTracker.ImprovementAreaIdempotent | iq/progress_tracker.py:230-231 | adding an area twice is adding it once |
| ProgressTracker.ClampIq | iq/progress_tracker.py:275-277 | the clamp into 70..150: 150 above, 70 below, the value itself in between |
| ProgressTracker.Filled | iq/progress_tracker.py:236-279 | each missing section gets its default (an IQ section starts at 110); present games, accuracy, mistakes and improvement-area sections are kept; the IQ history is kept and a present current IQ becomes its clamp into 70..150 |
| ProgressTracker.FilledIdempotent | iq/progress_tracker.py:236-279 | get_stats is idempotent |
| ProgressTracker.DefaultIqReadsAs150 | iq/progress_tracker.py:275-277 | the fresh record's IQ of 1000 reads as 150 |
| ProgressTracker.TrendIsSuffix | iq/progress_tracker.py:293-303 | a positive limit gives the last min(limit, n) entries in order, and 0 gives all of them |
| ProgressTracker.Rated | iq/progress_tracker.py:329-336 | rows only for openings with at least one game, at most one per opening |
| ProgressTracker.RatedMembers | iq/progress_tracker.py:329-336 | every played opening has its row with its win rate, and every row is that of a played opening |
| ProgressTracker.RatedAppend | iq/progress_tracker.py:329-336 | rating distributes over concatenation, so the rows keep the dictionary order |
| ProgressTracker.RatedStep | iq/progress_tracker.py:329-336 | one more opening adds its row exactly when it has been played |
| ProgressTracker.InsertByRate | iq/progress_tracker.py:338 | insertion keeps the list sorted by rate |
| ProgressTracker.SortByRate | iq/progress_tracker.py:338 | the sort is a permutation, highest rate first |
| ProgressTracker.BestOpenings | iq/progress_tracker.py:317-341 | at most limit played openings (exactly min(limit, n) for a non-negative limit), highest rate first; every played opening left out rates no higher than each one kept |
| ProgressTracker.PrefixIsTop | iq/progress_tracker.py:338-341 | the `[:limit]` cut of the sorted list keeps the top rates: an entry left out rates no higher than any entry kept |
| ProgressTracker.WithRateAppend | iq/progress_tracker.py:338 | the entries of one rate distribute over concatenation |
| ProgressTracker.InsertByRateStable | iq/progress_tracker.py:338 | an inserted entry goes after every entry of its own rate |
| ProgressTracker.SortByRateStable | iq/progress_tracker.py:338 | the sort is stable: the entries of each rate keep their order, which decides which tied openings survive the cut |
| ProgressTracker.PrefixFacts | iq/progress_tracker.py:338-341 | a prefix of the sorted list is sorted and holds only played openings |
| ProgressTracker.ImprovementSuggestions | iq/progress_tracker.py:343-381 | the tips of the rules that fire, in order, or the three default tips; never empty |
| ProgressTracker.FreshPlayerGetsDefaults | iq/progress_tracker.py:374-379 | no mistakes and fewer than three accuracy entries give the default tips |
| ProgressTracker.ProgressTracker.constructor | iq/progress_tracker.py:17-25 | a tracker without a file holds the defaults |
| ProgressTracker.ProgressTracker.Loaded | iq/progress_tracker.py:17-25 | a tracker holds the record read from its file, whose opening names are unique as dictionary keys are |
| ProgressTracker.ProgressTracker.UpdateGameResult | iq/progress_tracker.py:86-113 | the record becomes WithGameResult |
| ProgressTracker.ProgressTracker.UpdateIq | iq/progress_tracker.py:115-132 | the record becomes WithIq |
| ProgressTracker.ProgressTracker.UpdateMistakes | iq/progress_tracker.py:158-175 | the record becomes WithMistakes |
| ProgressTracker.ProgressTracker.UpdateOpening | iq/progress_tracker.py:177-197 | the record becomes WithOpening |
| ProgressTracker.ProgressTracker.UpdateOpeningResult | iq/progress_tracker.py:199-220 | the record becomes WithOpeningResult |
| ProgressTracker.ProgressTracker.AddImprovementArea | iq/progress_tracker.py:222-234 | the record becomes WithImprovementArea |
| ProgressTracker.ProgressTracker.GetStats | iq/progress_tracker.py:236-279 | the record is repaired in place and returned |
| ProgressTracker.ProgressTracker.GetIqTrend | iq/progress_tracker.py:293-303 | the slice of the IQ history |
| ProgressTracker.ProgressTracker.GetBestOpenings | iq/progress_tracker.py:317-341 | the loop, the sort and the cut give BestOpenings |
| ProgressTracker.ProgressTracker.GetImprovementSuggestions | iq/progress_tracker.py:343-381 | the suggestions, never empty |
| Config.MergeValue | utils/config.py:80-84 | an override replaces unless both sides are dictionaries, which merge key by key |
| Config.Merge | utils/config.py:72-84 | every key of either side; the base value where the override has none, the merged value otherwise |
| Config.OverrideWins | utils/config.py:80-84 | every override key is present, and a value that is not a dictionary on both sides replaces |
| Config.NestedBaseKept | utils/config.py:81-82 | nested keys only the base has survive a merge of two dictionaries |
| Config.MergeUnits | utils/config.py:72-84 | merging into or with an empty dictionary gives the other side |
| Config.MergeIdempotent | utils/config.py:72-84 | merging the same override twice is merging it once |
| Config.MergeSelf | utils/config.py:72-84 | a dictionary merged with itself is unchanged |
| Config.UpdateConfigRecursive | utils/config.py:72-84 | the loop over the override's items gives Config.Merge |
| Config.LoadConfig | utils/config.py:47-70 | the defaults without a file; otherwise every key of either, the defaults kept where the file has none |
| Config.LookupConcat | utils/config.py:119-125 | a path is followed one part after the other |
| Config.LookupStops | utils/config.py:119-125 | the lookup gives the default as soon as a key is missing or a value is not a dictionary |
| Config.GetConfigValue | utils/config.py:105-127 | the walk along the dotted path; a plain top-level key gives its value |
| Config.SetPath | utils/config.py:145-151 | after the navigation the path leads to the value, and other top-level keys are unchanged |
| Config.SetPathKeepsOthers | utils/config.py:145-151 | a setting whose path leaves the written path keeps its value |
| Config.UpdateConfigValue | utils/config.py:129-154 | the written path reads back the value, and other top-level keys are unchanged |
| BoardView.BoardPosition | ui/board_view.py:190-208 | a square exactly when square_size is not 0 |
| BoardView.View.constructor | ui/board_view.py:26-58 | the size and offsets given, square_size = board_size // 8, not flipped |
| BoardView.View.FlipBoard | ui/board_view.py:172-174 | flip_board toggles the orientation |
| BoardView.View.WithinBoardIsSquare | ui/board_view.py:186-208 | with board_size a positive multiple of 8, every pixel on the board falls in a square 0..7 × 0..7 |
| BoardView.ScreenBoardRoundTrip | ui/board_view.py:200-229 | a square's pixel converts back to the square, in both orientations |
| BoardView.FlippedMirrors | ui/board_view.py:204-224 | flipped, both conversions map (r, c) to (7 - r, 7 - c) |
| GameUi.NextDifficulty | ui/game_ui.py:309 | (d % 5) + 1 is in 1..5, and 5 goes to 1 |
| GameUi.CycleOfFive | ui/game_ui.py:309 | cycling five times returns to the same level |
| GameUi.ProvisionalIq | ui/game_ui.py:1177-1253 | the previous IQ plus twice the material edge plus the capture edge, clamped into 70..150 |
| GameUi.CapturesSwap | ui/game_ui.py:1228-1235 | from the other colour the two capture sums swap |
| GameUi.CapturesSplit | ui/game_ui.py:1225-1235 | the player's and the opponent's capture sums add up to all captured value |
| GameUi.CapturesByColour | ui/game_ui.py:1228-1235 | playing White, the player is credited with the captures at even indices and the opponent with those at odd indices; playing Black, the reverse |
| GameUi.CapturesSnoc | ui/game_ui.py:1228-1235 | a move at an even index is White's capture and one at an odd index Black's |
| GameUi.TallySkipsPlayerMoves | ui/game_ui.py:1100-1140 | the tally never looks at a move at the player's own parity |
| GameUi.RiskAdjustment | ui/game_ui.py:1143 | min(risks, 10) |
| GameUi.LengthAdjustment | ui/game_ui.py:1146-1152 | -5 below 10 moves, 0 below 20, then min((n - 20) // 10, 5) |
| GameUi.LengthAdjustmentMonotone | ui/game_ui.py:1146-1152 | a longer game never gets a smaller adjustment |
| GameUi.IqScore | ui/game_ui.py:1030-1176 | 70 for a loss; otherwise the sum of the adjustments clamped into 70..150 |
| GameUi.GameWindow.constructor | ui/game_ui.py:31-108 | the flags and difficulty the window starts with |
| GameUi.GameWindow.ToggleAi | ui/game_ui.py:297-305 | the AI flag flips and nothing else changes |
| GameUi.GameWindow.CycleAiDifficulty | ui/game_ui.py:307-313 | the next level, and a new AI at that level |
| GameUi.GameWindow.CountMaterial | ui/game_ui.py:1190-1215 | each side's material summed square by square |
| GameUi.GameWindow.CalculateProvisionalIq | ui/game_ui.py:1177-1253 | _calculate_provisional_iq is GameUi.ProvisionalIq |
| GameUi.GameWindow.CalculateIqScore | ui/game_ui.py:1030-1176 | _calculate_iq_score is GameUi.IqScore |
| GameUi.GameWindow.CountMoves | ui/game_ui.py:1100-1140 | the move loop's counters |
| PyText.Split | main.py:53 | str.split with one separator gives at least one part |
| PyText.SplitJoin | chess_engine/rules.py:338 | splitting a join gives the parts back when no part holds the separator |
| PyText.SplitPrefix | main.py:53-55 | splitting a + sep + b gives a, then the parts of b |
| PyText.WordsFrom | chess_engine/rules.py:333 | str.split() gives the maximal runs of non-space characters, in order |
| PyText.WordsUnwords | chess_engine/rules.py:333 | splitting a single-space join of words gives the words back |
| PyText.Strip | chess_engine/rules.py:333 | str.strip() has no space at either end |
| PyText.NatDigits | chess_engine/rules.py:308-311 | str(n) is the shortest decimal digits of n |
| PyText.IntToString | chess_engine/rules.py:308-311 | str(n) of an integer |
| PyText.Ungrouped | main.py:54-55 | int() accepts single underscores between digits |
| PyText.IntRoundTrip | chess_engine/rules.py:395-399 | int(str(n)) == n for every integer |
| PyText.FloorDiv | ui/board_view.py:200-202 | a // b rounds toward -∞, and is None where Python raises ZeroDivisionError |
| PyText.LastSlice | iq/progress_tracker.py:303 | s[-k:] holds the last min(k, len) elements, and all of them for k = 0 |
| PyText.FirstSlice | iq/progress_tracker.py:340 | s[:k] holds the first min(k, len) elements |
| TimeControl.SetupTimeControl | main.py:42-59 | (60·M, I) when `int` reads the first part as M and the second as I, (60·M, 0) without a second part, and the fallback (600, 0) when `int` refuses the first or the second part |
| TimeControl.MinutesPlusIncrement | main.py:53-56 | "M+I" whose parts `int` reads as M and I (spaces, sign, underscores allowed) gives (60·M, I) |
| TimeControl.CanonicalMinutesPlusIncrement | main.py:53-56 | "M+I" written with `str` gives (60·M, I) |
| TimeControl.RefusedIncrement | main.py:52-59 | a refused increment gives the fallback (600, 0) even when the minutes are read |
| TimeControl.NoIncrement | main.py:55 | a string without '+' gives increment 0 |
| TimeControl.ExtraPartsIgnored | main.py:53-55 | parts after the second '+' are ignored |

## Left out

- Drawing, sound, images, timers, event handling and the pygame window. Only the arithmetic of ui/board_view.py and ui/game_ui.py is modelled.
- Reading and writing files: `_load_stats`, `_save_stats`, `load_config`'s file read and `save_config`. The file's contents are a parameter, and absence means no file.
- Floating point: `calculate_iq`, `get_percentile`, the skill-area scores, `update_accuracy`, `get_win_rate`, `get_accuracy_trend` and the analyzer's float averages. The float `win_rate` of `get_best_openings` is held as an exact real in `OpeningRate.winRate`, so rounding that could reorder two close rates is not modelled.
- MistakeDetector.Lower: lower-cases ASCII letters only. Python's `str.lower()` also maps other Unicode capitals and can change the length (for example 'İ' becomes two characters). No non-ASCII capital lowers to 'm', 'a', 't' or 'e', so the answer of CheckForMissedMate is the same.
- MistakeDetector.CalculateAccuracy: the exponential `2 ** (-loss / 100)` is a parameter. Only the `loss <= 0` branch and the clamp are stated.
- `detect_mistake`, `_check_for_missed_tactic`, `analyze_move_sequence`, the analyzer's `analyze_game`, `analyze_position`, king safety and centre control, and both `_copy_board`. They drive an external engine or copy boards through a relative import.
- `get_pgn`: it calls `get_san`, which the move class does not define.
- Rules.GameState.MakeMove: `move.is_legal` is not defined on the move class. Its verdict is the `legal` parameter.
- The `print` of `GameState.make_move`, and the logging calls.
- En passant: `make_move` and `undo_move` never set the square. Only `from_fen` does, and Rules.GameState.FromFen returns that position as a fresh value. The generators model its branches, but the search requires it to be `None`.
- The castling IndexError for an unmoved king with a kingside right on file g or h is excluded by the board invariant. Every board this model builds keeps that invariant.
- Queenside castling for an unmoved king with a queenside right on file a or b is excluded by the same invariant. Python does not raise there: it reads `board[row][col-1]`, `[col-2]` and `[col-3]` with negative indices, which wrap, and it can list a castling move to a negative column. The `c - 2 >= 0` guard of Generators.QueensideCastle only cuts off positions the invariant rules out, so this wrapping read is not modelled.
- AI.ChessAI.Minimax: the board search is proved equal to Search.Minimax. Equality with unpruned minimax is proved only on GameTree, not on the board. Castling there depends on `has_moved` flags that earlier searched siblings set.
- Rules.GameState.FromFen: it returns the parsed position as a value. It does not write into a Board object, and an error does not leave a partly written board. A FEN position need not satisfy the board invariant.
- Fen.ParseRank: digits are the ASCII digits only. Python's `isdigit` also accepts other Unicode digits.
- PyText.Ungrouped: `int()` is modelled on ASCII digits with an optional sign and single underscores. Unicode digits and surrounding whitespace other than the strip are not modelled.
- GameUi.IqScore: whether each replayed move gave check and whether its end square was attacked are inputs. The replay through make_move and undo_move is not modelled. GameUi.GameWindow.CalculateIqScore therefore leaves the board untouched, whereas the source replays every past move on the final board: each make_move and undo_move pair rewrites the move's two cells to the logged pieces, moves the cached king square, sets `has_moved` and recomputes the check, checkmate and stalemate flags.
- ProgressTracker.ProgressTracker.Loaded: the record's openings are a plain sequence, so a loaded file without an "openings" section reads as one with no openings. Python raises KeyError there in `update_opening`, `update_opening_result` and `get_best_openings`, and `get_stats` does not repair that section; the model instead adds the first opening or returns no best openings.
- ProgressTracker.ProgressTracker.UpdateIq: it requires the IQ section, where Python raises KeyError. The same holds for UpdateMistakes, AddImprovementArea and the getters that index a section.
- The shallow copy of `DEFAULT_CONFIG`: the model works on values, so nested merges do not alias the defaults.
- The bare `Piece` base class, whose type is None, is never placed on a board and is not modelled.
- The pins and checks lists and the en-passant and castling-rights logs. The code never reads them back.
- The Board's `CastlingRights` is a value datatype. `make_move` and `undo_move` never change it. `from_fen` writes the four rights, and Rules.GameState.FromFen returns that position as a fresh value.
- The random choices of `get_best_move` are a `Draws` value. The random move of `process_ai_move` is not modelled.
- The tests under tests/ exercise a different interface and are not used.
