# Chess rules engine — a verified Dafny model

This project models the rules core of the `gamesroom` chess game:

* `src/chess_game.py` — the `ChessGame` move engine. Its state is the 8×8 board, the
  side to play and its opponent, the winner, and the per-move fields
  `from_coords`, `to_coords` and `playing_piece`. `move` records the attempt and
  classifies it (castle, then promotion, then capture, then plain move). It then
  tests the geometry, probes the mover's own king by trying the move and putting
  the board back, and tests for blocking pieces. When all pass it changes the
  board in place, tests the opponent for checkmate and passes the turn. A refused
  attempt raises `IllegalMoveError`.
* `src/chess_helper.py` — board helpers: the starting layout, the squares between
  two squares, the blocking test, castle recognition and validation, the rook
  move of a castle, an own-king probe with a king-square cache, and a ray-scanning
  `king_in_check` with separate pawn, knight and sliding-piece tests.
* `src/game_pieces/bishop.py` — the bishop's geometry, which stands for the piece
  layer.

Layout:

| file | module | contents |
|---|---|---|
| `game_types.dfy` | `GameTypes` | colours, kinds, pieces, squares, the board, line geometry and the blocking predicate |
| `pieces.dfy` | `Bishop`, `Pieces` | bishop geometry; move and capture geometry of every kind |
| `chess_helper.dfy` | `ChessHelper` | every finished helper of `chess_helper.py`; the loops are methods proved against predicates |
| `game_rules.dfy` | `GameRules` | the read-only queries of `ChessGame`, the board each move kind produces, and `Step`, the specification of one `move` |
| `chess_game.dfy` | `ChessGame` | the `ChessGame` class, whose `Move` is proved to do what `Step` says |
| `game_properties.dfy` | `GameProperties` | properties of `Step`: refusals, turn passing, classification, castling, recorded squares |

Modelling choices:

* Pieces are values (`Piece(kind, color, coords, moved)`). The source changes
  `coords` and `moved` on shared objects. The model writes the changed value back
  into the board cell that holds the object, and into `playing_piece` when that
  field names it.
* The source compares pieces by kind and colour only. The model writes this as `Is(cell, kind, colour)`.
* The board is a field of type `seq<seq<Option<Piece>>>` that the methods reassign.
  `At(b, c)` reads `b[c.x][c.y]`.
* Where the source dereferences `None` (or looks up a missing dictionary key)
  and would raise, the model reports the failure instead of excluding the input:
  `move` gives the outcome `Fault`, `MoveRook` returns a fault flag with the
  squares it already cleared, and `OwnKingInCheck` and `KingCanMove` of the
  helpers return `None`. Two of these cases can be reached through `move`: every
  en passant capture, and a castle with no piece on the rook's corner.
  `move_rook` would fault if a caller followed the unchecked black king-side
  acceptance of `valid_castle` with an empty h8; no code in these files calls
  either helper.
* The model keeps the source's quirks as written and states each one in a lemma:
  - the black king-side pattern of `valid_castle` is guarded by e1, so a black
    king-side castle is accepted whenever the king is not in check, with no
    square tested (`ChessHelper.ValidCastle`);
  - queen-side castling never tests the b-file (`GameRules.CastleCoords`);
  - the castle executors do not update `coords` (`GameProperties.CastleLeavesStaleCoords`);
  - `_capture` dereferences the empty square of an en passant capture (`GameProperties.EnPassantNeverApplied`);
  - a pawn capturing onto the last rank is classified as a promotion and refused (`GameProperties.CapturePromotionRefused`);
  - a pawn moving straight onto an occupied last-rank square is classified as a
    promotion, whose test is the plain move geometry, and the queen overwrites the
    occupant: a capture by a straight pawn move (`GameProperties.StraightPromotionOverwrites`);
  - the escape test asks whether the checked side's own pieces reach the square (`GameRules.CheckMateOnBoard`);
  - checkmate looks only at the piece that just moved (`GameRules.CheckMateOnBoard`).
* Several collaborators are outside this model. They are given the behaviour
  their names and uses imply. `move_direction` becomes `MoveDirection`.
  `coords_between` becomes `CoordsBetween`: the squares strictly between two
  squares on a line, and none otherwise. `coords_on_board` becomes `OnBoard`.
  The base-class `legal_move` and `legal_capture` become `GameRules.LegalMove`
  and `GameRules.LegalCapture`: geometry taken from the square the piece records.
  The other five piece classes get standard chess geometry (`Pieces.ValidMove`,
  `Pieces.ValidCapture`). `set_move_attributes` refuses a `from` square that
  holds no piece of the side to play (`GameRules.Resolve`). The game constructor
  places each setup entry on the square its key names (`ChessGame.StartBoard`).

## Model

| member | source | states |
|---|---|---|
| GameTypes.CoordsBetween | src/chess_game.py:70-75 | for a line, the Distance−1 squares strictly between the ends, in order from `from`; for a non-linear pair, none; neither end is included |
| GameTypes.CoordsBetweenReversed | src/chess_game.py:68-75 | walking from `to` to `from` gives the same squares in reverse order |
| GameTypes.PathBlockedSymmetric | src/chess_helper.py:66-73 | the blocking test gives the same answer with the ends swapped |
| Bishop.ValidMove | src/game_pieces/bishop.py:13-20 | true exactly when the target is a different square on a diagonal through the bishop |
| Bishop.ValidCapture | src/game_pieces/bishop.py:16-20 | true exactly when the target is a different square on a diagonal through the bishop |
| Bishop.MoveAndCaptureAgree | src/game_pieces/bishop.py:13-17 | move and capture agree on every target square |
| ChessHelper.SetupEntry | src/chess_helper.py:42-63 | entry i of the white-then-black list has key x=i mod 8 on rank [0,1,7,6][i div 8] and the i-th of R N B Q K B N R and eight pawns, in the right colour |
| ChessHelper.SetupKeysDistinct | src/chess_helper.py:29-63 | the 32 generated keys are pairwise different |
| ChessHelper.SetupMap | src/chess_helper.py:29-39 | the dictionary has exactly 32 entries, its keys are the generated ones and each holds its generated piece |
| ChessHelper.NewChessSetupKeys | src/chess_helper.py:29-39 | 32 keys, exactly the squares of ranks 0, 1, 6 and 7 |
| ChessHelper.NewChessSetupPieces | src/chess_helper.py:29-63 | file x holds the back-rank piece on ranks 0 and 7 and a pawn on ranks 1 and 6, white on 0–1 and black on 6–7, none yet placed or moved |
| ChessHelper.BoardCoordsAreBetween | src/chess_helper.py:76-94 | on a line, `board_coords` yields exactly the squares strictly between the ends, in order from `from`; neither end appears, despite the docstring |
| ChessHelper.ChessPieceBlocking | src/chess_helper.py:66-73 | false for every non-linear move; otherwise true iff a square strictly between the ends is occupied |
| ChessHelper.BlockingAroundOnePiece | tests/test_chess_helper.py:56-105 | around a piece on (4,4), the tested diagonal, horizontal and vertical paths are blocked both ways and the non-linear move is not |
| ChessHelper.Castling | src/chess_helper.py:96-102 | true only for a king on (4,0) or (4,7) moving to file 2 or 6 of the same rank |
| ChessHelper.ValidCastle | src/chess_helper.py:105-130 | false when the king is in check; an unmatched pattern is accepted; a matched one is accepted iff a rook of either colour is on the corner, neither piece moved, and both king squares are empty and unattacked; a black king on e8 going to g8 is always accepted |
| ChessHelper.ValidCastleCore | src/chess_helper.py:133-148 | true iff the corner holds a Rook, king and rook have not moved, and both king squares are empty and not attacked |
| ChessHelper.MoveRook | src/chess_helper.py:151-172 | for g1/c1/g8/c8, the corner rook moves to f/d and records its new square, and the corner is emptied; with an empty corner both squares end up empty and the call faults; any other destination leaves the board unchanged without fault |
| ChessHelper.OwnKingInCheck | src/chess_helper.py:175-196 | fails, changing nothing, iff the colour has no cached king square or the piece records no square; otherwise reports whether the king is attacked after the trial move, testing the new square for a king and the cached square otherwise; the cache comes back exactly, and the board comes back exactly when the piece stood on its recorded square |
| ChessHelper.PawnCheck | src/chess_helper.py:210-227 | true iff an opponent pawn stands where the pawn capture geometry reaches the king (y−1 for White, y+1 for Black) |
| ChessHelper.KnightInPossiblePosition | src/chess_helper.py:237-253 | true iff a knight of the colour stands a knight's jump away |
| ChessHelper.ScanRay | src/chess_helper.py:258-277 | one ray is a threat iff its first piece is an opponent king on the adjacent square, or an opponent rook or queen on an orthogonal ray, or an opponent bishop or queen on a diagonal |
| ChessHelper.CheckByOtherPiece | src/chess_helper.py:256-278 | true iff one of the eight rays is a threat |
| ChessHelper.KingInCheck | src/chess_helper.py:199-207 | true iff the pawn, knight or ray test finds an attack |
| ChessHelper.KingCanMove | src/chess_helper.py:320-331 | fails iff the king records no square; otherwise true iff some square a king's step away is empty and not attacked |
| ChessHelper.PawnInPossiblePosition | src/chess_helper.py:334-355 | true iff a pawn of the colour could advance onto the square: one step, or two from its start rank over an empty square |
| GameRules.FindKing | src/chess_game.py:167-171 | None iff no king of the colour is on the board; otherwise a king of that colour standing on the board |
| GameRules.BoardPieces | src/chess_game.py:302-306 | a piece is listed iff it stands on the board in the colour, kings of that colour left out when not wanted |
| GameRules.KingInCheckAtOnBoard | src/chess_game.py:270-278 | the king is in check iff a piece of the other colour on the board could capture on its square with nothing in between |
| GameRules.AdjacentEmptySquares | src/chess_game.py:308-323 | a square is listed iff it is a king's step away and empty |
| GameRules.MoveType | src/chess_game.py:54-61 | castle iff a king from file 4 of its home rank to file 2 or 6; else promotion iff a pawn reaching the far rank; else capture iff the destination is occupied or en passant; else plain move |
| GameRules.CastleCoords | src/chess_game.py:154-165 | the square the king passes and its destination; never the b-file square |
| GameRules.CastleFindsKing | src/chess_game.py:173-175 | a castle by the side to play always finds its king |
| GameRules.EscapeOnBoard | src/chess_game.py:280-284 | an escape exists iff an empty neighbour square is not attacked by the checked side's own pieces |
| GameRules.CanAttackOnBoard | src/chess_game.py:286-291 | true iff a piece of the checked side could capture on `to` |
| GameRules.CanBlockOnBoard | src/chess_game.py:293-300 | true iff a non-king piece of the checked side could move onto a square between `to` and the king |
| GameRules.CheckMateOnBoard | src/chess_game.py:257-268 | mate is reported iff the king is attacked, every empty neighbour is covered, the moved piece cannot be taken and no piece can interpose |
| GameRules.AfterMove | src/chess_game.py:85-90 | origin emptied, the mover on `to` recording `to`, every other square unchanged |
| GameRules.AfterPromote | src/chess_game.py:77-83 | origin emptied, a new unmoved queen of the side to play on `to` recording `to`, every other square unchanged |
| GameRules.CastleResult | src/chess_game.py:196-218 | fails iff the king's or the rook's home square is empty; otherwise the king, marked moved, is on g or c, the rook, marked moved, on f or d, both home squares are empty, and every other square is unchanged |
| GameRules.Resolve | src/chess_game.py:40-41 | an attempt is recorded iff `from` holds a piece of the side to play, and its mover is that piece; an empty or enemy-held `from` is refused |
| GameRules.ExecuteKeepsPlaced | src/chess_game.py:77-95 | every move kind keeps each piece on the board recording some square |
| GameRules.StepKeepsValid | src/chess_game.py:38-52 | a move that does not fault keeps the invariant: pieces record squares and the two colours differ |
| ChessGame.StartBoardLayout | src/chess_game.py:25-36 | the start position: back ranks and pawns of both colours, each piece recording its square, ranks 2–5 empty |
| ChessGame.StartBoardSynced | src/chess_game.py:25-36 | in the start position every piece records the square it stands on |
| ChessGame.ChessGame.constructor | src/chess_game.py:15-23 | a new game: start position, White to play, Black opponent, no winner |
| ChessGame.ChessGame.Move | src/chess_game.py:38-52 | outcome and new state are those of `Step`; the invariant is kept |
| ChessGame.ChessGame.SetMoveAttributes | src/chess_game.py:41 | records `from`, `to` and the piece on `from` when it belongs to the side to play; otherwise changes nothing |
| ChessGame.ChessGame.SwitchPlayers | src/chess_game.py:63-66 | the two colours swap; nothing else changes |
| ChessGame.ChessGame.PieceBlocking | src/chess_game.py:68-75 | true iff the move is linear and a square strictly between the ends is occupied |
| ChessGame.ChessGame.OwnKingInCheck | src/chess_game.py:234-255 | answers the probe of `OwnKingProbe`; the board comes back exactly when `playing_piece` stands on `from_coords` |
| ChessGame.ChessGame.MakeMove | src/chess_game.py:42-46 | performs the executor of the classified kind, faulting exactly where `Execute` does |
| ChessGame.ChessGame.DoMove | src/chess_game.py:85-90 | the board becomes `AfterMove`; the mover records `to` and is marked moved only if a king or rook of the side to play |
| ChessGame.ChessGame.Capture | src/chess_game.py:92-95 | faults iff the destination is empty; otherwise the board becomes `AfterMove` |
| ChessGame.ChessGame.PromotePawn | src/chess_game.py:77-83 | the board becomes `AfterPromote`; `playing_piece` is untouched |
| ChessGame.ChessGame.CastleMoveType | src/chess_game.py:108-134 | runs the executor for the rank of `to`, queen side iff `to` is on file 2 |
| ChessGame.ChessGame.CastleExecutor | src/chess_game.py:196-218 | king from e to g or c and rook from the corner to f or d, both marked moved, squares vacated, `coords` untouched; faults iff the king or rook square is empty |
| GameProperties.IllegalKeepsGame | src/chess_game.py:44-52 | a refused attempt leaves board, turn and winner unchanged |
| GameProperties.IllegalReasons | src/chess_game.py:38-52 | refused iff no own piece on `from`, the geometry of the kind fails, the probe finds the own king attacked, or the path is blocked |
| GameProperties.AppliedPassesTurn | src/chess_game.py:44-50 | an applied move passed every test, makes the move, records a winner only on mate and swaps the colours |
| GameProperties.TurnsAlternate | src/chess_game.py:63-66 | after two applied moves the first player is to play again |
| GameProperties.CapturePromotionRefused | src/chess_game.py:54-61 | a pawn capturing diagonally onto the last rank is refused |
| GameProperties.StraightPromotionOverwrites | src/chess_game.py:54-83 | a pawn moving straight onto an occupied last-rank square is classified as a promotion, and when applied the new queen replaces the occupant |
| GameProperties.EnPassantNeverApplied | src/chess_game.py:92-95 | an en passant capture never completes |
| GameProperties.CastleWithoutRookNeverApplied | src/chess_game.py:177-190 | an empty corner is not a moved rook, yet such a castle never completes |
| GameProperties.LegalCastleOnBoard | src/chess_game.py:140-152 | castling is legal iff the king has not moved, the corner does not hold a moved own rook, the king's square is not attacked, and the passed and landing squares are empty and not attacked |
| GameProperties.CastleMoveIsCastling | src/chess_game.py:97-106 | the engine's castle test agrees with the helper's `castling` whenever the king records its square and its colour matches the rank |
| GameProperties.AfterMoveKeepsSynced | src/chess_game.py:85-90 | a plain move keeps every piece recording its own square |
| GameProperties.AfterPromoteKeepsSynced | src/chess_game.py:77-83 | a promotion keeps every piece recording its own square |
| GameProperties.CastleLeavesStaleCoords | src/chess_game.py:196-218 | after a castle, king and rook still record their old squares |

## Left out

- `play_tkinter_chess.py`, the window, buttons and text entry: no rules logic.
- `check_mate` and `_own_piece_can_block_check` in `src/chess_helper.py` (lines 281-318) are unfinished. `check_mate` never returns a truthy value, and nothing calls it.
- `_legal_en_passant` is an empty stub.
- `src/game.py`, `src/game_helper.py`, `src/game_enums.py`, `GamePiece` and the King, Knight, Pawn, Queen and Rook classes are not part of this model. Their behaviour is assumed as stated above.
- Coordinate text parsing (`process_coords`), `restore_positions` and `validate_coords` are left out. The `Coord` type (0..7) stands for validated coordinates.
- The duplicate setup helper `chess_pieces` (src/chess_game.py:326-347) is the same function as `_new_chess_pieces` and is modelled once.
- Object identity is not modelled. If a board held two kings of one colour, the source would change whichever king object `_king` found; the model keeps the king square in a local variable instead.
- `king.in_check`, an attribute set outside these files, is a parameter of `ChessHelper.ValidCastle`.
- GameRules.LegalCapture: the source's capture test never asks whether the destination holds an own piece, so the model accepts such captures as written.
- ChessGame.ChessGame.Move: after a `Fault` (a crash in the source) the contract does not describe the partly changed state.
- GameRules.FindKing: the contract does not say the king returned is the first one in scan order.
- ChessHelper.OwnKingInCheck: restores the board exactly only when the piece stands on its recorded square; otherwise the contract gives the exact board left behind.
- GameRules.OwnKingProbe and GameRules.CheckMate: a king that records no square counts as a fault. The game invariant rules this out.
