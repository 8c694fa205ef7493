/** The chess move engine: a game object whose `Move` validates one attempt and, when
    it is legal, changes the board in place and passes the turn. */
module ChessGame {
  import opened GameTypes
  import opened GameRules
  import ChessHelper

  /** The starting position: each entry of `new_setup` stands on the square its key
      names and records that square. */
  function StartBoard(): Board
  {
    var setup := ChessHelper.NewChessSetup();
    seq(8, x requires 0 <= x < 8 => seq(8, y requires 0 <= y < 8 =>
      var k := ChessHelper.Key(x, y);
      if k in setup then Some(setup[k].(coords := Some(Coords(x, y)))) else None))
  }

  /** The starting position, file by file: white back rank and pawns on ranks 0 and
      1, black pawns and back rank on ranks 6 and 7, ranks 2 to 5 empty. */
  lemma StartBoardLayout(x: Coord)
    ensures At(StartBoard(), Coords(x, 0)) == Some(Piece(ChessHelper.BackRank[x], White, Some(Coords(x, 0)), false))
    ensures At(StartBoard(), Coords(x, 1)) == Some(Piece(Pawn, White, Some(Coords(x, 1)), false))
    ensures At(StartBoard(), Coords(x, 6)) == Some(Piece(Pawn, Black, Some(Coords(x, 6)), false))
    ensures At(StartBoard(), Coords(x, 7)) == Some(Piece(ChessHelper.BackRank[x], Black, Some(Coords(x, 7)), false))
    ensures forall y: Coord :: 2 <= y <= 5 ==> At(StartBoard(), Coords(x, y)).None?
  {
    ChessHelper.NewChessSetupPieces(x);
    ChessHelper.NewChessSetupKeys();
    forall y: Coord | 2 <= y <= 5
      ensures At(StartBoard(), Coords(x, y)).None?
    {
      if ChessHelper.Key(x, y) in ChessHelper.NewChessSetup() {
        var x', y' :| ChessHelper.Key(x, y) == ChessHelper.Key(x', y') && y' in {0, 1, 6, 7};
        ChessHelper.KeysDiffer(x, y, x', y');
        assert false;
      }
    }
  }

  lemma StartBoardSynced()
    ensures Synced(StartBoard()) && Placed(StartBoard())
  {
  }

  /** Everything the game object holds. */
  class ChessGame {
    var board: Board
    var playingColor: Color
    var opponentColor: Color
    var winner: Option<Color>
    var fromCoords: Option<Coords>
    var toCoords: Option<Coords>
    var playingPiece: Option<Piece>

    function State(): GameState
      reads this
    {
      GameState(board, playingColor, opponentColor, winner, fromCoords, toCoords, playingPiece)
    }

    ghost predicate Valid()
      reads this
    {
      ValidState(State())
    }

    /** The attempt the per-move fields describe. */
    function Current(): Attempt
      reads this
      requires fromCoords.Some? && toCoords.Some? && playingPiece.Some?
    {
      Attempt(board, playingColor, opponentColor, fromCoords.value, toCoords.value, playingPiece.value)
    }

    /** A new game: the starting position, White to play against Black, no winner. */
    constructor ()
      ensures State() == GameState(StartBoard(), White, Black, None, None, None, None)
      ensures Valid()
    {
      board := StartBoard();
      playingColor := White;
      opponentColor := Black;
      winner := None;
      fromCoords, toCoords, playingPiece := None, None, None;
      StartBoardSynced();
    }

    /** `move`: one attempt by the side to play. */
    method Move(from: Coords, to: Coords) returns (outcome: Outcome)
      requires Valid()
      modifies this
      ensures outcome == Step(old(State()), from, to).0
      ensures outcome != Fault ==> State() == Step(old(State()), from, to).1 && Valid()
    {
      var resolved := SetMoveAttributes(from, to);
      if !resolved {
        return IllegalMove;
      }
      ghost var a := Current();
      ghost var w := winner;
      assert Step(old(State()), from, to) == Attempted(a, w);
      var kind := MoveType(Current());
      if !Legal(Current(), kind) {
        return IllegalMove;
      }
      var inCheck := OwnKingInCheck();
      if inCheck.None? {
        return Fault;
      }
      assert board == a.board;
      if inCheck.value {
        return IllegalMove;
      }
      var blocked := PieceBlocking(from, to);
      if blocked {
        return IllegalMove;
      }
      var made := MakeMove(kind);
      if !made {
        return Fault;
      }
      assert Current() == a.(board := Execute(a, kind).value, piece := MoverAfter(a, kind));
      assert Attempted(a, w) == Finished(Current(), w);
      var mate := CheckMate(Current());
      if mate.None? {
        return Fault;
      }
      if mate.value {
        winner := Some(playingColor);
      }
      SwitchPlayers();
      StepKeepsValid(old(State()), from, to);
      return Applied;
    }

    /** The per-move fields for `from` and `to`; refused when `from` holds no piece
        of the side to play. */
    method SetMoveAttributes(from: Coords, to: Coords) returns (resolved: bool)
      modifies this
      ensures resolved == Resolve(old(State()), from, to).Some?
      ensures resolved ==> fromCoords == Some(from) && toCoords == Some(to) && playingPiece.Some?
                           && Current() == Resolve(old(State()), from, to).value
      ensures !resolved ==> State() == old(State())
      ensures board == old(board) && playingColor == old(playingColor)
      ensures opponentColor == old(opponentColor) && winner == old(winner)
    {
      var cell := board[from.x][from.y];
      if cell.None? || cell.value.color != playingColor {
        return false;
      }
      fromCoords, toCoords, playingPiece := Some(from), Some(to), cell;
      return true;
    }

    /** `_switch_players`. */
    method SwitchPlayers()
      modifies this
      ensures playingColor == old(opponentColor) && opponentColor == old(playingColor)
      ensures board == old(board) && winner == old(winner)
      ensures fromCoords == old(fromCoords) && toCoords == old(toCoords) && playingPiece == old(playingPiece)
    {
      var playing := playingColor;
      playingColor := opponentColor;
      opponentColor := playing;
    }

    /** `_piece_blocking`: some square strictly between `from` and `to` on a line
        is occupied. */
    method PieceBlocking(from: Coords, to: Coords) returns (blocked: bool)
      ensures blocked == PathBlocked(board, from, to)
    {
      if MoveDirection(from, to) != NonLinear {
        var between := CoordsBetween(from, to);
        for i := 0 to |between|
          invariant forall j :: 0 <= j < i ==> At(board, between[j]).None?
        {
          var coords := between[i];
          if board[coords.x][coords.y].Some? {
            assert coords in between;
            return true;
          }
        }
        assert forall c :: c in between ==> At(board, c).None?;
      }
      return false;
    }

    /** `own_king_in_check`: try the move on the board, test the own king, and put
        the board back.  The board comes back exactly as it was whenever
        `playing_piece` stands on `from_coords`. */
    method OwnKingInCheck() returns (inCheck: Option<bool>)
      requires fromCoords.Some? && toCoords.Some? && playingPiece.Some?
      modifies this
      ensures fromCoords == old(fromCoords) && toCoords == old(toCoords) && playingPiece == old(playingPiece)
      ensures inCheck == OwnKingProbe(old(Current()))
      ensures inCheck.Some? ==>
                board == Put(Put(old(board), fromCoords.value, playingPiece), toCoords.value, old(At(board, toCoords.value)))
      ensures inCheck.Some? && old(At(board, fromCoords.value)) == playingPiece ==> board == old(board)
      ensures playingColor == old(playingColor) && opponentColor == old(opponentColor) && winner == old(winner)
    {
      var king := FindKing(board, playingColor);
      if king.None? {
        return None;
      }
      var from, to := fromCoords.value, toCoords.value;
      var originalKingCoords := king.value.coords;
      var originalPiece := board[to.x][to.y];

      board := Put(board, from, None);
      board := Put(board, to, playingPiece);
      var kingCoords := originalKingCoords;
      if playingPiece.value.kind == King && playingPiece.value.color == king.value.color {
        kingCoords := Some(to);
      }
      if kingCoords.None? {
        return None;
      }

      inCheck := Some(KingInCheckAt(board, king.value.color, kingCoords.value));

      board := Put(board, from, playingPiece);
      board := Put(board, to, originalPiece);
      BoardsEqual(board, Put(Put(old(board), from, playingPiece), to, originalPiece));
      if old(At(board, from)) == playingPiece {
        BoardsEqual(board, old(board));
      }
    }

    /** The `make_move` chosen by `_move_type`. */
    method MakeMove(kind: MoveKind) returns (made: bool)
      requires fromCoords.Some? && toCoords.Some? && playingPiece.Some?
      requires Resolved(Current()) && kind == MoveType(Current())
      modifies this
      ensures made == Execute(old(Current()), kind).Some?
      ensures made ==> board == Execute(old(Current()), kind).value
                       && playingPiece == Some(MoverAfter(old(Current()), kind))
      ensures playingColor == old(playingColor) && opponentColor == old(opponentColor) && winner == old(winner)
      ensures fromCoords == old(fromCoords) && toCoords == old(toCoords)
    {
      match kind
      case Castle =>
        made := CastleMoveType();
      case Promotion =>
        PromotePawn();
        made := true;
      case Capture =>
        made := Capture();
      case PlainMove =>
        DoMove();
        made := true;
    }

    /** `_move`: empty the origin, record `to` in the mover and put it there; a king
        or rook of the side to play is marked as moved. */
    method DoMove()
      requires fromCoords.Some? && toCoords.Some? && playingPiece.Some?
      modifies this
      ensures board == AfterMove(old(Current())) && playingPiece == Some(MovedPiece(old(Current())))
      ensures playingColor == old(playingColor) && opponentColor == old(opponentColor) && winner == old(winner)
      ensures fromCoords == old(fromCoords) && toCoords == old(toCoords)
    {
      var from, to := fromCoords.value, toCoords.value;
      board := Put(board, from, None);
      var piece := playingPiece.value.(coords := Some(to));
      playingPiece := Some(piece);
      board := Put(board, to, playingPiece);
      if (piece.kind == King || piece.kind == Rook) && piece.color == playingColor {
        piece := piece.(moved := true);
        playingPiece := Some(piece);
        board := Put(board, to, playingPiece);
      }
      BoardsEqual(board, AfterMove(old(Current())));
    }

    /** `_capture`: the captured piece forgets its square, then `_move`.  An empty
        destination (every en passant) is dereferenced: a fault. */
    method Capture() returns (made: bool)
      requires fromCoords.Some? && toCoords.Some? && playingPiece.Some?
      modifies this
      ensures fromCoords == old(fromCoords) && toCoords == old(toCoords)
      ensures made == At(old(board), toCoords.value).Some?
      ensures made ==> board == AfterMove(old(Current())) && playingPiece == Some(MovedPiece(old(Current())))
      ensures playingColor == old(playingColor) && opponentColor == old(opponentColor) && winner == old(winner)
    {
      var to := toCoords.value;
      var captured := board[to.x][to.y];
      if captured.None? {
        return false;
      }
      board := Put(board, to, Some(captured.value.(coords := None)));
      DoMove();
      BoardsEqual(board, AfterMove(old(Current())));
      return true;
    }

    /** `_promote_pawn`: empty the origin and put a new queen of the side to play,
        recording `to`, on the destination. */
    method PromotePawn()
      requires fromCoords.Some? && toCoords.Some? && playingPiece.Some?
      modifies this
      ensures board == AfterPromote(old(Current()))
      ensures playingColor == old(playingColor) && opponentColor == old(opponentColor) && winner == old(winner)
      ensures fromCoords == old(fromCoords) && toCoords == old(toCoords) && playingPiece == old(playingPiece)
    {
      var from, to := fromCoords.value, toCoords.value;
      board := Put(board, from, None);
      var promoted := Piece(Queen, playingColor, None, false);
      promoted := promoted.(coords := Some(to));
      board := Put(board, to, Some(promoted));
    }

    /** `_castle_move_type` followed by the executor it returns. */
    method CastleMoveType() returns (made: bool)
      requires fromCoords.Some? && toCoords.Some? && playingPiece.Some?
      requires Resolved(Current()) && MoveType(Current()) == Castle
      modifies this
      ensures fromCoords == old(fromCoords) && toCoords == old(toCoords)
      ensures made == CastleResult(old(board), toCoords.value.y, !QueenSide(old(Current()))).Some?
      ensures made ==> board == CastleResult(old(board), toCoords.value.y, !QueenSide(old(Current()))).value
                       && playingPiece == Some(old(playingPiece).value.(moved := true))
      ensures playingColor == old(playingColor) && opponentColor == old(opponentColor) && winner == old(winner)
    {
      var to := toCoords.value;
      made := CastleExecutor(to.y, to.x != 2);
    }

    /** The four castle executors (`_white_castle_king_side` and its siblings) for
        rank `rank`: king from e to g (king side) or c, rook from the corner to f or
        d, both marked as moved; neither learns its new square. */
    method CastleExecutor(rank: Coord, kingSide: bool) returns (made: bool)
      requires playingPiece == At(board, Coords(4, rank))
      modifies this
      ensures made == CastleResult(old(board), rank, kingSide).Some?
      ensures made ==> board == CastleResult(old(board), rank, kingSide).value
                       && playingPiece == Some(old(playingPiece).value.(moved := true))
      ensures playingColor == old(playingColor) && opponentColor == old(opponentColor) && winner == old(winner)
      ensures fromCoords == old(fromCoords) && toCoords == old(toCoords)
    {
      var kingHome, rookHome := Coords(4, rank), Coords(if kingSide then 7 else 0, rank);
      var kingDest, rookDest := Coords(if kingSide then 6 else 2, rank), Coords(if kingSide then 5 else 3, rank);
      var king, rook := At(board, kingHome), At(board, rookHome);
      board := Put(Put(board, kingHome, None), rookHome, None);
      board := Put(Put(board, kingDest, king), rookDest, rook);
      if king.None? {
        return false;
      }
      // the king object is the one `playing_piece` names
      board := Put(board, kingDest, Some(king.value.(moved := true)));
      playingPiece := Some(king.value.(moved := true));
      if rook.None? {
        return false;
      }
      board := Put(board, rookDest, Some(rook.value.(moved := true)));
      BoardsEqual(board, CastleResult(old(board), rank, kingSide).value);
      return true;
    }
  }
}
