/** The read-only queries of the chess move engine over a snapshot of the game, the
    board each move kind produces, and the specification of one move attempt. */
module GameRules {
  import opened GameTypes
  import Pieces
  import ChessHelper

  /** A move attempt in progress: the board, whose turn it is, and the per-move
      fields `from_coords`, `to_coords` and `playing_piece`. */
  datatype Attempt = Attempt(board: Board, playing: Color, opponent: Color,
                             from: Coords, to: Coords, piece: Piece)

  /** The mover stands on `from` and belongs to the side to play. */
  predicate Resolved(a: Attempt)
  {
    At(a.board, a.from) == Some(a.piece) && a.piece.color == a.playing
  }

  /** `legal_move` of the piece base class: move geometry from the square the piece
      records; a piece that records no square moves nowhere. */
  predicate LegalMove(p: Piece, to: Coords)
  {
    p.coords.Some? && Pieces.ValidMove(p, to)
  }

  /** `legal_capture` of the piece base class. */
  predicate LegalCapture(p: Piece, to: Coords)
  {
    p.coords.Some? && Pieces.ValidCapture(p, to)
  }

  /** `p` could capture on `target`: capture geometry from its recorded square and
      nothing standing in between. */
  predicate Threatens(b: Board, p: Piece, target: Coords)
  {
    LegalCapture(p, target) && !PathBlocked(b, p.coords.value, target)
  }

  // ------------------------------------------------------------ board scans

  /** Board scans run over `for row in board: for piece in row`, i.e. x-major. */
  function ScanIndex(c: Coords): nat
  {
    8 * c.x + c.y
  }

  function Square(i: nat): Coords
    requires i < 64
  {
    Coords(i / 8, i % 8)
  }

  lemma SquareOfScanIndex(c: Coords)
    ensures ScanIndex(c) < 64 && Square(ScanIndex(c)) == c
  {
  }

  /** The king of `color` met first from scan position `i` on. */
  function KingFrom(b: Board, color: Color, i: nat): (r: Option<Piece>)
    requires i <= 64
    ensures r.Some? ==> Is(r, King, color) && exists j :: i <= j < 64 && At(b, Square(j)) == r
    ensures r.None? ==> forall j :: i <= j < 64 ==> !Is(At(b, Square(j)), King, color)
    decreases 64 - i
  {
    if i == 64 then None
    else if Is(At(b, Square(i)), King, color) then At(b, Square(i))
    else KingFrom(b, color, i + 1)
  }

  /** `_king`: the first king of `color` in scan order, None when there is none. */
  function FindKing(b: Board, color: Color): (r: Option<Piece>)
    ensures r.None? <==> forall c :: !Is(At(b, c), King, color)
    ensures r.Some? ==> Is(r, King, color) && exists c :: At(b, c) == r
  {
    KingScanOnBoard(b, color);
    KingFrom(b, color, 0)
  }

  lemma KingScanOnBoard(b: Board, color: Color)
    ensures var r := KingFrom(b, color, 0);
            && (r.None? <==> forall c :: !Is(At(b, c), King, color))
            && (r.Some? ==> exists c :: At(b, c) == r)
  {
    var r := KingFrom(b, color, 0);
    if r.None? {
      forall c ensures !Is(At(b, c), King, color) {
        SquareOfScanIndex(c);
      }
    } else {
      var j :| 0 <= j < 64 && At(b, Square(j)) == r;
      assert At(b, Square(j)) == r;
    }
  }

  /** `_board_pieces` from scan position `i` on. */
  function PiecesFrom(b: Board, color: Color, kingWanted: bool, i: nat): (r: seq<Piece>)
    requires i <= 64
    ensures forall p :: p in r <==> exists c :: i <= ScanIndex(c) && At(b, c) == Some(p)
                                               && p.color == color && (kingWanted || p.kind != King)
    decreases 64 - i
  {
    if i == 64 then []
    else
      var cell := At(b, Square(i));
      var here := if cell.Some? && cell.value.color == color && (kingWanted || cell.value.kind != King)
                  then [cell.value] else [];
      here + PiecesFrom(b, color, kingWanted, i + 1)
  }

  /** `_board_pieces`: the pieces of `color` on the board, kings of that colour
      left out unless `kingWanted`. */
  function BoardPieces(b: Board, color: Color, kingWanted: bool): (r: seq<Piece>)
    ensures forall p :: p in r <==> exists c :: At(b, c) == Some(p) && p.color == color
                                               && (kingWanted || p.kind != King)
  {
    PiecesFrom(b, color, kingWanted, 0)
  }

  /** `_king_in_check`: some piece of the other colour could capture on `kc`. */
  predicate KingInCheckAt(b: Board, kingColor: Color, kc: Coords)
  {
    exists p :: p in BoardPieces(b, Opponent(kingColor), true) && Threatens(b, p, kc)
  }

  /** The same test read off the board squares directly. */
  lemma KingInCheckAtOnBoard(b: Board, kingColor: Color, kc: Coords)
    ensures KingInCheckAt(b, kingColor, kc) <==>
              exists c :: At(b, c).Some? && At(b, c).value.color == Opponent(kingColor)
                          && Threatens(b, At(b, c).value, kc)
  {
    if exists c :: At(b, c).Some? && At(b, c).value.color == Opponent(kingColor) && Threatens(b, At(b, c).value, kc) {
      var c :| At(b, c).Some? && At(b, c).value.color == Opponent(kingColor) && Threatens(b, At(b, c).value, kc);
      assert At(b, c).value in BoardPieces(b, Opponent(kingColor), true);
    }
  }

  /** `_adjacent_empty_square_coords` from direction `i` on. */
  function AdjacentFrom(b: Board, kc: Coords, i: nat): (r: seq<Coords>)
    requires i <= 8
    ensures forall c :: c in r <==> exists j :: i <= j < 8 && ChessHelper.Neighbour(kc, ChessHelper.Directions[j]) == Some(c)
                                                && At(b, c).None?
    decreases 8 - i
  {
    if i == 8 then []
    else
      var next := ChessHelper.Neighbour(kc, ChessHelper.Directions[i]);
      (if next.Some? && At(b, next.value).None? then [next.value] else []) + AdjacentFrom(b, kc, i + 1)
  }

  /** Each of the eight directions leads to a neighbour square. */
  lemma StepIsNeighbour(kc: Coords, j: nat)
    requires j < 8
    ensures ChessHelper.Neighbour(kc, ChessHelper.Directions[j]).Some? ==>
              Distance(kc, ChessHelper.Neighbour(kc, ChessHelper.Directions[j]).value) == 1
  {
  }

  /** `_adjacent_empty_square_coords`: the empty squares a king's step from `kc`. */
  function AdjacentEmptySquares(b: Board, kc: Coords): (r: seq<Coords>)
    ensures forall c :: c in r <==> Distance(kc, c) == 1 && At(b, c).None?
  {
    var r := AdjacentFrom(b, kc, 0);
    assert forall c :: c in r ==> Distance(kc, c) == 1 by {
      forall c | c in r ensures Distance(kc, c) == 1 {
        var j :| 0 <= j < 8 && ChessHelper.Neighbour(kc, ChessHelper.Directions[j]) == Some(c);
        StepIsNeighbour(kc, j);
      }
    }
    assert forall c :: Distance(kc, c) == 1 && At(b, c).None? ==> c in r by {
      forall c | Distance(kc, c) == 1 && At(b, c).None? ensures c in r {
        ChessHelper.NeighbourDirection(kc, c);
      }
    }
    r
  }

  // -------------------------------------------------------- classification

  /** `_castle_move`: a white king from e1 to c1/g1 or a black king from e8 to c8/g8. */
  predicate CastleMove(a: Attempt)
  {
    || (Is(Some(a.piece), King, White) && a.from == Coords(4, 0) && (a.to == Coords(2, 0) || a.to == Coords(6, 0)))
    || (Is(Some(a.piece), King, Black) && a.from == Coords(4, 7) && (a.to == Coords(2, 7) || a.to == Coords(6, 7)))
  }

  predicate WhiteKingRow(a: Attempt) { a.to.y == 0 }
  predicate BlackKingRow(a: Attempt) { a.to.y == 7 }
  predicate KingSide(a: Attempt) { a.to.x == 6 }
  predicate QueenSide(a: Attempt) { a.to.x == 2 }

  /** `_prawn_promotion`: a pawn reaching the far rank. */
  predicate PawnPromotion(a: Attempt)
  {
    (Is(Some(a.piece), Pawn, White) && a.to.y == 7) || (Is(Some(a.piece), Pawn, Black) && a.to.y == 0)
  }

  /** `_en_passant`: an own pawn makes a capture step onto an empty square on the
      sixth (White) or third (Black) rank, behind an enemy pawn. */
  predicate EnPassant(a: Attempt)
  {
    && a.piece.kind == Pawn && a.piece.color == a.playing
    && LegalCapture(a.piece, a.to) && At(a.board, a.to).None?
    && (|| (a.piece.color == White && a.to.y == 5 && Is(a.board[a.to.x][4], Pawn, Black))
        || (a.piece.color == Black && a.to.y == 2 && Is(a.board[a.to.x][3], Pawn, White)))
  }

  /** `_capture_move`: the destination is occupied (by either colour), or en passant. */
  predicate CaptureMove(a: Attempt)
  {
    At(a.board, a.to).Some? || EnPassant(a)
  }

  datatype MoveKind = Castle | Promotion | Capture | PlainMove

  /** `_move_type`: castle, then promotion, then capture, then plain move. */
  function MoveType(a: Attempt): (k: MoveKind)
    ensures k == Castle <==> a.piece.kind == King && a.from.x == 4 && a.to.y == a.from.y
                             && (a.to.x == 2 || a.to.x == 6)
                             && (a.piece.color == White ==> a.from.y == 0)
                             && (a.piece.color == Black ==> a.from.y == 7)
    ensures k == Promotion <==> k != Castle && a.piece.kind == Pawn
                                && a.to.y == (if a.piece.color == White then 7 else 0)
    ensures k == Capture <==> k != Castle && k != Promotion && (At(a.board, a.to).Some? || EnPassant(a))
    ensures k == PlainMove <==> k != Castle && k != Promotion && At(a.board, a.to).None? && !EnPassant(a)
  {
    if CastleMove(a) then Castle
    else if PawnPromotion(a) then Promotion
    else if CaptureMove(a) then Capture
    else PlainMove
  }

  // ------------------------------------------------------------ castling

  /** `_castle_coords`: the squares the king passes and lands on.  On the queen
      side this is d and c only; the b-file square the rook crosses is not among them. */
  function CastleCoords(a: Attempt): (r: seq<Coords>)
    requires (a.to.y == 0 || a.to.y == 7) && (a.to.x == 2 || a.to.x == 6)
    ensures r == CoordsBetween(Coords(4, a.to.y), a.to) + [a.to]
    ensures Coords(1, a.to.y) !in r
  {
    var between := Coords(if KingSide(a) then 5 else 3, a.to.y);
    assert CoordsBetween(Coords(4, a.to.y), a.to) == [between];
    [between, a.to]
  }

  /** `_king_moved`: the first king of the side to play has moved. */
  predicate KingMoved(a: Attempt)
    requires FindKing(a.board, a.playing).Some?
  {
    FindKing(a.board, a.playing).value.moved
  }

  /** The corner `_rook_moved` looks at: the rank is chosen by colour, the file by side. */
  function RookCorner(a: Attempt): Coords
  {
    Coords(if KingSide(a) then 7 else 0, if a.playing == White then 0 else 7)
  }

  /** `_rook_moved`: the corner holds a rook of the side to play that has moved;
      an empty corner or a foreign piece there does not count as moved. */
  predicate RookMoved(a: Attempt)
  {
    Is(At(a.board, RookCorner(a)), Rook, a.playing) && At(a.board, RookCorner(a)).value.moved
  }

  /** `_legal_castle`. */
  predicate LegalCastle(a: Attempt)
    requires (a.to.y == 0 || a.to.y == 7) && (a.to.x == 2 || a.to.x == 6)
    requires FindKing(a.board, a.playing).Some?
  {
    && !KingMoved(a) && !RookMoved(a) && !KingInCheckAt(a.board, a.playing, a.from)
    && forall c :: c in CastleCoords(a) ==> At(a.board, c).None? && !KingInCheckAt(a.board, a.playing, c)
  }

  /** A castle attempt by the side to play finds its king. */
  lemma CastleFindsKing(a: Attempt)
    requires Resolved(a) && MoveType(a) == Castle
    ensures FindKing(a.board, a.playing).Some?
    ensures (a.to.y == 0 || a.to.y == 7) && (a.to.x == 2 || a.to.x == 6)
  {
    assert Is(At(a.board, a.from), King, a.playing);
  }

  /** What `legal_move(to_coords)` decides for the chosen move kind. */
  predicate Legal(a: Attempt, kind: MoveKind)
    requires Resolved(a) && kind == MoveType(a)
  {
    match kind
    case Castle => CastleFindsKing(a); LegalCastle(a)
    case Capture => LegalCapture(a.piece, a.to)
    case _ => LegalMove(a.piece, a.to)
  }

  // ------------------------------------------------------------ check mate

  /** `_king_can_move_out_of_attack`, as written: an adjacent empty square is
      tested with the colour of the side that just moved, so it asks whether the
      checked side's own pieces reach it. */
  predicate KingCanMoveOutOfAttack(a: Attempt, kc: Coords)
  {
    exists c :: c in AdjacentEmptySquares(a.board, kc) && !KingInCheckAt(a.board, a.playing, c)
  }

  /** `_can_attack_attacking_piece`: a piece of the checked side could capture the
      piece that just moved. */
  predicate CanAttackAttackingPiece(a: Attempt)
  {
    exists p :: p in BoardPieces(a.board, a.opponent, true) && Threatens(a.board, p, a.to)
  }

  /** `_piece_can_block_attack`: a non-king piece of the checked side could move
      onto a square between the piece that just moved and the king. */
  predicate PieceCanBlockAttack(a: Attempt, kc: Coords)
  {
    exists c, p :: c in CoordsBetween(a.to, kc) && p in BoardPieces(a.board, a.opponent, false)
                   && LegalMove(p, c) && !PathBlocked(a.board, p.coords.value, c)
  }

  /** `_check_mate`, evaluated on the board after the move; None where the source
      dereferences a missing king (or a king that records no square). */
  function CheckMate(a: Attempt): Option<bool>
  {
    var king := FindKing(a.board, a.opponent);
    if king.None? || king.value.coords.None? then None
    else
      var kc := king.value.coords.value;
      Some(&& KingInCheckAt(a.board, king.value.color, kc)
           && !KingCanMoveOutOfAttack(a, kc)
           && !CanAttackAttackingPiece(a)
           && !PieceCanBlockAttack(a, kc))
  }

  /** Some piece of `color` on the board could capture on `target`. */
  ghost predicate AttackedBy(b: Board, color: Color, target: Coords)
  {
    exists c :: At(b, c).Some? && At(b, c).value.color == color && Threatens(b, At(b, c).value, target)
  }

  /** Some non-king piece of `color` on the board could move onto `target`. */
  ghost predicate ReachableBy(b: Board, color: Color, target: Coords)
  {
    exists c :: && At(b, c).Some? && At(b, c).value.color == color && At(b, c).value.kind != King
                && LegalMove(At(b, c).value, target) && !PathBlocked(b, At(b, c).value.coords.value, target)
  }

  /** Every empty square next to `kc` is attacked by a piece of `color`. */
  ghost predicate NoEscape(b: Board, color: Color, kc: Coords)
  {
    forall e :: Distance(kc, e) == 1 && At(b, e).None? ==> AttackedBy(b, color, e)
  }

  /** No non-king piece of `color` could move onto a square between `to` and `kc`. */
  ghost predicate NoBlock(b: Board, color: Color, to: Coords, kc: Coords)
  {
    forall e :: e in CoordsBetween(to, kc) ==> !ReachableBy(b, color, e)
  }

  /** The mate test read off the board: the checked king stands attacked by the
      mover's side; every empty neighbour square is attacked by the checked side's
      own pieces; no piece of the checked side could capture on `to`; and no
      non-king piece of the checked side could step between `to` and the king. */
  ghost predicate MateOnBoard(b: Board, playing: Color, opponent: Color, to: Coords, kc: Coords)
  {
    && AttackedBy(b, playing, kc)
    && NoEscape(b, opponent, kc)
    && !AttackedBy(b, opponent, to)
    && NoBlock(b, opponent, to, kc)
  }

  lemma CanAttackOnBoard(a: Attempt)
    ensures CanAttackAttackingPiece(a) <==> AttackedBy(a.board, a.opponent, a.to)
  {
    var b := a.board;
    if CanAttackAttackingPiece(a) {
      var p :| p in BoardPieces(b, a.opponent, true) && Threatens(b, p, a.to);
      var c :| At(b, c) == Some(p);
    }
    if AttackedBy(b, a.opponent, a.to) {
      var c :| At(b, c).Some? && At(b, c).value.color == a.opponent && Threatens(b, At(b, c).value, a.to);
      assert At(b, c).value in BoardPieces(b, a.opponent, true);
    }
  }

  lemma CanBlockOnBoard(a: Attempt, kc: Coords)
    ensures PieceCanBlockAttack(a, kc) <==> !NoBlock(a.board, a.opponent, a.to, kc)
  {
    var b := a.board;
    if PieceCanBlockAttack(a, kc) {
      var e, p :| e in CoordsBetween(a.to, kc) && p in BoardPieces(b, a.opponent, false)
                  && LegalMove(p, e) && !PathBlocked(b, p.coords.value, e);
      var c :| At(b, c) == Some(p);
      assert ReachableBy(b, a.opponent, e);
    }
    if exists e :: e in CoordsBetween(a.to, kc) && ReachableBy(b, a.opponent, e) {
      var e :| e in CoordsBetween(a.to, kc) && ReachableBy(b, a.opponent, e);
      var c :| && At(b, c).Some? && At(b, c).value.color == a.opponent && At(b, c).value.kind != King
               && LegalMove(At(b, c).value, e) && !PathBlocked(b, At(b, c).value.coords.value, e);
      assert At(b, c).value in BoardPieces(b, a.opponent, false);
    }
  }

  lemma EscapeOnBoard(a: Attempt, kc: Coords)
    requires a.opponent == Opponent(a.playing)
    ensures KingCanMoveOutOfAttack(a, kc) <==> !NoEscape(a.board, a.opponent, kc)
  {
    var b := a.board;
    assert Opponent(a.playing) == a.opponent;
    if KingCanMoveOutOfAttack(a, kc) {
      var e :| e in AdjacentEmptySquares(b, kc) && !KingInCheckAt(b, a.playing, e);
      KingInCheckAtOnBoard(b, a.playing, e);
    }
    if exists e :: Distance(kc, e) == 1 && At(b, e).None? && !AttackedBy(b, a.opponent, e) {
      var e :| Distance(kc, e) == 1 && At(b, e).None? && !AttackedBy(b, a.opponent, e);
      KingInCheckAtOnBoard(b, a.playing, e);
      assert e in AdjacentEmptySquares(b, kc);
    }
  }

  /** `_check_mate` reports mate exactly when the board shows `MateOnBoard` around
      the checked side's first king. */
  lemma CheckMateOnBoard(a: Attempt)
    requires a.opponent == Opponent(a.playing)
    requires CheckMate(a).Some?
    ensures CheckMate(a).value <==>
              MateOnBoard(a.board, a.playing, a.opponent, a.to, FindKing(a.board, a.opponent).value.coords.value)
  {
    var b := a.board;
    var kc := FindKing(b, a.opponent).value.coords.value;
    assert FindKing(b, a.opponent).value.color == a.opponent;
    assert Opponent(a.opponent) == a.playing;
    var inCheck, escape := KingInCheckAt(b, a.opponent, kc), KingCanMoveOutOfAttack(a, kc);
    var counter, block := CanAttackAttackingPiece(a), PieceCanBlockAttack(a, kc);
    assert CheckMate(a).value == (inCheck && !escape && !counter && !block);
    KingInCheckAtOnBoard(b, a.opponent, kc);
    assert inCheck == AttackedBy(b, a.playing, kc);
    EscapeOnBoard(a, kc);
    assert escape == !NoEscape(b, a.opponent, kc);
    CanAttackOnBoard(a);
    assert counter == AttackedBy(b, a.opponent, a.to);
    CanBlockOnBoard(a, kc);
    assert block == !NoBlock(b, a.opponent, a.to, kc);
  }

  // ----------------------------------------------------- own king probe

  /** The board while the mover is tried on `to`. */
  function SimulatedBoard(a: Attempt): Board
  {
    Put(Put(a.board, a.from, None), a.to, Some(a.piece))
  }

  /** `own_king_in_check` of the game: is the side to play's first king attacked on
      the simulated board?  When the mover is a king it is tested on `to`.  None
      where the source dereferences a missing king. */
  function OwnKingProbe(a: Attempt): Option<bool>
  {
    var king := FindKing(a.board, a.playing);
    if king.None? then None
    else if a.piece.kind == King && a.piece.color == king.value.color then
      Some(KingInCheckAt(SimulatedBoard(a), king.value.color, a.to))
    else if king.value.coords.None? then None
    else Some(KingInCheckAt(SimulatedBoard(a), king.value.color, king.value.coords.value))
  }

  // -------------------------------------------------------- move effects

  /** The mover after `_move`: it records `to`; a king or rook of the side to play
      is marked as moved. */
  function MovedPiece(a: Attempt): Piece
  {
    a.piece.(coords := Some(a.to),
             moved := a.piece.moved || ((a.piece.kind == King || a.piece.kind == Rook) && a.piece.color == a.playing))
  }

  /** `_move`: origin emptied, mover placed on `to`. */
  function AfterMove(a: Attempt): (b: Board)
    ensures At(b, a.to) == Some(MovedPiece(a))
    ensures a.from != a.to ==> At(b, a.from).None?
    ensures forall c :: c != a.from && c != a.to ==> At(b, c) == At(a.board, c)
  {
    Put(Put(a.board, a.from, None), a.to, Some(MovedPiece(a)))
  }

  /** The queen `_promote_pawn` creates. */
  function PromotedQueen(a: Attempt): Piece
  {
    Piece(Queen, a.playing, Some(a.to), false)
  }

  /** `_promote_pawn`: origin emptied, a new queen of the side to play on `to`. */
  function AfterPromote(a: Attempt): (b: Board)
    ensures At(b, a.to) == Some(PromotedQueen(a))
    ensures a.from != a.to ==> At(b, a.from).None?
    ensures forall c :: c != a.from && c != a.to ==> At(b, c) == At(a.board, c)
  {
    Put(Put(a.board, a.from, None), a.to, Some(PromotedQueen(a)))
  }

  /** The castle executor chosen by `_castle_move_type`: rank from `to.y`, queen
      side when `to.x` is 2, king side otherwise. King and rook are carried over
      with `moved` set and their `coords` untouched.  None where the source
      dereferences an empty king or rook square. */
  function CastleResult(b: Board, rank: Coord, kingSide: bool): (r: Option<Board>)
    ensures var king, rook := Coords(4, rank), Coords(if kingSide then 7 else 0, rank);
            r.None? <==> At(b, king).None? || At(b, rook).None?
    ensures r.Some? ==>
              var king, rook := Coords(4, rank), Coords(if kingSide then 7 else 0, rank);
              var kingDest, rookDest := Coords(if kingSide then 6 else 2, rank), Coords(if kingSide then 5 else 3, rank);
              && At(r.value, kingDest) == Some(At(b, king).value.(moved := true))
              && At(r.value, rookDest) == Some(At(b, rook).value.(moved := true))
              && At(r.value, king).None? && At(r.value, rook).None?
              && forall c :: c != king && c != rook && c != kingDest && c != rookDest ==> At(r.value, c) == At(b, c)
  {
    var rookX: Coord := if kingSide then 7 else 0;
    var king, rook := At(b, Coords(4, rank)), At(b, Coords(rookX, rank));
    if king.None? || rook.None? then None
    else
      var emptied := Put(Put(b, Coords(4, rank), None), Coords(rookX, rank), None);
      Some(Put(Put(emptied, Coords(if kingSide then 6 else 2, rank), Some(king.value.(moved := true))),
               Coords(if kingSide then 5 else 3, rank), Some(rook.value.(moved := true))))
  }

  /** The board after the move is made; None where the source crashes: `_capture`
      on an empty destination (every en passant) and castling without a piece on
      the king's or the rook's square. */
  function Execute(a: Attempt, kind: MoveKind): Option<Board>
  {
    match kind
    case Castle => CastleResult(a.board, a.to.y, !QueenSide(a))
    case Promotion => Some(AfterPromote(a))
    case Capture => if At(a.board, a.to).None? then None else Some(AfterMove(a))
    case PlainMove => Some(AfterMove(a))
  }

  /** The `playing_piece` field after the move: the object the executor mutated. */
  function MoverAfter(a: Attempt, kind: MoveKind): Piece
  {
    match kind
    case Castle => a.piece.(moved := true)
    case Promotion => a.piece
    case _ => MovedPiece(a)
  }

  // --------------------------------------------------------- one move

  datatype Outcome = Applied | IllegalMove | Fault

  /** The whole game state a move reads and writes. */
  datatype GameState = GameState(board: Board, playing: Color, opponent: Color, winner: Option<Color>,
                                 from: Option<Coords>, to: Option<Coords>, piece: Option<Piece>)

  /** The game invariant: every piece on the board records a square, and the two
      colour fields name different players. */
  ghost predicate ValidState(g: GameState)
  {
    Placed(g.board) && g.opponent == Opponent(g.playing)
  }

  /** The attempt `set_move_attributes` builds; None when `from` holds no piece of
      the side to play (rejected as an illegal move). */
  function Resolve(g: GameState, from: Coords, to: Coords): (r: Option<Attempt>)
    ensures r.Some? <==> At(g.board, from).Some? && At(g.board, from).value.color == g.playing
    ensures r.Some? ==> r.value.piece == At(g.board, from).value
    ensures r.Some? ==> Resolved(r.value) && r.value.board == g.board && r.value.from == from && r.value.to == to
                        && r.value.playing == g.playing && r.value.opponent == g.opponent
  {
    var cell := At(g.board, from);
    if cell.None? || cell.value.color != g.playing then None
    else Some(Attempt(g.board, g.playing, g.opponent, from, to, cell.value))
  }

  /** The state once `set_move_attributes` has recorded the attempt. */
  function Recorded(a: Attempt, winner: Option<Color>): GameState
  {
    GameState(a.board, a.playing, a.opponent, winner, Some(a.from), Some(a.to), Some(a.piece))
  }

  /** `move`: classify, test geometry, probe the own king, test blocking, make the
      move, test the opponent for mate and swap turns.  Outcome and new state.  After
      a Fault the model returns the state before the move is made; the partly
      changed state the source leaves when it raises is not modelled. */
  function Step(g: GameState, from: Coords, to: Coords): (Outcome, GameState)
  {
    match Resolve(g, from, to)
    case None => (IllegalMove, g)
    case Some(a) => Attempted(a, g.winner)
  }

  /** `move` once the attempt is recorded. */
  function Attempted(a: Attempt, winner: Option<Color>): (Outcome, GameState)
    requires Resolved(a)
  {
    var kind := MoveType(a);
    if !Legal(a, kind) then (IllegalMove, Recorded(a, winner))
    else match OwnKingProbe(a)
      case None => (Fault, Recorded(a, winner))
      case Some(inCheck) =>
        if inCheck || PathBlocked(a.board, a.from, a.to) then (IllegalMove, Recorded(a, winner))
        else match Execute(a, kind)
          case None => (Fault, Recorded(a, winner))
          case Some(after) => Finished(a.(board := after, piece := MoverAfter(a, kind)), winner)
  }

  /** `move` once the move is made: the mate test, then the turn passes. */
  function Finished(made: Attempt, winner: Option<Color>): (Outcome, GameState)
  {
    match CheckMate(made)
    case None => (Fault, Recorded(made, winner))
    case Some(mate) =>
      (Applied, GameState(made.board, made.opponent, made.playing, if mate then Some(made.playing) else winner,
                          Some(made.from), Some(made.to), Some(made.piece)))
  }

  /** Every move kind keeps each piece on the board recording some square. */
  lemma ExecuteKeepsPlaced(a: Attempt, kind: MoveKind)
    requires Placed(a.board) && Execute(a, kind).Some?
    ensures Placed(Execute(a, kind).value)
  {
    var after := Execute(a, kind).value;
    forall c | At(after, c).Some?
      ensures At(after, c).value.coords.Some?
    {
      if kind == Castle {
        var rank := a.to.y;
        var rookX: Coord := if !QueenSide(a) then 7 else 0;
        assert At(a.board, Coords(4, rank)).Some? && At(a.board, Coords(rookX, rank)).Some?;
      }
    }
  }

  /** A move that does not fault keeps the game invariant. */
  lemma StepKeepsValid(g: GameState, from: Coords, to: Coords)
    requires ValidState(g) && Step(g, from, to).0 != Fault
    ensures ValidState(Step(g, from, to).1)
  {
    var a := Resolve(g, from, to);
    if a.Some? {
      var kind := MoveType(a.value);
      if Execute(a.value, kind).Some? {
        ExecuteKeepsPlaced(a.value, kind);
      }
    }
  }
}
