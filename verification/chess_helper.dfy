/** Helper functions of the chess engine: the starting layout, path blocking,
    castle recognition and validation, the rook's castle move, the own-king probe
    over a king-coordinates cache, and the ray-scanning check test. */
module ChessHelper {
  import opened GameTypes
  import Pieces

  // ---------------------------------------------------------------- setup

  /** The character of a single digit. */
  function Digit(d: Coord): char
  {
    (48 + d) as char
  }

  /** Dictionary key of a square, the two digits "xy". */
  function Key(x: Coord, y: Coord): string
  {
    [Digit(x), Digit(y)]
  }

  lemma KeysDiffer(x: Coord, y: Coord, x': Coord, y': Coord)
    requires x != x' || y != y'
    ensures Key(x, y) != Key(x', y')
  {
    assert Digit(x) as int == 48 + x && Digit(x') as int == 48 + x';
    assert Digit(y) as int == 48 + y && Digit(y') as int == 48 + y';
    assert Key(x, y)[0] == Digit(x) && Key(x', y')[0] == Digit(x');
    assert Key(x, y)[1] == Digit(y) && Key(x', y')[1] == Digit(y');
  }

  const BackRank: seq<Kind> := [Rook, Knight, Bishop, Queen, King, Bishop, Knight, Rook]

  /** The sixteen kinds of one side, in the order they are paired with squares. */
  const StartKinds: seq<Kind> := BackRank + [Pawn, Pawn, Pawn, Pawn, Pawn, Pawn, Pawn, Pawn]

  function Zip<A, B>(xs: seq<A>, ys: seq<B>): (r: seq<(A, B)>)
    ensures |r| == if |xs| < |ys| then |xs| else |ys|
    ensures forall i :: 0 <= i < |r| ==> r[i] == (xs[i], ys[i])
  {
    var n := if |xs| < |ys| then |xs| else |ys|;
    seq(n, i requires 0 <= i < n => (xs[i], ys[i]))
  }

  /** One side's pieces paired with the keys of the ranks `yIdxs`, rank by rank, file by file. */
  function NewChessPieces(color: Color, yIdxs: seq<Coord>): seq<(string, Piece)>
  {
    var keys := seq(8 * |yIdxs|, i requires 0 <= i < 8 * |yIdxs| => Key(i % 8, yIdxs[i / 8]));
    var pieces := seq(16, i requires 0 <= i < 16 => NewPiece(StartKinds[i], color));
    Zip(keys, pieces)
  }

  /** A dictionary built from a list of pairs; a later pair overrides an earlier one. */
  function ToMap<K, V>(ps: seq<(K, V)>): map<K, V>
  {
    if ps == [] then map[] else ToMap(ps[..|ps| - 1])[ps[|ps| - 1].0 := ps[|ps| - 1].1]
  }

  lemma {:induction false} ToMapOfDistinctKeys<K, V>(ps: seq<(K, V)>)
    requires forall i, j :: 0 <= i < j < |ps| ==> ps[i].0 != ps[j].0
    ensures |ToMap(ps)| == |ps|
    ensures forall k :: k in ToMap(ps) <==> exists i :: 0 <= i < |ps| && ps[i].0 == k
    ensures forall i :: 0 <= i < |ps| ==> ToMap(ps)[ps[i].0] == ps[i].1
  {
    if ps != [] {
      var init := ps[..|ps| - 1];
      ToMapOfDistinctKeys(init);
      var last := ps[|ps| - 1];
      forall i | 0 <= i < |init|
        ensures init[i].0 != last.0
      {
        assert init[i] == ps[i];
      }
      assert last.0 !in ToMap(init);
      forall k
        ensures k in ToMap(ps) <==> exists i :: 0 <= i < |ps| && ps[i].0 == k
      {
        if k in ToMap(init) {
          var i :| 0 <= i < |init| && init[i].0 == k;
          assert ps[i].0 == k;
        }
        if exists i :: 0 <= i < |ps| && ps[i].0 == k {
          var i :| 0 <= i < |ps| && ps[i].0 == k;
          if i < |init| {
            assert init[i].0 == k;
          }
        }
      }
      forall i | 0 <= i < |ps|
        ensures ToMap(ps)[ps[i].0] == ps[i].1
      {
        if i < |init| {
          assert init[i] == ps[i];
        }
      }
    }
  }

  /** The starting position as a dictionary from square key to a fresh piece. */
  function NewChessSetup(): map<string, Piece>
  {
    ToMap(NewChessPieces(White, [0, 1]) + NewChessPieces(Black, [7, 6]))
  }

  /** Entry `i` of the 32 setup entries, in list order. */
  lemma SetupEntry(i: nat)
    requires i < 32
    ensures var ps := NewChessPieces(White, [0, 1]) + NewChessPieces(Black, [7, 6]);
            |ps| == 32 &&
            ps[i] == (Key(i % 8, [0, 1, 7, 6][i / 8]),
                      NewPiece(StartKinds[i % 16], if i < 16 then White else Black))
  {
    var w, b := NewChessPieces(White, [0, 1]), NewChessPieces(Black, [7, 6]);
    assert |w| == 16 && |b| == 16;
    if i >= 16 {
      assert (w + b)[i] == b[i - 16];
      assert (i - 16) % 8 == i % 8 && (i - 16) / 8 == i / 8 - 2;
    }
  }

  /** No two setup entries share a key. */
  lemma SetupKeysDistinct()
    ensures var ps := NewChessPieces(White, [0, 1]) + NewChessPieces(Black, [7, 6]);
            |ps| == 32 && forall i, j :: 0 <= i < j < |ps| ==> ps[i].0 != ps[j].0
  {
    var ps := NewChessPieces(White, [0, 1]) + NewChessPieces(Black, [7, 6]);
    SetupEntry(0);
    var ranks: seq<Coord> := [0, 1, 7, 6];
    forall i, j | 0 <= i < j < |ps|
      ensures ps[i].0 != ps[j].0
    {
      SetupEntry(i);
      SetupEntry(j);
      assert i % 8 != j % 8 || ranks[i / 8] != ranks[j / 8];
      KeysDiffer(i % 8, ranks[i / 8], j % 8, ranks[j / 8]);
    }
  }

  /** The setup dictionary maps the key of every setup entry to that entry's piece. */
  lemma SetupMap()
    ensures var ps := NewChessPieces(White, [0, 1]) + NewChessPieces(Black, [7, 6]);
            && |NewChessSetup()| == 32
            && (forall k :: k in NewChessSetup() <==> exists i :: 0 <= i < 32 && ps[i].0 == k)
            && (forall i :: 0 <= i < 32 ==> NewChessSetup()[ps[i].0] == ps[i].1)
  {
    SetupKeysDistinct();
    ToMapOfDistinctKeys(NewChessPieces(White, [0, 1]) + NewChessPieces(Black, [7, 6]));
  }

  /** The setup's keys are exactly the squares of ranks 0, 1, 6 and 7. */
  lemma NewChessSetupKeys()
    ensures |NewChessSetup()| == 32
    ensures forall k :: k in NewChessSetup() <==>
              exists x: Coord, y: Coord :: k == Key(x, y) && (y == 0 || y == 1 || y == 6 || y == 7)
  {
    SetupMap();
    forall k | k in NewChessSetup()
      ensures exists x: Coord, y: Coord :: k == Key(x, y) && (y == 0 || y == 1 || y == 6 || y == 7)
    {
      SetupKeyOnStartRank(k);
    }
    forall x: Coord, y: Coord | y == 0 || y == 1 || y == 6 || y == 7
      ensures Key(x, y) in NewChessSetup()
    {
      var row := if y == 0 then 0 else if y == 1 then 1 else if y == 7 then 2 else 3;
      SetupEntry(8 * row + x);
    }
  }

  lemma SetupKeyOnStartRank(k: string)
    requires k in NewChessSetup()
    ensures exists x: Coord, y: Coord :: k == Key(x, y) && (y == 0 || y == 1 || y == 6 || y == 7)
  {
    var ps := NewChessPieces(White, [0, 1]) + NewChessPieces(Black, [7, 6]);
    SetupMap();
    var i :| 0 <= i < 32 && ps[i].0 == k;
    SetupEntry(i);
    var y: Coord := [0, 1, 7, 6][i / 8];
    assert k == Key(i % 8, y);
  }

  /** White's back rank R N B Q K B N R stands on y = 0 with pawns on y = 1;
      Black mirrors it on y = 7 with pawns on y = 6. */
  lemma NewChessSetupPieces(x: Coord)
    ensures Key(x, 0) in NewChessSetup() && NewChessSetup()[Key(x, 0)] == NewPiece(BackRank[x], White)
    ensures Key(x, 1) in NewChessSetup() && NewChessSetup()[Key(x, 1)] == NewPiece(Pawn, White)
    ensures Key(x, 6) in NewChessSetup() && NewChessSetup()[Key(x, 6)] == NewPiece(Pawn, Black)
    ensures Key(x, 7) in NewChessSetup() && NewChessSetup()[Key(x, 7)] == NewPiece(BackRank[x], Black)
  {
    SetupMap();
    SetupEntry(x);
    SetupEntry(8 + x);
    SetupEntry(16 + x);
    SetupEntry(24 + x);
  }

  // -------------------------------------------------------- path blocking

  /** One axis of `board_coords`: the values strictly between `f` and `t` walking
      from `f`, or `f` repeated `n` times when the axis does not change. */
  function AxisCoords(f: int, t: int, n: nat): seq<int>
  {
    if f > t then seq(f - t - 1, i requires 0 <= i < f - t - 1 => f - 1 - i)
    else if f == t then seq(n, _ => f)
    else seq(t - f - 1, i requires 0 <= i < t - f - 1 => f + 1 + i)
  }

  /** `board_coords`: the two axes zipped together (the shorter one decides the length). */
  function BoardCoords(f: Coords, t: Coords): seq<(int, int)>
  {
    Zip(AxisCoords(f.x, t.x, Abs(f.y - t.y)), AxisCoords(f.y, t.y, Abs(f.x - t.x)))
  }

  /** On a line, `board_coords` yields exactly the squares strictly between the two
      ends, in order from `f` towards `t`; neither end is among them. */
  lemma BoardCoordsAreBetween(f: Coords, t: Coords)
    requires MoveDirection(f, t) != NonLinear
    ensures |BoardCoords(f, t)| == |CoordsBetween(f, t)| == Distance(f, t) - 1
    ensures forall i :: 0 <= i < |BoardCoords(f, t)| ==>
              BoardCoords(f, t)[i] == (CoordsBetween(f, t)[i].x, CoordsBetween(f, t)[i].y)
    ensures forall i :: 0 <= i < |BoardCoords(f, t)| ==>
              BoardCoords(f, t)[i] != (f.x, f.y) && BoardCoords(f, t)[i] != (t.x, t.y)
  {
    var xs := AxisCoords(f.x, t.x, Abs(f.y - t.y));
    var ys := AxisCoords(f.y, t.y, Abs(f.x - t.x));
    var between := CoordsBetween(f, t);
    assert |xs| >= Distance(f, t) - 1 && |ys| >= Distance(f, t) - 1;
    assert |xs| == Distance(f, t) - 1 || |ys| == Distance(f, t) - 1;
    forall i | 0 <= i < |BoardCoords(f, t)|
      ensures BoardCoords(f, t)[i] == (between[i].x, between[i].y)
    {
      assert xs[i] == Toward(f.x, t.x, i + 1);
      assert ys[i] == Toward(f.y, t.y, i + 1);
    }
    forall i | 0 <= i < |BoardCoords(f, t)|
      ensures BoardCoords(f, t)[i] != (f.x, f.y) && BoardCoords(f, t)[i] != (t.x, t.y)
    {
      assert between[i] != f && between[i] != t;
    }
  }

  /** `chess_piece_blocking`: a non-linear move is never blocked; otherwise the move is
      blocked exactly when a square strictly between the ends is occupied. */
  method ChessPieceBlocking(board: Board, f: Coords, t: Coords) returns (blocked: bool)
    ensures blocked == PathBlocked(board, f, t)
  {
    if MoveDirection(f, t) != NonLinear {
      var squares := BoardCoords(f, t);
      BoardCoordsAreBetween(f, t);
      ghost var between := CoordsBetween(f, t);
      for i := 0 to |squares|
        invariant forall j :: 0 <= j < i ==> At(board, between[j]).None?
      {
        var (x, y) := squares[i];
        if board[x][y].Some? {
          assert At(board, between[i]).Some?;
          return true;
        }
      }
      forall c | c in between
        ensures At(board, c).None?
      {
        var j :| 0 <= j < |between| && between[j] == c;
      }
    }
    return false;
  }

  /** The blocking cases the repository's tests exercise around a piece on (4,4):
      diagonal, horizontal and vertical paths through it are blocked in both
      directions, a knight's jump next to it never is, and a path whose only
      inner square is empty is free. */
  lemma BlockingAroundOnePiece(b: Board)
    requires At(b, Coords(4, 4)).Some?
    ensures PathBlocked(b, Coords(3, 3), Coords(6, 6)) && PathBlocked(b, Coords(6, 6), Coords(3, 3))
    ensures PathBlocked(b, Coords(2, 4), Coords(6, 4)) && PathBlocked(b, Coords(6, 4), Coords(2, 4))
    ensures PathBlocked(b, Coords(4, 2), Coords(4, 6)) && PathBlocked(b, Coords(4, 6), Coords(4, 2))
    ensures !PathBlocked(b, Coords(3, 3), Coords(4, 5)) && !PathBlocked(b, Coords(4, 5), Coords(3, 3))
    ensures At(b, Coords(4, 5)).None? ==> !PathBlocked(b, Coords(4, 4), Coords(4, 6))
  {
    var p := Coords(4, 4);
    assert CoordsBetween(Coords(3, 3), Coords(6, 6))[0] == p;
    assert CoordsBetween(Coords(6, 6), Coords(3, 3))[1] == p;
    assert CoordsBetween(Coords(2, 4), Coords(6, 4))[1] == p;
    assert CoordsBetween(Coords(6, 4), Coords(2, 4))[1] == p;
    assert CoordsBetween(Coords(4, 2), Coords(4, 6))[1] == p;
    assert CoordsBetween(Coords(4, 6), Coords(4, 2))[1] == p;
    assert CoordsBetween(Coords(4, 4), Coords(4, 6)) == [Coords(4, 5)];
  }

  // ------------------------------------------------------------- castling

  /** `castling`: a castle is being attempted. */
  function Castling(piece: Piece, to: Coords): (r: bool)
    ensures r <==> piece.kind == King && piece.coords.Some?
                   && piece.coords.value.x == 4 && (piece.coords.value.y == 0 || piece.coords.value.y == 7)
                   && to.y == piece.coords.value.y && (to.x == 2 || to.x == 6)
  {
    if piece.kind == King && piece.coords == Some(Coords(4, 0)) then
      to in [Coords(2, 0), Coords(6, 0)]
    else if piece.kind == King && piece.coords == Some(Coords(4, 7)) then
      to in [Coords(2, 7), Coords(6, 7)]
    else false
  }

  /** The squares a castle involves: the rook's corner, and the square the king
      passes through and the one it lands on. */
  datatype CastlePlan = CastlePlan(corner: Coords, thru: Coords, dest: Coords)

  /** The four patterns `valid_castle` recognises, as written: the black king-side
      pattern is guarded by the white king's home square e1. */
  function CastlePattern(from: Option<Coords>, to: Coords): Option<CastlePlan>
  {
    if from == Some(Coords(4, 0)) && to == Coords(2, 0) then
      Some(CastlePlan(Coords(0, 0), Coords(3, 0), Coords(2, 0)))
    else if from == Some(Coords(4, 0)) && to == Coords(6, 0) then
      Some(CastlePlan(Coords(7, 0), Coords(5, 0), Coords(6, 0)))
    else if from == Some(Coords(4, 7)) && to == Coords(2, 7) then
      Some(CastlePlan(Coords(0, 7), Coords(3, 7), Coords(2, 7)))
    else if from == Some(Coords(4, 0)) && to == Coords(6, 7) then
      Some(CastlePlan(Coords(7, 7), Coords(5, 7), Coords(6, 7)))
    else None
  }

  /** `valid_castle`: a king in check may not castle; a recognised pattern is checked
      by `_valid_castle`; any other pattern (the black king-side castle among them)
      is accepted unchecked. */
  method ValidCastle(board: Board, king: Piece, kingInCheck: bool, to: Coords) returns (r: bool)
    ensures kingInCheck ==> !r
    ensures !kingInCheck && CastlePattern(king.coords, to).None? ==> r
    ensures !kingInCheck && CastlePattern(king.coords, to).Some? ==>
              var plan := CastlePattern(king.coords, to).value;
              (r <==> At(board, plan.corner).Some? && At(board, plan.corner).value.kind == Rook
                      && !king.moved && !At(board, plan.corner).value.moved
                      && At(board, plan.thru).None? && At(board, plan.dest).None?
                      && !Attacked(board, plan.thru, Opponent(king.color))
                      && !Attacked(board, plan.dest, Opponent(king.color)))
    ensures !kingInCheck && king.coords == Some(Coords(4, 7)) && to == Coords(6, 7) ==> r
  {
    if kingInCheck {
      return false;
    }
    var pattern := CastlePattern(king.coords, to);
    if pattern.Some? {
      var plan := pattern.value;
      r := ValidCastleCore(board, king, [plan.thru, plan.dest], At(board, plan.corner), Opponent(king.color));
      return;
    }
    return true;
  }

  /** `_valid_castle`: false without a Rook (of either colour) on the corner, when
      king or rook has moved, when a king square is occupied, or when one is attacked. */
  method ValidCastleCore(board: Board, king: Piece, kingMoveCoords: seq<Coords>,
                         potentialRook: Option<Piece>, opponent: Color) returns (r: bool)
    requires |kingMoveCoords| == 2
    ensures r <==> potentialRook.Some? && potentialRook.value.kind == Rook
                   && !king.moved && !potentialRook.value.moved
                   && At(board, kingMoveCoords[0]).None? && At(board, kingMoveCoords[1]).None?
                   && !Attacked(board, kingMoveCoords[0], opponent)
                   && !Attacked(board, kingMoveCoords[1], opponent)
  {
    if potentialRook.Some? && potentialRook.value.kind == Rook {
      var rook := potentialRook.value;
      var thru, to := kingMoveCoords[0], kingMoveCoords[1];
      if king.moved || rook.moved {
        return false;
      }
      if At(board, thru).Some? || At(board, to).Some? {
        return false;
      }
      for i := 0 to 2
        invariant forall j :: 0 <= j < i ==> !Attacked(board, kingMoveCoords[j], opponent)
      {
        var attacked := KingInCheck(kingMoveCoords[i], board, opponent);
        if attacked {
          return false;
        }
      }
      return true;
    }
    return false;
  }

  /** `move_rook`: when the king lands on g- or c-file of rank 0 or 7, the rook on the
      matching corner moves next to it (h to f, a to d) and learns its new square;
      any other destination leaves the board alone.  An empty corner is carried to
      the rook's destination before its square is dereferenced: both squares end up
      empty and the call faults. */
  method MoveRook(board: Board, kingCoords: Coords) returns (after: Board, fault: bool)
    ensures !(kingCoords.x in {2, 6} && kingCoords.y in {0, 7}) ==> after == board && !fault
    ensures kingCoords.x in {2, 6} && kingCoords.y in {0, 7} ==>
              var corner, dest := RookHome(kingCoords), RookDestination(kingCoords);
              && fault == At(board, corner).None?
              && At(after, corner).None?
              && At(after, dest) == (if fault then None else Some(At(board, corner).value.(coords := Some(dest))))
              && forall c :: c != corner && c != dest ==> At(after, c) == At(board, c)
  {
    after, fault := board, false;
    if kingCoords in {Coords(6, 0), Coords(2, 0), Coords(6, 7), Coords(2, 7)} {
      var corner, dest := RookHome(kingCoords), RookDestination(kingCoords);
      var rook := At(after, corner);
      after := Put(after, corner, None);
      after := Put(after, dest, rook);
      if rook.None? {
        return after, true;
      }
      after := Put(after, dest, Some(rook.value.(coords := Some(dest))));
    }
  }

  /** The rook's corner for a castling king landing on `kingCoords`. */
  function RookHome(kingCoords: Coords): Coords
  {
    Coords(if kingCoords.x == 6 then 7 else 0, kingCoords.y)
  }

  /** The square the rook lands on, next to the castled king. */
  function RookDestination(kingCoords: Coords): Coords
  {
    Coords(if kingCoords.x == 6 then 5 else 3, kingCoords.y)
  }

  // ---------------------------------------------------- own king probe

  /** The game object the probe works on: the board and a cache of each colour's
      king square. */
  class BoardState {
    var board: Board
    var kingCoords: map<Color, Coords>

    constructor (board: Board, kingCoords: map<Color, Coords>)
      ensures this.board == board && this.kingCoords == kingCoords
    {
      this.board := board;
      this.kingCoords := kingCoords;
    }
  }

  /** The board while `piece` is tried on `to`: its square emptied, `to` taken. */
  function TrialBoard(b: Board, piece: Piece, to: Coords): Board
    requires piece.coords.Some?
  {
    Put(Put(b, piece.coords.value, None), to, Some(piece))
  }

  /** `own_king_in_check`: would moving `piece` to `to` leave its own king attacked?
      The board and the king cache are mutated for the test and then restored: the
      cache exactly, the board exactly when `piece` stood on its recorded square.
      None where the source fails before changing anything: no cached square for
      the colour (a missing key), or a piece that records no square. */
  method OwnKingInCheck(game: BoardState, piece: Piece, to: Coords) returns (inCheck: Option<bool>)
    modifies game
    ensures inCheck.None? <==> piece.color !in old(game.kingCoords) || piece.coords.None?
    ensures game.kingCoords == old(game.kingCoords)
    ensures inCheck.None? ==> game.board == old(game.board)
    ensures inCheck.Some? ==>
              game.board == Put(Put(old(game.board), piece.coords.value, Some(piece)), to, old(At(game.board, to)))
    ensures inCheck.Some? && old(At(game.board, piece.coords.value)) == Some(piece) ==> game.board == old(game.board)
    ensures inCheck.Some? ==>
              inCheck.value == Attacked(TrialBoard(old(game.board), piece, to),
                                        if piece.kind == King then to else old(game.kingCoords[piece.color]),
                                        Opponent(piece.color))
  {
    var originalPiece := At(game.board, to);
    if piece.color !in game.kingCoords || piece.coords.None? {
      return None;
    }
    var originalKingCoords := game.kingCoords[piece.color];
    var from := piece.coords.value;

    game.board := Put(game.board, from, None);
    game.board := Put(game.board, to, Some(piece));
    if piece.kind == King {
      game.kingCoords := game.kingCoords[piece.color := to];
    }

    var kingCoords := game.kingCoords[piece.color];
    var attacked := KingInCheck(kingCoords, game.board, Opponent(piece.color));
    inCheck := Some(attacked);

    game.board := Put(game.board, from, Some(piece));
    game.board := Put(game.board, to, originalPiece);
    game.kingCoords := game.kingCoords[piece.color := originalKingCoords];

    BoardsEqual(game.board, Put(Put(old(game.board), from, Some(piece)), to, originalPiece));
    if old(At(game.board, from)) == Some(piece) {
      BoardsEqual(game.board, old(game.board));
    }
  }

  // --------------------------------------------------------- check test

  /** Square (x, y) is on the board and holds a piece of that kind and colour. */
  predicate HoldsAt(b: Board, x: int, y: int, kind: Kind, color: Color)
  {
    OnBoard(x, y) && Is(b[x][y], kind, color)
  }

  /** The piece standing on `c`, with its coordinates recorded. */
  function StandingOn(b: Board, c: Coords): Piece
    requires At(b, c).Some?
  {
    At(b, c).value.(coords := Some(c))
  }

  /** `_pawn_check`: an opponent pawn attacks the king's square, i.e. a pawn of
      `opponent` stands where the pawn capture geometry reaches `kingCoords`. */
  function PawnCheck(kingCoords: Coords, board: Board, opponent: Color): (r: bool)
    ensures r <==> exists c :: Is(At(board, c), Pawn, opponent)
                               && Pieces.ValidCapture(StandingOn(board, c), kingCoords)
  {
    var r :=
      if opponent == White then
        HoldsAt(board, kingCoords.x + 1, kingCoords.y - 1, Pawn, White)
        || HoldsAt(board, kingCoords.x - 1, kingCoords.y - 1, Pawn, White)
      else
        HoldsAt(board, kingCoords.x + 1, kingCoords.y + 1, Pawn, Black)
        || HoldsAt(board, kingCoords.x - 1, kingCoords.y + 1, Pawn, Black);
    PawnAttackers(kingCoords, board, opponent, r);
    r
  }

  lemma PawnAttackers(kingCoords: Coords, board: Board, opponent: Color, r: bool)
    requires r == if opponent == White then
                    HoldsAt(board, kingCoords.x + 1, kingCoords.y - 1, Pawn, White)
                    || HoldsAt(board, kingCoords.x - 1, kingCoords.y - 1, Pawn, White)
                  else
                    HoldsAt(board, kingCoords.x + 1, kingCoords.y + 1, Pawn, Black)
                    || HoldsAt(board, kingCoords.x - 1, kingCoords.y + 1, Pawn, Black)
    ensures r <==> exists c :: Is(At(board, c), Pawn, opponent)
                               && Pieces.ValidCapture(StandingOn(board, c), kingCoords)
  {
    var y := kingCoords.y - Pieces.Forward(opponent);
    if r {
      var x := if HoldsAt(board, kingCoords.x + 1, y, Pawn, opponent) then kingCoords.x + 1 else kingCoords.x - 1;
      assert HoldsAt(board, x, y, Pawn, opponent);
      var c := Coords(x, y);
      assert Is(At(board, c), Pawn, opponent) && Pieces.ValidCapture(StandingOn(board, c), kingCoords);
    }
  }

  /** Knight jumps, in the order the source tries them. */
  const KnightOffsets: seq<(int, int)> := [(1, 2), (1, -2), (2, 1), (2, -1), (-1, 2), (-1, -2), (-2, 1), (-2, -1)]

  /** `_knight_in_possible_position` (and `_knight_check`, which forwards to it): a
      knight of `color` stands a knight's jump away from `query`. */
  function KnightInPossiblePosition(query: Coords, board: Board, color: Color): (r: bool)
    ensures r <==> exists c :: Is(At(board, c), Knight, color)
                               && Pieces.ValidMove(StandingOn(board, c), query)
  {
    var r := exists i :: 0 <= i < 8 && HoldsAt(board, query.x + KnightOffsets[i].0, query.y + KnightOffsets[i].1, Knight, color);
    KnightAttackers(query, board, color, r);
    r
  }

  lemma KnightAttackers(query: Coords, board: Board, color: Color, r: bool)
    requires r == exists i :: 0 <= i < 8 && HoldsAt(board, query.x + KnightOffsets[i].0, query.y + KnightOffsets[i].1, Knight, color)
    ensures r <==> exists c :: Is(At(board, c), Knight, color)
                               && Pieces.ValidMove(StandingOn(board, c), query)
  {
    if r {
      var i :| 0 <= i < 8 && HoldsAt(board, query.x + KnightOffsets[i].0, query.y + KnightOffsets[i].1, Knight, color);
      var c := Coords(query.x + KnightOffsets[i].0, query.y + KnightOffsets[i].1);
      assert Is(At(board, c), Knight, color) && Pieces.ValidMove(StandingOn(board, c), query);
    }
    if exists c :: Is(At(board, c), Knight, color) && Pieces.ValidMove(StandingOn(board, c), query) {
      var c :| Is(At(board, c), Knight, color) && Pieces.ValidMove(StandingOn(board, c), query);
      var dx, dy := c.x - query.x, c.y - query.y;
      var i := if dx == 1 && dy == 2 then 0 else if dx == 1 && dy == -2 then 1
               else if dx == 2 && dy == 1 then 2 else if dx == 2 && dy == -1 then 3
               else if dx == -1 && dy == 2 then 4 else if dx == -1 && dy == -2 then 5
               else if dx == -2 && dy == 1 then 6 else 7;
      assert KnightOffsets[i] == (dx, dy);
    }
  }

  /** The eight directions in the order the source scans them: N NE E SE S SW W NW. */
  const Directions: seq<(int, int)> := [(0, 1), (1, 1), (1, 0), (1, -1), (0, -1), (-1, -1), (-1, 0), (-1, 1)]

  predicate Orthogonal(d: (int, int))
  {
    d.0 == 0 || d.1 == 0
  }

  /** Steps left before walking off the board along one axis. */
  function StepsLeft(v: int, step: int): int
  {
    if step > 0 then 8 - v else if step < 0 then v + 1 else 0
  }

  /** The first piece met walking from square (x, y), inclusive, in direction `d`. */
  function FirstOnRay(b: Board, x: int, y: int, d: (int, int)): Option<Piece>
    requires d in Directions
    decreases StepsLeft(x, d.0) + StepsLeft(y, d.1)
  {
    if !OnBoard(x, y) then None
    else if b[x][y].Some? then b[x][y]
    else FirstOnRay(b, x + d.0, y + d.1, d)
  }

  /** The check `_check_by_other_piece` finds looking from `kingCoords` along `d`: the
      first piece on the ray is an opponent king on the adjacent square, or an
      opponent rook or queen on an orthogonal ray, or an opponent bishop or queen on a
      diagonal one. */
  predicate RayThreat(b: Board, kingCoords: Coords, opponent: Color, d: (int, int))
    requires d in Directions
  {
    var first := FirstOnRay(b, kingCoords.x + d.0, kingCoords.y + d.1, d);
    && first.Some? && first.value.color == opponent
    && (|| (first.value.kind == King && HoldsAt(b, kingCoords.x + d.0, kingCoords.y + d.1, King, opponent))
        || (Orthogonal(d) && first.value.kind in {Rook, Queen})
        || (!Orthogonal(d) && first.value.kind in {Bishop, Queen}))
  }

  predicate RayAttack(b: Board, kingCoords: Coords, opponent: Color)
  {
    exists i :: 0 <= i < 8 && RayThreat(b, kingCoords, opponent, Directions[i])
  }

  /** `_check_by_other_piece`: scan the eight rays from the king's square. */
  method CheckByOtherPiece(kingCoords: Coords, board: Board, opponent: Color) returns (r: bool)
    ensures r == RayAttack(board, kingCoords, opponent)
  {
    for i := 0 to 8
      invariant forall j :: 0 <= j < i ==> !RayThreat(board, kingCoords, opponent, Directions[j])
    {
      var threat := ScanRay(kingCoords, board, opponent, Directions[i]);
      if threat {
        return true;
      }
    }
    return false;
  }

  /** One ray of `_check_by_other_piece`: walk from the king until leaving the board
      or meeting a piece; an own piece or a harmless opponent piece ends the ray. */
  method ScanRay(kingCoords: Coords, board: Board, opponent: Color, d: (int, int)) returns (threat: bool)
    requires d in Directions
    ensures threat == RayThreat(board, kingCoords, opponent, d)
  {
    var nextX, nextY := kingCoords.x, kingCoords.y;
    var kingIsThreat := true;
    while true
      invariant OnBoard(nextX, nextY)
      invariant kingIsThreat ==> nextX == kingCoords.x && nextY == kingCoords.y
      invariant !kingIsThreat ==> OnBoard(kingCoords.x + d.0, kingCoords.y + d.1)
                                  && board[kingCoords.x + d.0][kingCoords.y + d.1].None?
      invariant FirstOnRay(board, nextX + d.0, nextY + d.1, d)
                == FirstOnRay(board, kingCoords.x + d.0, kingCoords.y + d.1, d)
      decreases StepsLeft(nextX, d.0) + StepsLeft(nextY, d.1)
    {
      nextX, nextY := nextX + d.0, nextY + d.1;
      if !OnBoard(nextX, nextY) {
        return false;
      }
      var piece := board[nextX][nextY];
      if piece.Some? {
        if piece.value.color != opponent {
          return false;
        }
        if piece.value.kind == King && kingIsThreat {
          return true;
        } else if Orthogonal(d) && piece.value.kind in {Rook, Queen} {
          return true;
        } else if !Orthogonal(d) && piece.value.kind in {Bishop, Queen} {
          return true;
        }
        return false;
      }
      kingIsThreat := false;
    }
  }

  /** What `king_in_check` decides: a pawn, knight or ray attack on the square. */
  predicate Attacked(b: Board, kingCoords: Coords, opponent: Color)
  {
    PawnCheck(kingCoords, b, opponent)
    || KnightInPossiblePosition(kingCoords, b, opponent)
    || RayAttack(b, kingCoords, opponent)
  }

  /** `king_in_check`: pawn test, knight test, then the ray scan. */
  method KingInCheck(kingCoords: Coords, board: Board, opponent: Color) returns (r: bool)
    ensures r == Attacked(board, kingCoords, opponent)
  {
    if PawnCheck(kingCoords, board, opponent) {
      return true;
    }
    if KnightInPossiblePosition(kingCoords, board, opponent) {
      return true;
    }
    r := CheckByOtherPiece(kingCoords, board, opponent);
  }

  /** The square one step from `c` in direction `d`, when that is on the board. */
  function Neighbour(c: Coords, d: (int, int)): Option<Coords>
  {
    if OnBoard(c.x + d.0, c.y + d.1) then Some(Coords(c.x + d.0, c.y + d.1)) else None
  }

  /** Every square a king's step away lies in one of the eight directions. */
  lemma NeighbourDirection(a: Coords, c: Coords)
    requires Distance(a, c) == 1
    ensures exists i :: 0 <= i < 8 && Neighbour(a, Directions[i]) == Some(c)
  {
    var dx, dy := c.x - a.x, c.y - a.y;
    var i := if dx == 0 && dy == 1 then 0 else if dx == 1 && dy == 1 then 1
             else if dx == 1 && dy == 0 then 2 else if dx == 1 && dy == -1 then 3
             else if dx == 0 && dy == -1 then 4 else if dx == -1 && dy == -1 then 5
             else if dx == -1 && dy == 0 then 6 else 7;
    assert Directions[i] == (dx, dy);
  }

  /** An empty square the opponent does not attack. */
  predicate SafeSquare(b: Board, c: Coords, opponent: Color)
  {
    At(b, c).None? && !Attacked(b, c, opponent)
  }

  /** The step from `kc` in direction number `j` is on the board and safe. */
  predicate SafeStep(b: Board, kc: Coords, j: nat, opponent: Color)
    requires j < 8
  {
    Neighbour(kc, Directions[j]).Some? && SafeSquare(b, Neighbour(kc, Directions[j]).value, opponent)
  }

  lemma NoSafeStep(b: Board, kc: Coords, opponent: Color)
    requires forall j :: 0 <= j < 8 ==> !SafeStep(b, kc, j, opponent)
    ensures forall c :: Distance(kc, c) == 1 ==> !SafeSquare(b, c, opponent)
  {
    forall c | Distance(kc, c) == 1
      ensures !SafeSquare(b, c, opponent)
    {
      NeighbourDirection(kc, c);
      var j :| 0 <= j < 8 && Neighbour(kc, Directions[j]) == Some(c);
      assert !SafeStep(b, kc, j, opponent);
    }
  }

  /** `_king_can_move`: some square next to the king is empty and not attacked by
      `opponent` (the board is read as it stands, the king still on its square).
      None where the source dereferences the coordinates of a king that records none. */
  method KingCanMove(king: Piece, board: Board, opponent: Color) returns (r: Option<bool>)
    ensures r.None? <==> king.coords.None?
    ensures r.Some? ==>
              (r.value <==> exists c :: Distance(king.coords.value, c) == 1 && SafeSquare(board, c, opponent))
  {
    if king.coords.None? {
      return None;
    }
    var kc := king.coords.value;
    for i := 0 to 8
      invariant forall j :: 0 <= j < i ==> !SafeStep(board, kc, j, opponent)
    {
      var d := Directions[i];
      var nextX, nextY := kc.x + d.0, kc.y + d.1;
      if !OnBoard(nextX, nextY) {
        continue;
      }
      var kingBorderSquare := board[nextX][nextY];
      var testKingCoords := Coords(nextX, nextY);
      assert Neighbour(kc, d) == Some(testKingCoords);
      if kingBorderSquare.None? {
        var attacked := KingInCheck(testKingCoords, board, opponent);
        if !attacked {
          assert Distance(kc, testKingCoords) == 1 && SafeSquare(board, testKingCoords, opponent);
          return Some(true);
        }
      }
    }
    NoSafeStep(board, kc, opponent);
    return Some(false);
  }

  /** `_pawn_in_possible_position`: a pawn of `color` could advance onto `coords`, one
      square, or two from its start rank over an empty square. */
  function PawnInPossiblePosition(coords: Coords, board: Board, color: Color): (r: bool)
    ensures r <==> exists c :: Is(At(board, c), Pawn, color)
                               && Pieces.ValidMove(StandingOn(board, c), coords)
                               && !PathBlocked(board, c, coords)
  {
    var r :=
      if color == White then
        (coords.y == 3 && board[coords.x][2].None? && HoldsAt(board, coords.x, coords.y - 2, Pawn, White))
        || HoldsAt(board, coords.x, coords.y - 1, Pawn, White)
      else
        (coords.y == 4 && board[coords.x][5].None? && HoldsAt(board, coords.x, coords.y + 2, Pawn, Black))
        || HoldsAt(board, coords.x, coords.y + 1, Pawn, Black);
    PawnAdvancers(coords, board, color, r);
    r
  }

  lemma PawnAdvancers(coords: Coords, board: Board, color: Color, r: bool)
    requires r == if color == White then
                    (coords.y == 3 && board[coords.x][2].None? && HoldsAt(board, coords.x, coords.y - 2, Pawn, White))
                    || HoldsAt(board, coords.x, coords.y - 1, Pawn, White)
                  else
                    (coords.y == 4 && board[coords.x][5].None? && HoldsAt(board, coords.x, coords.y + 2, Pawn, Black))
                    || HoldsAt(board, coords.x, coords.y + 1, Pawn, Black)
    ensures r <==> exists c :: Is(At(board, c), Pawn, color)
                               && Pieces.ValidMove(StandingOn(board, c), coords)
                               && !PathBlocked(board, c, coords)
  {
    var f := Pieces.Forward(color);
    var one := coords.y - f;
    var two := coords.y - 2 * f;
    if HoldsAt(board, coords.x, one, Pawn, color) {
      var c := Coords(coords.x, one);
      assert CoordsBetween(c, coords) == [];
      assert Is(At(board, c), Pawn, color) && Pieces.ValidMove(StandingOn(board, c), coords)
             && !PathBlocked(board, c, coords);
    } else if r {
      var c := Coords(coords.x, two);
      assert CoordsBetween(c, coords) == [Coords(coords.x, one)];
      assert Is(At(board, c), Pawn, color) && Pieces.ValidMove(StandingOn(board, c), coords)
             && !PathBlocked(board, c, coords);
    }
    if exists c :: Is(At(board, c), Pawn, color) && Pieces.ValidMove(StandingOn(board, c), coords)
                   && !PathBlocked(board, c, coords) {
      var c :| Is(At(board, c), Pawn, color) && Pieces.ValidMove(StandingOn(board, c), coords)
               && !PathBlocked(board, c, coords);
      if c.y == two {
        assert CoordsBetween(c, coords) == [Coords(coords.x, one)];
        assert c.x == coords.x && c.y == Pieces.PawnStartRank(color);
        assert MoveDirection(c, coords) == Vertical;
        assert Coords(coords.x, one) in CoordsBetween(c, coords);
        assert At(board, Coords(coords.x, one)).None?;
        assert HoldsAt(board, coords.x, two, Pawn, color);
      } else {
        assert HoldsAt(board, coords.x, one, Pawn, color);
      }
    }
  }
}
