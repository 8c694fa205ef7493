/** Values shared by the chess engine: colours, piece kinds, pieces, squares,
    the 8x8 board, and the line geometry between two squares. */
module GameTypes {

  datatype Option<T> = None | Some(value: T)

  datatype Color = White | Black

  /** The other player. */
  function Opponent(c: Color): (r: Color)
    ensures r != c
  {
    if c == White then Black else White
  }

  datatype Kind = Pawn | Knight | Bishop | Rook | Queen | King

  /** One board index, 0..7. */
  type Coord = i: int | 0 <= i < 8

  /** A square: x is the file (column), y the rank (row); White starts on y = 0. */
  datatype Coords = Coords(x: Coord, y: Coord)

  predicate OnBoard(x: int, y: int)
  {
    0 <= x < 8 && 0 <= y < 8
  }

  /** A piece. `coords` is None until the piece is placed on the board. */
  datatype Piece = Piece(kind: Kind, color: Color, coords: Option<Coords>, moved: bool)

  /** A freshly constructed piece: not placed, never moved. */
  function NewPiece(kind: Kind, color: Color): Piece
  {
    Piece(kind, color, None, false)
  }

  /** Piece equality of the source compares kind and colour only. */
  predicate Is(cell: Option<Piece>, kind: Kind, color: Color)
  {
    cell.Some? && cell.value.kind == kind && cell.value.color == color
  }

  /** The board, indexed [x][y]. */
  type Board = b: seq<seq<Option<Piece>>> | |b| == 8 && forall x :: 0 <= x < |b| ==> |b[x]| == 8
    witness seq(8, _ => seq(8, _ => None))

  function At(b: Board, c: Coords): Option<Piece>
  {
    b[c.x][c.y]
  }

  function Put(b: Board, c: Coords, cell: Option<Piece>): (r: Board)
    ensures At(r, c) == cell
    ensures forall d :: d != c ==> At(r, d) == At(b, d)
  {
    b[c.x := b[c.x][c.y := cell]]
  }

  /** Two boards that agree on every square are equal. */
  lemma BoardsEqual(a: Board, b: Board)
    requires forall c :: At(a, c) == At(b, c)
    ensures a == b
  {
    forall x: Coord
      ensures a[x] == b[x]
    {
      forall y: Coord
        ensures a[x][y] == b[x][y]
      {
        assert At(a, Coords(x, y)) == At(b, Coords(x, y));
      }
    }
  }

  /** Every piece standing on the board knows its coordinates. */
  ghost predicate Placed(b: Board)
  {
    forall c :: At(b, c).Some? ==> At(b, c).value.coords.Some?
  }

  /** Every piece on the board records exactly the square it stands on. */
  ghost predicate Synced(b: Board)
  {
    forall c :: At(b, c).Some? ==> At(b, c).value.coords == Some(c)
  }

  lemma PutKeepsPlaced(b: Board, c: Coords, cell: Option<Piece>)
    requires Placed(b)
    requires cell.Some? ==> cell.value.coords.Some?
    ensures Placed(Put(b, c, cell))
  {
  }

  datatype Direction = Horizontal | Vertical | Diagonal | NonLinear

  function Abs(i: int): nat
  {
    if i < 0 then -i else i
  }

  /** Classification of the line from `f` to `t`; the null move is non-linear. */
  function MoveDirection(f: Coords, t: Coords): Direction
  {
    if f == t then NonLinear
    else if f.y == t.y then Horizontal
    else if f.x == t.x then Vertical
    else if Abs(f.x - t.x) == Abs(f.y - t.y) then Diagonal
    else NonLinear
  }

  lemma MoveDirectionSymmetric(f: Coords, t: Coords)
    ensures MoveDirection(f, t) == MoveDirection(t, f)
  {
  }

  /** Number of king steps from `f` to `t`. */
  function Distance(f: Coords, t: Coords): nat
  {
    if Abs(f.x - t.x) < Abs(f.y - t.y) then Abs(f.y - t.y) else Abs(f.x - t.x)
  }

  /** `k` steps from `a` towards `b` along one axis. */
  function Toward(a: int, b: int, k: int): int
  {
    if a < b then a + k else if a > b then a - k else a
  }

  /** The squares strictly between `f` and `t` on a line, ordered from `f` towards `t`;
      empty for a non-linear pair (a knight jump is never blocked). */
  function CoordsBetween(f: Coords, t: Coords): (r: seq<Coords>)
    ensures MoveDirection(f, t) == NonLinear ==> r == []
    ensures MoveDirection(f, t) != NonLinear ==> |r| == Distance(f, t) - 1
    ensures forall i :: 0 <= i < |r| ==>
              r[i].x == Toward(f.x, t.x, i + 1) && r[i].y == Toward(f.y, t.y, i + 1)
    ensures f !in r && t !in r
  {
    if MoveDirection(f, t) == NonLinear then []
    else
      var n := Distance(f, t) - 1;
      seq(n, i requires 0 <= i < n => Coords(Toward(f.x, t.x, i + 1), Toward(f.y, t.y, i + 1)))
  }

  /** Walking the line backwards visits the same squares in reverse order. */
  lemma CoordsBetweenReversed(f: Coords, t: Coords)
    ensures |CoordsBetween(t, f)| == |CoordsBetween(f, t)|
    ensures forall i :: 0 <= i < |CoordsBetween(f, t)| ==>
              CoordsBetween(t, f)[i] == CoordsBetween(f, t)[|CoordsBetween(f, t)| - 1 - i]
  {
    MoveDirectionSymmetric(f, t);
  }

  /** Some square strictly between `f` and `t` on a line is occupied. */
  predicate PathBlocked(b: Board, f: Coords, t: Coords)
  {
    MoveDirection(f, t) != NonLinear && exists c :: c in CoordsBetween(f, t) && At(b, c).Some?
  }

  lemma PathBlockedSymmetric(b: Board, f: Coords, t: Coords)
    ensures PathBlocked(b, f, t) == PathBlocked(b, t, f)
  {
    MoveDirectionSymmetric(f, t);
    CoordsBetweenReversed(f, t);
    var fwd, bwd := CoordsBetween(f, t), CoordsBetween(t, f);
    if PathBlocked(b, f, t) {
      var c :| c in fwd && At(b, c).Some?;
      var i :| 0 <= i < |fwd| && fwd[i] == c;
      assert bwd[|fwd| - 1 - i] == c;
    }
    if PathBlocked(b, t, f) {
      var c :| c in bwd && At(b, c).Some?;
      var i :| 0 <= i < |bwd| && bwd[i] == c;
      assert fwd[|fwd| - 1 - i] == c;
    }
  }
}
