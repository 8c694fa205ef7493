/** The Bishop piece class: geometry-only move and capture predicates. */
module Bishop {
  import opened GameTypes

  /** `_valid`: the target lies on a diagonal through the bishop's square. */
  predicate Valid(bishop: Piece, to: Coords)
    requires bishop.kind == Bishop && bishop.coords.Some?
  {
    MoveDirection(bishop.coords.value, to) == Diagonal
  }

  /** A bishop moves any distance along a diagonal, never to its own square. */
  function ValidMove(bishop: Piece, to: Coords): (r: bool)
    requires bishop.kind == Bishop && bishop.coords.Some?
    ensures r <==> var from := bishop.coords.value;
                   from != to && Abs(from.x - to.x) == Abs(from.y - to.y)
  {
    Valid(bishop, to)
  }

  /** A bishop captures exactly where it could move. */
  function ValidCapture(bishop: Piece, to: Coords): (r: bool)
    requires bishop.kind == Bishop && bishop.coords.Some?
    ensures r <==> var from := bishop.coords.value;
                   from != to && Abs(from.x - to.x) == Abs(from.y - to.y)
  {
    Valid(bishop, to)
  }

  lemma MoveAndCaptureAgree(bishop: Piece, to: Coords)
    requires bishop.kind == Bishop && bishop.coords.Some?
    ensures ValidMove(bishop, to) == ValidCapture(bishop, to)
  {
  }
}

/** Geometry of every piece kind, dispatched on the kind.  Only the Bishop's class
    is part of this model; the geometry of the other five kinds is the standard
    one and is stated here as the assumed behaviour of their classes. */
module Pieces {
  import opened GameTypes
  import Bishop

  /** Direction a pawn of colour `c` advances in y. */
  function Forward(c: Color): int
  {
    if c == White then 1 else -1
  }

  /** Rank from which a pawn of colour `c` may advance two squares. */
  function PawnStartRank(c: Color): int
  {
    if c == White then 1 else 6
  }

  /** Pseudo-legal move geometry: ignores occupancy, blocking and check. */
  function ValidMove(p: Piece, to: Coords): (r: bool)
    requires p.coords.Some?
    ensures r ==> p.coords.value != to
    ensures p.kind == Knight ==> (r <==> MoveDirection(p.coords.value, to) == NonLinear && Distance(p.coords.value, to) == 2 && p.coords.value.x != to.x && p.coords.value.y != to.y)
  {
    var from := p.coords.value;
    var dx, dy := to.x - from.x, to.y - from.y;
    match p.kind
    case Bishop => Bishop.ValidMove(p, to)
    case Rook => MoveDirection(from, to) in {Horizontal, Vertical}
    case Queen => MoveDirection(from, to) != NonLinear
    case Knight => (Abs(dx) == 1 && Abs(dy) == 2) || (Abs(dx) == 2 && Abs(dy) == 1)
    case King => Distance(from, to) == 1
    case Pawn =>
      dx == 0 && (dy == Forward(p.color) || (dy == 2 * Forward(p.color) && from.y == PawnStartRank(p.color)))
  }

  /** Pseudo-legal capture geometry: as the move, except that a pawn captures one
      square diagonally forward. */
  function ValidCapture(p: Piece, to: Coords): (r: bool)
    requires p.coords.Some?
    ensures r ==> p.coords.value != to
    ensures p.kind != Pawn ==> r == ValidMove(p, to)
    ensures p.kind == Pawn ==> (r <==> MoveDirection(p.coords.value, to) == Diagonal && Distance(p.coords.value, to) == 1 && to.y - p.coords.value.y == Forward(p.color))
  {
    var from := p.coords.value;
    match p.kind
    case Bishop => Bishop.ValidCapture(p, to)
    case Pawn => Abs(to.x - from.x) == 1 && to.y - from.y == Forward(p.color)
    case _ => ValidMove(p, to)
  }
}
