/** Properties of one move of the chess engine, stated over `GameRules.Step`, and
    the points where the move engine and the board helpers agree or part ways. */
module GameProperties {
  import opened GameTypes
  import ChessHelper
  import opened GameRules

  // ------------------------------------------------------- rejected moves

  /** A rejected attempt leaves the board, the turn and the winner as they were;
      only the per-move fields may have been recorded. */
  lemma IllegalKeepsGame(g: GameState, from: Coords, to: Coords)
    requires Step(g, from, to).0 == IllegalMove
    ensures var after := Step(g, from, to).1;
            && after.board == g.board && after.playing == g.playing
            && after.opponent == g.opponent && after.winner == g.winner
  {
  }

  /** Why an attempt is rejected: no piece of the side to play on `from`; the
      geometry test of its move kind fails; the simulated move leaves the own king
      attacked; or a piece stands in the way. */
  lemma IllegalReasons(g: GameState, from: Coords, to: Coords)
    ensures Step(g, from, to).0 == IllegalMove <==>
              || Resolve(g, from, to).None?
              || (var a := Resolve(g, from, to).value;
                  || !Legal(a, MoveType(a))
                  || OwnKingProbe(a) == Some(true)
                  || (OwnKingProbe(a) == Some(false) && PathBlocked(g.board, from, to)))
  {
    match Resolve(g, from, to)
    case None =>
    case Some(a) =>
      var kind := MoveType(a);
      if Legal(a, kind) && OwnKingProbe(a) == Some(false) && !PathBlocked(a.board, from, to) {
        match Execute(a, kind)
        case None =>
        case Some(after) =>
          assert Step(g, from, to) == Finished(a.(board := after, piece := MoverAfter(a, kind)), g.winner);
      }
  }

  /** An applied move makes the move on the board, records a winner only on mate,
      and passes the turn. */
  lemma AppliedPassesTurn(g: GameState, from: Coords, to: Coords)
    requires Step(g, from, to).0 == Applied
    ensures Resolve(g, from, to).Some?
    ensures var a := Resolve(g, from, to).value;
            var kind := MoveType(a);
            var after := Step(g, from, to).1;
            && Legal(a, kind) && OwnKingProbe(a) == Some(false) && !PathBlocked(g.board, from, to)
            && Execute(a, kind).Some? && after.board == Execute(a, kind).value
            && after.playing == g.opponent && after.opponent == g.playing
            && CheckMate(a.(board := after.board, piece := MoverAfter(a, kind))).Some?
            && (after.winner == if CheckMate(a.(board := after.board, piece := MoverAfter(a, kind))).value
                                then Some(g.playing) else g.winner)
  {
  }

  /** Two applied moves in a row give the turn back to the first player. */
  lemma TurnsAlternate(g: GameState, m1: (Coords, Coords), m2: (Coords, Coords))
    requires Step(g, m1.0, m1.1).0 == Applied
    requires Step(Step(g, m1.0, m1.1).1, m2.0, m2.1).0 == Applied
    ensures var after := Step(Step(g, m1.0, m1.1).1, m2.0, m2.1).1;
            after.playing == g.playing && after.opponent == g.opponent
  {
    AppliedPassesTurn(g, m1.0, m1.1);
    AppliedPassesTurn(Step(g, m1.0, m1.1).1, m2.0, m2.1);
  }

  // -------------------------------------------------------- classification

  /** A pawn that captures diagonally onto the last rank is classified as a
      promotion, whose test is the straight move geometry, so it is refused. */
  lemma CapturePromotionRefused(g: GameState, from: Coords, to: Coords)
    requires Resolve(g, from, to).Some?
    requires var p := At(g.board, from).value;
             p.kind == Pawn && p.coords == Some(from) && to.x != from.x
             && to.y == (if p.color == White then 7 else 0)
    ensures Step(g, from, to).0 == IllegalMove
  {
    var a := Resolve(g, from, to).value;
    assert MoveType(a) == Promotion;
    assert !LegalMove(a.piece, to);
  }

  /** A pawn moving straight onto an occupied last-rank square is classified as a
      promotion, not a capture; when the move is applied the new queen takes the
      square and the piece that stood there is gone. */
  lemma StraightPromotionOverwrites(g: GameState, from: Coords, to: Coords)
    requires Resolve(g, from, to).Some? && At(g.board, to).Some?
    requires var p := At(g.board, from).value;
             p.kind == Pawn && to.x == from.x && to.y == (if p.color == White then 7 else 0)
    ensures MoveType(Resolve(g, from, to).value) == Promotion
    ensures Step(g, from, to).0 == Applied ==>
              At(Step(g, from, to).1.board, to) == Some(PromotedQueen(Resolve(g, from, to).value))
  {
    var a := Resolve(g, from, to).value;
    assert !CastleMove(a);
    if Step(g, from, to).0 == Applied {
      AppliedPassesTurn(g, from, to);
    }
  }

  /** En passant is recognised as a capture, but `_capture` dereferences the empty
      destination: such a move never completes. */
  lemma EnPassantNeverApplied(g: GameState, from: Coords, to: Coords)
    requires Resolve(g, from, to).Some? && At(g.board, to).None?
    requires EnPassant(Resolve(g, from, to).value)
    ensures Step(g, from, to).0 != Applied
  {
    var a := Resolve(g, from, to).value;
    assert MoveType(a) != Castle;
    if MoveType(a) == Capture {
      assert Execute(a, Capture).None?;
    }
  }

  /** A castle whose rook corner is empty passes `_legal_castle` (an empty corner
      does not count as a moved rook) but faults in the executor. */
  lemma CastleWithoutRookNeverApplied(g: GameState, from: Coords, to: Coords)
    requires Resolve(g, from, to).Some? && MoveType(Resolve(g, from, to).value) == Castle
    requires At(g.board, Coords(if to.x == 2 then 0 else 7, to.y)).None?
    ensures !RookMoved(Resolve(g, from, to).value)
    ensures Step(g, from, to).0 != Applied
  {
    var a := Resolve(g, from, to).value;
    assert RookCorner(a) == Coords(if to.x == 2 then 0 else 7, to.y);
    assert Execute(a, Castle).None?;
  }

  // ---------------------------------------------------------- castling

  /** `_legal_castle` on the board: the king has not moved, the corner does not
      hold a moved rook of the side to play, and the king's square, the square it
      passes and the square it lands on are not attacked, the last two empty. */
  lemma LegalCastleOnBoard(a: Attempt)
    requires (a.to.y == 0 || a.to.y == 7) && (a.to.x == 2 || a.to.x == 6)
    requires FindKing(a.board, a.playing).Some?
    ensures var passed := Coords(if a.to.x == 6 then 5 else 3, a.to.y);
            LegalCastle(a) <==>
              && !FindKing(a.board, a.playing).value.moved
              && !(Is(At(a.board, RookCorner(a)), Rook, a.playing) && At(a.board, RookCorner(a)).value.moved)
              && !KingInCheckAt(a.board, a.playing, a.from)
              && At(a.board, passed).None? && !KingInCheckAt(a.board, a.playing, passed)
              && At(a.board, a.to).None? && !KingInCheckAt(a.board, a.playing, a.to)
  {
    var passed := Coords(if a.to.x == 6 then 5 else 3, a.to.y);
    var squares := CastleCoords(a);
    assert CoordsBetween(Coords(4, a.to.y), a.to) == [passed];
    assert squares == [passed, a.to];
    assert KingMoved(a) == FindKing(a.board, a.playing).value.moved;
    assert RookMoved(a) == (Is(At(a.board, RookCorner(a)), Rook, a.playing) && At(a.board, RookCorner(a)).value.moved);
    var clear := forall c :: c in squares ==> At(a.board, c).None? && !KingInCheckAt(a.board, a.playing, c);
    assert clear == (&& At(a.board, passed).None? && !KingInCheckAt(a.board, a.playing, passed)
                     && At(a.board, a.to).None? && !KingInCheckAt(a.board, a.playing, a.to)) by {
      assert squares[0] == passed && squares[1] == a.to;
      assert forall c :: c in squares <==> c == passed || c == a.to;
    }
    assert LegalCastle(a) == (!KingMoved(a) && !RookMoved(a) && !KingInCheckAt(a.board, a.playing, a.from) && clear);
  }

  /** `castling` of the helpers recognises every castle the engine classifies, and
      the engine classifies every castle of the helpers whose rank matches the
      king's colour. */
  lemma CastleMoveIsCastling(a: Attempt)
    requires a.piece.coords == Some(a.from)
    ensures CastleMove(a) ==> ChessHelper.Castling(a.piece, a.to)
    ensures ChessHelper.Castling(a.piece, a.to) && (a.piece.color == White <==> a.from.y == 0) ==> CastleMove(a)
  {
  }

  // ------------------------------------------------------ recorded squares

  /** A plain move or capture keeps every piece recording its own square. */
  lemma AfterMoveKeepsSynced(a: Attempt)
    requires Synced(a.board)
    ensures Synced(AfterMove(a))
  {
  }

  /** A promotion keeps every piece recording its own square. */
  lemma AfterPromoteKeepsSynced(a: Attempt)
    requires Synced(a.board)
    ensures Synced(AfterPromote(a))
  {
  }

  /** The castle executors carry king and rook over without updating `coords`: from
      a board where every piece records its square, the castled king still records
      e-file and the rook its corner. */
  lemma CastleLeavesStaleCoords(b: Board, rank: Coord, kingSide: bool)
    requires Synced(b) && CastleResult(b, rank, kingSide).Some?
    ensures var after := CastleResult(b, rank, kingSide).value;
            && At(after, Coords(if kingSide then 6 else 2, rank)).value.coords == Some(Coords(4, rank))
            && At(after, Coords(if kingSide then 5 else 3, rank)).value.coords == Some(Coords(if kingSide then 7 else 0, rank))
            && !Synced(after)
  {
    var after := CastleResult(b, rank, kingSide).value;
    var kingDest := Coords(if kingSide then 6 else 2, rank);
    assert At(after, kingDest).Some? && At(after, kingDest).value.coords != Some(kingDest);
  }
}
