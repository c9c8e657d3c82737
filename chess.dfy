/** A chess piece (team and kind), the values it works with, and its move generator.
    The board is a read-only snapshot; a call never changes it. Only the king and
    the pawn rules exist: the other four kinds fail with "Not implemented". */
module Chess {

  datatype Option<T> = None | Some(value: T)

  /** Either the computed value, or the message of the exception the call throws. */
  datatype Result<T> = Ok(value: T) | Failure(message: string)

  /** The message of the exception thrown by the rules that do not exist yet. */
  const NotImplemented: string := "Not implemented"

  datatype TeamColor = White | Black

  datatype PieceType = King | Queen | Bishop | Knight | Rook | Pawn

  /** A square: 1-based row and column. The type itself allows any integers;
      the playing area is InBounds. */
  datatype Position = Position(row: int, column: int)

  /** A move from one square to another, with the kind a pawn promotes to (if any). */
  datatype Move = Move(startPosition: Position, endPosition: Position, promotionPiece: Option<PieceType>)

  /** A read-only snapshot of the board: the pieces standing on squares. */
  datatype ChessBoard = ChessBoard(pieces: map<Position, ChessPiece>)
  {
    /** The piece on `p`, or None when no piece stands there. */
    function GetPiece(p: Position): Option<ChessPiece> {
      if p in pieces then Some(pieces[p]) else None
    }
  }

  predicate InBounds(p: Position) {
    1 <= p.row <= 8 && 1 <= p.column <= 8
  }

  /** The destination squares of a list of moves. */
  function Ends(moves: seq<Move>): set<Position> {
    set m | m in moves :: m.endPosition
  }

  /** No two moves of the list end on the same square. */
  predicate DistinctEnds(moves: seq<Move>) {
    forall i, j :: 0 <= i < j < |moves| ==> moves[i].endPosition != moves[j].endPosition
  }

  /** Every move starts at `from` and carries no promotion piece. */
  predicate AllFrom(moves: seq<Move>, from: Position) {
    forall m :: m in moves ==> m.startPosition == from && m.promotionPiece == None
  }

  /** `p` is empty or holds a piece of the team other than `color`. */
  predicate EmptyOrEnemy(board: ChessBoard, color: TeamColor, p: Position) {
    board.GetPiece(p).None? || board.GetPiece(p).value.pieceColor != color
  }

  /** `p` holds a piece of the team other than `color`. */
  predicate Enemy(board: ChessBoard, color: TeamColor, p: Position) {
    board.GetPiece(p).Some? && board.GetPiece(p).value.pieceColor != color
  }

  /** `to` is one of the eight squares around `from`. */
  predicate KingStep(from: Position, to: Position) {
    to != from && -1 <= to.row - from.row <= 1 && -1 <= to.column - from.column <= 1
  }

  /** The bounds test the king rule makes before it looks at a neighbouring square:
      a step up needs row < 8, a step down row > 1, a step left column > 1 and a
      step right column < 8 (a diagonal step needs both of its tests). */
  predicate StepChecked(from: Position, to: Position) {
    && (to.row > from.row ==> from.row < 8)
    && (to.row < from.row ==> from.row > 1)
    && (to.column < from.column ==> from.column > 1)
    && (to.column > from.column ==> from.column < 8)
  }

  /** A king of `color` at `from` may move to `to`. */
  predicate KingMayEnter(board: ChessBoard, color: TeamColor, from: Position, to: Position) {
    KingStep(from, to) && StepChecked(from, to) && EmptyOrEnemy(board, color, to)
  }

  /** A pawn of `color` at `from` may move to `to`: straight up onto an empty square,
      or diagonally up onto an enemy piece. "Up" is row + 1 for both teams, and
      each square is preceded by the same bounds tests as the king's. */
  predicate PawnMayEnter(board: ChessBoard, color: TeamColor, from: Position, to: Position) {
    && from.row < 8
    && to.row == from.row + 1
    && (|| (to.column == from.column && board.GetPiece(to).None?)
        || (to.column == from.column - 1 && from.column > 1 && Enemy(board, color, to))
        || (to.column == from.column + 1 && from.column < 8 && Enemy(board, color, to)))
  }

  /** `moves` is a correct answer of the king rule: moves from `from` without
      promotion, one per square, ending on exactly the squares the king may enter. */
  ghost predicate IsKingMoveList(board: ChessBoard, color: TeamColor, from: Position, moves: seq<Move>) {
    && AllFrom(moves, from)
    && DistinctEnds(moves)
    && forall to :: to in Ends(moves) <==> KingMayEnter(board, color, from, to)
  }

  /** `moves` is a correct answer of the pawn rule, in the same sense. */
  ghost predicate IsPawnMoveList(board: ChessBoard, color: TeamColor, from: Position, moves: seq<Move>) {
    && AllFrom(moves, from)
    && DistinctEnds(moves)
    && forall to :: to in Ends(moves) <==> PawnMayEnter(board, color, from, to)
  }

  /** `r` is a correct answer of the move generator for `piece` at `from`. */
  ghost predicate IsPieceMovesResult(piece: ChessPiece, board: ChessBoard, from: Position, r: Result<seq<Move>>) {
    match piece.pieceType
    case King => r.Ok? && IsKingMoveList(board, piece.pieceColor, from, r.value)
    case Pawn => r.Ok? && IsPawnMoveList(board, piece.pieceColor, from, r.value)
    case _ => r == Failure(NotImplemented)
  }

  // The king rule looks at the neighbouring squares in a fixed order. The definitions
  // below follow that order, so that the rule can be proved one square at a time.

  /** The `i`-th neighbour of `from` in the king rule's order: up, down, left, right,
      up-left, up-right, down-left, down-right. */
  function Neighbour(from: Position, i: nat): Position
    requires i < 8
  {
    var r, c := from.row, from.column;
    match i
    case 0 => Position(r + 1, c)
    case 1 => Position(r - 1, c)
    case 2 => Position(r, c - 1)
    case 3 => Position(r, c + 1)
    case 4 => Position(r + 1, c - 1)
    case 5 => Position(r + 1, c + 1)
    case 6 => Position(r - 1, c - 1)
    case _ => Position(r - 1, c + 1)
  }

  /** Where `to` comes in the king rule's order, or 8 when it is not a neighbour of `from`. */
  function NeighbourIndex(from: Position, to: Position): (i: nat)
    ensures i <= 8
    ensures i < 8 ==> Neighbour(from, i) == to
  {
    var dr, dc := to.row - from.row, to.column - from.column;
    if dr == 1 && dc == 0 then 0
    else if dr == -1 && dc == 0 then 1
    else if dr == 0 && dc == -1 then 2
    else if dr == 0 && dc == 1 then 3
    else if dr == 1 && dc == -1 then 4
    else if dr == 1 && dc == 1 then 5
    else if dr == -1 && dc == -1 then 6
    else if dr == -1 && dc == 1 then 7
    else 8
  }

  /** The neighbours are exactly the king's steps, and each has its own place in the order. */
  lemma NeighbourIndexOf(from: Position, to: Position)
    ensures KingStep(from, to) <==> NeighbourIndex(from, to) < 8
    ensures forall i :: 0 <= i < 8 ==> NeighbourIndex(from, Neighbour(from, i)) == i
  {
  }

  /** The move to `to` if a king of `color` at `from` may enter it, and nothing otherwise. */
  ghost function KingKept(board: ChessBoard, color: TeamColor, from: Position, to: Position): seq<Move> {
    if KingMayEnter(board, color, from, to) then [Move(from, to, None)] else []
  }

  /** What the king rule has collected after looking at the first `k` neighbours. */
  ghost function KingScan(board: ChessBoard, color: TeamColor, from: Position, k: nat): seq<Move>
    requires k <= 8
  {
    if k == 0 then [] else KingScan(board, color, from, k - 1) + KingKept(board, color, from, Neighbour(from, k - 1))
  }

  /** After the first `k` neighbours the collected moves start at `from`, carry no
      promotion, end on different squares, and end on exactly those of the first `k`
      neighbours the king may enter. */
  lemma {:induction false} KingScanCorrect(board: ChessBoard, color: TeamColor, from: Position, k: nat)
    requires k <= 8
    ensures var moves := KingScan(board, color, from, k);
      && |moves| <= k
      && AllFrom(moves, from)
      && DistinctEnds(moves)
      && forall to :: to in Ends(moves) <==> NeighbourIndex(from, to) < k && KingMayEnter(board, color, from, to)
  {
    if k > 0 {
      KingScanCorrect(board, color, from, k - 1);
      var before := KingScan(board, color, from, k - 1);
      var last := Neighbour(from, k - 1);
      NeighbourIndexOf(from, last);
      if KingMayEnter(board, color, from, last) {
        var moves := before + [Move(from, last, None)];
        assert forall m :: m in moves <==> m in before || m == Move(from, last, None);
        assert Ends(moves) == Ends(before) + {last};
        forall i | 0 <= i < |before| ensures NeighbourIndex(from, before[i].endPosition) < k - 1 {
          assert before[i] in before;
        }
      }
    }
  }

  /** Having looked at all eight neighbours, the king rule has met its contract. */
  lemma KingScanComplete(board: ChessBoard, color: TeamColor, from: Position)
    ensures IsKingMoveList(board, color, from, KingScan(board, color, from, 8))
    ensures |KingScan(board, color, from, 8)| <= 8
  {
    KingScanCorrect(board, color, from, 8);
    forall to ensures KingMayEnter(board, color, from, to) ==> NeighbourIndex(from, to) < 8 {
      NeighbourIndexOf(from, to);
    }
  }

  /** A piece: its team and its kind, and nothing else. */
  datatype ChessPiece = ChessPiece(pieceColor: TeamColor, pieceType: PieceType)
  {
    /** Equality with an arbitrary object; None stands for null or for an object
        that is not a piece. Two pieces are equal when team and kind agree. */
    predicate Equals(o: Option<ChessPiece>)
      ensures Equals(o) <==> o == Some(this)
    {
      match o
      case None => false
      case Some(that) => pieceColor == that.pieceColor && pieceType == that.pieceType
    }

    /** The moves of this piece from `myPosition`, by its own kind. The board is not
        asked what stands on `myPosition`. */
    method PieceMoves(board: ChessBoard, myPosition: Position) returns (moves: Result<seq<Move>>)
      ensures IsPieceMovesResult(this, board, myPosition, moves)
    {
      match pieceType
      case King =>
        var kingMoves := KingMoves(board, myPosition);
        moves := Ok(kingMoves);
      case Queen =>
        moves := Failure(NotImplemented);
      case Bishop =>
        moves := Failure(NotImplemented);
      case Knight =>
        moves := Failure(NotImplemented);
      case Rook =>
        moves := Failure(NotImplemented);
      case Pawn =>
        var pawnMoves := PawnMoves(board, myPosition);
        moves := Ok(pawnMoves);
    }

    /** The king rule: look at the eight neighbouring squares in turn, each behind its
        bounds test, and keep those that are empty or hold an enemy piece. */
    method KingMoves(board: ChessBoard, myPosition: Position) returns (moves: seq<Move>)
      ensures IsKingMoveList(board, pieceColor, myPosition, moves)
      ensures |moves| <= 8
    {
      moves := [];
      moves := KingProbe(board, myPosition, 1, 0, moves, 0);    // up
      moves := KingProbe(board, myPosition, -1, 0, moves, 1);   // down
      moves := KingProbe(board, myPosition, 0, -1, moves, 2);   // left
      moves := KingProbe(board, myPosition, 0, 1, moves, 3);    // right
      moves := KingProbe(board, myPosition, 1, -1, moves, 4);   // up-left
      moves := KingProbe(board, myPosition, 1, 1, moves, 5);    // up-right
      moves := KingProbe(board, myPosition, -1, -1, moves, 6);  // down-left
      moves := KingProbe(board, myPosition, -1, 1, moves, 7);   // down-right
      KingScanComplete(board, pieceColor, myPosition);
    }

    /** One of the king rule's eight probes, one step in direction (dRow, dColumn): the
        bounds test of that direction (row < 8 going up, row > 1 going down, column > 1
        going left, column < 8 going right), then the board lookup, and the move is
        added when the square is empty or holds an enemy piece. The probe is the
        `index`-th in the rule's order, and extends what the earlier probes collected. */
    method KingProbe(board: ChessBoard, myPosition: Position, dRow: int, dColumn: int, moves: seq<Move>, ghost index: nat)
      returns (moves': seq<Move>)
      requires index < 8 && Neighbour(myPosition, index) == Position(myPosition.row + dRow, myPosition.column + dColumn)
      requires moves == KingScan(board, pieceColor, myPosition, index)
      ensures moves' == KingScan(board, pieceColor, myPosition, index + 1)
      ensures moves' == moves + KingKept(board, pieceColor, myPosition,
                                         Position(myPosition.row + dRow, myPosition.column + dColumn))
    {
      var row, col := myPosition.row, myPosition.column;
      moves' := moves;
      if (dRow == 1 ==> row < 8) && (dRow == -1 ==> row > 1) && (dColumn == -1 ==> col > 1) && (dColumn == 1 ==> col < 8) {
        var to := Position(row + dRow, col + dColumn);
        var toPiece := board.GetPiece(to);
        if toPiece.None? || toPiece.value.pieceColor != pieceColor {
          moves' := moves + [Move(myPosition, to, None)];
        }
      }
    }

    /** The pawn rule: one square up (row + 1) when it is empty, then up-left and
        up-right when they hold an enemy piece. */
    method PawnMoves(board: ChessBoard, myPosition: Position) returns (moves: seq<Move>)
      ensures IsPawnMoveList(board, pieceColor, myPosition, moves)
      ensures |moves| <= 3
    {
      var row, col := myPosition.row, myPosition.column;
      moves := [];
      if row < 8 {
        var up := Position(row + 1, col);
        var upPiece := board.GetPiece(up);
        if upPiece.None? {
          moves := moves + [Move(myPosition, up, None)];
        }
      }
      if row < 8 && col > 1 {
        var upLeft := Position(row + 1, col - 1);
        var upLeftPiece := board.GetPiece(upLeft);
        if upLeftPiece.Some? && upLeftPiece.value.pieceColor != pieceColor {
          moves := moves + [Move(myPosition, upLeft, None)];
        }
      }
      if row < 8 && col < 8 {
        var upRight := Position(row + 1, col + 1);
        var upRightPiece := board.GetPiece(upRight);
        if upRightPiece.Some? && upRightPiece.value.pieceColor != pieceColor {
          moves := moves + [Move(myPosition, upRight, None)];
        }
      }
    }
  }
}
