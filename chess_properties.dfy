/** What follows from the contracts of the move generator: how many moves each rule
    yields, where they end, that they never capture a piece of the mover's own team,
    and that any two correct answers hold the same moves. */
module ChessProperties {
  import opened Chess

  /** The destinations of a list are the first move's destination and those of the rest. */
  lemma EndsCons(moves: seq<Move>)
    requires moves != []
    ensures Ends(moves) == {moves[0].endPosition} + Ends(moves[1..])
  {
    assert forall m :: m in moves <==> m == moves[0] || m in moves[1..];
  }

  /** A move list whose moves end on different squares has as many moves as destinations. */
  lemma {:induction false} DistinctEndsCount(moves: seq<Move>)
    requires DistinctEnds(moves)
    ensures |Ends(moves)| == |moves|
  {
    if moves != [] {
      var rest := moves[1..];
      assert DistinctEnds(rest) by {
        forall i, j | 0 <= i < j < |rest| ensures rest[i].endPosition != rest[j].endPosition {
          assert rest[i] == moves[i + 1] && rest[j] == moves[j + 1];
        }
      }
      DistinctEndsCount(rest);
      EndsCons(moves);
      assert moves[0].endPosition !in Ends(rest) by {
        forall m | m in rest ensures m.endPosition != moves[0].endPosition {
          var i :| 0 <= i < |rest| && rest[i] == m;
          assert moves[i + 1] == m;
        }
      }
    }
  }

  /** A subset is no larger than the set that holds it. */
  lemma SubsetSize<T>(a: set<T>, b: set<T>)
    requires a <= b
    ensures |a| <= |b|
  {
    assert b == a + (b - a);
  }

  /** Two move lists from `from` without promotions and with distinct destinations
      that end on the same squares hold the same moves, and as many of them. */
  lemma SameEndsSameMoves(from: Position, a: seq<Move>, b: seq<Move>)
    requires AllFrom(a, from) && DistinctEnds(a)
    requires AllFrom(b, from) && DistinctEnds(b)
    requires Ends(a) == Ends(b)
    ensures (set m | m in a) == (set m | m in b)
    ensures |a| == |b|
  {
    forall m | m in a ensures m in b {
      assert m.endPosition in Ends(b);
      var m' :| m' in b && m'.endPosition == m.endPosition;
    }
    forall m | m in b ensures m in a {
      assert m.endPosition in Ends(a);
      var m' :| m' in a && m'.endPosition == m.endPosition;
    }
    DistinctEndsCount(a);
    DistinctEndsCount(b);
  }

  /** Any two correct answers of the king rule for the same board and square hold the
      same moves, as many of them (possibly in another order). */
  lemma KingMovesUnique(board: ChessBoard, color: TeamColor, from: Position, a: seq<Move>, b: seq<Move>)
    requires IsKingMoveList(board, color, from, a)
    requires IsKingMoveList(board, color, from, b)
    ensures (set m | m in a) == (set m | m in b)
    ensures |a| == |b|
  {
    assert Ends(a) == Ends(b);
    SameEndsSameMoves(from, a, b);
  }

  /** Any two correct answers of the pawn rule hold the same moves, as many of them. */
  lemma PawnMovesUnique(board: ChessBoard, color: TeamColor, from: Position, a: seq<Move>, b: seq<Move>)
    requires IsPawnMoveList(board, color, from, a)
    requires IsPawnMoveList(board, color, from, b)
    ensures (set m | m in a) == (set m | m in b)
    ensures |a| == |b|
  {
    assert Ends(a) == Ends(b);
    SameEndsSameMoves(from, a, b);
  }

  /** A king has at most eight moves. */
  lemma KingAtMostEight(board: ChessBoard, color: TeamColor, from: Position, moves: seq<Move>)
    requires IsKingMoveList(board, color, from, moves)
    ensures |moves| <= 8
  {
    KingScanComplete(board, color, from);
    KingMovesUnique(board, color, from, moves, KingScan(board, color, from, 8));
  }

  /** Every king move goes one step from the king's square to a square that is empty
      or holds an enemy piece, so a king never captures a piece of its own team; from
      a square on the board, it stays on the board. */
  lemma KingMoveShape(board: ChessBoard, color: TeamColor, from: Position, moves: seq<Move>)
    requires IsKingMoveList(board, color, from, moves)
    ensures forall m :: m in moves ==>
      && m.startPosition == from
      && m.promotionPiece == None
      && KingStep(from, m.endPosition)
      && (board.GetPiece(m.endPosition).None? || board.GetPiece(m.endPosition).value.pieceColor != color)
      && (InBounds(from) ==> InBounds(m.endPosition))
  {
    forall m | m in moves ensures KingMayEnter(board, color, from, m.endPosition) {
      assert m.endPosition in Ends(moves);
    }
  }

  /** From a square on the board, the bounds tests let through exactly the steps that
      stay on the board: the king's destinations are the neighbouring squares on the
      board that are empty or hold an enemy piece. */
  lemma KingMovesOnBoard(board: ChessBoard, color: TeamColor, from: Position, moves: seq<Move>)
    requires InBounds(from)
    requires IsKingMoveList(board, color, from, moves)
    ensures forall to :: to in Ends(moves) <==>
      KingStep(from, to) && InBounds(to) && EmptyOrEnemy(board, color, to)
  {
    forall to | KingStep(from, to) ensures StepChecked(from, to) <==> InBounds(to) {
    }
  }

  /** On an empty board a king away from the edges keeps every neighbour it looks at. */
  lemma {:induction false} KingScanFull(color: TeamColor, from: Position, k: nat)
    requires 2 <= from.row <= 7 && 2 <= from.column <= 7
    requires k <= 8
    ensures |KingScan(ChessBoard(map[]), color, from, k)| == k
  {
    if k > 0 {
      KingScanFull(color, from, k - 1);
      assert KingMayEnter(ChessBoard(map[]), color, from, Neighbour(from, k - 1));
    }
  }

  /** On an empty board a king away from the edges has all eight moves, one to each
      neighbouring square. */
  lemma KingEmptyBoardCentre(color: TeamColor, from: Position, moves: seq<Move>)
    requires 2 <= from.row <= 7 && 2 <= from.column <= 7
    requires IsKingMoveList(ChessBoard(map[]), color, from, moves)
    ensures |moves| == 8
    ensures forall to :: to in Ends(moves) <==> KingStep(from, to)
  {
    var empty := ChessBoard(map[]);
    KingScanFull(color, from, 8);
    KingScanComplete(empty, color, from);
    KingMovesUnique(empty, color, from, moves, KingScan(empty, color, from, 8));
  }

  /** On an empty board a king in the corner at row 1, column 1 has three moves. */
  lemma KingEmptyBoardCorner(color: TeamColor, moves: seq<Move>)
    requires IsKingMoveList(ChessBoard(map[]), color, Position(1, 1), moves)
    ensures Ends(moves) == {Position(2, 1), Position(1, 2), Position(2, 2)}
    ensures |moves| == 3
  {
    var from := Position(1, 1);
    KingMovesOnBoard(ChessBoard(map[]), color, from, moves);
    DistinctEndsCount(moves);
  }

  /** The pawn's three candidate squares, all on the row above `from`. */
  function PawnSquares(from: Position): (s: set<Position>)
    ensures |s| == 3
    ensures forall to :: to in s <==> to.row == from.row + 1 && from.column - 1 <= to.column <= from.column + 1
  {
    var r, c := from.row, from.column;
    { Position(r + 1, c - 1), Position(r + 1, c), Position(r + 1, c + 1) }
  }

  /** Every pawn move, for either team, goes to the row above (row + 1) and at most one
      column aside: straight ahead onto an empty square, diagonally only onto an enemy
      piece (never one of its own team). From a square on the board it stays on the
      board, and there are at most three moves. */
  lemma PawnMoveShape(board: ChessBoard, color: TeamColor, from: Position, moves: seq<Move>)
    requires IsPawnMoveList(board, color, from, moves)
    ensures |moves| <= 3
    ensures forall m :: m in moves ==>
      && m.startPosition == from
      && m.promotionPiece == None
      && m.endPosition.row == from.row + 1
      && from.column - 1 <= m.endPosition.column <= from.column + 1
      && (m.endPosition.column == from.column ==> board.GetPiece(m.endPosition).None?)
      && (m.endPosition.column != from.column ==> Enemy(board, color, m.endPosition))
      && (InBounds(from) ==> InBounds(m.endPosition))
  {
    forall m | m in moves ensures PawnMayEnter(board, color, from, m.endPosition) {
      assert m.endPosition in Ends(moves);
    }
    assert Ends(moves) <= PawnSquares(from);
    SubsetSize(Ends(moves), PawnSquares(from));
    DistinctEndsCount(moves);
  }

  /** The pawn's three candidate squares, each on its own condition; a pawn on row 8 or
      beyond has no move at all. */
  lemma PawnTargets(board: ChessBoard, color: TeamColor, from: Position, moves: seq<Move>)
    requires IsPawnMoveList(board, color, from, moves)
    ensures var r, c := from.row, from.column;
      && (Position(r + 1, c) in Ends(moves) <==> r < 8 && board.GetPiece(Position(r + 1, c)).None?)
      && (Position(r + 1, c - 1) in Ends(moves) <==> r < 8 && c > 1 && Enemy(board, color, Position(r + 1, c - 1)))
      && (Position(r + 1, c + 1) in Ends(moves) <==> r < 8 && c < 8 && Enemy(board, color, Position(r + 1, c + 1)))
    ensures from.row >= 8 ==> moves == []
  {
    assert moves != [] ==> moves[0].endPosition in Ends(moves);
  }

  /** On an empty board a pawn has exactly its forward step, or no move at all from
      row 8 or beyond. */
  lemma PawnEmptyBoard(color: TeamColor, from: Position, moves: seq<Move>)
    requires IsPawnMoveList(ChessBoard(map[]), color, from, moves)
    ensures Ends(moves) == if from.row < 8 then {Position(from.row + 1, from.column)} else {}
    ensures |moves| == if from.row < 8 then 1 else 0
  {
    DistinctEndsCount(moves);
  }

  /** What a result of the move generator says: a list of moves for a king or a pawn and
      the "Not implemented" failure for the four other kinds; the moves start at the
      given square, carry no promotion, never land on a piece of the mover's own team,
      number at most eight, and stay on the board when they start on it. */
  lemma PieceMovesOutcome(piece: ChessPiece, board: ChessBoard, from: Position, r: Result<seq<Move>>)
    requires IsPieceMovesResult(piece, board, from, r)
    ensures r.Ok? <==> piece.pieceType == King || piece.pieceType == Pawn
    ensures r.Failure? ==> r.message == "Not implemented"
    ensures r.Ok? ==> |r.value| <= 8 && forall m :: m in r.value ==>
      && m.startPosition == from
      && m.promotionPiece == None
      && EmptyOrEnemy(board, piece.pieceColor, m.endPosition)
      && (InBounds(from) ==> InBounds(m.endPosition))
  {
    match piece.pieceType
    case King =>
      KingAtMostEight(board, piece.pieceColor, from, r.value);
      KingMoveShape(board, piece.pieceColor, from, r.value);
    case Pawn =>
      PawnMoveShape(board, piece.pieceColor, from, r.value);
    case _ =>
  }
}
