# Chess piece move generator

A model of the move generator of `ChessPiece` in a Java chess project. A piece is a
pair of a team colour and a kind. Given a board and a square, `pieceMoves`
dispatches on the piece's own kind:

- The king rule looks at the eight neighbouring squares one at a time. Each probe
  sits behind a bounds test (`row < 8` going up, `row > 1` going down,
  `column > 1` going left, `column < 8` going right). It keeps the square when it
  is empty or holds a piece of the other team.
- The pawn rule steps to row + 1 onto an empty square. It also moves diagonally to
  row + 1, column ± 1 when an enemy piece stands there.
- The queen, bishop, knight and rook rules throw a `RuntimeException` with the
  message "Not implemented".

Layout:

- `chess.dfy`, module `Chess`, holds the data model and the specification
  predicates.
  - Values: `TeamColor`, `PieceType`, `Position`, `Move`, and a read-only
    `ChessBoard` snapshot with its `GetPiece` lookup.
  - Specification predicates: `IsKingMoveList`, `IsPawnMoveList`,
    `IsPieceMovesResult`.
  - The generator itself: methods of the `ChessPiece` datatype.
- `chess_properties.dfy`, module `ChessProperties`, proves what follows from those
  contracts: counts, bounds, no own-team capture, and uniqueness of the answer.

Modelling decisions:

- The two rules that exist append to a growing list of moves. So `KingMoves` and
  `PawnMoves` are methods that grow a sequence, in the source's order.
- `PieceMoves` calls them, so it is a method too.
- An exception is a `Failure(message)` result.
- A piece's fields are never updated, so `ChessPiece` is a datatype, and its
  getters are its fields.
- The board is a value, so no call can change it.

The model follows the code where it departs from the usual rules of chess:

- In chess the second team's pawns advance toward row - 1. The code always uses
  row + 1, whatever the pawn's team (`ChessPiece.java` lines 207, 216 and 225).
- The queen, bishop, knight and rook have no rule: each throws "Not implemented"
  (lines 159-195).
- No call checks that the board holds this piece at the given square (lines 56-64),
  so nothing fails when that square is empty.
- An origin outside rows and columns 1..8 is not rejected; only the bounds tests
  above exist. Whenever the origin is on the board, the destinations stay on the
  board (proved).

## Model

| member | source | states |
|---|---|---|
| Chess.ChessPiece.Equals | shared/src/main/java/chess/ChessPiece.java:236-241 | a piece equals an object exactly when that object is a piece of the same team and kind; null or a non-piece is never equal |
| Chess.ChessPiece.PieceMoves | shared/src/main/java/chess/ChessPiece.java:56-66 | a king gets a correct king move list, a pawn a correct pawn move list, and the other four kinds the "Not implemented" failure |
| Chess.ChessPiece.KingMoves | shared/src/main/java/chess/ChessPiece.java:75-150 | the result holds moves from the given square with no promotion, one per destination, ending on exactly the neighbouring squares that pass their bounds test and are empty or hold an enemy piece; at most 8 of them |
| Chess.ChessPiece.KingProbe | shared/src/main/java/chess/ChessPiece.java:78-85 | one probe (the block at these lines is the "up" instance of the eight): the move is appended exactly when the direction's bounds test passes and the square is empty or holds an enemy piece, which extends the scan of the earlier neighbours by one |
| Chess.ChessPiece.PawnMoves | shared/src/main/java/chess/ChessPiece.java:204-234 | the result holds moves from the given square with no promotion, one per destination, ending on exactly the empty square above and the diagonal squares above that hold an enemy piece, each behind its bounds test; at most 3 of them |
| Chess.KingScanCorrect | shared/src/main/java/chess/ChessPiece.java:76-148 | after the first k of the eight probes, the collected moves are at most k, start at the origin, have distinct destinations and end on exactly those of the first k neighbours the king may enter |
| Chess.KingScanComplete | shared/src/main/java/chess/ChessPiece.java:75-150 | after all eight probes the collected list meets the king rule's contract and has at most 8 moves |
| ChessProperties.KingAtMostEight | shared/src/main/java/chess/ChessPiece.java:75-150 | any correct king move list has at most 8 moves |
| ChessProperties.KingMoveShape | shared/src/main/java/chess/ChessPiece.java:78-148 | every king move starts at the origin, has no promotion, goes one step, never lands on a piece of the king's own team, and stays on the board when the origin is on the board |
| ChessProperties.KingMovesOnBoard | shared/src/main/java/chess/ChessPiece.java:78-148 | from a square on the board, a destination is included exactly when it is a neighbouring square on the board that is empty or holds an enemy piece |
| ChessProperties.KingEmptyBoardCentre | shared/src/main/java/chess/ChessPiece.java:75-150 | on an empty board, from rows and columns 2..7, the king has exactly 8 moves, one to each neighbouring square |
| ChessProperties.KingEmptyBoardCorner | shared/src/main/java/chess/ChessPiece.java:78-148 | on an empty board, from row 1, column 1, the king has exactly 3 moves: to (2,1), (1,2) and (2,2) |
| ChessProperties.KingMovesUnique | shared/src/main/java/chess/ChessPiece.java:75-150 | two correct king move lists for the same board and square hold the same moves and the same number of them, so repeated calls agree up to order |
| ChessProperties.PawnMoveShape | shared/src/main/java/chess/ChessPiece.java:204-234 | every pawn move, for either team, goes to row + 1 and at most one column aside; straight ahead only onto an empty square and diagonally only onto an enemy piece; it stays on the board when the origin is on it; there are at most 3 moves |
| ChessProperties.PawnTargets | shared/src/main/java/chess/ChessPiece.java:207-232 | the square straight above is included exactly when row < 8 and it is empty; the square above-left exactly when row < 8, column > 1 and it holds an enemy piece; above-right likewise with column < 8; from row 8 or beyond there are no moves |
| ChessProperties.PawnEmptyBoard | shared/src/main/java/chess/ChessPiece.java:207-214 | on an empty board the pawn has exactly one move, the step to row + 1, when row < 8, and none otherwise |
| ChessProperties.PawnMovesUnique | shared/src/main/java/chess/ChessPiece.java:204-234 | two correct pawn move lists for the same board and square hold the same moves and the same number of them |
| ChessProperties.PieceMovesOutcome | shared/src/main/java/chess/ChessPiece.java:159-195 | a result is a move list exactly for a king or a pawn, and the failure is "Not implemented"; listed moves start at the origin, have no promotion, never land on the mover's own team, number at most 8, and stay on the board when the origin is on it |

## Left out

- `hashCode`: not modelled. It delegates to the library's `Objects.hash`, whose values are not part of this model.
- `toString`: not modelled. It maps each piece to a Unicode chess glyph and has no behaviour.
- `ChessBoard`, `ChessPosition`, `ChessMove` and `ChessGame` are not part of this model. They appear only as a read-only map from squares to pieces, a pair of integers, a move triple and a two-valued team colour. What the real board's `getPiece` does for a square off the board is not modelled: the lookup answers "no piece" for any square the map does not hold.
- The order of the returned list is not specified by the contracts. `KingMoves` and `PawnMoves` append in the source's order, but the properties are stated over the set of destinations, the number of moves and their distinctness.
- `KingMoves` runs the source's eight repeated blocks as eight calls to `KingProbe`, one per direction, with the same bounds tests, lookup and test, in the same order.
- The exception is modelled as a `Failure` carrying its message. Exception types and stack unwinding are not modelled.
- Object identity is not modelled. In `Equals`, the `this == o` shortcut has the same outcome as the field comparison, and the parameter is `None` for null or for an object that is not a piece.
