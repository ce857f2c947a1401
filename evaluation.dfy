/**
 * The static evaluation of the AI: material plus piece-square bonuses, seen from
 * one colour, with a large term for a mate on the board.
 */
module Evaluation {
  import opened ChessTypes
  import opened Legality

  /** `PIECE_VALUES` */
  function PieceValue(k: Kind): int {
    match k
    case Pawn => 100
    case Knight => 320
    case Bishop => 330
    case Rook => 500
    case Queen => 900
    case King => 20000
  }

  /** `PAWN_TABLE`, indexed from White's side of the board. */
  const PawnTable: seq<seq<int>> := [
    [0,  0,  0,  0,  0,  0,  0,  0],
    [50, 50, 50, 50, 50, 50, 50, 50],
    [10, 10, 20, 30, 30, 20, 10, 10],
    [5,  5, 10, 25, 25, 10,  5,  5],
    [0,  0,  0, 20, 20,  0,  0,  0],
    [5, -5, -10,  0,  0, -10, -5,  5],
    [5, 10, 10, -20, -20, 10, 10,  5],
    [0,  0,  0,  0,  0,  0,  0,  0]
  ]

  /** `KNIGHT_TABLE`, indexed from White's side of the board. */
  const KnightTable: seq<seq<int>> := [
    [-50, -40, -30, -30, -30, -30, -40, -50],
    [-40, -20,  0,  0,  0,  0, -20, -40],
    [-30,  0, 10, 15, 15, 10,  0, -30],
    [-30,  5, 15, 20, 20, 15,  5, -30],
    [-30,  0, 15, 20, 20, 15,  0, -30],
    [-30,  5, 10, 15, 15, 10,  5, -30],
    [-40, -20,  0,  5,  5,  0, -20, -40],
    [-50, -40, -30, -30, -30, -30, -40, -50]
  ]

  /** Both tables are 8 by 8, so every square can be looked up. */
  lemma TablesAreSquare()
    ensures |PawnTable| == 8 && forall r | 0 <= r < 8 :: |PawnTable[r]| == 8
    ensures |KnightTable| == 8 && forall r | 0 <= r < 8 :: |KnightTable[r]| == 8
  {
  }

  /** `getPositionValue`: Black reads the tables upside down. */
  function PositionValue(piece: Piece, row: int, col: int): int
    requires 0 <= row < 8 && 0 <= col < 8
  {
    TablesAreSquare();
    var adjustedRow := if piece.color == White then row else 7 - row;
    match piece.kind
    case Pawn => PawnTable[adjustedRow][col]
    case Knight => KnightTable[adjustedRow][col]
    case _ => 0
  }

  /** Only pawns and knights get a positional bonus. */
  lemma PositionValueOnlyPawnsAndKnights(piece: Piece, row: int, col: int)
    requires 0 <= row < 8 && 0 <= col < 8
    requires piece.kind != Pawn && piece.kind != Knight
    ensures PositionValue(piece, row, col) == 0
  {
  }

  /** A black piece on the mirrored row gets the bonus a white one gets: the tables are
      shared between the colours by reflection across the middle of the board. */
  lemma PositionValueMirror(kind: Kind, row: int, col: int, movedW: bool, movedB: bool)
    requires 0 <= row < 8 && 0 <= col < 8
    ensures PositionValue(Piece(kind, Black, movedB), 7 - row, col) == PositionValue(Piece(kind, White, movedW), row, col)
  {
  }

  /** The contribution of square `p` to the score of `aiColor`: the piece's value plus
      its bonus, added for an own piece and subtracted for an opposing one. */
  function SquareScore(b: Board, p: Pos, aiColor: Color): int
    requires OnBoard(p)
  {
    match At(b, p)
    case None => 0
    case Some(piece) =>
      var pieceValue := PieceValue(piece.kind) + PositionValue(piece, p.row, p.col);
      if piece.color == aiColor then pieceValue else -pieceValue
  }

  /** The sum of `SquareScore` over the squares before (row, col) in row-major order. */
  function MaterialBefore(b: Board, aiColor: Color, row: int, col: int): int
    requires 0 <= row <= 8 && 0 <= col <= 8 && (row == 8 ==> col == 0)
    decreases row, col
  {
    if col == 0 then
      if row == 0 then 0 else MaterialBefore(b, aiColor, row - 1, 8)
    else MaterialBefore(b, aiColor, row, col - 1) + SquareScore(b, Pos(row, col - 1), aiColor)
  }

  /** The material-plus-position part of the evaluation. */
  function Material(b: Board, aiColor: Color): int {
    MaterialBefore(b, aiColor, |b|, 0)
  }

  /** `evaluateBoard`: the material, minus 10000 when `aiColor` is mated, else plus 10000
      when its opponent is. */
  function Evaluate(b: Board, aiColor: Color): int {
    Material(b, aiColor)
    + (if IsCheckmate(b, aiColor) then -10000
       else if IsCheckmate(b, Opponent(aiColor)) then 10000
       else 0)
  }

  lemma SquareScoreAntisymmetric(b: Board, p: Pos, aiColor: Color)
    requires OnBoard(p)
    ensures SquareScore(b, p, Opponent(aiColor)) == -SquareScore(b, p, aiColor)
  {
  }

  /** Swapping the perspective negates every partial sum of the scan. */
  lemma {:induction false} MaterialBeforeAntisymmetric(b: Board, aiColor: Color, row: int, col: int)
    requires 0 <= row <= 8 && 0 <= col <= 8 && (row == 8 ==> col == 0)
    decreases row, col
    ensures MaterialBefore(b, Opponent(aiColor), row, col) == -MaterialBefore(b, aiColor, row, col)
  {
    if col == 0 {
      if row > 0 {
        MaterialBeforeAntisymmetric(b, aiColor, row - 1, 8);
      }
    } else {
      MaterialBeforeAntisymmetric(b, aiColor, row, col - 1);
      SquareScoreAntisymmetric(b, Pos(row, col - 1), aiColor);
    }
  }

  /** Swapping the perspective colour negates the material-plus-positional part. */
  lemma MaterialAntisymmetric(b: Board, aiColor: Color)
    ensures Material(b, Opponent(aiColor)) == -Material(b, aiColor)
  {
    MaterialBeforeAntisymmetric(b, aiColor, |b|, 0);
  }

  /** Unless both sides stand mated at once, the two perspectives score a board as
      exact opposites: the evaluation is zero-sum. */
  lemma EvaluateAntisymmetric(b: Board, aiColor: Color)
    requires !(IsCheckmate(b, White) && IsCheckmate(b, Black))
    ensures Evaluate(b, Opponent(aiColor)) == -Evaluate(b, aiColor)
  {
    MaterialAntisymmetric(b, aiColor);
    assert Opponent(Opponent(aiColor)) == aiColor;
  }

  /** The body of the double loop of `evaluateBoard` for square (row, col). */
  method AddSquare(score: int, b: Board, row: int, col: int, aiColor: Color) returns (r: int)
    requires 0 <= row < 8 && 0 <= col < 8
    ensures r == score + SquareScore(b, Pos(row, col), aiColor)
  {
    r := score;
    var piece := b[row][col];
    if piece.Some? {
      var pieceValue := PieceValue(piece.value.kind);
      pieceValue := pieceValue + PositionValue(piece.value, row, col);
      if piece.value.color == aiColor {
        r := r + pieceValue;
      } else {
        r := r - pieceValue;
      }
    }
  }

  /** `evaluateBoard`, with the source's double loop accumulating `score`. */
  method EvaluateBoard(b: Board, aiColor: Color) returns (score: int)
    ensures score == Evaluate(b, aiColor)
  {
    score := 0;
    for row := 0 to 8
      invariant score == MaterialBefore(b, aiColor, row, 0)
    {
      for col := 0 to 8
        invariant score == MaterialBefore(b, aiColor, row, col)
      {
        score := AddSquare(score, b, row, col, aiColor);
      }
    }
    if IsCheckmate(b, aiColor) {
      score := score - 10000;
    } else if IsCheckmate(b, Opponent(aiColor)) {
      score := score + 10000;
    }
  }
}
