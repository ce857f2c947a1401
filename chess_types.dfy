/**
 * The data model of the chess engine: pieces, squares, the 8x8 board,
 * move records and the game state held by the game hook.
 */
module ChessTypes {

  datatype Option<+T> = None | Some(value: T)

  datatype Kind = King | Queen | Rook | Bishop | Knight | Pawn

  datatype Color = White | Black

  /** A piece; `hasMoved` is optional in the source and an absent flag reads as false. */
  datatype Piece = Piece(kind: Kind, color: Color, hasMoved: bool)

  /** A square. Coordinates are plain integers because the move generators
      compute candidate squares that may fall off the board. */
  datatype Pos = Pos(row: int, col: int)

  type Cell = Option<Piece>

  type Row = r: seq<Cell> | |r| == 8
    witness [None, None, None, None, None, None, None, None]

  /** Row 0 is Black's back rank, row 7 White's; column 0 is file a. */
  type Board = b: seq<Row> | |b| == 8
    witness var e: Row := [None, None, None, None, None, None, None, None]; [e, e, e, e, e, e, e, e]

  /** A move record as stored in the move history. */
  datatype Move = Move(
    from: Pos,
    to: Pos,
    piece: Piece,
    capturedPiece: Option<Piece>,
    isEnPassant: bool,
    isCastling: bool,
    promotion: Option<Kind>,
    notation: string)

  datatype Status = Playing | Checkmate | Stalemate | Draw

  /** The captured pieces, one list per colour of the captured piece. */
  datatype Captured = Captured(white: seq<Piece>, black: seq<Piece>) {
    function Of(c: Color): seq<Piece> {
      if c == White then white else black
    }

    /** Appends `p` to the list of its own colour. */
    function Add(p: Piece): (r: Captured)
      ensures r.Of(p.color) == Of(p.color) + [p]
      ensures r.Of(Opponent(p.color)) == Of(Opponent(p.color))
    {
      if p.color == White then Captured(white + [p], black) else Captured(white, black + [p])
    }
  }

  datatype GameState = GameState(
    board: Board,
    currentPlayer: Color,
    selectedSquare: Option<Pos>,
    validMoves: seq<Pos>,
    lastMove: Option<Move>,
    moveHistory: seq<Move>,
    capturedPieces: Captured,
    isCheck: bool,
    isCheckmate: bool,
    isStalemate: bool,
    gameStatus: Status,
    enPassantTarget: Option<Pos>)

  function Opponent(c: Color): Color {
    if c == White then Black else White
  }

  function Abs(x: int): nat {
    if x < 0 then -x else x
  }

  /** Concatenation is associative; stated once so that loop proofs can cite it. */
  lemma AppendAssoc<T>(x: seq<T>, y: seq<T>, z: seq<T>)
    ensures (x + y) + z == x + (y + z)
  {
  }

  /** `isValidPosition`: both coordinates in 0..7. */
  predicate OnBoard(p: Pos) {
    0 <= p.row < 8 && 0 <= p.col < 8
  }

  function At(b: Board, p: Pos): Cell
    requires OnBoard(p)
  {
    b[p.row][p.col]
  }

  /** The board with square `p` overwritten and every other square kept. */
  function Put(b: Board, p: Pos, c: Cell): (r: Board)
    requires OnBoard(p)
    ensures At(r, p) == c
    ensures forall q :: OnBoard(q) && q != p ==> At(r, q) == At(b, q)
  {
    b[p.row := b[p.row][p.col := c]]
  }

  /** Square `q` is empty or holds a piece of the colour other than `color`. */
  predicate EmptyOrEnemy(b: Board, q: Pos, color: Color)
    requires OnBoard(q)
  {
    At(b, q).None? || At(b, q).value.color != color
  }
}
