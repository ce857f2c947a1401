/** Short algebraic notation (`generateAlgebraicNotation`). */
module Notation {
  import opened ChessTypes
  import Setup

  const Files: string := "abcdefgh"

  /** The source's lower-case name of each kind. */
  function KindName(k: Kind): string {
    match k
    case King => "king"
    case Queen => "queen"
    case Rook => "rook"
    case Bishop => "bishop"
    case Knight => "knight"
    case Pawn => "pawn"
  }

  /** Upper-casing of an ASCII letter. */
  function UpperCase(c: char): char {
    if 'a' <= c <= 'z' then (c as int - 32) as char else c
  }

  /** The first letter of the kind's name, upper-cased: knights share the king's `K`. */
  function KindLetter(k: Kind): char {
    UpperCase(KindName(k)[0])
  }

  /** File letter of a column. */
  function FileOf(col: int): char
    requires 0 <= col < 8
  {
    Files[col]
  }

  /** Rank digit of a row: `8 - row` written in decimal. */
  function RankOf(row: int): char
    requires 0 <= row < 8
  {
    ('0' as int + 8 - row) as char
  }

  /** Reads a square back from its file letter and rank digit. */
  function ParseSquare(file: char, rank: char): Option<Pos> {
    if 'a' <= file <= 'h' && '1' <= rank <= '8'
    then Some(Pos(8 - (rank as int - '0' as int), file as int - 'a' as int))
    else None
  }

  /** The notation of moving `piece` from `from` to `to` on the pre-move board `b`.
      The capture mark is read from `b`, so an en-passant capture (onto an empty
      square) is written as a plain pawn move. */
  function AlgebraicNotation(b: Board, from: Pos, to: Pos, piece: Piece): string
    requires OnBoard(from) && OnBoard(to)
  {
    var toFile := FileOf(to.col);
    var toRank := RankOf(to.row);
    var isCapture := At(b, to).Some?;
    if piece.kind == Pawn then
      if isCapture then [FileOf(from.col), 'x', toFile, toRank] else [toFile, toRank]
    else
      [KindLetter(piece.kind)] + (if isCapture then "x" else "") + [toFile, toRank]
  }

  /** The notation ends in the destination square, read back by `ParseSquare`; it
      carries an `x` exactly when the destination is occupied; a pawn is written
      without a letter (with its file when it captures), every other piece with
      its upper-case initial. */
  lemma NotationShape(b: Board, from: Pos, to: Pos, piece: Piece)
    requires OnBoard(from) && OnBoard(to)
    ensures var r := AlgebraicNotation(b, from, to, piece);
      && 2 <= |r| <= 4
      && ParseSquare(r[|r| - 2], r[|r| - 1]) == Some(to)
      && ('x' in r <==> At(b, to).Some?)
      && (piece.kind == Pawn && At(b, to).None? ==> |r| == 2)
      && (piece.kind == Pawn && At(b, to).Some? ==> |r| == 4 && r[0] == FileOf(from.col))
      && (piece.kind != Pawn ==> r[0] == KindLetter(piece.kind) && r[0] in "KQRB")
  {
  }

  /** A knight move and a king move to the same square are written alike. */
  lemma KnightWrittenAsKing(b: Board, from: Pos, from': Pos, to: Pos, c: Color, c': Color, h: bool, h': bool)
    requires OnBoard(from) && OnBoard(from') && OnBoard(to)
    ensures AlgebraicNotation(b, from, to, Piece(Knight, c, h)) == AlgebraicNotation(b, from', to, Piece(King, c', h'))
  {
  }

  /** The king's pawn double step from the starting position is written "e4". */
  lemma KingsPawnOpening()
    ensures AlgebraicNotation(Setup.InitialBoard(), Pos(6, 4), Pos(4, 4), Piece(Pawn, White, false)) == "e4"
  {
    Setup.InitialLayout(Pos(4, 4));
  }

  /** A pawn capture from the f-file onto e5 is written "fxe5". */
  lemma PawnCaptureNotation(b: Board, c: Color, h: bool)
    requires At(b, Pos(3, 4)).Some?
    ensures AlgebraicNotation(b, Pos(4, 5), Pos(3, 4), Piece(Pawn, c, h)) == "fxe5"
  {
  }
}
