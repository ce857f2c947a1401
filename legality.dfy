/**
 * Check detection and legal moves: `isInCheck`, `wouldBeInCheck`,
 * `getValidMoves`, `getAllValidMoves`, `isCheckmate` and `isStalemate`.
 */
module Legality {
  import opened ChessTypes
  import opened MoveGen
  import opened Notation

  // ------------------------------------------------------------ the king

  predicate IsKingOf(b: Board, q: Pos, color: Color)
    requires OnBoard(q)
  {
    At(b, q).Some? && At(b, q).value.kind == King && At(b, q).value.color == color
  }

  /** `q` comes before square (row, col) in row-major order. */
  predicate Before(q: Pos, row: int, col: int) {
    q.row < row || (q.row == row && q.col < col)
  }

  /** The first king of `color` among the squares before (row, col) in row-major order. */
  function KingBefore(b: Board, color: Color, row: int, col: int): Option<Pos>
    requires 0 <= row <= 8 && 0 <= col <= 8 && (row == 8 ==> col == 0)
    decreases row, col
  {
    if col == 0 then
      if row == 0 then None else KingBefore(b, color, row - 1, 8)
    else match KingBefore(b, color, row, col - 1)
      case Some(k) => Some(k)
      case None => if IsKingOf(b, Pos(row, col - 1), color) then Some(Pos(row, col - 1)) else None
  }

  /** The king the source's search stops at: the first in row-major order. */
  function FindKing(b: Board, color: Color): Option<Pos> {
    KingBefore(b, color, |b|, 0)
  }

  lemma {:induction false} KingBeforeFirst(b: Board, color: Color, row: int, col: int)
    requires 0 <= row <= 8 && 0 <= col <= 8 && (row == 8 ==> col == 0)
    decreases row, col
    ensures var r := KingBefore(b, color, row, col);
      && (r.Some? ==> OnBoard(r.value) && IsKingOf(b, r.value, color) && Before(r.value, row, col))
      && (forall q | OnBoard(q) && Before(q, row, col) && (r.None? || Before(q, r.value.row, r.value.col)) ::
            !IsKingOf(b, q, color))
  {
    if col == 0 {
      if row > 0 {
        KingBeforeFirst(b, color, row - 1, 8);
      }
    } else {
      KingBeforeFirst(b, color, row, col - 1);
    }
  }

  /** A king found before (row, col) stays the answer for every later stopping square. */
  lemma {:induction false} KingBeforeStable(b: Board, color: Color, row: int, col: int)
    requires 0 <= row < 8 && 0 <= col < 8
    requires KingBefore(b, color, row, col + 1).Some?
    ensures FindKing(b, color) == KingBefore(b, color, row, col + 1)
    decreases 8 - row, 8 - col
  {
    if col + 1 < 8 {
      KingBeforeStable(b, color, row, col + 1);
    } else if row + 1 < 8 {
      assert KingBefore(b, color, row + 1, 0) == KingBefore(b, color, row, 8);
      KingBeforeStable(b, color, row + 1, 0);
    } else {
      assert FindKing(b, color) == KingBefore(b, color, 7, 8);
    }
  }

  /** The king search finds the first king of `color` in row-major order, and none when there is none. */
  lemma FindKingFirst(b: Board, color: Color)
    ensures FindKing(b, color).Some? ==>
      var k := FindKing(b, color).value;
      OnBoard(k) && IsKingOf(b, k, color) &&
      forall q | OnBoard(q) && Before(q, k.row, k.col) :: !IsKingOf(b, q, color)
    ensures FindKing(b, color).None? <==> forall q | OnBoard(q) :: !IsKingOf(b, q, color)
  {
    KingBeforeFirst(b, color, |b|, 0);
  }

  // ---------------------------------------------------------------- check

  /** The enemy piece on `from` has `target` among its pseudo-legal moves. */
  predicate Attacks(b: Board, from: Pos, target: Pos, kingColor: Color)
    requires OnBoard(from)
  {
    At(b, from).Some? && At(b, from).value.color != kingColor
    && target in PossibleMoves(b, from, At(b, from).value, None)
  }

  /** Some square before (row, col) holds an enemy piece that attacks `target`. */
  predicate AttackerBefore(b: Board, target: Pos, kingColor: Color, row: int, col: int)
    requires 0 <= row <= 8 && 0 <= col <= 8 && (row == 8 ==> col == 0)
    decreases row, col
  {
    if col == 0 then
      row > 0 && AttackerBefore(b, target, kingColor, row - 1, 8)
    else
      AttackerBefore(b, target, kingColor, row, col - 1) || Attacks(b, Pos(row, col - 1), target, kingColor)
  }

  /** An attacker found by the scan is a real one, standing before (row, col). */
  lemma {:induction false} AttackerWitness(b: Board, target: Pos, kingColor: Color, row: int, col: int)
    returns (q: Pos)
    requires 0 <= row <= 8 && 0 <= col <= 8 && (row == 8 ==> col == 0)
    requires AttackerBefore(b, target, kingColor, row, col)
    ensures OnBoard(q) && Before(q, row, col) && Attacks(b, q, target, kingColor)
    decreases row, col
  {
    if col == 0 {
      q := AttackerWitness(b, target, kingColor, row - 1, 8);
    } else if AttackerBefore(b, target, kingColor, row, col - 1) {
      q := AttackerWitness(b, target, kingColor, row, col - 1);
    } else {
      q := Pos(row, col - 1);
    }
  }

  /** Every attacker standing before (row, col) is found by the scan. */
  lemma {:induction false} AttackerFound(b: Board, target: Pos, kingColor: Color, row: int, col: int, q: Pos)
    requires 0 <= row <= 8 && 0 <= col <= 8 && (row == 8 ==> col == 0)
    requires OnBoard(q) && Before(q, row, col) && Attacks(b, q, target, kingColor)
    ensures AttackerBefore(b, target, kingColor, row, col)
    decreases row, col
  {
    if col == 0 {
      AttackerFound(b, target, kingColor, row - 1, 8, q);
    } else if q != Pos(row, col - 1) {
      AttackerFound(b, target, kingColor, row, col - 1, q);
    }
  }

  /** `isInCheck`: some enemy piece attacks the first king of `color`; without a king, no check. */
  predicate InCheck(b: Board, color: Color) {
    match FindKing(b, color)
    case None => false
    case Some(k) => AttackerBefore(b, k, color, |b|, 0)
  }

  /** Check means exactly: there is a king of `color`, and the first one found has an attacker. */
  lemma InCheckExactly(b: Board, color: Color)
    ensures InCheck(b, color) <==>
      FindKing(b, color).Some? &&
      exists q | OnBoard(q) :: Attacks(b, q, FindKing(b, color).value, color)
  {
    if FindKing(b, color).Some? {
      var k := FindKing(b, color).value;
      if InCheck(b, color) {
        var q := AttackerWitness(b, k, color, |b|, 0);
      }
      forall q | OnBoard(q) && Attacks(b, q, k, color) ensures InCheck(b, color) {
        AttackerFound(b, k, color, |b|, 0, q);
      }
    }
  }

  /** The first scan of `isInCheck`: row by row, stopping at the first king of `kingColor`. */
  method LocateKing(b: Board, kingColor: Color) returns (kingPos: Option<Pos>)
    ensures kingPos == FindKing(b, kingColor)
  {
    kingPos := None;
    for row := 0 to 8
      invariant kingPos.None? && KingBefore(b, kingColor, row, 0).None?
    {
      for col := 0 to 8
        invariant kingPos.None? && KingBefore(b, kingColor, row, col).None?
      {
        var piece := b[row][col];
        if piece.Some? && piece.value.kind == King && piece.value.color == kingColor {
          kingPos := Some(Pos(row, col));
          KingBeforeStable(b, kingColor, row, col);
          break;
        }
      }
      if kingPos.Some? {
        break;
      }
    }
  }

  /** The second scan of `isInCheck`: does any enemy piece have the king's square among its moves? */
  method KingAttacked(b: Board, k: Pos, kingColor: Color) returns (attacked: bool)
    ensures attacked == AttackerBefore(b, k, kingColor, |b|, 0)
  {
    for row := 0 to 8
      invariant !AttackerBefore(b, k, kingColor, row, 0)
    {
      for col := 0 to 8
        invariant !AttackerBefore(b, k, kingColor, row, col)
      {
        var piece := b[row][col];
        if piece.Some? && piece.value.color != kingColor {
          var moves := GetPossibleMoves(b, Pos(row, col), piece.value, None);
          if k in moves {
            AttackerFound(b, k, kingColor, |b|, 0, Pos(row, col));
            return true;
          }
        }
      }
    }
    return false;
  }

  /** `isInCheck`: locate the king, then look for an attacker; without a king there is no check. */
  method IsInCheck(b: Board, kingColor: Color) returns (inCheck: bool)
    ensures inCheck == InCheck(b, kingColor)
  {
    var kingPos := LocateKing(b, kingColor);
    if kingPos.None? {
      return false;
    }
    inCheck := KingAttacked(b, kingPos.value, kingColor);
  }

  // ---------------------------------------------------- trying out a move

  /** The board after lifting the piece on `from` and putting it on `to`. */
  function Relocate(b: Board, from: Pos, to: Pos): (r: Board)
    requires OnBoard(from) && OnBoard(to)
    ensures At(r, from).None?
    ensures to != from ==> At(r, to) == At(b, from)
    ensures forall q | OnBoard(q) && q != from && q != to :: At(r, q) == At(b, q)
  {
    Put(Put(b, to, At(b, from)), from, None)
  }

  /** `wouldBeInCheck` */
  predicate WouldBeInCheck(b: Board, from: Pos, to: Pos, playerColor: Color)
    requires OnBoard(from) && OnBoard(to)
  {
    InCheck(Relocate(b, from, to), playerColor)
  }

  /** `Array.prototype.filter`: the elements of `s` that `keep` accepts, in their original order. */
  function Filter<T>(keep: T -> bool, s: seq<T>): (r: seq<T>)
    ensures |r| <= |s|
  {
    if s == [] then []
    else Filter(keep, s[..|s| - 1]) + (if keep(s[|s| - 1]) then [s[|s| - 1]] else [])
  }

  lemma {:induction false} FilterExactly<T>(keep: T -> bool, s: seq<T>, x: T)
    ensures x in Filter(keep, s) <==> x in s && keep(x)
  {
    if s != [] {
      FilterExactly(keep, s[..|s| - 1], x);
      assert s == s[..|s| - 1] + [s[|s| - 1]];
    }
  }

  /** `getValidMoves`: the pseudo-legal moves that leave the mover's king safe. The
      square test in the filter only makes the check well defined; every pseudo-legal
      target is on the board already (`PossibleMovesTargets`). */
  function ValidMoves(b: Board, p: Pos, piece: Piece, enPassant: Option<Pos>): (r: seq<Pos>)
    requires OnBoard(p)
    ensures forall q | q in r :: OnBoard(q)
  {
    var keep := q => OnBoard(q) && !WouldBeInCheck(b, p, q, piece.color);
    var r := Filter(keep, PossibleMoves(b, p, piece, enPassant));
    forall q | q in r ensures OnBoard(q) {
      FilterExactly(keep, PossibleMoves(b, p, piece, enPassant), q);
    }
    r
  }

  /** A valid move is a pseudo-legal move that does not leave the mover's king attacked, and vice versa. */
  lemma ValidMovesExactly(b: Board, p: Pos, piece: Piece, enPassant: Option<Pos>, q: Pos)
    requires OnBoard(p)
    ensures q in ValidMoves(b, p, piece, enPassant) <==>
      q in PossibleMoves(b, p, piece, enPassant) && OnBoard(q) && !InCheck(Relocate(b, p, q), piece.color)
  {
    var keep := q => OnBoard(q) && !WouldBeInCheck(b, p, q, piece.color);
    FilterExactly(keep, PossibleMoves(b, p, piece, enPassant), q);
  }

  // ------------------------------------------------------ all legal moves

  /** The record `getAllValidMoves` pushes for a move from `from` to `to`. */
  function MoveRecord(b: Board, from: Pos, to: Pos, piece: Piece): Move
    requires OnBoard(from) && OnBoard(to)
  {
    Move(from, to, piece, At(b, to), false, false, None, AlgebraicNotation(b, from, to, piece))
  }

  function ToMoves(b: Board, from: Pos, piece: Piece, tos: seq<Pos>): seq<Move>
    requires OnBoard(from)
    requires forall q | q in tos :: OnBoard(q)
  {
    if tos == [] then []
    else ToMoves(b, from, piece, tos[..|tos| - 1]) + [MoveRecord(b, from, tos[|tos| - 1], piece)]
  }

  lemma {:induction false} ToMovesExactly(b: Board, from: Pos, piece: Piece, tos: seq<Pos>, m: Move)
    requires OnBoard(from)
    requires forall q | q in tos :: OnBoard(q)
    ensures m in ToMoves(b, from, piece, tos) <==> m.to in tos && m == MoveRecord(b, from, m.to, piece)
  {
    if tos != [] {
      var init := tos[..|tos| - 1];
      assert forall q | q in init :: q in tos;
      ToMovesExactly(b, from, piece, init, m);
      assert tos == init + [tos[|tos| - 1]];
    }
  }

  /** The moves of the piece on `p`, when it belongs to `color`. */
  function SquareMoves(b: Board, color: Color, p: Pos): seq<Move>
    requires OnBoard(p)
  {
    match At(b, p)
    case None => []
    case Some(piece) =>
      if piece.color == color then ToMoves(b, p, piece, ValidMoves(b, p, piece, None)) else []
  }

  /** The lists `f` gives for the squares before (row, col), concatenated in
      row-major order: the shape of the double loop of `getAllValidMoves`. */
  function Scan(f: Pos -> seq<Move>, row: int, col: int): seq<Move>
    requires 0 <= row <= 8 && 0 <= col <= 8 && (row == 8 ==> col == 0)
    decreases row, col
  {
    if col == 0 then
      if row == 0 then [] else Scan(f, row - 1, 8)
    else Scan(f, row, col - 1) + f(Pos(row, col - 1))
  }

  /** When every list of `f` holds only moves from its own square, the scan holds
      exactly the moves of the squares passed so far. */
  lemma {:induction false} ScanExactly(f: Pos -> seq<Move>, row: int, col: int, m: Move)
    requires 0 <= row <= 8 && 0 <= col <= 8 && (row == 8 ==> col == 0)
    requires forall p | m in f(p) :: m.from == p
    decreases row, col
    ensures m in Scan(f, row, col) <==> OnBoard(m.from) && Before(m.from, row, col) && m in f(m.from)
  {
    if col == 0 {
      if row > 0 {
        ScanExactly(f, row - 1, 8, m);
      }
    } else {
      ScanExactly(f, row, col - 1, m);
    }
  }

  /** The moves of `color` from the squares before (row, col), in row-major order. */
  function MovesBefore(b: Board, color: Color, row: int, col: int): seq<Move>
    requires 0 <= row <= 8 && 0 <= col <= 8 && (row == 8 ==> col == 0)
  {
    Scan(p => if OnBoard(p) then SquareMoves(b, color, p) else [], row, col)
  }

  /** A move `getAllValidMoves` can list for `color`: a legal destination of one of
      its pieces, recorded with the captured piece and notation read off `b`. */
  predicate LegalMove(b: Board, color: Color, m: Move) {
    && OnBoard(m.from) && OnBoard(m.to)
    && At(b, m.from) == Some(m.piece) && m.piece.color == color
    && m.to in ValidMoves(b, m.from, m.piece, None)
    && m == MoveRecord(b, m.from, m.to, m.piece)
  }

  lemma SquareMovesExactly(b: Board, color: Color, p: Pos, m: Move)
    requires OnBoard(p)
    ensures m in SquareMoves(b, color, p) <==> LegalMove(b, color, m) && m.from == p
  {
    if At(b, p).Some? && At(b, p).value.color == color {
      var piece := At(b, p).value;
      ToMovesExactly(b, p, piece, ValidMoves(b, p, piece, None), m);
    }
  }

  /** A move in the list of square `p` starts on `p`. */
  lemma SquareMovesFrom(b: Board, color: Color, p: Pos, m: Move)
    requires OnBoard(p)
    requires m in SquareMoves(b, color, p)
    ensures m.from == p
  {
    var piece := At(b, p).value;
    ToMovesExactly(b, p, piece, ValidMoves(b, p, piece, None), m);
  }

  lemma MovesBeforeExactly(b: Board, color: Color, row: int, col: int, m: Move)
    requires 0 <= row <= 8 && 0 <= col <= 8 && (row == 8 ==> col == 0)
    ensures m in MovesBefore(b, color, row, col) <==> LegalMove(b, color, m) && Before(m.from, row, col)
  {
    var f: Pos -> seq<Move> := p => if OnBoard(p) then SquareMoves(b, color, p) else [];
    forall p | m in f(p) ensures m.from == p {
      SquareMovesFrom(b, color, p, m);
    }
    ScanExactly(f, row, col, m);
    if OnBoard(m.from) {
      SquareMovesExactly(b, color, m.from, m);
    }
  }

  /** `getAllValidMoves`: every legal move of `color`, scanning the board row by row. */
  function AllValidMoves(b: Board, color: Color): seq<Move> {
    MovesBefore(b, color, |b|, 0)
  }

  /** The list holds exactly the legal moves of `color`. */
  lemma AllValidMovesExactly(b: Board, color: Color, m: Move)
    ensures m in AllValidMoves(b, color) <==> LegalMove(b, color, m)
  {
    MovesBeforeExactly(b, color, |b|, 0, m);
  }

  /** A listed move is either a plain move or a capture, never flagged as castling or en passant. */
  lemma AllValidMovesArePlain(b: Board, color: Color, m: Move)
    requires m in AllValidMoves(b, color)
    ensures !m.isCastling && !m.isEnPassant && m.promotion.None?
    ensures OnBoard(m.from) && OnBoard(m.to) && m.from != m.to
    ensures m.capturedPiece == At(b, m.to)
  {
    AllValidMovesExactly(b, color, m);
    ValidMovesExactly(b, m.from, m.piece, None, m.to);
    PossibleMovesNotOrigin(b, m.from, m.piece, m.to);
  }

  /** Where the piece stands on `p`, `p` is never one of its own destinations. */
  lemma PossibleMovesNotOrigin(b: Board, p: Pos, piece: Piece, q: Pos)
    requires OnBoard(p) && At(b, p) == Some(piece)
    requires q in PossibleMoves(b, p, piece, None)
    ensures q != p
  {
    PossibleMovesTargets(b, p, piece, None);
    if piece.kind == Pawn {
      assert q.row == p.row + PawnDirection(piece.color) || q.row == p.row + 2 * PawnDirection(piece.color);
    } else {
      assert EmptyOrEnemy(b, q, piece.color);
    }
  }

  /** The innermost loop of `getAllValidMoves`: push one record per destination. */
  method PushMoves(moves: seq<Move>, b: Board, from: Pos, piece: Piece, tos: seq<Pos>) returns (r: seq<Move>)
    requires OnBoard(from)
    requires forall q | q in tos :: OnBoard(q)
    ensures r == moves + ToMoves(b, from, piece, tos)
  {
    r := moves;
    for k := 0 to |tos|
      invariant r == moves + ToMoves(b, from, piece, tos[..k])
    {
      var to := tos[k];
      assert tos[..k + 1][..k] == tos[..k];
      r := r + [MoveRecord(b, from, to, piece)];
    }
    assert tos[..|tos|] == tos;
  }

  method GetAllValidMoves(b: Board, color: Color) returns (moves: seq<Move>)
    ensures moves == AllValidMoves(b, color)
  {
    moves := [];
    for row := 0 to 8
      invariant moves == MovesBefore(b, color, row, 0)
    {
      for col := 0 to 8
        invariant moves == MovesBefore(b, color, row, col)
      {
        MovesBeforeStep(b, color, row, col);
        moves := AddSquareMoves(moves, b, color, row, col);
      }
    }
  }

  /** The body of the double loop of `getAllValidMoves` for square (row, col). */
  method AddSquareMoves(moves: seq<Move>, b: Board, color: Color, row: int, col: int) returns (r: seq<Move>)
    requires 0 <= row < 8 && 0 <= col < 8
    ensures r == moves + SquareMoves(b, color, Pos(row, col))
  {
    r := moves;
    var from := Pos(row, col);
    var piece := b[row][col];
    if piece.Some? && piece.value.color == color {
      var validMoves := ValidMoves(b, from, piece.value, None);
      r := PushMoves(r, b, from, piece.value, validMoves);
    }
  }

  /** One more square of the scan appends that square's moves. */
  lemma MovesBeforeStep(b: Board, color: Color, row: int, col: int)
    requires 0 <= row < 8 && 0 <= col < 8
    ensures MovesBefore(b, color, row, col + 1) == MovesBefore(b, color, row, col) + SquareMoves(b, color, Pos(row, col))
  {
  }

  // ------------------------------------------------------- end of the game

  /** `isCheckmate` */
  predicate IsCheckmate(b: Board, color: Color) {
    InCheck(b, color) && |AllValidMoves(b, color)| == 0
  }

  /** `isStalemate` */
  predicate IsStalemate(b: Board, color: Color) {
    !InCheck(b, color) && |AllValidMoves(b, color)| == 0
  }

  /** The list is empty exactly when no piece of `color` has a legal destination. */
  lemma NoLegalMoves(b: Board, color: Color)
    ensures |AllValidMoves(b, color)| == 0 <==> forall p :: !CanMove(b, color, p)
  {
    if |AllValidMoves(b, color)| != 0 {
      var p := MovablePiece(b, color);
    }
    forall p | CanMove(b, color, p) ensures |AllValidMoves(b, color)| != 0 {
      SomeMoveListed(b, color, p);
    }
  }

  /** Square `p` holds a piece of `color` with at least one legal destination. */
  predicate CanMove(b: Board, color: Color, p: Pos) {
    OnBoard(p) && At(b, p).Some? && At(b, p).value.color == color
    && ValidMoves(b, p, At(b, p).value, None) != []
  }

  /** A non-empty list names a square holding a piece of `color` with a legal destination. */
  lemma MovablePiece(b: Board, color: Color) returns (p: Pos)
    requires |AllValidMoves(b, color)| != 0
    ensures CanMove(b, color, p)
  {
    var m := AllValidMoves(b, color)[0];
    AllValidMovesExactly(b, color, m);
    p := m.from;
  }

  /** A piece of `color` with a legal destination puts at least one move in the list. */
  lemma SomeMoveListed(b: Board, color: Color, p: Pos)
    requires CanMove(b, color, p)
    ensures |AllValidMoves(b, color)| != 0
  {
    var piece := At(b, p).value;
    var m := MoveRecord(b, p, ValidMoves(b, p, piece, None)[0], piece);
    AllValidMovesExactly(b, color, m);
    assert m in AllValidMoves(b, color);
  }

  /** A side with no legal move is either mated or stalemated, never both; with a move, neither. */
  lemma GameOverClassified(b: Board, color: Color)
    ensures |AllValidMoves(b, color)| == 0 <==> IsCheckmate(b, color) || IsStalemate(b, color)
    ensures !(IsCheckmate(b, color) && IsStalemate(b, color))
    ensures IsCheckmate(b, color) ==> InCheck(b, color)
  {
  }
}
