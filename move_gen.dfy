/**
 * Pseudo-legal move generation (`getPossibleMoves` and the per-piece
 * generators): the squares a piece may move to by geometry and occupancy,
 * ignoring whether its own king is left in check.
 *
 * Each generator is given twice: as a function (the specification, used by
 * the rest of the model) and as a method with the source's loops, proved
 * equal to it.
 */
module MoveGen {
  import opened ChessTypes

  const RookDirections: seq<(int, int)> := [(0, 1), (0, -1), (1, 0), (-1, 0)]
  const BishopDirections: seq<(int, int)> := [(1, 1), (1, -1), (-1, 1), (-1, -1)]
  const KnightOffsets: seq<(int, int)> := [(-2, -1), (-2, 1), (-1, -2), (-1, 2), (1, -2), (1, 2), (2, -1), (2, 1)]
  /** The king's neighbours in the order of its nested loop: rows outer, columns inner, centre skipped. */
  const KingOffsets: seq<(int, int)> := [(-1, -1), (-1, 0), (-1, 1), (0, -1), (0, 1), (1, -1), (1, 0), (1, 1)]

  /** The square `i` steps from `p` along `d`. */
  function Step(p: Pos, d: (int, int), i: int): Pos {
    Pos(p.row + d.0 * i, p.col + d.1 * i)
  }

  /** A square the slider may take from the own-piece test in the source's inner loop. */
  predicate OwnPieceAt(b: Board, q: Pos, color: Color) {
    OnBoard(q) && At(b, q).Some? && At(b, q).value.color == color
  }

  // ---------------------------------------------------------------- sliders

  /** The squares a slider of colour `color` on `p` reaches along `d`, from step `i` on. */
  function Ray(b: Board, p: Pos, color: Color, d: (int, int), i: int): seq<Pos>
    requires 1 <= i
    decreases 8 - i
  {
    if i >= 8 then []
    else
      var q := Step(p, d, i);
      if !OnBoard(q) then []
      else match At(b, q)
        case None => [q] + Ray(b, p, color, d, i + 1)
        case Some(t) => if t.color != color then [q] else []
  }

  /** `r` is the consecutive squares from step `i`, all on the board and empty
      except possibly the last, which may hold an enemy but never an own piece. */
  predicate RayShaped(b: Board, p: Pos, color: Color, d: (int, int), i: int, r: seq<Pos>) {
    && (forall j | 0 <= j < |r| :: r[j] == Step(p, d, i + j) && OnBoard(r[j]))
    && (forall j | 0 <= j < |r| - 1 :: At(b, r[j]).None?)
    && (|r| > 0 ==> EmptyOrEnemy(b, r[|r| - 1], color))
  }

  /** Every ray has that shape, so no square beyond the first occupied one is returned. */
  lemma {:induction false} RaySquares(b: Board, p: Pos, color: Color, d: (int, int), i: int)
    requires 1 <= i
    decreases 8 - i
    ensures RayShaped(b, p, color, d, i, Ray(b, p, color, d, i))
  {
    if i < 8 && OnBoard(Step(p, d, i)) && At(b, Step(p, d, i)).None? {
      RaySquares(b, p, color, d, i + 1);
      var r' := Ray(b, p, color, d, i + 1);
      assert Ray(b, p, color, d, i) == [Step(p, d, i)] + r';
      RayShapedCons(b, p, color, d, i, r');
    }
  }

  lemma RayShapedCons(b: Board, p: Pos, color: Color, d: (int, int), i: int, r': seq<Pos>)
    requires OnBoard(Step(p, d, i)) && At(b, Step(p, d, i)).None?
    requires RayShaped(b, p, color, d, i + 1, r')
    ensures RayShaped(b, p, color, d, i, [Step(p, d, i)] + r')
  {
    var r := [Step(p, d, i)] + r';
    forall j | 0 < j < |r| ensures r[j] == r'[j - 1] && i + j == (i + 1) + (j - 1) {
    }
  }

  /** The squares `r` taken from step `i` on end for a reason the source's inner loop
      breaks on: the step bound, a piece on the last square, the board edge or an own piece. */
  predicate RayStopped(b: Board, p: Pos, color: Color, d: (int, int), i: int, r: seq<Pos>) {
    || i + |r| >= 8
    || (|r| > 0 && OnBoard(r[|r| - 1]) && At(b, r[|r| - 1]).Some?)
    || !OnBoard(Step(p, d, i + |r|))
    || OwnPieceAt(b, Step(p, d, i + |r|), color)
  }

  /** A ray never stops early: it runs on until one of the loop's break conditions. */
  lemma {:induction false} RayEnd(b: Board, p: Pos, color: Color, d: (int, int), i: int)
    requires 1 <= i
    decreases 8 - i
    ensures RayStopped(b, p, color, d, i, Ray(b, p, color, d, i))
  {
    if i < 8 && OnBoard(Step(p, d, i)) && At(b, Step(p, d, i)).None? {
      RayEnd(b, p, color, d, i + 1);
      var r' := Ray(b, p, color, d, i + 1);
      assert Ray(b, p, color, d, i) == [Step(p, d, i)] + r';
      RayStoppedCons(b, p, color, d, i, r');
    }
  }

  lemma RayStoppedCons(b: Board, p: Pos, color: Color, d: (int, int), i: int, r': seq<Pos>)
    requires RayStopped(b, p, color, d, i + 1, r')
    ensures RayStopped(b, p, color, d, i, [Step(p, d, i)] + r')
  {
    var r := [Step(p, d, i)] + r';
    assert i + |r| == (i + 1) + |r'|;
    assert |r'| > 0 ==> r[|r| - 1] == r'[|r'| - 1];
  }

  /** Every square of a ray is on the board and empty or enemy-occupied. */
  lemma RayTargets(b: Board, p: Pos, color: Color, d: (int, int), i: int)
    requires 1 <= i
    ensures forall q | q in Ray(b, p, color, d, i) :: OnBoard(q) && EmptyOrEnemy(b, q, color)
  {
    RaySquares(b, p, color, d, i);
    var r := Ray(b, p, color, d, i);
    forall q | q in r ensures OnBoard(q) && EmptyOrEnemy(b, q, color) {
      var j :| 0 <= j < |r| && r[j] == q;
    }
  }

  /** The rays along `dirs`, one after another. */
  function Sliding(b: Board, p: Pos, color: Color, dirs: seq<(int, int)>): seq<Pos>
  {
    if dirs == [] then []
    else Sliding(b, p, color, dirs[..|dirs| - 1]) + Ray(b, p, color, dirs[|dirs| - 1], 1)
  }

  lemma {:induction false} SlidingTargets(b: Board, p: Pos, color: Color, dirs: seq<(int, int)>)
    ensures forall q | q in Sliding(b, p, color, dirs) :: OnBoard(q) && EmptyOrEnemy(b, q, color)
  {
    if dirs != [] {
      SlidingTargets(b, p, color, dirs[..|dirs| - 1]);
      RayTargets(b, p, color, dirs[|dirs| - 1], 1);
    }
  }

  function RookMoves(b: Board, p: Pos, piece: Piece): seq<Pos> {
    Sliding(b, p, piece.color, RookDirections)
  }

  function BishopMoves(b: Board, p: Pos, piece: Piece): seq<Pos> {
    Sliding(b, p, piece.color, BishopDirections)
  }

  /** `getQueenMoves`: the rook's squares followed by the bishop's. */
  function QueenMoves(b: Board, p: Pos, piece: Piece): seq<Pos> {
    RookMoves(b, p, piece) + BishopMoves(b, p, piece)
  }

  // ------------------------------------------------------- knight and king

  /** The single-step targets `p + offs[k]` that are on the board and empty or enemy-occupied, in order. */
  function Leaps(b: Board, p: Pos, color: Color, offs: seq<(int, int)>): seq<Pos>
  {
    if offs == [] then []
    else
      var q := Step(p, offs[|offs| - 1], 1);
      Leaps(b, p, color, offs[..|offs| - 1]) + (if OnBoard(q) && EmptyOrEnemy(b, q, color) then [q] else [])
  }

  /** One more offset adds its square when that square is on the board and not own-occupied. */
  lemma LeapsStep(b: Board, p: Pos, color: Color, offs: seq<(int, int)>, k: int)
    requires 0 <= k < |offs|
    ensures var q := Step(p, offs[k], 1);
      Leaps(b, p, color, offs[..k + 1])
        == Leaps(b, p, color, offs[..k]) + (if OnBoard(q) && EmptyOrEnemy(b, q, color) then [q] else [])
  {
    assert offs[..k + 1][..k] == offs[..k];
  }

  /** The leap targets are exactly the offsets' squares that are on the board and empty or enemy-occupied. */
  lemma {:induction false} LeapsExactly(b: Board, p: Pos, color: Color, offs: seq<(int, int)>)
    ensures forall q | q in Leaps(b, p, color, offs) :: OnBoard(q) && EmptyOrEnemy(b, q, color)
    ensures forall k | 0 <= k < |offs| ::
      OnBoard(Step(p, offs[k], 1)) && EmptyOrEnemy(b, Step(p, offs[k], 1), color) ==> Step(p, offs[k], 1) in Leaps(b, p, color, offs)
  {
    if offs != [] {
      var init := offs[..|offs| - 1];
      LeapsExactly(b, p, color, init);
      assert forall k | 0 <= k < |init| :: init[k] == offs[k];
    }
  }

  function KnightMoves(b: Board, p: Pos, piece: Piece): seq<Pos> {
    Leaps(b, p, piece.color, KnightOffsets)
  }

  function KingMoves(b: Board, p: Pos, piece: Piece): seq<Pos> {
    Leaps(b, p, piece.color, KingOffsets)
  }

  /** The offset a leap target comes from. */
  lemma {:induction false} LeapIndex(b: Board, p: Pos, color: Color, offs: seq<(int, int)>, q: Pos) returns (k: int)
    requires q in Leaps(b, p, color, offs)
    ensures 0 <= k < |offs| && q == Step(p, offs[k], 1)
  {
    var init := offs[..|offs| - 1];
    if q in Leaps(b, p, color, init) {
      k := LeapIndex(b, p, color, init, q);
      assert init[k] == offs[k];
    } else {
      k := |offs| - 1;
    }
  }

  lemma KingOffsetAdjacent(k: int)
    requires 0 <= k < |KingOffsets|
    ensures KingOffsets[k] != (0, 0) && -1 <= KingOffsets[k].0 <= 1 && -1 <= KingOffsets[k].1 <= 1
  {
  }

  /** King targets are adjacent squares: no two-column king move is ever generated. */
  lemma KingMovesAdjacent(b: Board, p: Pos, piece: Piece)
    ensures forall q | q in KingMoves(b, p, piece) ::
      q != p && Abs(q.row - p.row) <= 1 && Abs(q.col - p.col) <= 1
  {
    forall q | q in KingMoves(b, p, piece) ensures q != p && Abs(q.row - p.row) <= 1 && Abs(q.col - p.col) <= 1 {
      var k := LeapIndex(b, p, piece.color, KingOffsets, q);
      KingOffsetAdjacent(k);
      var d := KingOffsets[k];
      assert q == Pos(p.row + d.0, p.col + d.1);
    }
  }

  // ------------------------------------------------------------------ pawns

  /** White pawns move toward row 0, Black pawns toward row 7. */
  function PawnDirection(c: Color): int {
    if c == White then -1 else 1
  }

  function PawnStartRow(c: Color): int {
    if c == White then 6 else 1
  }

  /** The single push onto an empty square, then the double push from the start row. */
  function PawnPushes(b: Board, p: Pos, piece: Piece): seq<Pos>
    requires OnBoard(p)
  {
    var dir := PawnDirection(piece.color);
    var one := Pos(p.row + dir, p.col);
    if OnBoard(one) && At(b, one).None? then
      var two := Pos(one.row + dir, p.col);
      [one] + (if p.row == PawnStartRow(piece.color) && At(b, two).None? then [two] else [])
    else []
  }

  /** The diagonal onto column `captureCol`: once for an enemy piece, once more for the en-passant target. */
  function PawnCapture(b: Board, p: Pos, piece: Piece, enPassant: Option<Pos>, captureCol: int): seq<Pos>
    requires OnBoard(p)
  {
    var q := Pos(p.row + PawnDirection(piece.color), captureCol);
    if OnBoard(q) then
      (if At(b, q).Some? && At(b, q).value.color != piece.color then [q] else [])
      + (if enPassant == Some(q) then [q] else [])
    else []
  }

  /** The diagonals onto each of `cols` in turn. */
  function PawnCaptures(b: Board, p: Pos, piece: Piece, enPassant: Option<Pos>, cols: seq<int>): seq<Pos>
    requires OnBoard(p)
  {
    if cols == [] then []
    else PawnCaptures(b, p, piece, enPassant, cols[..|cols| - 1])
         + PawnCapture(b, p, piece, enPassant, cols[|cols| - 1])
  }

  /** The pushes, then the captures towards the lower and the higher column. */
  function PawnMoves(b: Board, p: Pos, piece: Piece, enPassant: Option<Pos>): seq<Pos>
    requires OnBoard(p)
  {
    PawnPushes(b, p, piece) + PawnCaptures(b, p, piece, enPassant, [p.col - 1, p.col + 1])
  }

  lemma PawnCapturesBoth(b: Board, p: Pos, piece: Piece, enPassant: Option<Pos>)
    requires OnBoard(p)
    ensures PawnCaptures(b, p, piece, enPassant, [p.col - 1, p.col + 1])
         == PawnCapture(b, p, piece, enPassant, p.col - 1) + PawnCapture(b, p, piece, enPassant, p.col + 1)
  {
    var cols := [p.col - 1, p.col + 1];
    assert cols[..1] == [p.col - 1] && cols[..1][..0] == [];
    assert PawnCaptures(b, p, piece, enPassant, cols[..1]) == PawnCapture(b, p, piece, enPassant, p.col - 1);
  }

  lemma PawnPushesExactly(b: Board, p: Pos, piece: Piece, q: Pos)
    requires OnBoard(p)
    ensures var dir := PawnDirection(piece.color);
      var one := Pos(p.row + dir, p.col);
      q in PawnPushes(b, p, piece) <==>
        || (q == one && OnBoard(one) && At(b, one).None?)
        || (q == Pos(p.row + 2 * dir, p.col) && p.row == PawnStartRow(piece.color)
            && At(b, one).None? && At(b, q).None?)
  {
  }

  lemma PawnCaptureExactly(b: Board, p: Pos, piece: Piece, enPassant: Option<Pos>, captureCol: int, q: Pos)
    requires OnBoard(p)
    ensures q in PawnCapture(b, p, piece, enPassant, captureCol) <==>
      q == Pos(p.row + PawnDirection(piece.color), captureCol) && OnBoard(q)
      && ((At(b, q).Some? && At(b, q).value.color != piece.color) || enPassant == Some(q))
  {
  }

  /** Exactly which squares a pawn move list contains. */
  lemma PawnMovesExactly(b: Board, p: Pos, piece: Piece, enPassant: Option<Pos>, q: Pos)
    requires OnBoard(p)
    ensures var dir := PawnDirection(piece.color);
      var one := Pos(p.row + dir, p.col);
      q in PawnMoves(b, p, piece, enPassant) <==>
        || (q == one && OnBoard(one) && At(b, one).None?)
        || (q == Pos(p.row + 2 * dir, p.col) && p.row == PawnStartRow(piece.color)
            && At(b, one).None? && At(b, q).None?)
        || (q.row == p.row + dir && Abs(q.col - p.col) == 1 && OnBoard(q)
            && ((At(b, q).Some? && At(b, q).value.color != piece.color) || enPassant == Some(q)))
  {
    PawnCapturesBoth(b, p, piece, enPassant);
    PawnPushesExactly(b, p, piece, q);
    PawnCaptureExactly(b, p, piece, enPassant, p.col - 1, q);
    PawnCaptureExactly(b, p, piece, enPassant, p.col + 1, q);
  }

  // ------------------------------------------------------------- dispatch

  /** `getPossibleMoves`: dispatch on the kind of `piece` (which need not stand on `p`). */
  function PossibleMoves(b: Board, p: Pos, piece: Piece, enPassant: Option<Pos>): seq<Pos>
    requires OnBoard(p)
  {
    match piece.kind
    case Pawn => PawnMoves(b, p, piece, enPassant)
    case Rook => RookMoves(b, p, piece)
    case Bishop => BishopMoves(b, p, piece)
    case Queen => QueenMoves(b, p, piece)
    case Knight => KnightMoves(b, p, piece)
    case King => KingMoves(b, p, piece)
  }

  /** Every generated destination is on the board; apart from pawn pushes (which
      need an empty square) it is empty or holds an enemy; a pawn moves one or
      two rows forward. */
  lemma PossibleMovesTargets(b: Board, p: Pos, piece: Piece, enPassant: Option<Pos>)
    requires OnBoard(p)
    ensures var r := PossibleMoves(b, p, piece, enPassant);
      && (forall q | q in r :: OnBoard(q))
      && (piece.kind != Pawn ==> forall q | q in r :: EmptyOrEnemy(b, q, piece.color))
      && (piece.kind == Pawn ==> forall q | q in r ::
           q.row == p.row + PawnDirection(piece.color) || q.row == p.row + 2 * PawnDirection(piece.color))
  {
    match piece.kind
    case Pawn =>
      forall q | q in PawnMoves(b, p, piece, enPassant)
        ensures OnBoard(q)
        ensures q.row == p.row + PawnDirection(piece.color) || q.row == p.row + 2 * PawnDirection(piece.color)
      {
        PawnMovesExactly(b, p, piece, enPassant, q);
      }
    case Rook => SlidingTargets(b, p, piece.color, RookDirections);
    case Bishop => SlidingTargets(b, p, piece.color, BishopDirections);
    case Queen =>
      SlidingTargets(b, p, piece.color, RookDirections);
      SlidingTargets(b, p, piece.color, BishopDirections);
    case Knight => LeapsExactly(b, p, piece.color, KnightOffsets);
    case King => LeapsExactly(b, p, piece.color, KingOffsets);
  }

  // --------------------------------------------------------------- methods

  /** The loop shared by `getRookMoves` and `getBishopMoves`: walk each direction
      and stop at the edge or at the first occupied square. */
  method CollectSliding(b: Board, p: Pos, piece: Piece, dirs: seq<(int, int)>) returns (moves: seq<Pos>)
    ensures moves == Sliding(b, p, piece.color, dirs)
  {
    moves := [];
    for k := 0 to |dirs|
      invariant moves == Sliding(b, p, piece.color, dirs[..k])
    {
      var (dRow, dCol) := dirs[k];
      ghost var before := moves;
      for i := 1 to 8
        invariant moves + Ray(b, p, piece.color, dirs[k], i) == before + Ray(b, p, piece.color, dirs[k], 1)
      {
        var newPos := Pos(p.row + dRow * i, p.col + dCol * i);
        assert newPos == Step(p, dirs[k], i);
        if !OnBoard(newPos) {
          assert Ray(b, p, piece.color, dirs[k], i) == [];
          break;
        }
        var target := At(b, newPos);
        if target.None? {
          assert Ray(b, p, piece.color, dirs[k], i) == [newPos] + Ray(b, p, piece.color, dirs[k], i + 1);
          AppendAssoc(moves, [newPos], Ray(b, p, piece.color, dirs[k], i + 1));
          moves := moves + [newPos];
        } else {
          if target.value.color != piece.color {
            assert Ray(b, p, piece.color, dirs[k], i) == [newPos];
            moves := moves + [newPos];
          } else {
            assert Ray(b, p, piece.color, dirs[k], i) == [];
          }
          break;
        }
      }
      assert dirs[..k + 1][..k] == dirs[..k];
    }
    assert dirs[..|dirs|] == dirs;
  }

  method GetRookMoves(b: Board, p: Pos, piece: Piece) returns (moves: seq<Pos>)
    ensures moves == RookMoves(b, p, piece)
  {
    moves := CollectSliding(b, p, piece, RookDirections);
  }

  method GetBishopMoves(b: Board, p: Pos, piece: Piece) returns (moves: seq<Pos>)
    ensures moves == BishopMoves(b, p, piece)
  {
    moves := CollectSliding(b, p, piece, BishopDirections);
  }

  method GetQueenMoves(b: Board, p: Pos, piece: Piece) returns (moves: seq<Pos>)
    ensures moves == RookMoves(b, p, piece) + BishopMoves(b, p, piece)
  {
    var rook := GetRookMoves(b, p, piece);
    var bishop := GetBishopMoves(b, p, piece);
    moves := rook + bishop;
  }

  /** The push shared by the knight and king loops: `q` is taken when it is on the
      board and empty or held by an enemy. */
  method PushIfOpen(moves: seq<Pos>, b: Board, q: Pos, color: Color) returns (r: seq<Pos>)
    ensures r == moves + (if OnBoard(q) && EmptyOrEnemy(b, q, color) then [q] else [])
  {
    r := moves;
    if OnBoard(q) {
      var target := At(b, q);
      if target.None? || target.value.color != color {
        r := r + [q];
      }
    }
  }

  method GetKnightMoves(b: Board, p: Pos, piece: Piece) returns (moves: seq<Pos>)
    ensures moves == KnightMoves(b, p, piece)
  {
    moves := [];
    for k := 0 to |KnightOffsets|
      invariant moves == Leaps(b, p, piece.color, KnightOffsets[..k])
    {
      var (dRow, dCol) := KnightOffsets[k];
      var newPos := Pos(p.row + dRow, p.col + dCol);
      LeapsStep(b, p, piece.color, KnightOffsets, k);
      moves := PushIfOpen(moves, b, newPos, piece.color);
    }
    assert KnightOffsets[..8] == KnightOffsets;
  }

  /** Position of the offset (dRow, dCol) in `KingOffsets`, counting the skipped centre out. */
  function KingIndex(dRow: int, dCol: int): int {
    var n := (dRow + 1) * 3 + (dCol + 1);
    if n > 4 then n - 1 else n
  }

  /** `KingIndex` walks through `KingOffsets` in the order of the source's two loops. */
  lemma KingIndexOrder(dRow: int, dCol: int)
    requires -1 <= dRow <= 1 && -1 <= dCol <= 1
    ensures !(dRow == 0 && dCol == 0) ==>
      0 <= KingIndex(dRow, dCol) < 8 && KingOffsets[KingIndex(dRow, dCol)] == (dRow, dCol)
    ensures KingIndex(dRow, dCol + 1) == KingIndex(dRow, dCol) + (if dRow == 0 && dCol == 0 then 0 else 1)
  {
  }

  method GetKingMoves(b: Board, p: Pos, piece: Piece) returns (moves: seq<Pos>)
    ensures moves == KingMoves(b, p, piece)
  {
    moves := [];
    for dRow := -1 to 2
      invariant moves == Leaps(b, p, piece.color, KingOffsets[..KingIndex(dRow, -1)])
    {
      for dCol := -1 to 2
        invariant moves == Leaps(b, p, piece.color, KingOffsets[..KingIndex(dRow, dCol)])
      {
        KingIndexOrder(dRow, dCol);
        if dRow == 0 && dCol == 0 {
          continue;
        }
        var newPos := Pos(p.row + dRow, p.col + dCol);
        ghost var k := KingIndex(dRow, dCol);
        LeapsStep(b, p, piece.color, KingOffsets, k);
        assert Step(p, KingOffsets[k], 1) == newPos;
        moves := PushIfOpen(moves, b, newPos, piece.color);
      }
    }
    assert KingOffsets[..8] == KingOffsets;
  }

  /** The straight-line first half of `getPawnMoves`: the single and the double push. */
  method PawnAdvances(b: Board, p: Pos, piece: Piece) returns (moves: seq<Pos>)
    requires OnBoard(p)
    ensures moves == PawnPushes(b, p, piece)
  {
    moves := [];
    var row, col := p.row, p.col;
    var direction := if piece.color == White then -1 else 1;
    var startRow := if piece.color == White then 6 else 1;
    var newRow := row + direction;
    if OnBoard(Pos(newRow, col)) && At(b, Pos(newRow, col)).None? {
      moves := moves + [Pos(newRow, col)];
      if row == startRow && At(b, Pos(newRow + direction, col)).None? {
        moves := moves + [Pos(newRow + direction, col)];
      }
    }
  }

  /** One pass of the capture loop of `getPawnMoves`: the diagonal onto `captureCol`. */
  method PushCapture(moves: seq<Pos>, b: Board, p: Pos, piece: Piece, enPassant: Option<Pos>, captureCol: int)
    returns (r: seq<Pos>)
    requires OnBoard(p)
    ensures r == moves + PawnCapture(b, p, piece, enPassant, captureCol)
  {
    r := moves;
    var q := Pos(p.row + PawnDirection(piece.color), captureCol);
    if OnBoard(q) {
      var target := At(b, q);
      if target.Some? && target.value.color != piece.color {
        r := r + [q];
      }
      if enPassant.Some? && q == enPassant.value {
        r := r + [q];
      }
    }
  }

  method GetPawnMoves(b: Board, p: Pos, piece: Piece, enPassant: Option<Pos>) returns (moves: seq<Pos>)
    requires OnBoard(p)
    ensures moves == PawnMoves(b, p, piece, enPassant)
  {
    var col := p.col;
    moves := PawnAdvances(b, p, piece);
    var captureCols := [col - 1, col + 1];
    for k := 0 to 2
      invariant moves == PawnPushes(b, p, piece) + PawnCaptures(b, p, piece, enPassant, captureCols[..k])
    {
      assert captureCols[..k + 1][..k] == captureCols[..k];
      AppendAssoc(PawnPushes(b, p, piece), PawnCaptures(b, p, piece, enPassant, captureCols[..k]),
                  PawnCapture(b, p, piece, enPassant, captureCols[k]));
      moves := PushCapture(moves, b, p, piece, enPassant, captureCols[k]);
    }
    assert captureCols[..2] == captureCols;
  }

  method GetPossibleMoves(b: Board, p: Pos, piece: Piece, enPassant: Option<Pos>) returns (moves: seq<Pos>)
    requires OnBoard(p)
    ensures moves == PossibleMoves(b, p, piece, enPassant)
  {
    match piece.kind {
      case Pawn => moves := GetPawnMoves(b, p, piece, enPassant);
      case Rook => moves := GetRookMoves(b, p, piece);
      case Bishop => moves := GetBishopMoves(b, p, piece);
      case Queen => moves := GetQueenMoves(b, p, piece);
      case Knight => moves := GetKnightMoves(b, p, piece);
      case King => moves := GetKingMoves(b, p, piece);
    }
  }
}
