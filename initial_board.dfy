/** The starting position (`createInitialBoard`) and piece counting over boards. */
module Setup {
  import opened ChessTypes

  const EmptyRow: Row := [None, None, None, None, None, None, None, None]

  /** Kinds along a back rank, files a to h. */
  const BackRankKinds: seq<Kind> := [Rook, Knight, Bishop, Queen, King, Bishop, Knight, Rook]

  function BackRank(c: Color): Row {
    seq(8, i requires 0 <= i < 8 => Some(Piece(BackRankKinds[i], c, false)))
  }

  function PawnRank(c: Color): Row {
    seq(8, i => Some(Piece(Pawn, c, false)))
  }

  /** Black's pieces on rows 0 and 1, White's on rows 6 and 7, rows 2 to 5 empty. */
  function InitialBoard(): Board {
    [BackRank(Black), PawnRank(Black), EmptyRow, EmptyRow, EmptyRow, EmptyRow, PawnRank(White), BackRank(White)]
  }

  /** Number of cells of `cells` holding a piece of colour `c` whose kind is in `kinds`. */
  function CountInRow(cells: seq<Cell>, c: Color, kinds: set<Kind>): nat {
    if cells == [] then 0
    else (if cells[0].Some? && cells[0].value.color == c && cells[0].value.kind in kinds then 1 else 0)
         + CountInRow(cells[1..], c, kinds)
  }

  function CountInRows(rows: seq<Row>, c: Color, kinds: set<Kind>): nat {
    if rows == [] then 0 else CountInRow(rows[0], c, kinds) + CountInRows(rows[1..], c, kinds)
  }

  /** Number of pieces of colour `c` with a kind in `kinds` on the board. */
  function Count(b: Board, c: Color, kinds: set<Kind>): nat {
    CountInRows(b, c, kinds)
  }

  const AllKinds: set<Kind> := {King, Queen, Rook, Bishop, Knight, Pawn}

  /** Rows 0 and 7 hold the back ranks, rows 1 and 6 the pawns. */
  lemma InitialLayout(p: Pos)
    requires OnBoard(p)
    ensures p.row == 0 ==> At(InitialBoard(), p) == Some(Piece(BackRankKinds[p.col], Black, false))
    ensures p.row == 1 ==> At(InitialBoard(), p) == Some(Piece(Pawn, Black, false))
    ensures 2 <= p.row <= 5 ==> At(InitialBoard(), p) == None
    ensures p.row == 6 ==> At(InitialBoard(), p) == Some(Piece(Pawn, White, false))
    ensures p.row == 7 ==> At(InitialBoard(), p) == Some(Piece(BackRankKinds[p.col], White, false))
  {
  }

  /** 1 when `x` holds a piece of colour `c` with a kind in `kinds`, else 0. */
  function Tally(x: Cell, c: Color, kinds: set<Kind>): nat {
    if x.Some? && x.value.color == c && x.value.kind in kinds then 1 else 0
  }

  lemma {:induction false} CountInRowTerms(r: Row, c: Color, kinds: set<Kind>)
    ensures CountInRow(r, c, kinds) == Tally(r[0], c, kinds) + Tally(r[1], c, kinds) + Tally(r[2], c, kinds)
      + Tally(r[3], c, kinds) + Tally(r[4], c, kinds) + Tally(r[5], c, kinds) + Tally(r[6], c, kinds) + Tally(r[7], c, kinds)
  {
    var s1 := r[1..]; var s2 := s1[1..]; var s3 := s2[1..]; var s4 := s3[1..];
    var s5 := s4[1..]; var s6 := s5[1..]; var s7 := s6[1..]; var s8 := s7[1..];
    assert s8 == [];
    assert CountInRow(s7, c, kinds) == Tally(r[7], c, kinds);
    assert CountInRow(s6, c, kinds) == Tally(r[6], c, kinds) + CountInRow(s7, c, kinds);
    assert CountInRow(s5, c, kinds) == Tally(r[5], c, kinds) + CountInRow(s6, c, kinds);
    assert CountInRow(s4, c, kinds) == Tally(r[4], c, kinds) + CountInRow(s5, c, kinds);
    assert CountInRow(s3, c, kinds) == Tally(r[3], c, kinds) + CountInRow(s4, c, kinds);
    assert CountInRow(s2, c, kinds) == Tally(r[2], c, kinds) + CountInRow(s3, c, kinds);
    assert CountInRow(s1, c, kinds) == Tally(r[1], c, kinds) + CountInRow(s2, c, kinds);
    assert CountInRow(r, c, kinds) == Tally(r[0], c, kinds) + CountInRow(s1, c, kinds);
  }

  lemma {:induction false} CountTerms(b: Board, c: Color, kinds: set<Kind>)
    ensures Count(b, c, kinds) == CountInRow(b[0], c, kinds) + CountInRow(b[1], c, kinds) + CountInRow(b[2], c, kinds)
      + CountInRow(b[3], c, kinds) + CountInRow(b[4], c, kinds) + CountInRow(b[5], c, kinds)
      + CountInRow(b[6], c, kinds) + CountInRow(b[7], c, kinds)
  {
    var s1 := b[1..]; var s2 := s1[1..]; var s3 := s2[1..]; var s4 := s3[1..];
    var s5 := s4[1..]; var s6 := s5[1..]; var s7 := s6[1..]; var s8 := s7[1..];
    assert s8 == [];
    assert CountInRows(s7, c, kinds) == CountInRow(b[7], c, kinds);
    assert CountInRows(s6, c, kinds) == CountInRow(b[6], c, kinds) + CountInRows(s7, c, kinds);
    assert CountInRows(s5, c, kinds) == CountInRow(b[5], c, kinds) + CountInRows(s6, c, kinds);
    assert CountInRows(s4, c, kinds) == CountInRow(b[4], c, kinds) + CountInRows(s5, c, kinds);
    assert CountInRows(s3, c, kinds) == CountInRow(b[3], c, kinds) + CountInRows(s4, c, kinds);
    assert CountInRows(s2, c, kinds) == CountInRow(b[2], c, kinds) + CountInRows(s3, c, kinds);
    assert CountInRows(s1, c, kinds) == CountInRow(b[1], c, kinds) + CountInRows(s2, c, kinds);
  }

  lemma BackRankCount(c: Color, d: Color, kinds: set<Kind>)
    ensures CountInRow(BackRank(c), d, kinds) ==
      if c != d then 0 else
        (if Rook in kinds then 2 else 0) + (if Knight in kinds then 2 else 0)
        + (if Bishop in kinds then 2 else 0) + (if Queen in kinds then 1 else 0) + (if King in kinds then 1 else 0)
  {
    CountInRowTerms(BackRank(c), d, kinds);
  }

  lemma PawnRankCount(c: Color, d: Color, kinds: set<Kind>)
    ensures CountInRow(PawnRank(c), d, kinds) == if c == d && Pawn in kinds then 8 else 0
  {
    CountInRowTerms(PawnRank(c), d, kinds);
  }

  lemma InitialCount(c: Color, kinds: set<Kind>)
    ensures Count(InitialBoard(), c, kinds) ==
      (if Rook in kinds then 2 else 0) + (if Knight in kinds then 2 else 0) + (if Bishop in kinds then 2 else 0)
      + (if Queen in kinds then 1 else 0) + (if King in kinds then 1 else 0) + (if Pawn in kinds then 8 else 0)
  {
    CountTerms(InitialBoard(), c, kinds);
    CountInRowTerms(EmptyRow, c, kinds);
    BackRankCount(Black, c, kinds);
    BackRankCount(White, c, kinds);
    PawnRankCount(Black, c, kinds);
    PawnRankCount(White, c, kinds);
  }

  /** Each side starts with sixteen pieces, eight of them pawns, and exactly one king. */
  lemma InitialCounts(c: Color)
    ensures Count(InitialBoard(), c, AllKinds) == 16
    ensures Count(InitialBoard(), c, {Pawn}) == 8
    ensures Count(InitialBoard(), c, {King}) == 1
  {
    InitialCount(c, AllKinds);
    InitialCount(c, {Pawn});
    InitialCount(c, {King});
  }

  /** `createInitialBoard`: start from an empty grid, write the back ranks whole
      and fill the pawn ranks square by square. */
  method CreateInitialBoard() returns (board: Board)
    ensures board == InitialBoard()
  {
    board := [EmptyRow, EmptyRow, EmptyRow, EmptyRow, EmptyRow, EmptyRow, EmptyRow, EmptyRow];
    board := board[7 := BackRank(White)];
    for col := 0 to 8
      invariant board == [EmptyRow, EmptyRow, EmptyRow, EmptyRow, EmptyRow, EmptyRow, board[6], BackRank(White)]
      invariant forall c | 0 <= c < 8 :: board[6][c] == if c < col then Some(Piece(Pawn, White, false)) else None
    {
      board := board[6 := board[6][col := Some(Piece(Pawn, White, false))]];
    }
    assert board[6] == PawnRank(White);
    board := board[0 := BackRank(Black)];
    for col := 0 to 8
      invariant board == [BackRank(Black), board[1], EmptyRow, EmptyRow, EmptyRow, EmptyRow, PawnRank(White), BackRank(White)]
      invariant forall c | 0 <= c < 8 :: board[1][c] == if c < col then Some(Piece(Pawn, Black, false)) else None
    {
      board := board[1 := board[1][col := Some(Piece(Pawn, Black, false))]];
    }
    assert board[1] == PawnRank(Black);
  }
}
