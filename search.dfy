/**
 * The computer player: a fixed-depth minimax search with alpha-beta pruning over
 * the legal moves of the rule engine, scored by the static evaluation.
 */
module Search {
  import opened ChessTypes
  import opened Legality
  import opened Evaluation

  // ------------------------------------------------------ extended integers

  /** A score, or one of the sentinels `-Infinity` and `Infinity`. */
  datatype ExtInt = NegInf | Fin(n: int) | PosInf

  predicate Le(x: ExtInt, y: ExtInt) {
    x.NegInf? || y.PosInf? || (x.Fin? && y.Fin? && x.n <= y.n)
  }

  predicate Lt(x: ExtInt, y: ExtInt) {
    !Le(y, x)
  }

  /** `Math.max` */
  function Max(x: ExtInt, y: ExtInt): (r: ExtInt)
    ensures Le(x, r) && Le(y, r) && (r == x || r == y)
  {
    if Le(x, y) then y else x
  }

  /** `Math.min` */
  function Min(x: ExtInt, y: ExtInt): (r: ExtInt)
    ensures Le(r, x) && Le(r, y) && (r == x || r == y)
  {
    if Le(x, y) then x else y
  }

  /** `Le` is a total order. */
  lemma LeOrder(x: ExtInt, y: ExtInt, z: ExtInt)
    ensures Le(x, x)
    ensures Le(x, y) || Le(y, x)
    ensures Le(x, y) && Le(y, x) ==> x == y
    ensures Le(x, y) && Le(y, z) ==> Le(x, z)
  {
  }

  // ------------------------------------------------------- applying moves

  function RookFromCol(m: Move): int {
    if m.to.col > m.from.col then 7 else 0
  }

  function RookToCol(m: Move): int {
    if m.to.col > m.from.col then 5 else 3
  }

  /** The square of the pawn an en-passant capture removes: behind the destination. */
  function Victim(m: Move): Pos {
    Pos(if m.piece.color == White then m.to.row + 1 else m.to.row - 1, m.to.col)
  }

  predicate CastlingKing(m: Move) {
    m.isCastling && m.piece.kind == King
  }

  predicate EnPassantPawn(m: Move) {
    m.isEnPassant && m.piece.kind == Pawn
  }

  /** A record the search can play: both squares on the board and, for an en-passant
      capture, the victim's square too (the source indexes past the board otherwise). */
  predicate Applicable(m: Move) {
    OnBoard(m.from) && OnBoard(m.to) && (EnPassantPawn(m) ==> OnBoard(Victim(m)))
  }

  /** The board after the AI's `makeMove`. */
  function ApplySearchMove(b: Board, m: Move): (r: Board)
    requires Applicable(m)
    ensures !CastlingKing(m) && !EnPassantPawn(m) ==> r == Relocate(b, m.from, m.to)
    ensures At(r, m.from).None? || (CastlingKing(m) && m.from == Pos(m.from.row, RookToCol(m)))
    ensures var rookFrom, rookTo := Pos(m.from.row, RookFromCol(m)), Pos(m.from.row, RookToCol(m));
      m.to != m.from && !(CastlingKing(m) && (m.to == rookFrom || m.to == rookTo)) ==> At(r, m.to) == At(b, m.from)
    ensures var rookFrom, rookTo := Pos(m.from.row, RookFromCol(m)), Pos(m.from.row, RookToCol(m));
      CastlingKing(m) && rookFrom != m.to && rookFrom != m.from && rookTo != m.to && At(b, rookFrom).Some? ==>
        At(r, rookTo) == At(b, rookFrom) && At(r, rookFrom).None?
    ensures EnPassantPawn(m) ==> At(r, Victim(m)).None?
    ensures forall q | OnBoard(q) && q != m.from && q != m.to
      && !(CastlingKing(m) && q.row == m.from.row && (q.col == RookFromCol(m) || q.col == RookToCol(m)))
      && !(EnPassantPawn(m) && q == Victim(m)) :: At(r, q) == At(b, q)
  {
    var moved := Relocate(b, m.from, m.to);
    var rookFrom, rookTo := Pos(m.from.row, RookFromCol(m)), Pos(m.from.row, RookToCol(m));
    var castled :=
      if CastlingKing(m) && At(moved, rookFrom).Some? then Put(Put(moved, rookTo, At(moved, rookFrom)), rookFrom, None)
      else moved;
    if EnPassantPawn(m) then Put(castled, Victim(m), None) else castled
  }

  /** Every move the rule engine lists is plain, so the search only ever relocates a piece. */
  lemma ListedMovesRelocate(b: Board, color: Color)
    ensures forall m | m in AllValidMoves(b, color) ::
      Applicable(m) && ApplySearchMove(b, m) == Relocate(b, m.from, m.to)
  {
    forall m | m in AllValidMoves(b, color)
      ensures Applicable(m) && ApplySearchMove(b, m) == Relocate(b, m.from, m.to)
    {
      AllValidMovesExactly(b, color, m);
      AllValidMovesArePlain(b, color, m);
    }
  }

  /** The AI's `makeMove` on any record; a record the source could not play leaves
      the board as it is (no such record reaches the search, `ListedMovesRelocate`). */
  function Play(b: Board, m: Move): Board {
    if Applicable(m) then ApplySearchMove(b, m) else b
  }

  // ------------------------------------------------------ minimax values

  /** What the search needs from the game, as functions: whether the side to move
      (the maximizing one or not) is mated or stalemated, the static score, the
      legal moves in search order, and the board a move leads to. */
  datatype Game = Game(
    over: (Board, bool) -> bool,
    score: Board -> int,
    moves: (Board, bool) -> seq<Move>,
    play: (Board, Move) -> Board)

  function Mover(maximizing: bool, aiColor: Color): Color {
    if maximizing then aiColor else Opponent(aiColor)
  }

  /** Chess seen by the AI playing `aiColor`. */
  function Chess(aiColor: Color): Game {
    Game(
      (b: Board, maximizing: bool) => IsCheckmate(b, Mover(maximizing, aiColor)) || IsStalemate(b, Mover(maximizing, aiColor)),
      (b: Board) => Evaluate(b, aiColor),
      (b: Board, maximizing: bool) => AllValidMoves(b, Mover(maximizing, aiColor)),
      Play)
  }

  /** The unpruned minimax value of `b` with `depth` plies left: the score at depth 0
      or when the game is over for the side to move, else the best child value. */
  function Value(g: Game, b: Board, depth: nat, maximizing: bool): ExtInt
    decreases depth, 1, 0
  {
    if depth == 0 || g.over(b, maximizing) then Fin(g.score(b))
    else Best(g, b, g.moves(b, maximizing), depth, maximizing)
  }

  /** The best child value over `moves` for the side to move: the maximum for the
      maximizing side, the minimum otherwise, and the sentinel when `moves` is empty. */
  function Best(g: Game, b: Board, moves: seq<Move>, depth: nat, maximizing: bool): ExtInt
    requires depth >= 1
    decreases depth, 0, |moves|
  {
    if moves == [] then (if maximizing then NegInf else PosInf)
    else
      var prev := Best(g, b, moves[..|moves| - 1], depth, maximizing);
      var v := Value(g, g.play(b, moves[|moves| - 1]), depth - 1, !maximizing);
      if maximizing then Max(prev, v) else Min(prev, v)
  }

  lemma BestStep(g: Game, b: Board, moves: seq<Move>, k: int, depth: nat, maximizing: bool)
    requires depth >= 1 && 0 <= k < |moves|
    ensures var prev, v := Best(g, b, moves[..k], depth, maximizing), Value(g, g.play(b, moves[k]), depth - 1, !maximizing);
      Best(g, b, moves[..k + 1], depth, maximizing) == if maximizing then Max(prev, v) else Min(prev, v)
  {
    assert moves[..k + 1][..k] == moves[..k];
  }

  /** Looking at more moves can only raise the maximum and lower the minimum. */
  lemma {:induction false} BestPrefixMonotone(g: Game, b: Board, moves: seq<Move>, k: int, depth: nat, maximizing: bool)
    requires depth >= 1 && 0 <= k <= |moves|
    decreases |moves| - k
    ensures maximizing ==> Le(Best(g, b, moves[..k], depth, maximizing), Best(g, b, moves, depth, maximizing))
    ensures !maximizing ==> Le(Best(g, b, moves, depth, maximizing), Best(g, b, moves[..k], depth, maximizing))
  {
    if k == |moves| {
      assert moves[..k] == moves;
    } else {
      BestPrefixMonotone(g, b, moves, k + 1, depth, maximizing);
      BestStep(g, b, moves, k, depth, maximizing);
      LeOrder(Best(g, b, moves[..k], depth, maximizing), Best(g, b, moves[..k + 1], depth, maximizing),
              Best(g, b, moves, depth, maximizing));
      LeOrder(Best(g, b, moves, depth, maximizing), Best(g, b, moves[..k + 1], depth, maximizing),
              Best(g, b, moves[..k], depth, maximizing));
    }
  }

  /** A game in which a side whose game is not over always has a move. */
  ghost predicate Live(g: Game) {
    forall b, maximizing :: g.over(b, maximizing) || g.moves(b, maximizing) != []
  }

  /** In a live game no minimax value is a sentinel. */
  lemma {:induction false} ValueFinite(g: Game, b: Board, depth: nat, maximizing: bool)
    requires Live(g)
    decreases depth, 1, 0
    ensures Value(g, b, depth, maximizing).Fin?
  {
    if !(depth == 0 || g.over(b, maximizing)) {
      BestFinite(g, b, g.moves(b, maximizing), depth, maximizing);
    }
  }

  lemma {:induction false} BestFinite(g: Game, b: Board, moves: seq<Move>, depth: nat, maximizing: bool)
    requires Live(g) && depth >= 1 && moves != []
    decreases depth, 0, |moves|
    ensures Best(g, b, moves, depth, maximizing).Fin?
  {
    var k := |moves| - 1;
    ValueFinite(g, g.play(b, moves[k]), depth - 1, !maximizing);
    if k > 0 {
      BestFinite(g, b, moves[..k], depth, maximizing);
    }
  }

  /** Markers naming one position (and side to move) and one move played from a
      position; `Models` opens its facts at a marker only, so that a proof about the
      search unfolds the rules of chess just where it asks for them. */
  ghost predicate Node(b: Board, maximizing: bool) {
    true
  }

  ghost predicate Played(b: Board, m: Move) {
    true
  }

  /** `g` is chess seen by the AI playing `aiColor`: at every position it agrees with
      the rule engine and the evaluation, and it plays moves with the AI's `makeMove`. */
  ghost predicate Models(g: Game, aiColor: Color) {
    && (forall b: Board, maximizing: bool {:trigger Node(b, maximizing)} :: Node(b, maximizing) ==>
          var color := Mover(maximizing, aiColor);
          && g.over(b, maximizing) == (IsCheckmate(b, color) || IsStalemate(b, color))
          && g.score(b) == Evaluate(b, aiColor)
          && g.moves(b, maximizing) == AllValidMoves(b, color))
    && (forall b: Board, m: Move {:trigger Played(b, m)} :: Played(b, m) ==> g.play(b, m) == Play(b, m))
  }

  /** `Chess` is such a game. */
  lemma ChessModels(aiColor: Color)
    ensures Models(Chess(aiColor), aiColor)
  {
  }

  /** What a model says about one position. */
  lemma NodeFacts(g: Game, aiColor: Color, b: Board, maximizing: bool)
    requires Models(g, aiColor)
    ensures var color := Mover(maximizing, aiColor);
      && g.over(b, maximizing) == (IsCheckmate(b, color) || IsStalemate(b, color))
      && g.score(b) == Evaluate(b, aiColor)
      && g.moves(b, maximizing) == AllValidMoves(b, color)
  {
    assert Node(b, maximizing);
  }

  /** What a model says about one move. */
  lemma PlayFacts(g: Game, aiColor: Color, b: Board, m: Move)
    requires Models(g, aiColor)
    ensures g.play(b, m) == Play(b, m)
  {
    assert Played(b, m);
  }

  /** Any two models give every position the same minimax value: a contract stated
      for every model is a statement about chess. */
  lemma {:induction false} ValueAgree(g: Game, h: Game, aiColor: Color, b: Board, depth: nat, maximizing: bool)
    requires Models(g, aiColor) && Models(h, aiColor)
    decreases depth, 1, 0
    ensures Value(g, b, depth, maximizing) == Value(h, b, depth, maximizing)
  {
    NodeFacts(g, aiColor, b, maximizing);
    NodeFacts(h, aiColor, b, maximizing);
    if !(depth == 0 || g.over(b, maximizing)) {
      BestAgree(g, h, aiColor, b, g.moves(b, maximizing), depth, maximizing);
    }
  }

  lemma {:induction false} BestAgree(g: Game, h: Game, aiColor: Color, b: Board, moves: seq<Move>, depth: nat, maximizing: bool)
    requires Models(g, aiColor) && Models(h, aiColor) && depth >= 1
    decreases depth, 0, |moves|
    ensures Best(g, b, moves, depth, maximizing) == Best(h, b, moves, depth, maximizing)
  {
    if moves != [] {
      var k := |moves| - 1;
      BestAgree(g, h, aiColor, b, moves[..k], depth, maximizing);
      PlayFacts(g, aiColor, b, moves[k]);
      PlayFacts(h, aiColor, b, moves[k]);
      ValueAgree(g, h, aiColor, g.play(b, moves[k]), depth - 1, !maximizing);
    }
  }

  /** The search can play every move the rule engine lists. */
  lemma ListedMovesApplicable(b: Board, color: Color)
    ensures forall m | m in AllValidMoves(b, color) :: Applicable(m)
  {
    ListedMovesRelocate(b, color);
  }

  /** The same, read through a model. */
  lemma MovesApplicable(g: Game, aiColor: Color, b: Board, maximizing: bool)
    requires Models(g, aiColor)
    ensures forall m | m in g.moves(b, maximizing) :: Applicable(m)
  {
    NodeFacts(g, aiColor, b, maximizing);
    ListedMovesApplicable(b, Mover(maximizing, aiColor));
  }

  /** Chess is live: a side with no legal move is mated or stalemated. */
  lemma ModelsLive(g: Game, aiColor: Color)
    requires Models(g, aiColor)
    ensures Live(g)
  {
    forall b, maximizing ensures g.over(b, maximizing) || g.moves(b, maximizing) != [] {
      NodeFacts(g, aiColor, b, maximizing);
      GameOverClassified(b, Mover(maximizing, aiColor));
    }
  }

  // ---------------------------------------------------- alpha-beta search

  /** Fail-soft correctness of a search result `value` in the window (alpha, beta) for
      the true value `exact`: exact inside the window, an upper bound at or below alpha,
      a lower bound at or above beta. */
  predicate FailSoft(value: ExtInt, exact: ExtInt, alpha: ExtInt, beta: ExtInt) {
    && (Le(value, alpha) ==> Le(exact, value))
    && (Lt(alpha, value) && Lt(value, beta) ==> exact == value)
    && (Le(beta, value) ==> Le(value, exact))
  }

  /** With the full window the search result is the true value. */
  lemma FullWindowExact(value: ExtInt, exact: ExtInt)
    requires FailSoft(value, exact, NegInf, PosInf)
    ensures value == exact
  {
  }

  /** One pass of the maximizing loop keeps its invariant or reaches the cut-off. Here
      `prev` is the true maximum over the moves seen so far and `exact` the true value
      of the move just searched, which returned `eval` in the window (alpha', beta). */
  lemma MaxStep(alpha: ExtInt, beta: ExtInt, alpha': ExtInt, maxEval: ExtInt, prev: ExtInt, exact: ExtInt, eval: ExtInt)
    requires alpha' == Max(alpha, maxEval) && Lt(alpha', beta)
    requires Le(prev, maxEval) && (Lt(alpha, maxEval) ==> prev == maxEval)
    requires FailSoft(eval, exact, alpha', beta)
    ensures var maxEval'', alpha'', next := Max(maxEval, eval), Max(alpha', eval), Max(prev, exact);
      && alpha'' == Max(alpha, maxEval'')
      && (Lt(alpha'', beta) ==> Le(next, maxEval'') && (Lt(alpha, maxEval'') ==> next == maxEval'') && Lt(maxEval'', beta))
      && (Le(beta, alpha'') ==> Le(beta, maxEval'') && Le(maxEval'', next))
  {
  }

  /** The mirror image of `MaxStep` for the minimizing loop. */
  lemma MinStep(alpha: ExtInt, beta: ExtInt, beta': ExtInt, minEval: ExtInt, prev: ExtInt, exact: ExtInt, eval: ExtInt)
    requires beta' == Min(beta, minEval) && Lt(alpha, beta')
    requires Le(minEval, prev) && (Lt(minEval, beta) ==> prev == minEval)
    requires FailSoft(eval, exact, alpha, beta')
    ensures var minEval'', beta'', next := Min(minEval, eval), Min(beta', eval), Min(prev, exact);
      && beta'' == Min(beta, minEval'')
      && (Lt(alpha, beta'') ==> Le(minEval'', next) && (Lt(minEval'', beta) ==> next == minEval'') && Lt(alpha, minEval''))
      && (Le(beta'', alpha) ==> Le(minEval'', alpha) && Le(next, minEval''))
  {
  }

  /** A result at or above beta that bounds the true value from below is fail-soft. */
  lemma FailHigh(value: ExtInt, exact: ExtInt, alpha: ExtInt, beta: ExtInt)
    requires Lt(alpha, beta) && Le(beta, value) && Le(value, exact)
    ensures FailSoft(value, exact, alpha, beta)
  {
  }

  /** A result at or below alpha that bounds the true value from above is fail-soft. */
  lemma FailLow(value: ExtInt, exact: ExtInt, alpha: ExtInt, beta: ExtInt)
    requires Lt(alpha, beta) && Le(value, alpha) && Le(exact, value)
    ensures FailSoft(value, exact, alpha, beta)
  {
  }

  /** The invariant of the maximizing loop of `minimax` after the first `k` moves:
      `maxEval` bounds their true maximum from above and equals it once it beats
      alpha, and the raised alpha stays below beta. */
  predicate MaxInv(g: Game, b: Board, moves: seq<Move>, depth: nat, k: int,
                   alpha: ExtInt, beta: ExtInt, alpha': ExtInt, maxEval: ExtInt)
    requires depth >= 1 && 0 <= k <= |moves|
  {
    var prev := Best(g, b, moves[..k], depth, true);
    && alpha' == Max(alpha, maxEval) && Lt(alpha', beta)
    && Le(prev, maxEval) && (Lt(alpha, maxEval) ==> prev == maxEval)
    && (k > 0 ==> maxEval.Fin?)
  }

  /** One pass of the maximizing loop: with the child searched fail-soft in the window
      (alpha', beta), either the cut-off fires with a fail-soft result for the whole
      node, or the invariant holds for one more move. */
  lemma MaxAdvance(g: Game, b: Board, moves: seq<Move>, depth: nat, k: int,
                   alpha: ExtInt, beta: ExtInt, alpha': ExtInt, maxEval: ExtInt, eval: ExtInt)
    requires depth >= 1 && 0 <= k < |moves|
    requires MaxInv(g, b, moves, depth, k, alpha, beta, alpha', maxEval)
    requires eval.Fin? && FailSoft(eval, Value(g, g.play(b, moves[k]), depth - 1, false), alpha', beta)
    ensures var maxEval'', alpha'' := Max(maxEval, eval), Max(alpha', eval);
      && (Le(beta, alpha'') ==> maxEval''.Fin? && FailSoft(maxEval'', Best(g, b, moves, depth, true), alpha, beta))
      && (!Le(beta, alpha'') ==> MaxInv(g, b, moves, depth, k + 1, alpha, beta, alpha'', maxEval''))
  {
    var prev, exact := Best(g, b, moves[..k], depth, true), Value(g, g.play(b, moves[k]), depth - 1, false);
    BestStep(g, b, moves, k, depth, true);
    MaxStep(alpha, beta, alpha', maxEval, prev, exact, eval);
    var maxEval'', alpha'' := Max(maxEval, eval), Max(alpha', eval);
    if Le(beta, alpha'') {
      BestPrefixMonotone(g, b, moves, k + 1, depth, true);
      LeOrder(maxEval'', Best(g, b, moves[..k + 1], depth, true), Best(g, b, moves, depth, true));
      FailHigh(maxEval'', Best(g, b, moves, depth, true), alpha, beta);
    }
  }

  /** The maximizing loop ran through every move without a cut-off. */
  lemma MaxDone(g: Game, b: Board, moves: seq<Move>, depth: nat,
                alpha: ExtInt, beta: ExtInt, alpha': ExtInt, maxEval: ExtInt)
    requires depth >= 1 && moves != []
    requires MaxInv(g, b, moves, depth, |moves|, alpha, beta, alpha', maxEval)
    ensures maxEval.Fin? && FailSoft(maxEval, Best(g, b, moves, depth, true), alpha, beta)
  {
    assert moves[..|moves|] == moves;
  }

  /** The invariant of the minimizing loop, the mirror image of `MaxInv`. */
  predicate MinInv(g: Game, b: Board, moves: seq<Move>, depth: nat, k: int,
                   alpha: ExtInt, beta: ExtInt, beta': ExtInt, minEval: ExtInt)
    requires depth >= 1 && 0 <= k <= |moves|
  {
    var prev := Best(g, b, moves[..k], depth, false);
    && beta' == Min(beta, minEval) && Lt(alpha, beta')
    && Le(minEval, prev) && (Lt(minEval, beta) ==> prev == minEval)
    && (k > 0 ==> minEval.Fin?)
  }

  /** One pass of the minimizing loop, the mirror image of `MaxAdvance`. */
  lemma MinAdvance(g: Game, b: Board, moves: seq<Move>, depth: nat, k: int,
                   alpha: ExtInt, beta: ExtInt, beta': ExtInt, minEval: ExtInt, eval: ExtInt)
    requires depth >= 1 && 0 <= k < |moves|
    requires MinInv(g, b, moves, depth, k, alpha, beta, beta', minEval)
    requires eval.Fin? && FailSoft(eval, Value(g, g.play(b, moves[k]), depth - 1, true), alpha, beta')
    ensures var minEval'', beta'' := Min(minEval, eval), Min(beta', eval);
      && (Le(beta'', alpha) ==> minEval''.Fin? && FailSoft(minEval'', Best(g, b, moves, depth, false), alpha, beta))
      && (!Le(beta'', alpha) ==> MinInv(g, b, moves, depth, k + 1, alpha, beta, beta'', minEval''))
  {
    var prev, exact := Best(g, b, moves[..k], depth, false), Value(g, g.play(b, moves[k]), depth - 1, true);
    BestStep(g, b, moves, k, depth, false);
    MinStep(alpha, beta, beta', minEval, prev, exact, eval);
    var minEval'', beta'' := Min(minEval, eval), Min(beta', eval);
    if Le(beta'', alpha) {
      BestPrefixMonotone(g, b, moves, k + 1, depth, false);
      LeOrder(Best(g, b, moves, depth, false), Best(g, b, moves[..k + 1], depth, false), minEval'');
      FailLow(minEval'', Best(g, b, moves, depth, false), alpha, beta);
    }
  }

  /** The minimizing loop ran through every move without a cut-off. */
  lemma MinDone(g: Game, b: Board, moves: seq<Move>, depth: nat,
                alpha: ExtInt, beta: ExtInt, beta': ExtInt, minEval: ExtInt)
    requires depth >= 1 && moves != []
    requires MinInv(g, b, moves, depth, |moves|, alpha, beta, beta', minEval)
    ensures minEval.Fin? && FailSoft(minEval, Best(g, b, moves, depth, false), alpha, beta)
  {
    assert moves[..|moves|] == moves;
  }

  // ------------------------------------------------------------ the player

  datatype Difficulty = Easy | Medium | Hard

  datatype AIConfig = AIConfig(depth: int, difficulty: Difficulty)

  /** The configuration the constructor falls back to. */
  const DefaultConfig := AIConfig(3, Medium)

  /** The search depth the constructor imposes for each difficulty. */
  function DepthFor(d: Difficulty): int {
    match d
    case Easy => 2
    case Medium => 3
    case Hard => 4
  }

  /** The value of playing `m` at the root: the minimax value of the child for the
      opponent to move. */
  function RootValue(g: Game, b: Board, m: Move, depth: nat): ExtInt {
    Value(g, g.play(b, m), depth, false)
  }

  /** The index and value `getBestMove`'s loop holds after the first `k` moves: a move
      replaces the kept one only when its value is strictly greater. */
  function Pick(g: Game, b: Board, moves: seq<Move>, depth: nat, k: int): (r: (nat, ExtInt))
    requires 0 <= k <= |moves|
    ensures k > 0 ==> r.0 < k
  {
    if k == 0 then (0, NegInf)
    else
      var prev := Pick(g, b, moves, depth, k - 1);
      var x := RootValue(g, b, moves[k - 1], depth);
      if Lt(prev.1, x) then (k - 1, x) else prev
  }

  /** One pass of `getBestMove`'s loop takes `Pick` one move further. */
  lemma PickAdvance(g: Game, b: Board, moves: seq<Move>, depth: nat, k: int,
                    bestMove: Move, bestValue: ExtInt, value: ExtInt)
    requires 0 <= k < |moves|
    requires bestMove == moves[Pick(g, b, moves, depth, k).0] && bestValue == Pick(g, b, moves, depth, k).1
    requires value == RootValue(g, b, moves[k], depth)
    ensures var (i, v) := Pick(g, b, moves, depth, k + 1);
      && (if Lt(bestValue, value) then moves[k] else bestMove) == moves[i]
      && (if Lt(bestValue, value) then value else bestValue) == v
  {
  }

  /** The move the deterministic part of `getBestMove` returns, `None` when there is
      no move. */
  function Choice(g: Game, b: Board, moves: seq<Move>, depth: nat): Option<Move> {
    if moves == [] then None else Some(moves[Pick(g, b, moves, depth, |moves|).0])
  }

  /** The kept move is the first one of maximal value: later ties never replace it. */
  lemma {:induction false} PickFirstMaximal(g: Game, b: Board, moves: seq<Move>, depth: nat, k: int)
    requires 1 <= k <= |moves|
    ensures var (i, v) := Pick(g, b, moves, depth, k);
      && i < k && v == RootValue(g, b, moves[i], depth)
      && (forall j | 0 <= j < k :: Le(RootValue(g, b, moves[j], depth), v))
      && (forall j | 0 <= j < i :: Lt(RootValue(g, b, moves[j], depth), v))
  {
    var x := RootValue(g, b, moves[k - 1], depth);
    if k == 1 {
      LeOrder(x, NegInf, x);
    } else {
      PickFirstMaximal(g, b, moves, depth, k - 1);
      var (i, v) := Pick(g, b, moves, depth, k - 1);
      LeOrder(v, x, v);
      forall j | 0 <= j < k - 1 ensures Le(RootValue(g, b, moves[j], depth), Max(v, x)) {
        LeOrder(RootValue(g, b, moves[j], depth), v, Max(v, x));
      }
      if Lt(v, x) {
        forall j | 0 <= j < k - 1 ensures Lt(RootValue(g, b, moves[j], depth), x) {
          LeOrder(x, RootValue(g, b, moves[j], depth), v);
        }
      }
    }
  }

  /** `ChessAI`: the configuration fixed at construction, and the search. */
  class ChessAI {
    const config: AIConfig

    /** The depth is overridden from the difficulty. */
    constructor(config: AIConfig)
      ensures this.config == AIConfig(DepthFor(config.difficulty), config.difficulty)
    {
      var c := config;
      match c.difficulty {
        case Easy => c := c.(depth := 2);
        case Medium => c := c.(depth := 3);
        case Hard => c := c.(depth := 4);
      }
      this.config := c;
    }

    /** `makeMove`: writes into a copy of the board. */
    method MakeMove(b: Board, m: Move) returns (newBoard: Board)
      requires Applicable(m)
      ensures newBoard == Play(b, m)
    {
      newBoard := b;
      newBoard := Put(newBoard, m.to, At(newBoard, m.from));
      newBoard := Put(newBoard, m.from, None);
      if m.isCastling && m.piece.kind == King {
        var rookFromCol := if m.to.col > m.from.col then 7 else 0;
        var rookToCol := if m.to.col > m.from.col then 5 else 3;
        var rook := At(newBoard, Pos(m.from.row, rookFromCol));
        if rook.Some? {
          newBoard := Put(newBoard, Pos(m.from.row, rookToCol), rook);
          newBoard := Put(newBoard, Pos(m.from.row, rookFromCol), None);
        }
      }
      if m.isEnPassant && m.piece.kind == Pawn {
        var capturedPawnRow := if m.piece.color == White then m.to.row + 1 else m.to.row - 1;
        newBoard := Put(newBoard, Pos(capturedPawnRow, m.to.col), None);
      }
    }

    /** `minimax`: alpha-beta search, fail-soft correct against the unpruned value. */
    method Minimax(b: Board, depth: nat, alpha: ExtInt, beta: ExtInt, maximizing: bool, aiColor: Color, ghost g: Game)
      returns (value: ExtInt)
      requires Models(g, aiColor) && Lt(alpha, beta)
      decreases depth, 1
      ensures value.Fin?
      ensures FailSoft(value, Value(g, b, depth, maximizing), alpha, beta)
      ensures (|| depth == 0
               || IsCheckmate(b, if maximizing then aiColor else Opponent(aiColor))
               || IsStalemate(b, if maximizing then aiColor else Opponent(aiColor)))
        ==> value == Fin(Evaluate(b, aiColor))
    {
      var currentColor := if maximizing then aiColor else Opponent(aiColor);
      NodeFacts(g, aiColor, b, maximizing);
      if depth == 0 || IsCheckmate(b, currentColor) || IsStalemate(b, currentColor) {
        var score := EvaluateBoard(b, aiColor);
        return Fin(score);
      }
      var moves := GetAllValidMoves(b, currentColor);
      GameOverClassified(b, currentColor);
      MovesApplicable(g, aiColor, b, maximizing);
      if maximizing {
        value := MaxLoop(b, moves, depth, alpha, beta, aiColor, g);
      } else {
        value := MinLoop(b, moves, depth, alpha, beta, aiColor, g);
      }
    }

    /** The maximizing loop of `minimax`: raises `maxEval` and alpha, and stops once
        beta <= alpha. */
    method MaxLoop(b: Board, moves: seq<Move>, depth: nat, alpha: ExtInt, beta: ExtInt, aiColor: Color, ghost g: Game)
      returns (maxEval: ExtInt)
      requires Models(g, aiColor) && depth >= 1 && moves != [] && Lt(alpha, beta)
      requires forall m | m in moves :: Applicable(m)
      decreases depth, 0
      ensures maxEval.Fin?
      ensures FailSoft(maxEval, Best(g, b, moves, depth, true), alpha, beta)
    {
      maxEval := NegInf;
      var alpha' := alpha;
      for k := 0 to |moves|
        invariant MaxInv(g, b, moves, depth, k, alpha, beta, alpha', maxEval)
      {
        var move := moves[k];
        var newBoard := MakeMove(b, move);
        PlayFacts(g, aiColor, b, move);
        var eval := Minimax(newBoard, depth - 1, alpha', beta, false, aiColor, g);
        MaxAdvance(g, b, moves, depth, k, alpha, beta, alpha', maxEval, eval);
        maxEval := Max(maxEval, eval);
        alpha' := Max(alpha', eval);
        if Le(beta, alpha') {
          return;
        }
      }
      MaxDone(g, b, moves, depth, alpha, beta, alpha', maxEval);
    }

    /** The minimizing loop of `minimax`: lowers `minEval` and beta, and stops once
        beta <= alpha. */
    method MinLoop(b: Board, moves: seq<Move>, depth: nat, alpha: ExtInt, beta: ExtInt, aiColor: Color, ghost g: Game)
      returns (minEval: ExtInt)
      requires Models(g, aiColor) && depth >= 1 && moves != [] && Lt(alpha, beta)
      requires forall m | m in moves :: Applicable(m)
      decreases depth, 0
      ensures minEval.Fin?
      ensures FailSoft(minEval, Best(g, b, moves, depth, false), alpha, beta)
    {
      minEval := PosInf;
      var beta' := beta;
      for k := 0 to |moves|
        invariant MinInv(g, b, moves, depth, k, alpha, beta, beta', minEval)
      {
        var move := moves[k];
        var newBoard := MakeMove(b, move);
        PlayFacts(g, aiColor, b, move);
        var eval := Minimax(newBoard, depth - 1, alpha, beta', true, aiColor, g);
        MinAdvance(g, b, moves, depth, k, alpha, beta, beta', minEval, eval);
        minEval := Min(minEval, eval);
        beta' := Min(beta', eval);
        if Le(beta', alpha) {
          return;
        }
      }
      MinDone(g, b, moves, depth, alpha, beta, beta', minEval);
    }

    /** `getBestMove`. `randomPick` stands for the easy mode's two `Math.random()` draws:
        `None` when the first draw does not fire, else the index the second one picks
        (taken modulo the number of moves). */
    method GetBestMove(b: Board, color: Color, randomPick: Option<nat>, ghost g: Game) returns (best: Option<Move>)
      requires Models(g, color) && config.depth >= 1
      ensures best.None? <==> |AllValidMoves(b, color)| == 0
      ensures best.Some? ==> best.value in AllValidMoves(b, color)
      ensures !(config.difficulty == Easy && randomPick.Some?) ==>
        best == Choice(g, b, AllValidMoves(b, color), config.depth - 1)
    {
      var moves := GetAllValidMoves(b, color);
      if |moves| == 0 {
        return None;
      }
      ListedMovesApplicable(b, color);
      var move := ChooseMove(b, color, moves, randomPick, g);
      return Some(move);
    }

    /** The part of `getBestMove` after the moves are listed: the easy mode's random
        pick, or the search. */
    method ChooseMove(b: Board, color: Color, moves: seq<Move>, randomPick: Option<nat>, ghost g: Game)
      returns (move: Move)
      requires Models(g, color) && config.depth >= 1 && moves != []
      requires forall m | m in moves :: Applicable(m)
      ensures move in moves
      ensures !(config.difficulty == Easy && randomPick.Some?) ==> Some(move) == Choice(g, b, moves, config.depth - 1)
    {
      if config.difficulty == Easy && randomPick.Some? {
        return moves[randomPick.value % |moves|];
      }
      move := SearchRoot(b, color, moves, config.depth - 1, g);
    }

    /** One root move of `getBestMove`: play it and search the reply with the full window,
        which yields the move's exact minimax value. */
    method SearchChild(b: Board, color: Color, move: Move, depth: nat, ghost g: Game) returns (value: ExtInt)
      requires Models(g, color) && Applicable(move)
      ensures value == RootValue(g, b, move, depth)
    {
      var newBoard := MakeMove(b, move);
      PlayFacts(g, color, b, move);
      value := Minimax(newBoard, depth, NegInf, PosInf, false, color, g);
      FullWindowExact(value, Value(g, newBoard, depth, false));
    }

    /** The deterministic loop of `getBestMove`: every root move is searched with the
        full window, and a move replaces the kept one only when strictly better. */
    method SearchRoot(b: Board, color: Color, moves: seq<Move>, depth: nat, ghost g: Game) returns (bestMove: Move)
      requires Models(g, color) && moves != []
      requires forall m | m in moves :: Applicable(m)
      ensures bestMove in moves
      ensures Some(bestMove) == Choice(g, b, moves, depth)
    {
      bestMove := moves[0];
      var bestValue := NegInf;
      for k := 0 to |moves|
        invariant bestMove == moves[Pick(g, b, moves, depth, k).0]
        invariant bestValue == Pick(g, b, moves, depth, k).1
      {
        var move := moves[k];
        var value := SearchChild(b, color, move, depth, g);
        PickAdvance(g, b, moves, depth, k, bestMove, bestValue, value);
        if Lt(bestValue, value) {
          bestValue := value;
          bestMove := move;
        }
      }
    }
  }
}
