/**
 * The game hook: the state record, applying a move to it, the click and drag
 * selection handlers, undo by replaying the history, and the status the hook
 * derives after every move.
 */
module Game {
  import opened ChessTypes
  import opened Setup
  import opened Notation
  import opened Legality

  // ------------------------------------------------------------- the state

  /** The state the hook starts from, and the one `newGame` restores. */
  function InitialState(): GameState {
    GameState(InitialBoard(), White, None, [], None, [], Captured([], []), false, false, false, Playing, None)
  }

  /** An en-passant target is the square a pawn skipped over, so it lies on rows 1 to 6. */
  predicate TargetInRange(t: Option<Pos>) {
    t.None? || (OnBoard(t.value) && 1 <= t.value.row <= 6)
  }

  /** A selected square holds a piece of the side to move, and the stored destinations are
      that piece's valid moves; with nothing selected, none are stored. */
  predicate SelectionOk(s: GameState) {
    match s.selectedSquare
    case None => s.validMoves == []
    case Some(q) =>
      && OnBoard(q) && At(s.board, q).Some? && At(s.board, q).value.color == s.currentPlayer
      && s.validMoves == ValidMoves(s.board, q, At(s.board, q).value, s.enPassantTarget)
  }

  /** The facts about a state that the handlers rely on. */
  predicate Ready(s: GameState) {
    SelectionOk(s) && TargetInRange(s.enPassantTarget)
  }

  // --------------------------------------------------------- applying a move

  /** `makeMove` dereferences the origin square; `from` and `to` are squares of the board. */
  predicate Playable(s: GameState, from: Pos, to: Pos) {
    OnBoard(from) && OnBoard(to) && At(s.board, from).Some?
  }

  /** The square of the pawn an en-passant capture by `color` onto `to` removes. */
  function VictimSquare(color: Color, to: Pos): Pos {
    Pos(if color == White then to.row + 1 else to.row - 1, to.col)
  }

  /** A king displaced by exactly two columns is taken to castle. */
  predicate Castles(piece: Piece, from: Pos, to: Pos) {
    piece.kind == King && Abs(from.col - to.col) == 2
  }

  function RookFrom(from: Pos, to: Pos): Pos {
    Pos(from.row, if to.col > from.col then 7 else 0)
  }

  function RookTo(from: Pos, to: Pos): Pos {
    Pos(from.row, if to.col > from.col then 5 else 3)
  }

  /** `[x]` when `x` is a piece of colour `c`, else nothing: what goes into the list of `c`. */
  function Taken(x: Cell, c: Color): seq<Piece> {
    if x.Some? && x.value.color == c then [x.value] else []
  }

  /** The pawn an en-passant capture removes, read in terms of the board before the move:
      the square behind the target, unless that is the origin, which is empty by then. */
  function EnPassantVictim(s: GameState, from: Pos, to: Pos): Cell
    requires Playable(s, from, to) && TargetInRange(s.enPassantTarget)
  {
    var piece := At(s.board, from).value;
    var victim := VictimSquare(piece.color, to);
    if piece.kind == Pawn && s.enPassantTarget == Some(to) && victim != from then At(s.board, victim)
    else None
  }

  /** The pawn lands on the en-passant target. */
  predicate TakesEnPassant(s: GameState, from: Pos, to: Pos)
    requires Playable(s, from, to)
  {
    At(s.board, from).value.kind == Pawn && s.enPassantTarget == Some(to)
  }

  /** The board with the piece from `from` put on `to`, marked as moved, and `from` emptied. */
  function Lifted(b: Board, from: Pos, to: Pos, piece: Piece): Board
    requires OnBoard(from) && OnBoard(to)
  {
    Put(Put(b, to, Some(piece.(hasMoved := true))), from, None)
  }

  /** The castling step: whatever stands in the corner on the side the king went to moves,
      marked as moved, next to the king's origin on that side. */
  function CastleRook(b: Board, from: Pos, to: Pos): Board
    requires OnBoard(from)
  {
    match At(b, RookFrom(from, to))
    case None => b
    case Some(rook) => Put(Put(b, RookTo(from, to), Some(rook.(hasMoved := true))), RookFrom(from, to), None)
  }

  /** The board `makeMove` builds: the piece lifted onto `to`, then the en-passant victim
      removed, then the castling step. */
  function BoardAfter(s: GameState, from: Pos, to: Pos): Board
    requires Playable(s, from, to) && TargetInRange(s.enPassantTarget)
  {
    var piece := At(s.board, from).value;
    var b1 := Lifted(s.board, from, to, piece);
    var victim := VictimSquare(piece.color, to);
    var b2 := if TakesEnPassant(s, from, to) && At(b1, victim).Some? then Put(b1, victim, None) else b1;
    if Castles(piece, from, to) then CastleRook(b2, from, to) else b2
  }

  /** The captured lists `makeMove` builds: the piece found on `to`, then the pawn taken en
      passant, as it stands once the mover has been lifted. */
  function CapturedAfter(s: GameState, from: Pos, to: Pos): Captured
    requires Playable(s, from, to) && TargetInRange(s.enPassantTarget)
  {
    var piece := At(s.board, from).value;
    var captured := if At(s.board, to).Some? then s.capturedPieces.Add(At(s.board, to).value) else s.capturedPieces;
    if TakesEnPassant(s, from, to) then
      match At(Lifted(s.board, from, to, piece), VictimSquare(piece.color, to))
      case None => captured
      case Some(pawn) => captured.Add(pawn)
    else captured
  }

  /** The en-passant target after moving `piece`: set exactly after a pawn's two-row step,
      on the square the pawn passed over. */
  function TargetAfter(piece: Piece, from: Pos, to: Pos): (t: Option<Pos>)
    requires OnBoard(from) && OnBoard(to)
    ensures t.Some? <==> piece.kind == Pawn && Abs(from.row - to.row) == 2
    ensures t.Some? ==> t.value.col == from.col && from.row - t.value.row == t.value.row - to.row
    ensures TargetInRange(t)
  {
    if piece.kind == Pawn && Abs(from.row - to.row) == 2 then
      Midpoint(from.row, to.row);
      Some(Pos((from.row + to.row) / 2, from.col))
    else None
  }

  /** The record `makeMove` appends to the history. */
  function MoveMade(s: GameState, from: Pos, to: Pos): Move
    requires Playable(s, from, to)
  {
    var piece := At(s.board, from).value;
    Move(from, to, piece, At(s.board, to), TakesEnPassant(s, from, to), Castles(piece, from, to), None,
         AlgebraicNotation(s.board, from, to, piece))
  }

  lemma Midpoint(a: int, b: int)
    requires 0 <= a < 8 && 0 <= b < 8 && Abs(a - b) == 2
    ensures 1 <= (a + b) / 2 <= 6 && a - (a + b) / 2 == (a + b) / 2 - b
  {
  }

  /** `makeMove` */
  function AfterMove(s: GameState, from: Pos, to: Pos): (r: GameState)
    requires Playable(s, from, to) && TargetInRange(s.enPassantTarget)
    ensures r.currentPlayer == Opponent(s.currentPlayer)
    ensures r.selectedSquare.None? && r.validMoves == []
    ensures r.lastMove.Some? && r.moveHistory == s.moveHistory + [r.lastMove.value]
    ensures r.lastMove.value.from == from && r.lastMove.value.to == to
    ensures TargetInRange(r.enPassantTarget)
    ensures r.isCheck == s.isCheck && r.isCheckmate == s.isCheckmate && r.isStalemate == s.isStalemate
    ensures r.gameStatus == s.gameStatus
  {
    var move := MoveMade(s, from, to);
    s.(board := BoardAfter(s, from, to), currentPlayer := Opponent(s.currentPlayer), selectedSquare := None,
       validMoves := [], lastMove := Some(move), moveHistory := s.moveHistory + [move],
       capturedPieces := CapturedAfter(s, from, to), enPassantTarget := TargetAfter(At(s.board, from).value, from, to))
  }

  /** The record appended to the history: the piece and the captured piece as they stood
      before the move, the notation of the move on that board, and the two flags. */
  lemma AfterMoveRecord(s: GameState, from: Pos, to: Pos)
    requires Playable(s, from, to) && TargetInRange(s.enPassantTarget)
    ensures var m := AfterMove(s, from, to).lastMove.value;
      && m.piece == At(s.board, from).value
      && m.capturedPiece == At(s.board, to) && m.promotion.None?
      && m.notation == AlgebraicNotation(s.board, from, to, m.piece)
      && (m.isEnPassant <==> m.piece.kind == Pawn && s.enPassantTarget == Some(to))
      && (m.isCastling <==> Castles(m.piece, from, to))
  {
  }

  /** Every square other than the origin, the destination, the en-passant victim and the
      castling rook's two squares keeps what it held. */
  lemma AfterMoveFrame(s: GameState, from: Pos, to: Pos, q: Pos)
    requires Playable(s, from, to) && TargetInRange(s.enPassantTarget)
    requires OnBoard(q) && q != from && q != to
    requires var piece := At(s.board, from).value;
      && !(piece.kind == Pawn && s.enPassantTarget == Some(to) && q == VictimSquare(piece.color, to))
      && !(Castles(piece, from, to) && (q == RookFrom(from, to) || q == RookTo(from, to)))
    ensures At(AfterMove(s, from, to).board, q) == At(s.board, q)
  {
  }

  /** Outside castling, the piece lands on `to` marked as moved and `from` is left empty;
      an en-passant capture also empties the square behind the target. */
  lemma AfterMovePlacement(s: GameState, from: Pos, to: Pos)
    requires Playable(s, from, to) && TargetInRange(s.enPassantTarget)
    requires from != to && !Castles(At(s.board, from).value, from, to)
    ensures var piece := At(s.board, from).value;
      && At(AfterMove(s, from, to).board, to) == Some(piece.(hasMoved := true))
      && At(AfterMove(s, from, to).board, from).None?
      && (piece.kind == Pawn && s.enPassantTarget == Some(to) ==>
            OnBoard(VictimSquare(piece.color, to)) && At(AfterMove(s, from, to).board, VictimSquare(piece.color, to)).None?)
  {
  }

  /** Castling with all four squares distinct: the king lands on `to`, and the piece from
      the corner, marked as moved, on the square the king passed over. The corner piece is
      not checked to be a rook. This is only the case the lemma's requires name, not every
      two-column king step `AfterMove` accepts; and since the king's generated moves are
      single steps, no legal move of the hook is a castling move at all. */
  lemma AfterMoveCastling(s: GameState, from: Pos, to: Pos)
    requires Playable(s, from, to) && TargetInRange(s.enPassantTarget)
    requires Castles(At(s.board, from).value, from, to)
    requires RookFrom(from, to) != to && RookTo(from, to) != from && RookTo(from, to) != to
    requires At(s.board, RookFrom(from, to)).Some?
    ensures var r := AfterMove(s, from, to).board;
      && At(r, to) == Some(At(s.board, from).value.(hasMoved := true)) && At(r, from).None?
      && At(r, RookTo(from, to)) == Some(At(s.board, RookFrom(from, to)).value.(hasMoved := true))
      && At(r, RookFrom(from, to)).None?
  {
  }

  /** The captured lists grow by the piece found on `to` and then by the en-passant victim,
      each in the list of its own colour. */
  lemma AfterMoveCaptures(s: GameState, from: Pos, to: Pos, c: Color)
    requires Playable(s, from, to) && TargetInRange(s.enPassantTarget)
    ensures AfterMove(s, from, to).capturedPieces.Of(c) ==
      s.capturedPieces.Of(c) + Taken(At(s.board, to), c) + Taken(EnPassantVictim(s, from, to), c)
  {
    assert AfterMove(s, from, to).capturedPieces == CapturedAfter(s, from, to);
    CapturedAfterTaken(s, from, to, c);
  }

  lemma CapturedAfterTaken(s: GameState, from: Pos, to: Pos, c: Color)
    requires Playable(s, from, to) && TargetInRange(s.enPassantTarget)
    ensures CapturedAfter(s, from, to).Of(c) ==
      s.capturedPieces.Of(c) + Taken(At(s.board, to), c) + Taken(EnPassantVictim(s, from, to), c)
  {
    var piece := At(s.board, from).value;
    var captured := if At(s.board, to).Some? then s.capturedPieces.Add(At(s.board, to).value) else s.capturedPieces;
    AddTaken(s.capturedPieces, At(s.board, to), c);
    if TakesEnPassant(s, from, to) {
      var behind := At(Lifted(s.board, from, to, piece), VictimSquare(piece.color, to));
      assert behind == EnPassantVictim(s, from, to);
      assert CapturedAfter(s, from, to) == if behind.Some? then captured.Add(behind.value) else captured;
      AddTaken(captured, behind, c);
    } else {
      assert CapturedAfter(s, from, to) == captured;
    }
  }

  /** Adding a cell's piece, when there is one, extends the list of its colour by `Taken`. */
  lemma AddTaken(captured: Captured, x: Cell, c: Color)
    ensures (if x.Some? then captured.Add(x.value) else captured).Of(c) == captured.Of(c) + Taken(x, c)
  {
  }

  /** White's king's pawn double step leaves the square it passed over as the en-passant target. */
  lemma DoubleStepTarget(s: GameState)
    requires Playable(s, Pos(6, 4), Pos(4, 4)) && TargetInRange(s.enPassantTarget)
    requires At(s.board, Pos(6, 4)).value.kind == Pawn
    ensures AfterMove(s, Pos(6, 4), Pos(4, 4)).enPassantTarget == Some(Pos(5, 4))
  {
  }

  /** A black pawn on (4, 3) taking en passant on (5, 4) removes the white pawn on (4, 4) and
      adds it to White's captured list; the record is flagged as en passant and, its
      destination having been empty, carries no captured piece. */
  lemma EnPassantCapture(s: GameState)
    requires Playable(s, Pos(4, 3), Pos(5, 4)) && s.enPassantTarget == Some(Pos(5, 4))
    requires At(s.board, Pos(4, 3)) == Some(Piece(Pawn, Black, true))
    requires At(s.board, Pos(5, 4)).None? && At(s.board, Pos(4, 4)) == Some(Piece(Pawn, White, true))
    ensures var r := AfterMove(s, Pos(4, 3), Pos(5, 4));
      && At(r.board, Pos(4, 4)).None? && At(r.board, Pos(5, 4)) == Some(Piece(Pawn, Black, true))
      && r.capturedPieces.Of(White) == s.capturedPieces.Of(White) + [Piece(Pawn, White, true)]
      && r.lastMove.value.isEnPassant && r.lastMove.value.capturedPiece.None?
  {
    var from, to := Pos(4, 3), Pos(5, 4);
    AfterMovePlacement(s, from, to);
    AfterMoveRecord(s, from, to);
    assert EnPassantVictim(s, from, to) == Some(Piece(Pawn, White, true));
    AfterMoveCaptures(s, from, to, White);
  }

  /** `makeMove`, step by step: a copy of the board overwritten cell by cell, the captured
      lists extended, and the en-passant and castling flags set as the cases are met. */
  method MakeMove(prevState: GameState, from: Pos, to: Pos) returns (r: GameState)
    requires Playable(prevState, from, to) && TargetInRange(prevState.enPassantTarget)
    ensures r == AfterMove(prevState, from, to)
  {
    var piece := At(prevState.board, from).value;
    var capturedPiece := At(prevState.board, to);
    var newBoard := prevState.board;
    newBoard := Put(newBoard, to, Some(piece.(hasMoved := true)));
    newBoard := Put(newBoard, from, None);
    assert newBoard == Lifted(prevState.board, from, to, piece);
    var newCapturedPieces := prevState.capturedPieces;
    if capturedPiece.Some? {
      newCapturedPieces := newCapturedPieces.Add(capturedPiece.value);
    }
    var isEnPassant := false;
    var newEnPassantTarget: Option<Pos> := None;
    if piece.kind == Pawn {
      if prevState.enPassantTarget.Some? && to == prevState.enPassantTarget.value {
        isEnPassant := true;
        newBoard, newCapturedPieces := CapturePawnBehind(newBoard, newCapturedPieces, piece.color, to);
      }
      if Abs(from.row - to.row) == 2 {
        newEnPassantTarget := Some(Pos((from.row + to.row) / 2, from.col));
      }
    }
    assert isEnPassant == TakesEnPassant(prevState, from, to);
    assert newEnPassantTarget == TargetAfter(piece, from, to);
    var isCastling := false;
    if piece.kind == King && Abs(from.col - to.col) == 2 {
      isCastling := true;
      newBoard := MoveRook(newBoard, from, to);
    }
    assert newBoard == BoardAfter(prevState, from, to);
    assert newCapturedPieces == CapturedAfter(prevState, from, to);
    var move := Move(from, to, piece, capturedPiece, isEnPassant, isCastling, None,
                     AlgebraicNotation(prevState.board, from, to, piece));
    assert move == MoveMade(prevState, from, to);
    var nextPlayer := if prevState.currentPlayer == White then Black else White;
    r := prevState.(board := newBoard, currentPlayer := nextPlayer, selectedSquare := None, validMoves := [],
                    lastMove := Some(move), moveHistory := prevState.moveHistory + [move],
                    capturedPieces := newCapturedPieces, enPassantTarget := newEnPassantTarget);
  }

  /** The en-passant branch of `makeMove`: the square behind the target is read and, when
      it holds a piece, recorded and emptied. */
  method CapturePawnBehind(newBoard: Board, newCapturedPieces: Captured, color: Color, to: Pos)
    returns (board: Board, captured: Captured)
    requires OnBoard(VictimSquare(color, to))
    ensures var cell := At(newBoard, VictimSquare(color, to));
      && board == (if cell.Some? then Put(newBoard, VictimSquare(color, to), None) else newBoard)
      && captured == (if cell.Some? then newCapturedPieces.Add(cell.value) else newCapturedPieces)
  {
    board, captured := newBoard, newCapturedPieces;
    var capturedPawnRow := if color == White then to.row + 1 else to.row - 1;
    var capturedPawn := At(board, Pos(capturedPawnRow, to.col));
    if capturedPawn.Some? {
      captured := captured.Add(capturedPawn.value);
      board := Put(board, Pos(capturedPawnRow, to.col), None);
    }
  }

  /** The castling branch of `makeMove`: the corner piece, if any, is moved beside the king. */
  method MoveRook(newBoard: Board, from: Pos, to: Pos) returns (board: Board)
    requires OnBoard(from)
    ensures board == CastleRook(newBoard, from, to)
  {
    board := newBoard;
    var rookFromCol := if to.col > from.col then 7 else 0;
    var rookToCol := if to.col > from.col then 5 else 3;
    var rook := At(board, Pos(from.row, rookFromCol));
    if rook.Some? {
      board := Put(board, Pos(from.row, rookToCol), Some(rook.value.(hasMoved := true)));
      board := Put(board, Pos(from.row, rookFromCol), None);
    }
  }

  /** For a move that is neither en passant nor castling, the hook records exactly what
      `getAllValidMoves` lists for the same move. */
  lemma RecordMatchesListed(s: GameState, from: Pos, to: Pos)
    requires Playable(s, from, to) && TargetInRange(s.enPassantTarget)
    requires !TakesEnPassant(s, from, to) && !Castles(At(s.board, from).value, from, to)
    ensures AfterMove(s, from, to).lastMove.value == MoveRecord(s.board, from, to, At(s.board, from).value)
  {
  }

  // ------------------------------------------------------------------ status

  /** What the effect derives from the board and the side to move. A mate is reported
      before a stalemate; the two never hold together. */
  function WithStatus(s: GameState): (r: GameState)
    ensures r == s.(isCheck := r.isCheck, isCheckmate := r.isCheckmate, isStalemate := r.isStalemate, gameStatus := r.gameStatus)
    ensures Settled(r)
    ensures r.gameStatus == Checkmate <==> IsCheckmate(s.board, s.currentPlayer)
    ensures r.gameStatus == Stalemate <==> IsStalemate(s.board, s.currentPlayer)
    ensures r.gameStatus == Playing <==> |AllValidMoves(s.board, s.currentPlayer)| != 0
    ensures r.gameStatus != Draw
  {
    GameOverClassified(s.board, s.currentPlayer);
    var mate := IsCheckmate(s.board, s.currentPlayer);
    var stale := IsStalemate(s.board, s.currentPlayer);
    s.(isCheck := InCheck(s.board, s.currentPlayer), isCheckmate := mate, isStalemate := stale,
       gameStatus := if mate then Checkmate else if stale then Stalemate else Playing)
  }

  /** The three flags describe the board and the side to move. */
  predicate Settled(s: GameState) {
    && s.isCheck == InCheck(s.board, s.currentPlayer)
    && s.isCheckmate == IsCheckmate(s.board, s.currentPlayer)
    && s.isStalemate == IsStalemate(s.board, s.currentPlayer)
  }

  /** The effect's body: `isInCheck`, `isCheckmate` and `isStalemate` of the side to move. */
  method DeriveStatus(s: GameState) returns (r: GameState)
    ensures r == WithStatus(s)
  {
    var isCurrentPlayerInCheck := IsInCheck(s.board, s.currentPlayer);
    var isCurrentPlayerCheckmate := IsCheckmate(s.board, s.currentPlayer);
    var isCurrentPlayerStalemate := IsStalemate(s.board, s.currentPlayer);
    r := s.(isCheck := isCurrentPlayerInCheck, isCheckmate := isCurrentPlayerCheckmate,
            isStalemate := isCurrentPlayerStalemate,
            gameStatus := if isCurrentPlayerCheckmate then Checkmate
                          else if isCurrentPlayerStalemate then Stalemate
                          else Playing);
  }

  // ------------------------------------------------------------------ replay

  /** The fields a replay of the history rebuilds: everything but the selection and the
      status fields. */
  predicate SameGame(s: GameState, t: GameState) {
    && s.board == t.board && s.currentPlayer == t.currentPlayer && s.lastMove == t.lastMove
    && s.moveHistory == t.moveHistory && s.capturedPieces == t.capturedPieces
    && s.enPassantTarget == t.enPassantTarget
  }

  /** Playing the moves of `h` one after the other through `makeMove`, from the initial
      state; `None` where a step would dereference an empty or missing origin square,
      which makes the source throw. */
  function Replay(h: seq<Move>): (r: Option<GameState>)
    ensures r.Some? ==> r.value.selectedSquare.None? && r.value.validMoves == []
    ensures r.Some? ==> TargetInRange(r.value.enPassantTarget)
  {
    if h == [] then Some(InitialState())
    else
      match Replay(h[..|h| - 1])
      case None => None
      case Some(s) =>
        var m := h[|h| - 1];
        if Playable(s, m.from, m.to) then Some(AfterMove(s, m.from, m.to)) else None
  }

  /** One more move of the history: the replay so far, followed by that move. */
  lemma ReplayStep(h: seq<Move>, k: int, s: GameState)
    requires 0 <= k < |h| && Replay(h[..k]) == Some(s)
    ensures Replay(h[..k + 1]) == if Playable(s, h[k].from, h[k].to) then Some(AfterMove(s, h[k].from, h[k].to)) else None
  {
    assert h[..k + 1][..k] == h[..k];
  }

  /** A replay that fails on a prefix fails on the whole history. */
  lemma {:induction false} ReplayFailsOnward(h: seq<Move>, k: int)
    requires 0 <= k <= |h| && Replay(h[..k]).None?
    decreases |h| - k
    ensures Replay(h).None?
  {
    if k < |h| {
      assert h[..k + 1][..k] == h[..k];
      ReplayFailsOnward(h, k + 1);
    } else {
      assert h[..k] == h;
    }
  }

  /** `makeMove` reads only the fields a replay rebuilds. */
  lemma AfterMoveSameGame(s: GameState, t: GameState, from: Pos, to: Pos)
    requires SameGame(s, t) && Playable(s, from, to) && TargetInRange(s.enPassantTarget)
    ensures SameGame(AfterMove(s, from, to), AfterMove(t, from, to))
  {
  }

  /** A state the hook can reach: the handlers' assumptions hold, and replaying its history
      rebuilds it. */
  predicate Consistent(s: GameState) {
    && Ready(s)
    && Replay(s.moveHistory).Some?
    && SameGame(Replay(s.moveHistory).value, s)
  }

  lemma InitialConsistent()
    ensures Consistent(InitialState()) && Consistent(WithStatus(InitialState()))
  {
  }

  /** A move keeps a state consistent: the replay of the longer history is the replay of the
      shorter one followed by the same move. */
  lemma MoveConsistent(s: GameState, from: Pos, to: Pos)
    requires Consistent(s) && Playable(s, from, to)
    ensures Consistent(AfterMove(s, from, to))
  {
    var h := s.moveHistory;
    var s' := AfterMove(s, from, to);
    var h' := s'.moveHistory;
    assert h'[..|h'| - 1] == h;
    var t := Replay(h).value;
    AfterMoveSameGame(t, s, from, to);
  }

  /** `undoMove`'s update: the state unchanged for an empty history, else the replay of all
      moves but the last with the selection cleared; `None` where the replay throws. */
  function Undo(s: GameState): Option<GameState> {
    if |s.moveHistory| == 0 then Some(s)
    else
      match Replay(s.moveHistory[..|s.moveHistory| - 1])
      case None => None
      case Some(r) => Some(r.(selectedSquare := None, validMoves := []))
  }

  /** On a consistent state with a history, undo succeeds, drops exactly the last move and
      leaves a consistent state. */
  lemma UndoDropsLast(s: GameState)
    requires Consistent(s) && |s.moveHistory| > 0
    ensures Undo(s).Some?
    ensures Undo(s).value.moveHistory == s.moveHistory[..|s.moveHistory| - 1]
    ensures Consistent(Undo(s).value)
  {
    var h := s.moveHistory;
    var prev := Replay(h[..|h| - 1]);
    assert prev.Some?;
  }

  /** Undo takes back a move: after a move from a consistent state, undo rebuilds that
      state's board, side to move, history, captured lists, target and last move. */
  lemma UndoAfterMove(s: GameState, from: Pos, to: Pos)
    requires Consistent(s) && Playable(s, from, to)
    ensures Undo(AfterMove(s, from, to)).Some?
    ensures SameGame(Undo(AfterMove(s, from, to)).value, s)
  {
    var h' := AfterMove(s, from, to).moveHistory;
    assert h'[..|h'| - 1] == s.moveHistory;
  }

  /** The state literal `useChessGame` starts from, with a board from `createInitialBoard`. */
  method FreshState() returns (s: GameState)
    ensures s == InitialState()
  {
    var board := CreateInitialBoard();
    s := GameState(board, White, None, [], None, [], Captured([], []), false, false, false, Playing, None);
  }

  /** The state on mount: the initial state after the effect's first run. */
  method StartState() returns (r: GameState)
    ensures r == WithStatus(InitialState())
    ensures Consistent(r) && Settled(r)
  {
    var s := FreshState();
    InitialConsistent();
    r := DeriveStatus(s);
  }

  /** `undoMove`'s loop: a fresh state, then `makeMove` for each move of the shortened
      history, then the selection cleared. */
  method UndoMove(prev: GameState) returns (r: Option<GameState>)
    ensures r == Undo(prev)
  {
    if |prev.moveHistory| == 0 {
      return Some(prev);
    }
    var newHistory := prev.moveHistory[..|prev.moveHistory| - 1];
    var newState := FreshState();
    for k := 0 to |newHistory|
      invariant Replay(newHistory[..k]) == Some(newState)
    {
      var move := newHistory[k];
      ReplayStep(newHistory, k, newState);
      if !Playable(newState, move.from, move.to) {
        ReplayFailsOnward(newHistory, k + 1);
        return None;
      }
      newState := MakeMove(newState, move.from, move.to);
    }
    assert newHistory[..|newHistory|] == newHistory;
    newState := newState.(selectedSquare := None, validMoves := []);
    return Some(newState);
  }

  // ------------------------------------------------------------------ handlers

  /** The square holds a piece of the side to move. */
  predicate Owns(s: GameState, p: Pos)
    requires OnBoard(p)
  {
    At(s.board, p).Some? && At(s.board, p).value.color == s.currentPlayer
  }

  /** `s` with the piece on `p` selected and its valid moves listed. */
  function Select(s: GameState, p: Pos): GameState
    requires OnBoard(p) && At(s.board, p).Some?
  {
    s.(selectedSquare := Some(p), validMoves := ValidMoves(s.board, p, At(s.board, p).value, s.enPassantTarget))
  }

  /** `handleSquareClick` */
  function Click(s: GameState, p: Pos): GameState
    requires OnBoard(p) && Ready(s)
  {
    match s.selectedSquare
    case None => if Owns(s, p) then Select(s, p) else s
    case Some(q) =>
      if q == p then s.(selectedSquare := None, validMoves := [])
      else if Owns(s, p) then Select(s, p)
      else if p in s.validMoves then AfterMove(s, q, p)
      else s.(selectedSquare := None, validMoves := [])
  }

  /** The click plays the selected piece to `p`. */
  predicate ClickMoves(s: GameState, p: Pos)
    requires OnBoard(p)
  {
    s.selectedSquare.Some? && s.selectedSquare.value != p && !Owns(s, p) && p in s.validMoves
  }

  /** A click that moves plays the selected piece, a piece of the side to move, to one of its
      valid moves, and extends the history by exactly that move. */
  lemma ClickMove(s: GameState, p: Pos)
    requires OnBoard(p) && Ready(s) && ClickMoves(s, p)
    ensures var q := s.selectedSquare.value;
      && Owns(s, q) && p in ValidMoves(s.board, q, At(s.board, q).value, s.enPassantTarget)
      && Click(s, p) == AfterMove(s, q, p)
      && Click(s, p).moveHistory == s.moveHistory + [Click(s, p).lastMove.value]
      && Click(s, p).lastMove.value.from == q && Click(s, p).lastMove.value.to == p
    ensures Ready(Click(s, p))
  {
  }

  /** Any other click changes nothing but the selection, and a selection is always one of
      the mover's pieces with its valid moves: clicking the selected square clears it, and
      clicking another own piece selects that one. */
  lemma ClickSelects(s: GameState, p: Pos)
    requires OnBoard(p) && Ready(s) && !ClickMoves(s, p)
    ensures Click(s, p) == s.(selectedSquare := Click(s, p).selectedSquare, validMoves := Click(s, p).validMoves)
    ensures Ready(Click(s, p))
    ensures s.selectedSquare == Some(p) ==> Click(s, p).selectedSquare.None?
    ensures s.selectedSquare != Some(p) && Owns(s, p) ==> Click(s, p).selectedSquare == Some(p)
    ensures s.selectedSquare.None? && !Owns(s, p) ==> Click(s, p) == s
    ensures s.selectedSquare.Some? && s.selectedSquare != Some(p) && !Owns(s, p) ==>
      Click(s, p).selectedSquare.None? && Click(s, p).validMoves == []
  {
    var r := if Owns(s, p) && s.selectedSquare != Some(p) then Select(s, p)
      else if s.selectedSquare.None? then s
      else s.(selectedSquare := None, validMoves := []);
    assert Click(s, p) == r;
  }

  /** `handlePieceMove` */
  function Drag(s: GameState, from: Pos, to: Pos): GameState
    requires OnBoard(from) && TargetInRange(s.enPassantTarget)
  {
    if !Owns(s, from) then s
    else if to in ValidMoves(s.board, from, At(s.board, from).value, s.enPassantTarget) then AfterMove(s, from, to)
    else s
  }

  /** The drag plays a piece of the side to move to one of its valid moves. */
  predicate DragMoves(s: GameState, from: Pos, to: Pos)
    requires OnBoard(from)
  {
    Owns(s, from) && to in ValidMoves(s.board, from, At(s.board, from).value, s.enPassantTarget)
  }

  /** A drag either plays a legal move of the side to move or leaves the state as it was. */
  lemma DragOutcome(s: GameState, from: Pos, to: Pos)
    requires OnBoard(from) && Ready(s)
    ensures DragMoves(s, from, to) ==>
      && OnBoard(to)
      && Drag(s, from, to).moveHistory == s.moveHistory + [Drag(s, from, to).lastMove.value]
      && Drag(s, from, to).lastMove.value.from == from && Drag(s, from, to).lastMove.value.to == to
      && Ready(Drag(s, from, to))
    ensures !DragMoves(s, from, to) ==> Drag(s, from, to) == s
  {
  }

  /** Clicking a destination after selecting a piece and dragging that piece there agree:
      the click moves exactly when the drag does and the target is not one of the mover's
      own pieces (a click on an own piece reselects instead), and both then give the same
      state. */
  lemma ClickAgreesWithDrag(s: GameState, p: Pos)
    requires OnBoard(p) && Ready(s) && s.selectedSquare.Some?
    ensures var q := s.selectedSquare.value;
      && (ClickMoves(s, p) <==> DragMoves(s, q, p) && !Owns(s, p))
      && (ClickMoves(s, p) ==> Click(s, p) == Drag(s, q, p))
  {
  }

  /** A status update changes neither what a replay rebuilds nor the selection. */
  lemma WithStatusConsistent(s: GameState)
    requires Consistent(s)
    ensures Consistent(WithStatus(s))
  {
  }

  /** Clicks keep a state consistent with its history. */
  lemma ClickConsistent(s: GameState, p: Pos)
    requires OnBoard(p) && Consistent(s)
    ensures Consistent(Click(s, p))
  {
    if ClickMoves(s, p) {
      ClickMove(s, p);
      MoveConsistent(s, s.selectedSquare.value, p);
    } else {
      ClickSelects(s, p);
    }
  }

  /** Drags keep a state consistent with its history. */
  lemma DragConsistent(s: GameState, from: Pos, to: Pos)
    requires OnBoard(from) && Consistent(s)
    ensures Consistent(Drag(s, from, to))
  {
    DragOutcome(s, from, to);
    if DragMoves(s, from, to) {
      MoveConsistent(s, from, to);
    }
  }

  /** A state that agrees with a consistent one on everything a replay rebuilds, and whose
      selection is in order, is consistent too. */
  lemma ConsistentAcross(s: GameState, t: GameState)
    requires Consistent(s) && SameGame(s, t) && Ready(t)
    ensures Consistent(t)
  {
    assert t.moveHistory == s.moveHistory;
  }

  /** The branches of `handleSquareClick` that only change the selection. */
  method ClickSelection(prev: GameState, p: Pos) returns (r: GameState)
    requires OnBoard(p) && Ready(prev) && !ClickMoves(prev, p)
    ensures r == Click(prev, p)
  {
    var clickedPiece := prev.board[p.row][p.col];
    if prev.selectedSquare.None? {
      r := prev;
      if clickedPiece.Some? && clickedPiece.value.color == prev.currentPlayer {
        r := prev.(selectedSquare := Some(p), validMoves := ValidMoves(prev.board, p, clickedPiece.value, prev.enPassantTarget));
      }
    } else if prev.selectedSquare.value == p {
      r := prev.(selectedSquare := None, validMoves := []);
    } else if clickedPiece.Some? && clickedPiece.value.color == prev.currentPlayer {
      r := prev.(selectedSquare := Some(p), validMoves := ValidMoves(prev.board, p, clickedPiece.value, prev.enPassantTarget));
    } else {
      r := prev.(selectedSquare := None, validMoves := []);
    }
  }

  /** The updater `handleSquareClick` passes to `setGameState`. */
  method HandleSquareClick(prev: GameState, p: Pos) returns (r: GameState)
    requires OnBoard(p) && Ready(prev)
    ensures r == Click(prev, p)
  {
    if ClickMoves(prev, p) {
      ClickMove(prev, p);
      r := MakeMove(prev, prev.selectedSquare.value, p);
    } else {
      r := ClickSelection(prev, p);
    }
  }

  /** The updater `handlePieceMove` passes to `setGameState`. */
  method HandlePieceMove(prev: GameState, from: Pos, to: Pos) returns (r: GameState)
    requires OnBoard(from) && Ready(prev)
    ensures r == Drag(prev, from, to)
  {
    var piece := prev.board[from.row][from.col];
    if piece.None? || piece.value.color != prev.currentPlayer {
      return prev;
    }
    var validMoves := ValidMoves(prev.board, from, piece.value, prev.enPassantTarget);
    if to in validMoves {
      r := MakeMove(prev, from, to);
    } else {
      r := prev;
    }
  }
}
