/**
 * The `useChessGame` hook as an object: one game state, replaced by each handler, and the
 * effect that recomputes the status flags whenever the board, the side to move or the
 * length of the history changes.
 */
module GameHook {
  import opened ChessTypes
  import opened Legality
  import opened Game

  class ChessGame {
    /** `gameState` */
    var state: GameState

    /** What every handler keeps: the state is one the hook can reach (its history rebuilds
        it and the selection is a piece of the side to move with its valid moves), and the
        three status flags describe the board. */
    ghost predicate Valid()
      reads this
    {
      Consistent(state) && Settled(state)
    }

    /** The initial state, followed by the effect's first run on mount. */
    constructor()
      ensures Valid()
      ensures state == WithStatus(InitialState())
    {
      var r := StartState();
      state := r;
    }

    /** The effect: recompute check, checkmate, stalemate and the status from the board. */
    method Refresh()
      requires Consistent(state)
      modifies this
      ensures state == WithStatus(old(state))
      ensures Valid()
    {
      WithStatusConsistent(state);
      state := DeriveStatus(state);
    }

    /** `handleSquareClick`, then the effect when the click made a move. */
    method SquareClick(p: Pos)
      requires Valid() && OnBoard(p)
      modifies this
      ensures Valid()
      ensures state == if ClickMoves(old(state), p) then WithStatus(Click(old(state), p)) else Click(old(state), p)
    {
      var prev := state;
      ClickConsistent(prev, p);
      state := HandleSquareClick(prev, p);
      if ClickMoves(prev, p) {
        Refresh();
      } else {
        ClickSelects(prev, p);
      }
    }

    /** `handlePieceMove`, then the effect when the drag made a move. */
    method PieceMove(from: Pos, to: Pos)
      requires Valid() && OnBoard(from)
      modifies this
      ensures Valid()
      ensures state == if DragMoves(old(state), from, to) then WithStatus(Drag(old(state), from, to)) else old(state)
    {
      var prev := state;
      DragConsistent(prev, from, to);
      DragOutcome(prev, from, to);
      state := HandlePieceMove(prev, from, to);
      if DragMoves(prev, from, to) {
        Refresh();
      }
    }

    /** `newGame`, then the effect (the board is a new one). */
    method NewGame()
      modifies this
      ensures Valid()
      ensures state == WithStatus(InitialState())
    {
      state := FreshState();
      InitialConsistent();
      Refresh();
    }

    /** `undoMove`, then the effect when a move was taken back. */
    method UndoMove()
      requires Valid()
      modifies this
      ensures Valid()
      ensures |old(state).moveHistory| == 0 ==> state == old(state)
      ensures |old(state).moveHistory| > 0 ==>
        && Undo(old(state)).Some?
        && state == WithStatus(Undo(old(state)).value)
        && state.moveHistory == old(state).moveHistory[..|old(state).moveHistory| - 1]
    {
      if |state.moveHistory| == 0 {
        return;
      }
      UndoDropsLast(state);
      var r := Game.UndoMove(state);
      state := r.value;
      Refresh();
    }

    /** `resignGame`: the game is marked as checkmate and the selection cleared. */
    method ResignGame()
      requires Valid()
      modifies this
      ensures Valid()
      ensures state == old(state).(gameStatus := Checkmate, selectedSquare := None, validMoves := [])
    {
      ConsistentAcross(state, state.(gameStatus := Checkmate, selectedSquare := None, validMoves := []));
      state := state.(gameStatus := Checkmate, selectedSquare := None, validMoves := []);
    }

    /** `offerDraw`: the game is marked as drawn and the selection cleared. */
    method OfferDraw()
      requires Valid()
      modifies this
      ensures Valid()
      ensures state == old(state).(gameStatus := Draw, selectedSquare := None, validMoves := [])
    {
      ConsistentAcross(state, state.(gameStatus := Draw, selectedSquare := None, validMoves := []));
      state := state.(gameStatus := Draw, selectedSquare := None, validMoves := []);
    }
  }
}
