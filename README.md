# Chess engine, computer player and game hook in Dafny

This project models the core of a browser chess game. The core has three parts.

- **Rule engine** (`src/utils/chessLogic.ts`). It covers:
  - the starting position;
  - pseudo-legal moves for each piece kind, including pawn double steps and en-passant captures onto the target square;
  - check detection, done by finding the first king in row-major order and asking whether any enemy piece's moves reach it;
  - the legal-move filter, which relocates the piece on a copy of the board and rejects a move that leaves the mover in check;
  - the list of all legal moves as move records;
  - checkmate and stalemate;
  - short algebraic notation.
- **Computer player** (`src/utils/chessAI.ts`). It covers:
  - the static evaluation: material, pawn and knight piece-square tables, and a ±10000 term for a mate on the board;
  - the AI's own move application;
  - fail-soft minimax with alpha-beta pruning;
  - root move selection, with the "easy" random shortcut.
- **Game-state hook** (`src/hooks/useChessGame.ts`). It covers:
  - `makeMove`, with capture bookkeeping, en passant, the new target square, the castling rook and the history record;
  - the status effect;
  - square clicks and piece drags;
  - new game, undo by replaying the history, resign and draw.

The records of `src/types/chess.ts` are datatypes in `chess_types.dfy`. The board is a sequence of 8 rows of 8 optional pieces.

Modules and files:

- `ChessTypes` (`chess_types.dfy`): the records and board access.
- `Setup` (`initial_board.dfy`): `createInitialBoard`.
- `Notation` (`notation.dfy`): `generateAlgebraicNotation`.
- `MoveGen` (`move_gen.dfy`): the piece move generators and `getPossibleMoves`.
- `Legality` (`legality.dfy`):
  - `isInCheck` and `wouldBeInCheck`;
  - `getValidMoves` and `getAllValidMoves`;
  - `isCheckmate` and `isStalemate`.
- `Evaluation` (`evaluation.dfy`): `evaluateBoard` and `getPositionValue`.
- `Search` (`search.dfy`): the `ChessAI` class.
- `Game` (`game.dfy`): the hook's state transitions, as functions, with the methods that perform them.
- `GameHook` (`chess_game.dfy`): the hook as a class. It holds one `GameState`. Each handler replaces the state and, when the board changed, runs the status effect.

How the source's loops are modelled:

- Each looping function of the source is a method with that loop.
- The method is proved equal to a recursive specification function.
- The properties are proved about the specification functions.

How the search is proved:

- Minimax is proved fail-soft correct against the unpruned minimax value.
  - Inside the window (alpha, beta) it returns the exact value.
  - At or below alpha it returns an upper bound; at or above beta, a lower bound.
  - With the full window, as at the root, it returns the exact value.
- Root selection is proved to return the first move of maximal value.

How the game state is proved:

- A reachable game state is one whose history, replayed from the initial state, rebuilds it. This property is called `Consistent`.
- Every handler of the hook keeps it, and undo is proved to take back exactly the last move.

## Model

| member | source | states |
|---|---|---|
| ChessTypes.Captured.Add | src/hooks/useChessGame.ts:157-160 | the captured piece is appended to the list of its own colour; the other colour's list is unchanged |
| ChessTypes.Put | src/hooks/useChessGame.ts:152-154 | a write to one square sets that square and leaves every other square as it was |
| Setup.InitialLayout | src/utils/chessLogic.ts:24-60 | black back rank on row 0, black pawns on row 1, rows 2-5 empty, white pawns on row 6, white back rank on row 7 (rook, knight, bishop, queen, king, bishop, knight, rook), none marked as moved |
| Setup.InitialCount | src/utils/chessLogic.ts:24-60 | each side starts with 2 rooks, 2 knights, 2 bishops, 1 queen, 1 king and 8 pawns, counted over any set of kinds |
| Setup.InitialCounts | src/utils/chessLogic.ts:24-60 | each side starts with 16 pieces, 8 pawns and exactly one king |
| Setup.CreateInitialBoard | src/utils/chessLogic.ts:24-60 | the row writes and pawn loops build exactly the initial board |
| Notation.NotationShape | src/utils/chessLogic.ts:326-350 | the notation has 2 to 4 characters; its last two parse back to the destination; it has an 'x' exactly when the destination is occupied; a pawn push is the bare square; a pawn capture is four characters led by the origin file; other pieces lead with an upper-case letter from "KQRB" |
| Notation.KnightWrittenAsKing | src/utils/chessLogic.ts:338 | a knight move is written with the letter 'K', exactly as a king move to the same square |
| Notation.KingsPawnOpening | src/utils/chessLogic.ts:326-345 | the king's pawn double step from the initial board is written "e4" |
| Notation.PawnCaptureNotation | src/utils/chessLogic.ts:340-342 | a pawn capture from the f-file onto an occupied e5 is written "fxe5" |
| MoveGen.RaySquares | src/utils/chessLogic.ts:141-156 | a ray's squares are consecutive steps, all on the board; all are empty except perhaps the last, which is never an own piece |
| MoveGen.RayEnd | src/utils/chessLogic.ts:142-155 | a ray ends only at one of the loop's break conditions: the step bound, an occupied last square, the board edge or an own piece |
| MoveGen.RayTargets | src/utils/chessLogic.ts:141-156 | every square of a ray is on the board and empty or enemy-occupied |
| MoveGen.SlidingTargets | src/utils/chessLogic.ts:137-185 | every rook, bishop or queen destination is on the board and empty or enemy-occupied |
| MoveGen.LeapsExactly | src/utils/chessLogic.ts:191-231 | knight and king destinations are exactly the offset squares that are on the board and empty or enemy-occupied |
| MoveGen.KingMovesAdjacent | src/utils/chessLogic.ts:212-231 | every king destination is a different square at most one row and one column away |
| MoveGen.PawnMovesExactly | src/utils/chessLogic.ts:97-135 | a pawn's destinations are exactly: the square ahead if empty; two ahead from the start row if both squares are empty; a diagonal square ahead holding an enemy piece or equal to the en-passant target |
| MoveGen.PossibleMovesTargets | src/utils/chessLogic.ts:70-95 | all pseudo-legal destinations are on the board; non-pawn destinations are empty or enemy-occupied; pawn destinations lie one or two rows ahead |
| MoveGen.GetRookMoves | src/utils/chessLogic.ts:137-160 | the loops return the four rays in the source's direction order |
| MoveGen.GetBishopMoves | src/utils/chessLogic.ts:162-185 | the loops return the four diagonal rays in the source's direction order |
| MoveGen.GetQueenMoves | src/utils/chessLogic.ts:187-189 | the rook moves followed by the bishop moves |
| MoveGen.GetKnightMoves | src/utils/chessLogic.ts:191-210 | the loop returns the knight leaps in offset order |
| MoveGen.GetKingMoves | src/utils/chessLogic.ts:212-231 | the double loop over (dRow, dCol), skipping (0, 0), returns the king leaps in that order |
| MoveGen.GetPawnMoves | src/utils/chessLogic.ts:97-135 | pushes, then the captures on the left and right columns, in the source's order |
| MoveGen.GetPossibleMoves | src/utils/chessLogic.ts:70-95 | dispatch on the piece kind to its generator |
| Legality.FindKingFirst | src/utils/chessLogic.ts:234-247 | the king found is the first king of that colour in row-major order; there is none exactly when no square holds such a king |
| Legality.InCheckExactly | src/utils/chessLogic.ts:233-263 | in check exactly when a king was found and some square holds an enemy piece whose pseudo-legal moves, with no en-passant target, reach it |
| Legality.LocateKing | src/utils/chessLogic.ts:235-245 | the double loop with its breaks returns the first king |
| Legality.KingAttacked | src/utils/chessLogic.ts:249-262 | the double loop returns whether any square attacks the king |
| Legality.IsInCheck | src/utils/chessLogic.ts:233-263 | the method computes check as specified |
| Legality.Relocate | src/utils/chessLogic.ts:265-278 | the temporary move empties the origin, puts the piece unchanged on the destination and leaves every other square as it was |
| Legality.FilterExactly | src/utils/chessLogic.ts:289-291 | an element survives the filter exactly when it is in the list and kept |
| Legality.ValidMoves | src/utils/chessLogic.ts:280-292 | every valid destination is on the board |
| Legality.ValidMovesExactly | src/utils/chessLogic.ts:280-292 | a destination is valid exactly when it is pseudo-legal and relocating the piece there does not leave its colour in check |
| Legality.AllValidMovesExactly | src/utils/chessLogic.ts:294-316 | a record is listed exactly when it is the record of a valid destination, with no en-passant target, of a piece of that colour |
| Legality.AllValidMovesArePlain | src/utils/chessLogic.ts:303-309 | a listed record has distinct on-board squares; it is not marked as castling or en passant and has no promotion; its captured piece is the destination's occupant |
| Legality.GetAllValidMoves | src/utils/chessLogic.ts:294-316 | the triple loop builds the list in row-major order of origin, then destination order |
| Legality.NoLegalMoves | src/utils/chessLogic.ts:294-324 | the list is empty exactly when no piece of that colour has a valid destination |
| Legality.GameOverClassified | src/utils/chessLogic.ts:318-324 | no legal move exactly when checkmate or stalemate; never both; checkmate implies check |
| Evaluation.TablesAreSquare | src/utils/chessAI.ts:15-35 | both piece-square tables are 8 by 8 |
| Evaluation.PositionValueOnlyPawnsAndKnights | src/utils/chessAI.ts:168-179 | pieces other than pawns and knights get no positional bonus |
| Evaluation.PositionValueMirror | src/utils/chessAI.ts:168-179 | a black piece on the mirrored row gets the bonus a white one gets |
| Evaluation.MaterialAntisymmetric | src/utils/chessAI.ts:139-155 | swapping the perspective negates the material-plus-position sum |
| Evaluation.EvaluateAntisymmetric | src/utils/chessAI.ts:136-165 | unless both sides stand mated, the two perspectives score a board as exact opposites |
| Evaluation.EvaluateBoard | src/utils/chessAI.ts:136-165 | the double loop and the mate terms compute the evaluation |
| Search.Max | src/utils/chessAI.ts:113-114 | `Math.max` over scores and ±Infinity: an upper bound of both arguments and one of them |
| Search.Min | src/utils/chessAI.ts:125-126 | `Math.min`: a lower bound of both arguments and one of them |
| Search.LeOrder | src/utils/chessAI.ts:113-128 | the score order with ±Infinity is a total order |
| Search.ApplySearchMove | src/utils/chessAI.ts:182-208 | a plain move relocates the piece. A castling king also moves the corner piece next to it. An en-passant pawn empties the square behind its destination. Every other square keeps its contents |
| Search.ListedMovesRelocate | src/utils/chessAI.ts:182-208 | every listed legal move can be applied, and applying it is the same relocation the legality filter simulates |
| Search.ChessAI.MakeMove | src/utils/chessAI.ts:182-208 | the writes into the copied board compute the move's board |
| Search.ChessModels | src/utils/chessAI.ts:92-133 | the game the search runs over (rules, evaluation, move order, `makeMove`) is chess as the rule engine defines it |
| Search.ValueFinite | src/utils/chessAI.ts:92-133 | the unpruned minimax value of any position is a finite score |
| Search.BestPrefixMonotone | src/utils/chessAI.ts:108-131 | the best over a prefix of the moves never beats the best over all of them |
| Search.FullWindowExact | src/utils/chessAI.ts:80 | with the window (-Infinity, Infinity) a fail-soft result is the exact value |
| Search.MaxAdvance | src/utils/chessAI.ts:110-117 | one maximizing pass either cuts off with a fail-soft result or keeps the loop invariant |
| Search.MinAdvance | src/utils/chessAI.ts:122-129 | one minimizing pass either cuts off with a fail-soft result or keeps the loop invariant |
| Search.ChessAI.Minimax | src/utils/chessAI.ts:92-133 | alpha-beta returns a finite score that is fail-soft correct against the unpruned minimax value for the window (alpha, beta); at depth 0, or when the side to move is checkmated or stalemated, the score is exactly the board evaluation for the AI's colour |
| Search.ChessAI.MaxLoop | src/utils/chessAI.ts:108-119 | the maximizing loop with its cut-off returns a fail-soft bound on the maximum over the moves |
| Search.ChessAI.MinLoop | src/utils/chessAI.ts:120-131 | the minimizing loop with its cut-off returns a fail-soft bound on the minimum over the moves |
| Search.PickFirstMaximal | src/utils/chessAI.ts:75-86 | the root loop keeps the first move of maximal value: none before it has an equal value, none at all a greater one |
| Search.ChessAI.SearchRoot | src/utils/chessAI.ts:75-88 | the root loop returns one of the moves, the first of maximal exact value |
| Search.ChessAI.ChooseMove | src/utils/chessAI.ts:70-88 | the result is one of the moves; off the random shortcut it is the searched choice |
| Search.ChessAI.GetBestMove | src/utils/chessAI.ts:63-89 | no move exactly when the side has no legal move. A returned move is legal. Off the random shortcut it is the first legal move of maximal minimax value at depth `depth - 1` |
| Search.ChessAI.constructor | src/utils/chessAI.ts:45-60 | the depth is overridden to 2, 3 or 4 by the difficulty |
| Game.TargetAfter | src/hooks/useChessGame.ts:178-184 | a target is set exactly after a pawn's two-row step, on the square it passed over, on rows 1 to 6 |
| Game.AfterMove | src/hooks/useChessGame.ts:146-226 | the side to move flips. The selection is cleared. The history grows by exactly the new last move, which goes from `from` to `to`. The status flags are left for the effect |
| Game.AfterMoveRecord | src/hooks/useChessGame.ts:201-210 | the record's piece and captured piece are read from the board before the move, with no promotion. It is flagged en passant exactly for a pawn reaching the target square, and castling exactly for a king moving two columns. Its notation is computed on the board before the move |
| Game.AfterMoveFrame | src/hooks/useChessGame.ts:151-199 | every square except the origin, the destination, the en-passant victim and the castling rook's two squares keeps its contents |
| Game.AfterMovePlacement | src/hooks/useChessGame.ts:152-176 | outside castling the piece lands on the destination marked as moved, the origin is emptied, and an en-passant capture empties the square behind the target |
| Game.AfterMoveCastling | src/hooks/useChessGame.ts:187-199 | when castling, the king lands on the destination and the corner piece, marked as moved, on the square the king crossed; both corners it left are empty. Stated for four distinct squares with a piece in the corner; no generated king move is a two-column step, so the hook never castles |
| Game.AfterMoveCaptures | src/hooks/useChessGame.ts:149-176 | each colour's captured list grows by the destination's occupant and then by the en-passant victim, each kept only when it is of that colour |
| Game.DoubleStepTarget | src/hooks/useChessGame.ts:178-184 | after White's pawn goes from (6,4) to (4,4) the target is (5,4) |
| Game.EnPassantCapture | src/hooks/useChessGame.ts:166-176 | a black pawn taking en passant from (4,3) to (5,4) removes the white pawn on (4,4). That pawn joins White's captured list. The record is flagged en passant and has no captured piece |
| Game.MakeMove | src/hooks/useChessGame.ts:146-226 | the step-by-step board copy, list pushes, en-passant, castling and record code computes the transition |
| Game.RecordMatchesListed | src/hooks/useChessGame.ts:201-210 | off castling and en passant, the hook's record equals the record the rule engine lists for that move |
| Game.WithStatus | src/hooks/useChessGame.ts:31-45 | only the three flags and the status change. Checkmate exactly when mated, stalemate exactly when stalemated, playing exactly when a legal move exists; the effect never derives a draw |
| Game.DeriveStatus | src/hooks/useChessGame.ts:31-45 | the effect's calls compute the status update |
| Game.ReplayFailsOnward | src/hooks/useChessGame.ts:279-282 | a replay that throws on a prefix of the history throws on the whole history |
| Game.InitialConsistent | src/hooks/useChessGame.ts:15-28 | the initial state, before and after the effect, is rebuilt by replaying its empty history |
| Game.MoveConsistent | src/hooks/useChessGame.ts:146-226 | a move keeps a state consistent with its history |
| Game.UndoDropsLast | src/hooks/useChessGame.ts:250-294 | on a consistent state with a history, undo cannot throw, drops exactly the last move and leaves a consistent state |
| Game.UndoAfterMove | src/hooks/useChessGame.ts:250-294 | undo after a move restores the board, side to move, history, captured lists, target and last move of the state before it |
| Game.UndoMove | src/hooks/useChessGame.ts:250-294 | the replay loop computes the undo, including the throwing case |
| Game.FreshState | src/hooks/useChessGame.ts:15-28 | the state literal is the initial state |
| Game.StartState | src/hooks/useChessGame.ts:15-45 | the state on mount is the initial state after the effect, consistent and with its flags set from the board |
| Game.ClickMove | src/hooks/useChessGame.ts:105-109 | a click that moves plays the selected piece, which belongs to the side to move, to one of its valid moves, and extends the history by exactly that move |
| Game.ClickSelects | src/hooks/useChessGame.ts:68-118 | any other click changes only the selection. Clicking the selected square clears it; clicking another own piece selects it. With no selection, a click on a square the side to move does not own changes nothing; with a selection, such a click off the stored targets clears the selection and its moves. A selection is always an own piece with its valid moves |
| Game.DragOutcome | src/hooks/useChessGame.ts:120-144 | a drag plays a valid move of a piece of the side to move and extends the history by it, or leaves the state exactly as it was |
| Game.ClickAgreesWithDrag | src/hooks/useChessGame.ts:68-144 | with a piece selected, a click moves exactly when dragging that piece to the square would and the square holds no own piece; both then give the same state |
| Game.WithStatusConsistent | src/hooks/useChessGame.ts:37-45 | the status update keeps a state consistent |
| Game.ClickConsistent | src/hooks/useChessGame.ts:68-118 | clicks keep a state consistent with its history |
| Game.DragConsistent | src/hooks/useChessGame.ts:120-144 | drags keep a state consistent with its history |
| Game.ClickSelection | src/hooks/useChessGame.ts:70-117 | the selection branches of the click updater compute the click |
| Game.HandleSquareClick | src/hooks/useChessGame.ts:68-118 | the click updater computes the click |
| Game.HandlePieceMove | src/hooks/useChessGame.ts:120-144 | the drag updater computes the drag |
| GameHook.ChessGame.constructor | src/hooks/useChessGame.ts:15-45 | the hook starts in the initial state with the effect applied |
| GameHook.ChessGame.Refresh | src/hooks/useChessGame.ts:30-66 | the effect replaces the state by its status update and keeps the invariant |
| GameHook.ChessGame.SquareClick | src/hooks/useChessGame.ts:68-118 | the state becomes the click, followed by the effect exactly when the click moved; the invariant is kept |
| GameHook.ChessGame.PieceMove | src/hooks/useChessGame.ts:120-144 | the state becomes the drag followed by the effect when the drag moves, else it is unchanged; the invariant is kept |
| GameHook.ChessGame.NewGame | src/hooks/useChessGame.ts:228-248 | the state becomes the initial state followed by the effect |
| GameHook.ChessGame.UndoMove | src/hooks/useChessGame.ts:250-294 | with no history nothing changes. Otherwise the state becomes the replay of all moves but the last, followed by the effect, and the history loses exactly its last move |
| GameHook.ChessGame.ResignGame | src/hooks/useChessGame.ts:296-309 | the status becomes checkmate and the selection is cleared; nothing else changes |
| GameHook.ChessGame.OfferDraw | src/hooks/useChessGame.ts:311-323 | the status becomes draw and the selection is cleared; nothing else changes |

## Left out

- React itself is not modelled:
  - `useState`, `useCallback` and the dependency arrays;
  - toasts;
  - `saveGame`/`loadGame` (`localStorage`, JSON).
- The effect is modelled by where it runs. It recomputes the status after each change of the board reference, the side to move or the history length: after a move, an undo of a non-empty history, a new game and on mount. It does not run after a selection change, resign or draw.
- The class methods and the reducers require `Consistent`/`Ready`, and `Search.ChessAI.Minimax` requires alpha < beta. These are invariants of every reachable state, not demands the source makes of its callers:
  - `Consistent`: the history replays to the state;
  - `Ready`: a selection is an own piece with its valid moves, and the en-passant target is on rows 1 to 6;
  - alpha < beta: the root uses the full window, and a loop recurses only while alpha < beta.
- `Math.random` is the parameter `randomPick` of `Search.ChessAI.GetBestMove`.
  - `None` means the draw was at least 0.3 (no random move).
  - `Some(k)` picks `moves[k % |moves|]`.
- Search.ChessAI.GetBestMove: does not state which move the random shortcut returns beyond its being legal, because the random number is not modelled.
- The search takes a ghost `Game` and requires `Models(g, aiColor)`: `g` behaves as the rule engine and the evaluation do. `Search.ChessModels` shows such a `g` exists. This wrapper only hides the rules of chess from the solver.
- The search's `depth - 1` runs at depth at least 1. The constructor's depths are 2 to 4, so a depth of 0 or below, where the source would search with a negative depth, is not modelled.
- The AI's `makeMove` on a record whose squares are off the board leaves the board unchanged (`Search.Play`). No such record reaches the search (`Search.ListedMovesRelocate`).
- The search's ±Infinity sentinels are the datatype `ExtInt`. Scores are unbounded integers; JavaScript doubles represent these small scores exactly.
- Aliasing of the captured lists is not modelled. `makeMove` copies `capturedPieces` shallowly and pushes into the arrays shared with the previous state, so in the source the old state's lists grow too. Here each state has its own lists.
- The AI constructor writes into the config object its caller passed. The model copies it.
- `hasMoved` absent is modelled as `false`.
- Pawn promotion is not implemented by the source, so it is not in the model.
- `Game.Replay` and `Game.Undo` return `None` for a history move whose origin square is empty, where the source throws, or one with a square off the board, where the source need not throw. Neither occurs in the history of a `Consistent` state.
- Knights are notated with 'K', the upper-cased first letter of "knight" (`Notation.KnightWrittenAsKing`).
- An en-passant capture is notated as a plain pawn move because the destination square is empty, and its record has no `capturedPiece`; the taken pawn goes only into the captured lists (`Game.EnPassantCapture`).
