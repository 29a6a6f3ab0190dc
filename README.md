# Chessboard controller model

A Dafny model of the controller inside the chessboard component
(`src/app/chess_abilities/chess_components/Chessboard.tsx`). The component
plays against a random opponent and shows the analysis of a chess engine.
Beneath the hooks and the rendering it is a small sequential state machine:

- **Click-to-move selection** (`getMoveOpetions`, `onSquareClick`): the
  selected square `moveFrom` ("" when nothing is selected) and the highlight
  map `optionSquares`, which marks the selected square as origin and each
  legal destination as a quiet move or a capture.
- **Drag-to-move** (`onPieceDrop`) and the drag filters
  (`canDragPieceWhite`, `canDragPieceBlack`).
- **Analysis messages** (the callback registered by `findBestMove`). It drops
  shallow messages and copies each truthy field into the displayed state. The
  evaluation is oriented by the side to move when the message arrives. The
  after-render effect starts the analysis.
- **Random opponent** (`makerandomMove`), scheduled once per accepted human
  move.
- **Presentation**: the best-move arrow, the evaluation text and the
  40-character excerpt of the principal line.

The chess rules come from a library that is not part of this model. The model
treats them as an oracle, `Rules.Oracle<G>`, over an opaque game state `G`.
It has legal moves from a square, all legal moves, the piece on a square,
`move` (which returns `None` where the library throws), the serialised
position, game over, draw and side to move. `Rules.LawfulAt` states the few
chess facts the code relies on without saying so.

Files:

- `rules.dfy` holds the oracle.
- `move_options.dfy` holds the highlight map and the destination lookup.
- `numerals.dfy` reads a score given as text, as `Number` does for decimal
  numerals.
- `analysis.dfy` holds the message reducer and the analysis trigger.
- `opponent.dfy` holds the random index and the opponent's move.
- `presentation.dfy` holds the arrow, the texts and the drag filters.
- `board.dfy` holds the component state as the class `Board.ChessGame`, with
  one method per handler.
- `scenarios.dfy` drives the handlers over a two-move toy game.

What the code does, which a reader might not expect:

- An engine message is not tied to the position it was computed for. A
  message computed before a move but handled after it is stored, oriented by
  the new side to move (`Analysis.LateMessageFlipsSign`).
- A refused click move does not always reset the selection. When the clicked
  square has no moves, the highlights are cleared but `moveFrom` keeps the old
  square.
- Analysis starts when the game is not over *or is drawn*. A drawn game is
  over, so analysis also runs on drawn games
  (`Analysis.AnalysisTriggeredOnDrawnGames`).
- A drop does not touch the selection or the highlights.
- A drop schedules an opponent move even when it ends the game. The opponent
  then sees that the game is over and does nothing.

## Model

| member | source | states |
|---|---|---|
| `MoveOptions.CollectOptionSquares` | src/app/chess_abilities/chess_components/Chessboard.tsx:114-136 | The loop's map has keys exactly the legal destinations plus the square. The square is tagged origin, overriding a destination entry. Every other key is a capture exactly when a piece of a different colour stands there, and a quiet move otherwise. |
| `MoveOptions.OptionSquaresShape` | src/app/chess_abilities/chess_components/Chessboard.tsx:99-138 | The stored option map is empty iff the square has no legal move. Otherwise it has the keys, origin tag and capture tags above. |
| `MoveOptions.IsCapture` | src/app/chess_abilities/chess_components/Chessboard.tsx:120 | A destination is marked as a capture when a piece stands on it and the selected square is empty, or the two pieces differ in colour. An empty destination is never a capture. |
| `MoveOptions.FindMove` | src/app/chess_abilities/chess_components/Chessboard.tsx:159 | Finds nothing iff no listed move has an origin and reaches the clicked square. Otherwise it returns the first such move. |
| `MoveOptions.FindMoveIsDestination` | src/app/chess_abilities/chess_components/Chessboard.tsx:154-162 | When every listed move has an origin, the lookup succeeds iff the clicked square is one of the legal destinations. |
| `Board.ChessGame.constructor` | src/app/chess_abilities/chess_components/Chessboard.tsx:23-35 | The board starts with the given game, no selection, no highlights, evaluation 0, depth 10, empty mate and line, and nothing scheduled. The drawn position is the game's. |
| `Board.ChessGame.GetMoveOptions` | src/app/chess_abilities/chess_components/Chessboard.tsx:99-138 | Returns true iff the square has a legal move. Sets the highlights to the option map (empty when there is no move) and changes nothing else. |
| `Board.ChessGame.OnSquareClick` | src/app/chess_abilities/chess_components/Chessboard.tsx:140-205 | With no selection and a piece clicked, the game never changes, and the square is selected iff it has moves. With a selection and no legal move to the square, the game is unchanged and the selection becomes the square or "". If the rules refuse the move, the game is unchanged and the selection becomes the square only if it has moves. Otherwise the game is the result of selection→square with queen promotion, the selection and highlights are cleared, and exactly one opponent move is scheduled. The drawn position always equals the game's. |
| `Board.ChessGame.OnPieceDrop` | src/app/chess_abilities/chess_components/Chessboard.tsx:221-266 | With no target, or a refused move, it returns false and changes no game, analysis or schedule state. On success the game is the moved one, mate and best line are "" (other analysis fields kept), one opponent move is scheduled, and the result is true iff the game is neither over nor drawn. |
| `Board.ChessGame.MakeRandomMove` | src/app/chess_abilities/chess_components/Chessboard.tsx:80-95 | Once the game is over the game is unchanged. Otherwise the game becomes the result of the legal move at index floor(random·n), when that index exists and the move is accepted. The drawn position follows. |
| `Board.ChessGame.OnOpponentTimer` | src/app/chess_abilities/chess_components/Chessboard.tsx:203 | A scheduled opponent move fires: one fewer pending, and the game is moved as by the random opponent. |
| `Board.ChessGame.OnEngineMessage` | src/app/chess_abilities/chess_components/Chessboard.tsx:46-72 | The displayed analysis becomes the message applied with the side to move at arrival time. |
| `Board.ChessGame.AfterRender` | src/app/chess_abilities/chess_components/Chessboard.tsx:38-42 | Acts only when the position differs from the one the previous run saw. An analysis request (position, depth 18) is then appended iff the game is not over or is drawn. |
| `Analysis.OrientedEvaluation` | src/app/chess_abilities/chess_components/Chessboard.tsx:59 | The stored evaluation is the raw score over 1000, negated when Black is to move. It is positive iff the score favours White, and zero iff the score is zero. |
| `Analysis.ApplyMessage` | src/app/chess_abilities/chess_components/Chessboard.tsx:52-71 | A message with a truthy depth below 10 changes nothing. Otherwise each truthy field (evaluation, mate, depth, line) replaces only its own field, and the evaluation is oriented. |
| `Analysis.EmptyMessageChangesNothing` | src/app/chess_abilities/chess_components/Chessboard.tsx:57-71 | A message with no truthy field leaves the display unchanged. |
| `Analysis.ZeroScoreHandling` | src/app/chess_abilities/chess_components/Chessboard.tsx:58-60 | A numeric score of 0 is falsy and never overwrites the stored evaluation. The text "0" is truthy, and an accepted message carrying it stores an evaluation of 0. |
| `Analysis.StoredEvaluation` | src/app/chess_abilities/chess_components/Chessboard.tsx:59 | The stored evaluation is NaN exactly when the score does not read as a number. Otherwise, times 1000, it is the score read as a number, negated when Black is to move. |
| `Numerals.ParseIntegerText` | src/app/chess_abilities/chess_components/Chessboard.tsx:59 | Every integer written as an optionally negative decimal numeral reads back as itself. |
| `Analysis.StoredMateSurvives` | src/app/chess_abilities/chess_components/Chessboard.tsx:63-65 | Once a mate is stored, no message clears it, because an empty mate is falsy and skipped. |
| `Analysis.ApplyMessageIdempotent` | src/app/chess_abilities/chess_components/Chessboard.tsx:52-71 | Handling the same message twice with the same side to move equals handling it once. |
| `Analysis.BlackToMoveExample` | src/app/chess_abilities/chess_components/Chessboard.tsx:59 | A score of +50, given as a number or as the text "50", handled with Black to move is stored as -0.05. |
| `Analysis.LateMessageFlipsSign` | src/app/chess_abilities/chess_components/Chessboard.tsx:46-59 | There is no staleness check. The same message with a numeric score, handled after the side to move changes, is stored with the opposite sign, and so differs whenever the score is not 0. |
| `Analysis.AnalysisTriggered` | src/app/chess_abilities/chess_components/Chessboard.tsx:39 | Analysis starts on every game that is not over and on every drawn game. When it does not start, the game is over and not drawn. |
| `Analysis.AnalysisTriggeredOnDrawnGames` | src/app/chess_abilities/chess_components/Chessboard.tsx:39 | When draws are game over, analysis runs on every drawn game, although it is over. |
| `Opponent.RandomIndex` | src/app/chess_abilities/chess_components/Chessboard.tsx:87 | floor(random·n) is a valid index when n > 0, and 0 (out of range) when n = 0. |
| `Opponent.RandomMove` | src/app/chess_abilities/chess_components/Chessboard.tsx:80-94 | Once the game is over there is no move. Any move played is the result of the legal move at index floor(random·n). When the game is not over and there are legal moves, the outcome is exactly what the rules do with that move. |
| `Opponent.RandomMoveIsLegal` | src/app/chess_abilities/chess_components/Chessboard.tsx:80-94 | In a position obeying the chess rules, the opponent moves iff the game is not over. What it plays is one of the listed legal moves. |
| `Opponent.EveryMoveReachable` | src/app/chess_abilities/chess_components/Chessboard.tsx:87 | Every legal move index k < n is drawn by a random number in [0, 1): (2k+1)/(2n), the middle of its interval. |
| `Presentation.FirstToken` | src/app/chess_abilities/chess_components/Chessboard.tsx:269 | The best move is the prefix of the line that has no space and stops at the first space or the end. |
| `Presentation.FirstTokenOfLine` | src/app/chess_abilities/chess_components/Chessboard.tsx:269 | The first token of "token rest", and of a lone space-free token, is that token. |
| `Presentation.Substring` | src/app/chess_abilities/chess_components/Chessboard.tsx:288-289 | The substring bounds are clamped to the string's length, as in JavaScript. |
| `Presentation.BestMoveArrow` | src/app/chess_abilities/chess_components/Chessboard.tsx:287-291 | An arrow exists iff the first token of the line is non-empty. Its start is the token's characters 0-2 and its end the characters 2-4, each cut short at the token's end. A token of four or more characters gives exactly the arrow from its characters 0-2 to its characters 2-4. |
| `Presentation.CoordinateLineArrow` | src/app/chess_abilities/chess_components/Chessboard.tsx:287-291 | A line starting with a four-character coordinate move such as "e2e4" gives the arrow from its characters 0-2 to its characters 2-4. |
| `Presentation.MateOverridesEvaluation` | src/app/chess_abilities/chess_components/Chessboard.tsx:58-65 | After an accepted message that carries a mate, the read-out is "#" followed by that mate, whatever evaluation the message also carried. |
| `Presentation.MateDisplayPersists` | src/app/chess_abilities/chess_components/Chessboard.tsx:63-65 | Once a mate is on display, every engine message leaves a mate on display. |
| `Presentation.BestLineExcerpt` | src/app/chess_abilities/chess_components/Chessboard.tsx:342 | The excerpt is a prefix of the line, of length min(length, 40). |
| `Presentation.CanDragPieceWhite` | src/app/chess_abilities/chess_components/Chessboard.tsx:210-212 | The white board drags exactly the piece codes starting with 'w', and no piece that the black board drags. |
| `Presentation.CanDragPieceBlack` | src/app/chess_abilities/chess_components/Chessboard.tsx:216-218 | The black board drags exactly the piece codes starting with 'b'. |
| `Presentation.DragFiltersFollowColour` | src/app/chess_abilities/chess_components/Chessboard.tsx:210-218 | The white board drags exactly the white pieces and the black board exactly the black pieces. No piece code passes both filters. |
| `Scenarios.ToyOpeningOptions` | src/app/chess_abilities/chess_components/Chessboard.tsx:99-138 | In the toy opening, e2 offers e3 and e4 as quiet moves with e2 as origin. |
| `Scenarios.ToyReply` | src/app/chess_abilities/chess_components/Chessboard.tsx:80-94 | In the toy game the opponent answers with its only legal move. |

## Left out

- The chess rules themselves (legal moves, move application, piece lookup, serialisation, game over, draw, side to move). They belong to an external library and are parameters: `Rules.Oracle`.
- The analysis engine (starting an evaluation, registering the message listener, `stop`). It is an asynchronous worker in foreign code. Only the per-message handling is modelled, and the request is recorded as a value (`Analysis.AnalysisRequest`). The `stop` call on a drop is not recorded. Whether repeated listener registrations accumulate depends on that engine and is not modelled.
- Timers and the React effect scheduling. The 300 ms and 500 ms delays become the counter `pendingOpponentMoves`. The caller decides when `OnOpponentTimer` and `AfterRender` run, so every interleaving is allowed and none is modelled in time.
- `Math.random` is the parameter `random` in [0, 1).
- `Board.ChessGame.MakeRandomMove`: the source then calls the library's `move(undefined)`, which throws, so the model makes no move. This happens when no legal move exists although the game is not over, which `Rules.LawfulAt` rules out.
- `Analysis.StoredEvaluation`: the engine module is not part of this model, so the score's type is not known. The model takes it as either a number or a text. A text is read as an optionally negative decimal numeral; other forms that `Number` accepts (surrounding whitespace, a fraction, an exponent, hexadecimal) read as NaN in the model. The depth is taken as a number.
- Floating-point arithmetic. `Number(score) / 1000` is an exact `real`. Formatting the number as text is not modelled, so the evaluation display carries the number.
- CSS styles become the tag `MoveOptions.Highlight`.
- Rendering is not modelled. This covers the JSX, the board props and orientation, the unused black-side options object, the logging calls, the depth read-out and the commented-out option blocks.
- The library's game object is mutable and keeps a move history. It is modelled as an opaque value that each accepted move replaces.
- Square names are not validated. The model passes them through as strings, as the code does.

