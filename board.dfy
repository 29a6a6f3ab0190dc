/** The board component's controller: the game object shared by every
    handler, the component state it renders from, and the handlers for
    clicks, drops, the opponent's timer, engine messages and the effect that
    runs after a render. Handlers run one at a time; each method below is one
    handler run to completion, with every state update it makes applied. */
module Board {
  import opened Rules
  import opened MoveOptions
  import opened Analysis
  import opened Opponent

  class ChessGame<G> {
    const rules: Oracle<G>

    /** The rules engine's game object, kept across renders. */
    var game: G
    /** The position handed to the board for drawing. */
    var chessPosition: string
    /** The selected square, "" when nothing is selected. */
    var moveFrom: Square
    /** The highlighted squares. */
    var optionSquares: map<Square, Highlight>
    /** Evaluation, mate distance, depth and principal line on display. */
    var analysis: AnalysisState
    /** Opponent moves scheduled by human moves so far and not yet fired. */
    var pendingOpponentMoves: nat
    /** The position seen by the last run of the after-render effect. */
    var lastEffectFen: Option<string>
    /** The analysis requests sent to the engine, oldest first. */
    var analysisRequests: seq<AnalysisRequest>

    /** The drawn position is always the game's own. */
    ghost predicate Valid()
      reads this
    {
      chessPosition == rules.fen(game)
    }

    constructor (rules: Oracle<G>, start: G)
      ensures Valid()
      ensures this.rules == rules && game == start
      ensures moveFrom == "" && optionSquares == map[]
      ensures analysis == INITIAL_ANALYSIS && pendingOpponentMoves == 0
      ensures lastEffectFen == None && analysisRequests == []
    {
      this.rules := rules;
      game := start;
      chessPosition := rules.fen(start);
      moveFrom := "";
      optionSquares := map[];
      analysis := INITIAL_ANALYSIS;
      pendingOpponentMoves := 0;
      lastEffectFen := None;
      analysisRequests := [];
    }

    /** Highlights the moves of the piece on `square` and reports whether
        it has any; with none, the highlights are cleared. */
    method GetMoveOptions(square: Square) returns (hasMoveOptions: bool)
      modifies this`optionSquares
      ensures hasMoveOptions <==> HasMoveOptions(rules, game, square)
      ensures optionSquares == OptionSquares(rules, game, square)
    {
      var moves := rules.moves(game, square);
      if |moves| == 0 {
        optionSquares := map[];
        return false;
      }
      optionSquares := CollectOptionSquares(rules, game, square, moves);
      return true;
    }

    /** A click on `square`, on which the board reports `piece` (the piece
        code, if any). With nothing selected and a piece clicked, it selects
        the piece when it can move. Otherwise it looks for a legal move of
        the selected square to the clicked one: with none, it selects the
        clicked square when that can move and clears the selection if not;
        with one, it plays selection -> square promoting to a queen. A
        refused move selects the clicked square when that can move and
        otherwise keeps the old selection; an accepted move clears the
        selection and highlights and schedules one opponent move. */
    method OnSquareClick(square: Square, piece: Option<string>)
      requires Valid()
      modifies this`game, this`chessPosition, this`moveFrom, this`optionSquares, this`pendingOpponentMoves
      ensures Valid()
      ensures old(moveFrom) == "" && piece.Some? ==>
                && game == old(game)
                && optionSquares == OptionSquares(rules, old(game), square)
                && moveFrom == (if HasMoveOptions(rules, old(game), square) then square else "")
                && pendingOpponentMoves == old(pendingOpponentMoves)
      ensures !(old(moveFrom) == "" && piece.Some?) ==>
                var target := FindMove(rules.moves(old(game), old(moveFrom)), square);
                var played := rules.move(old(game), Coordinates(old(moveFrom), square, Queen));
                var selectable := HasMoveOptions(rules, old(game), square);
                if target.None? then
                  && game == old(game)
                  && optionSquares == OptionSquares(rules, old(game), square)
                  && moveFrom == (if selectable then square else "")
                  && pendingOpponentMoves == old(pendingOpponentMoves)
                else if played.None? then
                  && game == old(game)
                  && optionSquares == OptionSquares(rules, old(game), square)
                  && moveFrom == (if selectable then square else old(moveFrom))
                  && pendingOpponentMoves == old(pendingOpponentMoves)
                else
                  && game == played.value
                  && moveFrom == ""
                  && optionSquares == map[]
                  && pendingOpponentMoves == old(pendingOpponentMoves) + 1
    {
      if moveFrom == "" && piece.Some? {
        var hasMoveOptions := GetMoveOptions(square);
        if hasMoveOptions {
          moveFrom := square;
        }
        return;
      }

      var moves := rules.moves(game, moveFrom);
      var foundMove := FindMove(moves, square);
      if foundMove.None? {
        var hasMoveOptions := GetMoveOptions(square);
        moveFrom := if hasMoveOptions then square else "";
        return;
      }

      var next := rules.move(game, Coordinates(moveFrom, square, Queen));
      if next.None? {
        var hasMoveOptions := GetMoveOptions(square);
        if hasMoveOptions {
          moveFrom := square;
        }
        return;
      }
      game := next.value;
      chessPosition := rules.fen(game);
      moveFrom := "";
      optionSquares := map[];
      pendingOpponentMoves := pendingOpponentMoves + 1;
    }

    /** A piece dropped from `sourceSquare` on `targetSquare` (None when
        dropped off the board). The move is played promoting to a queen; if
        it is refused or there is no target, nothing changes and the answer
        is false. Otherwise the mate and principal line are cleared, one
        opponent move is scheduled, and the answer is whether the game goes
        on. Selection and highlights are left as they were. */
    method OnPieceDrop(sourceSquare: Square, targetSquare: Option<Square>) returns (accepted: bool)
      requires Valid()
      modifies this`game, this`chessPosition, this`analysis, this`pendingOpponentMoves
      ensures Valid()
      ensures targetSquare.None? || targetSquare.value == "" ==>
                && !accepted
                && game == old(game)
                && analysis == old(analysis)
                && pendingOpponentMoves == old(pendingOpponentMoves)
      ensures targetSquare.Some? && targetSquare.value != "" ==>
                var played := rules.move(old(game), Coordinates(sourceSquare, targetSquare.value, Queen));
                if played.None? then
                  && !accepted
                  && game == old(game)
                  && analysis == old(analysis)
                  && pendingOpponentMoves == old(pendingOpponentMoves)
                else
                  && game == played.value
                  && analysis == old(analysis).(possibleMate := "", bestLine := "")
                  && pendingOpponentMoves == old(pendingOpponentMoves) + 1
                  && (accepted <==> !rules.isGameOver(game) && !rules.isDraw(game))
    {
      if targetSquare.None? || targetSquare.value == "" {
        return false;
      }
      var next := rules.move(game, Coordinates(sourceSquare, targetSquare.value, Queen));
      if next.None? {
        return false;
      }
      game := next.value;
      analysis := analysis.(possibleMate := "");
      chessPosition := rules.fen(game);
      analysis := analysis.(bestLine := "");
      pendingOpponentMoves := pendingOpponentMoves + 1;
      if rules.isGameOver(game) || rules.isDraw(game) {
        return false;
      }
      return true;
    }

    /** The random opponent: no move once the game is over; otherwise the
        legal move at index floor(random * n) of the n legal moves, if the
        rules engine takes it. */
    method MakeRandomMove(random: real)
      requires Valid()
      requires 0.0 <= random < 1.0
      modifies this`game, this`chessPosition
      ensures Valid()
      ensures rules.isGameOver(old(game)) ==> game == old(game)
      ensures game == (if RandomMove(rules, old(game), random).Some?
                       then RandomMove(rules, old(game), random).value else old(game))
    {
      var possibleMoves := rules.legalMoves(game);
      if rules.isGameOver(game) {
        return;
      }
      var i := RandomIndex(random, |possibleMoves|);
      if i < |possibleMoves| {
        var next := rules.move(game, San(possibleMoves[i]));
        if next.Some? {
          game := next.value;
          chessPosition := rules.fen(game);
        }
      }
    }

    /** A scheduled opponent move comes due. */
    method OnOpponentTimer(random: real)
      requires Valid()
      requires 0.0 <= random < 1.0
      requires pendingOpponentMoves > 0
      modifies this`game, this`chessPosition, this`pendingOpponentMoves
      ensures Valid()
      ensures pendingOpponentMoves == old(pendingOpponentMoves) - 1
      ensures game == (if RandomMove(rules, old(game), random).Some?
                       then RandomMove(rules, old(game), random).value else old(game))
    {
      pendingOpponentMoves := pendingOpponentMoves - 1;
      MakeRandomMove(random);
    }

    /** One message from the analysis engine, handled with the side to
        move at the time it arrives. */
    method OnEngineMessage(m: EngineMessage)
      modifies this`analysis
      ensures analysis == ApplyMessage(old(analysis), m, rules.turn(game))
    {
      analysis := ApplyMessage(analysis, m, rules.turn(game));
    }

    /** The effect after a render: when the position differs from the one
        the previous run saw (or on the first run), analysis of the new
        position is requested at the search depth, provided the game is not
        over or is drawn. */
    method AfterRender()
      modifies this`lastEffectFen, this`analysisRequests
      ensures var fen := rules.fen(game);
              if old(lastEffectFen) == Some(fen) then
                lastEffectFen == old(lastEffectFen) && analysisRequests == old(analysisRequests)
              else
                && lastEffectFen == Some(fen)
                && analysisRequests == old(analysisRequests)
                     + (if AnalysisTriggered(rules, game) then [AnalysisRequest(fen, SEARCH_DEPTH)] else [])
    {
      var fen := rules.fen(game);
      if lastEffectFen == Some(fen) {
        return;
      }
      lastEffectFen := Some(fen);
      if !rules.isGameOver(game) || rules.isDraw(game) {
        analysisRequests := analysisRequests + [AnalysisRequest(fen, SEARCH_DEPTH)];
      }
    }
  }
}
