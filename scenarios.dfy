/** Clients of the board controller on a two-move toy game: positions are
    ply counts, White's pawn on e2 may go to e3 or e4, and Black then has
    the single reply e5, after which the game is over. The methods show what
    a caller can conclude from the handlers' contracts alone. */
module Scenarios {
  import opened Rules
  import opened MoveOptions
  import opened Analysis
  import opened Board
  import Opponent

  function ToyMoves(ply: nat, square: Square): seq<Move>
  {
    if ply == 0 && square == "e2" then [Move("e2", "e3"), Move("e2", "e4")]
    else if ply == 1 && square == "e7" then [Move("e7", "e5")]
    else []
  }

  function ToyLegalMoves(ply: nat): seq<string>
  {
    if ply == 0 then ["e3", "e4"] else if ply == 1 then ["e5"] else []
  }

  function ToyGet(ply: nat, square: Square): Option<Piece>
  {
    if square == "e7" && ply <= 1 then Some(Piece(Black, Pawn))
    else if square == "e2" && ply == 0 then Some(Piece(White, Pawn))
    else if square == "e4" && ply >= 1 then Some(Piece(White, Pawn))
    else None
  }

  function ToyMove(ply: nat, m: MoveInput): Option<nat>
  {
    match m
    case Coordinates(from, to, _) =>
      if ply == 0 && from == "e2" && (to == "e3" || to == "e4") then Some(1)
      else if ply == 1 && from == "e7" && to == "e5" then Some(2)
      else None
    case San(text) =>
      if ply == 0 && (text == "e3" || text == "e4") then Some(1)
      else if ply == 1 && text == "e5" then Some(2)
      else None
  }

  function ToyFen(ply: nat): string
  {
    if ply == 0 then "start" else if ply == 1 then "after e4" else "after e4 e5"
  }

  function ToyRules(): Oracle<nat>
  {
    Oracle(
      ToyMoves,
      ToyLegalMoves,
      ToyGet,
      ToyMove,
      ToyFen,
      (ply: nat) => ply >= 2,
      (ply: nat) => false,
      (ply: nat) => if ply % 2 == 0 then White else Black)
  }

  lemma ToyOpeningOptions()
    ensures HasMoveOptions(ToyRules(), 0, "e2")
    ensures OptionSquares(ToyRules(), 0, "e2") == map["e2" := Origin, "e3" := QuietTarget, "e4" := QuietTarget]
  {
    var moves := ToyMoves(0, "e2");
    assert Destinations(moves) == {"e3", "e4"} by {
      assert moves[0].to == "e3";
      assert moves[1].to == "e4";
    }
    assert !IsCapture(ToyRules(), 0, "e2", "e3");
    assert !IsCapture(ToyRules(), 0, "e2", "e4");
  }

  lemma ToyReply()
    ensures Opponent.RandomMove(ToyRules(), 1, 0.5) == Some(2)
  {
    assert Opponent.RandomIndex(0.5, 1) == 0;
  }

  /** Click e2, see e3 and e4 offered as quiet moves, click e4: the pawn
      moves, the selection is gone, and the one scheduled opponent move then
      answers with Black's only legal move. */
  method ClickToMove()
  {
    var board := new ChessGame(ToyRules(), 0);
    board.OnSquareClick("e2", Some("wP"));
    ToyOpeningOptions();
    assert board.moveFrom == "e2";
    assert board.optionSquares == map["e2" := Origin, "e3" := QuietTarget, "e4" := QuietTarget];

    board.OnSquareClick("e4", None);
    assert FindMove(ToyMoves(0, "e2"), "e4") == Some(Move("e2", "e4"));
    assert board.game == 1 && board.chessPosition == "after e4";
    assert board.moveFrom == "" && board.optionSquares == map[];
    assert board.pendingOpponentMoves == 1;

    board.OnOpponentTimer(0.5);
    ToyReply();
    assert board.game == 2 && board.pendingOpponentMoves == 0;
  }

  /** With White to move, clicking Black's pawn selects nothing and clears
      the highlights. */
  method ClickOpponentPiece()
  {
    var board := new ChessGame(ToyRules(), 0);
    board.OnSquareClick("e7", Some("bP"));
    assert board.moveFrom == "" && board.optionSquares == map[];
    assert board.game == 0;
  }

  /** A shallow engine message leaves the display alone; a deep one with
      Black to move is stored with White's orientation. */
  method EngineMessages()
  {
    var board := new ChessGame(ToyRules(), 1);
    board.OnEngineMessage(EngineMessage(Some(NumberScore(300)), None, Some("e7e5"), Some(5)));
    assert board.analysis == INITIAL_ANALYSIS;
    board.OnEngineMessage(EngineMessage(Some(NumberScore(50)), None, Some("e7e5 g1f3"), Some(12)));
    assert board.analysis == AnalysisState(Pawns(-0.05), "", 12, "e7e5 g1f3");
  }
}
