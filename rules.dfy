/** The rules engine the board controller consults, seen from the outside.
    The controller never looks inside a position: it asks the rules engine
    for legal moves, the piece on a square, the side to move, the serialised
    position, whether the game is over or drawn, and asks it to play a move,
    which may be refused. `Oracle` bundles those questions as functions over
    an opaque game state `G`; a refused move is `None` (the rules engine
    throws). */
module Rules {

  datatype Option<T> = None | Some(value: T)

  /** Squares are the strings the board hands over ("e2"); the empty string
      is the controller's "nothing selected". */
  type Square = string

  datatype Color = White | Black

  datatype PieceKind = Pawn | Knight | Bishop | Rook | Queen | King

  datatype Piece = Piece(color: Color, kind: PieceKind)

  /** A legal move as the verbose move list reports it. */
  datatype Move = Move(from: Square, to: Square)

  /** What is handed to the rules engine's `move`: a move in standard
      algebraic notation, or origin/destination with a promotion choice. */
  datatype MoveInput =
    | San(text: string)
    | Coordinates(from: Square, to: Square, promotion: PieceKind)

  datatype Oracle<!G> = Oracle(
    moves: (G, Square) -> seq<Move>,   // legal moves from one square
    legalMoves: G -> seq<string>,       // every legal move, in algebraic notation
    get: (G, Square) -> Option<Piece>,  // the piece standing on a square
    move: (G, MoveInput) -> Option<G>,  // play a move; None when it is refused
    fen: G -> string,                   // serialised position
    isGameOver: G -> bool,
    isDraw: G -> bool,
    turn: G -> Color                    // side to move
  )

  /** What the chess rules guarantee of one position and the controller's
      code silently relies on: a drawn game is over, a game that is not over
      has a legal move, and every listed legal move is accepted. */
  ghost predicate LawfulAt<G>(o: Oracle<G>, g: G)
  {
    && (o.isDraw(g) ==> o.isGameOver(g))
    && (!o.isGameOver(g) ==> |o.legalMoves(g)| > 0)
    && (forall i :: 0 <= i < |o.legalMoves(g)| ==> o.move(g, San(o.legalMoves(g)[i])).Some?)
  }
}
