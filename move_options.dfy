/** The square highlights of click-to-move: when a piece is picked, its own
    square is marked as the origin and every legal destination is marked as
    a quiet move or a capture; and the lookup that decides whether a second
    click lands on a legal destination of the selected square. */
module MoveOptions {
  import opened Rules

  /** Display intent of a highlighted square (the source uses a CSS style
      per intent: yellow origin, small dot, large ring). */
  datatype Highlight = Origin | QuietTarget | CaptureTarget

  /** A destination is shown as a capture when a piece stands on it whose
      colour differs from the colour of the piece on the origin square; an
      empty origin has no colour, so any occupied destination differs. */
  predicate IsCapture<G>(o: Oracle<G>, g: G, square: Square, target: Square)
    ensures o.get(g, target).None? ==> !IsCapture(o, g, square, target)
    ensures o.get(g, target).Some? && o.get(g, square).None? ==> IsCapture(o, g, square, target)
    ensures o.get(g, target).Some? && o.get(g, square).Some? ==>
              (IsCapture(o, g, square, target) <==> o.get(g, target).value.color != o.get(g, square).value.color)
  {
    var occupant := o.get(g, target);
    var mover := o.get(g, square);
    occupant.Some? && (mover.None? || occupant.value.color != mover.value.color)
  }

  function TargetHighlight<G>(o: Oracle<G>, g: G, square: Square, target: Square): Highlight
  {
    if IsCapture(o, g, square, target) then CaptureTarget else QuietTarget
  }

  function Destinations(moves: seq<Move>): set<Square>
  {
    set i | 0 <= i < |moves| :: moves[i].to
  }

  /** The highlight map for a selected square and its legal moves: the
      destinations with their intent, and the square itself as origin,
      which wins over a destination entry for the same square. */
  ghost function HighlightMap<G>(o: Oracle<G>, g: G, square: Square, moves: seq<Move>): map<Square, Highlight>
  {
    map d | d in Destinations(moves) + {square} ::
      if d == square then Origin else TargetHighlight(o, g, square, d)
  }

  /** The highlight map that asking for the options of `square` leaves
      behind: empty when the square has no legal moves. */
  ghost function OptionSquares<G>(o: Oracle<G>, g: G, square: Square): map<Square, Highlight>
  {
    var moves := o.moves(g, square);
    if |moves| == 0 then map[] else HighlightMap(o, g, square, moves)
  }

  /** The piece on `square` can be selected: it has a legal move. */
  ghost predicate HasMoveOptions<G>(o: Oracle<G>, g: G, square: Square)
  {
    |o.moves(g, square)| > 0
  }

  /** Builds the highlight map the way the source does: one entry per listed
      move, overwriting repeats (the promotion choices of one pawn move share
      a destination), then the origin entry on top. */
  method CollectOptionSquares<G>(o: Oracle<G>, g: G, square: Square, moves: seq<Move>)
    returns (squares: map<Square, Highlight>)
    ensures squares == HighlightMap(o, g, square, moves)
    ensures squares.Keys == Destinations(moves) + {square}
    ensures squares[square] == Origin
    ensures forall d :: d in squares && d != square ==>
              squares[d] != Origin && (squares[d] == CaptureTarget <==> IsCapture(o, g, square, d))
  {
    squares := map[];
    for i := 0 to |moves|
      invariant squares.Keys == set j | 0 <= j < i :: moves[j].to
      invariant forall d :: d in squares ==> squares[d] == TargetHighlight(o, g, square, d)
    {
      var target := moves[i].to;
      squares := squares[target := TargetHighlight(o, g, square, target)];
    }
    squares := squares[square := Origin];
    assert squares.Keys == Destinations(moves) + {square};
  }

  /** Property of the option map the click handler stores: it is empty
      exactly when the square has no legal move; otherwise its keys are the
      legal destinations plus the square, the square is the origin and each
      destination is a capture exactly when it holds a piece of the other
      colour. */
  lemma OptionSquaresShape<G>(o: Oracle<G>, g: G, square: Square)
    ensures OptionSquares(o, g, square) == map[] <==> !HasMoveOptions(o, g, square)
    ensures HasMoveOptions(o, g, square) ==>
              var squares := OptionSquares(o, g, square);
              && squares.Keys == Destinations(o.moves(g, square)) + {square}
              && squares[square] == Origin
              && forall d :: d in squares && d != square ==>
                   squares[d] != Origin && (squares[d] == CaptureTarget <==> IsCapture(o, g, square, d))
  {
    if HasMoveOptions(o, g, square) {
      assert square in OptionSquares(o, g, square);
    }
  }

  /** A listed move lands on the clicked square (and has an origin). */
  predicate Reaches(m: Move, square: Square)
  {
    m.from != "" && m.to == square
  }

  /** The first listed move that reaches `square`, if any. */
  function FindMove(moves: seq<Move>, square: Square): (found: Option<Move>)
    ensures found.None? <==> forall i :: 0 <= i < |moves| ==> !Reaches(moves[i], square)
    ensures found.Some? ==>
              exists i :: 0 <= i < |moves| && moves[i] == found.value && Reaches(moves[i], square)
                          && forall j :: 0 <= j < i ==> !Reaches(moves[j], square)
  {
    if |moves| == 0 then None
    else if Reaches(moves[0], square) then Some(moves[0])
    else
      var rest := FindMove(moves[1..], square);
      assert forall i :: 1 <= i < |moves| ==> moves[i] == moves[1..][i - 1];
      rest
  }

  /** Clicking a square is a legal destination of the selection exactly when
      the square is among the destinations of the moves that have an origin. */
  lemma FindMoveIsDestination(moves: seq<Move>, square: Square)
    requires forall i :: 0 <= i < |moves| ==> moves[i].from != ""
    ensures FindMove(moves, square).Some? <==> square in Destinations(moves)
  {
  }
}
