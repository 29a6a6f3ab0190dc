/** What the board shows beside the pieces, derived from the stored state
    alone: the best-move arrow read from the principal line, the evaluation
    text, the shortened principal line, and which pieces may be dragged. */
module Presentation {
  import opened Rules
  import opened Analysis

  /** The part of `s` before its first space (all of `s` when it has none):
      the first element of splitting `s` on single spaces. */
  function FirstToken(s: string): (t: string)
    ensures t <= s
    ensures forall i :: 0 <= i < |t| ==> t[i] != ' '
    ensures |t| < |s| ==> s[|t|] == ' '
  {
    if |s| == 0 || s[0] == ' ' then "" else [s[0]] + FirstToken(s[1..])
  }

  /** The first token of a line that starts with a space-free token and a
      space is that token, whatever follows. */
  lemma {:induction false} FirstTokenOfLine(token: string, rest: string)
    requires forall i :: 0 <= i < |token| ==> token[i] != ' '
    ensures FirstToken(token + " " + rest) == token
    ensures FirstToken(token) == token
  {
    var line := token + " " + rest;
    assert line[|token|] == ' ';
    assert forall i :: 0 <= i < |token| ==> line[i] == token[i];
  }

  /** JavaScript `substring(start, end)` for 0 <= start <= end: both bounds
      are cut down to the length of the string. */
  function Substring(s: string, start: nat, end: nat): (r: string)
    requires start <= end
    ensures |r| == (if end <= |s| then end else |s|) - (if start <= |s| then start else |s|)
    ensures start <= |s| ==> forall i :: 0 <= i < |r| ==> r[i] == s[start + i]
  {
    var lo := if start <= |s| then start else |s|;
    var hi := if end <= |s| then end else |s|;
    s[lo..hi]
  }

  datatype Arrow = Arrow(startSquare: string, endSquare: string)

  /** The best-move arrow: present exactly when the principal line has a
      non-empty first token, from its characters 0-2 to its characters 2-4.
      The squares are not checked. */
  function BestMoveArrow(bestLine: string): (arrow: Option<Arrow>)
    ensures arrow.None? <==> FirstToken(bestLine) == ""
    ensures arrow.Some? ==>
              var token := FirstToken(bestLine);
              var mid := if |token| < 2 then |token| else 2;
              var end := if |token| < 4 then |token| else 4;
              arrow.value == Arrow(token[..mid], token[mid..end])
    ensures |FirstToken(bestLine)| >= 4 ==>
              arrow == Some(Arrow(FirstToken(bestLine)[..2], FirstToken(bestLine)[2..4]))
  {
    var bestMove := FirstToken(bestLine);
    if bestMove == "" then None
    else Some(Arrow(Substring(bestMove, 0, 2), Substring(bestMove, 2, 4)))
  }

  /** A principal line in coordinate notation ("e2e4 e7e5 ...") yields the
      arrow of its first move. */
  lemma CoordinateLineArrow(from: string, to: string, rest: string)
    requires |from| == 2 && |to| == 2
    requires from[0] != ' ' && from[1] != ' ' && to[0] != ' ' && to[1] != ' '
    ensures BestMoveArrow(from + to + " " + rest) == Some(Arrow(from, to))
    ensures BestMoveArrow(from + to) == Some(Arrow(from, to))
  {
    var token := from + to;
    assert forall i :: 0 <= i < |token| ==> token[i] != ' ';
    FirstTokenOfLine(token, rest);
    assert token + " " + rest == from + to + " " + rest;
    assert Substring(token, 0, 2) == from;
    assert Substring(token, 2, 4) == to;
  }

  /** The evaluation read-out: the mate distance prefixed with '#' when one
      is stored, the evaluation otherwise. */
  datatype EvaluationText = MateText(text: string) | Numeric(evaluation: Evaluation)

  function EvaluationDisplay(possibleMate: string, positionEvaluation: Evaluation): (d: EvaluationText)
    ensures d.MateText? <==> possibleMate != ""
    ensures d.MateText? ==> d.text == "#" + possibleMate
    ensures d.Numeric? ==> d.evaluation == positionEvaluation
  {
    if possibleMate != "" then MateText("#" + possibleMate) else Numeric(positionEvaluation)
  }

  /** A reported mate wins over the evaluation: after any accepted message
      that carries a mate distance, the read-out is that distance after '#',
      whatever evaluation the message also carried. */
  lemma MateOverridesEvaluation(a: AnalysisState, m: EngineMessage, turn: Color)
    requires !Ignored(m) && TruthyText(m.possibleMate)
    ensures var r := ApplyMessage(a, m, turn);
            EvaluationDisplay(r.possibleMate, r.positionEvaluation) == MateText("#" + m.possibleMate.value)
  {
  }

  /** Once a mate is on display, engine messages keep a mate on display:
      the numeric evaluation does not come back until a drop clears it. */
  lemma MateDisplayPersists(a: AnalysisState, m: EngineMessage, turn: Color)
    requires a.possibleMate != ""
    ensures var r := ApplyMessage(a, m, turn);
            EvaluationDisplay(r.possibleMate, r.positionEvaluation).MateText?
  {
    StoredMateSurvives(a, m, turn);
  }

  /** The shortened principal line: its first 40 characters. */
  function BestLineExcerpt(bestLine: string): (r: string)
    ensures r <= bestLine
    ensures |r| == if |bestLine| <= 40 then |bestLine| else 40
  {
    Substring(bestLine, 0, 40)
  }

  /** The drag filters test the first letter of the board's piece code
      ("wP", "bK", ...): the white board drags only 'w' pieces, the black
      board only 'b' pieces. */
  predicate CanDragPieceWhite(pieceType: string)
    ensures CanDragPieceWhite(pieceType) <==> "w" <= pieceType
    ensures CanDragPieceWhite(pieceType) ==> !CanDragPieceBlack(pieceType)
  {
    |pieceType| > 0 && pieceType[0] == 'w'
  }

  predicate CanDragPieceBlack(pieceType: string)
    ensures CanDragPieceBlack(pieceType) <==> "b" <= pieceType
  {
    |pieceType| > 0 && pieceType[0] == 'b'
  }

  /** The board's code for a piece: colour letter then upper-case kind. */
  function PieceCode(p: Piece): (code: string)
    ensures |code| == 2
  {
    var colour := if p.color == White then 'w' else 'b';
    var kind := match p.kind
      case Pawn => 'P' case Knight => 'N' case Bishop => 'B'
      case Rook => 'R' case Queen => 'Q' case King => 'K';
    [colour, kind]
  }

  /** Each board drags exactly the pieces of its own colour, and no piece
      code is draggable on both boards. */
  lemma DragFiltersFollowColour(p: Piece, pieceType: string)
    ensures CanDragPieceWhite(PieceCode(p)) <==> p.color == White
    ensures CanDragPieceBlack(PieceCode(p)) <==> p.color == Black
    ensures !(CanDragPieceWhite(pieceType) && CanDragPieceBlack(pieceType))
  {
  }
}
