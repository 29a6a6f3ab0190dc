/** The analysis side of the board: the condition under which a new position
    is sent for analysis, and how each message streamed back by the engine
    updates the four displayed analysis fields (evaluation, mate, depth and
    principal line). */
module Analysis {
  import opened Rules
  import opened Numerals

  /** Messages reporting a search shallower than this are ignored. */
  const MIN_USABLE_DEPTH := 10

  /** Depth requested of the engine for every analysed position. */
  const SEARCH_DEPTH := 18

  /** The score field of an engine message, as whatever the engine hands
      over: a number or a text (the handler reads either through `Number`). */
  datatype Score = NumberScore(number: int) | TextScore(text: string)

  /** One engine message. An absent field is `None`; present fields are
      further tested for truthiness (zero and "" count as absent). */
  datatype EngineMessage = EngineMessage(
    positionEvaluation: Option<Score>,
    possibleMate: Option<string>,
    pv: Option<string>,
    depth: Option<int>
  )

  /** A displayed evaluation: a number of pawns, or NaN when the score text
      is not a numeral. */
  datatype Evaluation = Pawns(value: real) | NotANumber

  /** The displayed analysis state. The evaluation is oriented by the side
      to move at the time the message was handled. */
  datatype AnalysisState = AnalysisState(
    positionEvaluation: Evaluation,
    possibleMate: string,
    depth: int,
    bestLine: string
  )

  const INITIAL_ANALYSIS := AnalysisState(Pawns(0.0), "", 10, "")

  /** The request sent to the engine for one position. */
  datatype AnalysisRequest = AnalysisRequest(fen: string, depth: int)

  predicate TruthyNumber(x: Option<int>)
  {
    x.Some? && x.value != 0
  }

  predicate TruthyText(x: Option<string>)
  {
    x.Some? && x.value != ""
  }

  /** A score is truthy when it is a non-zero number or a non-empty text;
      the text "0" is truthy. */
  predicate TruthyScore(x: Option<Score>)
  {
    x.Some? && match x.value
               case NumberScore(n) => n != 0
               case TextScore(t) => t != ""
  }

  /** `Number(score)`: a number is itself, a text is read as a numeral;
      `None` is NaN. */
  function NumberOf(s: Score): (r: Option<int>)
    ensures s.NumberScore? ==> r == Some(s.number)
    ensures s.TextScore? ==> r == ParseInteger(s.text)
  {
    match s
    case NumberScore(n) => Some(n)
    case TextScore(t) => ParseInteger(t)
  }

  /** A message is dropped when it carries a (non-zero) depth below the
      usable minimum. */
  predicate Ignored(m: EngineMessage)
  {
    TruthyNumber(m.depth) && m.depth.value < MIN_USABLE_DEPTH
  }

  /** The raw score, multiplied by +1 when White is to move and by -1 when
      Black is, over 1000. */
  function OrientedEvaluation(raw: int, turn: Color): (e: real)
    ensures e * 1000.0 == (if turn == White then raw else -raw) as real
    ensures e > 0.0 <==> (turn == White && raw > 0) || (turn == Black && raw < 0)
    ensures e == 0.0 <==> raw == 0
  {
    (if turn == White then raw else -raw) as real / 1000.0
  }

  /** The evaluation stored for a score: oriented pawns, or NaN. */
  function StoredEvaluation(s: Score, turn: Color): (e: Evaluation)
    ensures e.NotANumber? <==> NumberOf(s).None?
    ensures e.Pawns? ==> e.value * 1000.0 == (if turn == White then NumberOf(s).value else -NumberOf(s).value) as real
  {
    match NumberOf(s)
    case Some(raw) => Pawns(OrientedEvaluation(raw, turn))
    case None => NotANumber
  }

  /** Handling of one engine message, with `turn` the side to move when the
      message arrives. A dropped message changes nothing; otherwise every
      truthy field replaces its own displayed field and nothing else. */
  function ApplyMessage(a: AnalysisState, m: EngineMessage, turn: Color): (r: AnalysisState)
    ensures Ignored(m) ==> r == a
    ensures !Ignored(m) ==>
              && r.positionEvaluation == (if TruthyScore(m.positionEvaluation)
                                          then StoredEvaluation(m.positionEvaluation.value, turn)
                                          else a.positionEvaluation)
              && r.possibleMate == (if TruthyText(m.possibleMate) then m.possibleMate.value else a.possibleMate)
              && r.depth == (if TruthyNumber(m.depth) then m.depth.value else a.depth)
              && r.bestLine == (if TruthyText(m.pv) then m.pv.value else a.bestLine)
  {
    if Ignored(m) then a
    else
      var a1 := if TruthyScore(m.positionEvaluation)
                then a.(positionEvaluation := StoredEvaluation(m.positionEvaluation.value, turn))
                else a;
      var a2 := if TruthyText(m.possibleMate) then a1.(possibleMate := m.possibleMate.value) else a1;
      var a3 := if TruthyNumber(m.depth) then a2.(depth := m.depth.value) else a2;
      if TruthyText(m.pv) then a3.(bestLine := m.pv.value) else a3
  }

  /** Analysis is started for a position unless the game is over, and also
      when it is drawn (the condition reads "not over, or drawn"). */
  predicate AnalysisTriggered<G>(o: Oracle<G>, g: G)
    ensures !o.isGameOver(g) ==> AnalysisTriggered(o, g)
    ensures o.isDraw(g) ==> AnalysisTriggered(o, g)
    ensures !AnalysisTriggered(o, g) ==> o.isGameOver(g) && !o.isDraw(g)
  {
    !o.isGameOver(g) || o.isDraw(g)
  }

  /** Under the chess rules a drawn game is over, so the trigger fires on
      every drawn game although it is over, and stays silent exactly on
      games decided otherwise (checkmate). */
  lemma AnalysisTriggeredOnDrawnGames<G>(o: Oracle<G>, g: G)
    requires o.isDraw(g) ==> o.isGameOver(g)
    ensures o.isDraw(g) ==> o.isGameOver(g) && AnalysisTriggered(o, g)
    ensures !AnalysisTriggered(o, g) <==> o.isGameOver(g) && !o.isDraw(g)
  {
  }

  /** The fields a message leaves alone: a message without a truthy field
      (after the depth filter) is a no-op, whatever its depth. */
  lemma EmptyMessageChangesNothing(a: AnalysisState, m: EngineMessage, turn: Color)
    requires !TruthyScore(m.positionEvaluation) && !TruthyText(m.possibleMate)
    requires !TruthyNumber(m.depth) && !TruthyText(m.pv)
    ensures ApplyMessage(a, m, turn) == a
  {
  }

  /** A zero score given as a number is falsy and never stored; given as the
      text "0" it is truthy and stored as an evaluation of 0. */
  lemma ZeroScoreHandling(a: AnalysisState, m: EngineMessage, turn: Color)
    ensures m.positionEvaluation == Some(NumberScore(0)) ==>
              ApplyMessage(a, m, turn).positionEvaluation == a.positionEvaluation
    ensures m.positionEvaluation == Some(TextScore("0")) && !Ignored(m) ==>
              ApplyMessage(a, m, turn).positionEvaluation == Pawns(0.0)
  {
    assert ParseInteger("0") == Some(0) by {
      assert AllDigits("0");
      assert DigitsValue("0") == DigitsValue("") * 10 + 0;
    }
  }

  /** Handling the same message twice in the same position is the same as
      handling it once. */
  lemma ApplyMessageIdempotent(a: AnalysisState, m: EngineMessage, turn: Color)
    ensures ApplyMessage(ApplyMessage(a, m, turn), m, turn) == ApplyMessage(a, m, turn)
  {
  }

  /** Once a mate distance is shown, no engine message removes it: a message
      either leaves it or replaces it with another non-empty one. Only a
      drop of a piece clears it. */
  lemma StoredMateSurvives(a: AnalysisState, m: EngineMessage, turn: Color)
    requires a.possibleMate != ""
    ensures ApplyMessage(a, m, turn).possibleMate != ""
  {
  }

  /** The stored evaluation favours White: a score of +50 reported while
      Black is to move is shown as -0.05, whether it comes as a number or as
      the engine's numeral text. */
  lemma BlackToMoveExample(a: AnalysisState, score: Score)
    requires score == NumberScore(50) || score == TextScore(IntegerText(50))
    ensures ApplyMessage(a, EngineMessage(Some(score), None, None, Some(12)), Black).positionEvaluation
            == Pawns(-0.05)
  {
    ParseIntegerText(50);
    assert IntegerText(50) != "";
  }

  /** Messages are not tied to the position they were computed for, and the
      orientation is taken from the side to move when the message arrives:
      a score computed before a move and delivered after it is stored with
      the opposite sign from the one it would have had on time. */
  lemma LateMessageFlipsSign(a: AnalysisState, m: EngineMessage)
    requires !Ignored(m) && TruthyScore(m.positionEvaluation)
    requires NumberOf(m.positionEvaluation.value).Some?
    ensures ApplyMessage(a, m, White).positionEvaluation.Pawns?
    ensures ApplyMessage(a, m, Black).positionEvaluation.Pawns?
    ensures ApplyMessage(a, m, Black).positionEvaluation.value == -ApplyMessage(a, m, White).positionEvaluation.value
    ensures NumberOf(m.positionEvaluation.value) != Some(0) ==>
              ApplyMessage(a, m, White).positionEvaluation != ApplyMessage(a, m, Black).positionEvaluation
  {
  }
}
