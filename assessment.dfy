/**
 * The PHQ-9 assessment as a pure state machine (`handleAnswer`): nine answer
 * slots, the index of the current question and the latest total. Answering
 * the last question stores the total and starts over at the first question;
 * the slots are not cleared. The severity label is the banding printed under
 * the latest score, which follows the published PHQ-9 cut-points of
 * Kroenke, Spitzer and Williams (2001).
 */
module Assessment {
  import opened Optional

  /** Number of questions in the questionnaire. */
  const QUESTION_COUNT := 9
  /** Options per question; option i is worth i points. */
  const OPTION_COUNT := 4
  const MAX_TOTAL := 27

  /** A value an option button can submit. */
  predicate IsAnswer(score: int) {
    0 <= score < OPTION_COUNT
  }

  /** The `reduce` over the answer slots: for option values, between 0 and 3 per slot. */
  function Sum(xs: seq<int>): (r: int)
    ensures (forall k :: 0 <= k < |xs| ==> IsAnswer(xs[k])) ==> 0 <= r <= (OPTION_COUNT - 1) * |xs|
  {
    if xs == [] then 0 else xs[0] + Sum(xs[1..])
  }

  /** Assessment state: the answer slots, the current question index, the latest total. */
  datatype Phq9 = Phq9(answers: seq<int>, question: int, score: int)

  /** Nine zero slots, at the first question, total 0. */
  function Initial(): Phq9 {
    Phq9(seq(QUESTION_COUNT, _ => 0), 0, 0)
  }

  /**
   * The invariant the app keeps: nine slots holding option values, an index
   * within 0..8, a total within 0..27, and at the first question the total is
   * the sum of the slots (they are the answers of the run that produced it).
   */
  ghost predicate Valid(a: Phq9) {
    && |a.answers| == QUESTION_COUNT
    && 0 <= a.question < QUESTION_COUNT
    && (forall k :: 0 <= k < QUESTION_COUNT ==> IsAnswer(a.answers[k]))
    && 0 <= a.score <= MAX_TOTAL
    && (a.question == 0 ==> a.score == Sum(a.answers))
  }

  /**
   * `handleAnswer(score)`: write the score into the current slot; before the
   * last question move to the next one, at the last question store the sum of
   * the slots as the total and go back to the first question.
   */
  function Answer(a: Phq9, score: int): (r: Phq9)
    requires |a.answers| == QUESTION_COUNT && 0 <= a.question < QUESTION_COUNT
    ensures |r.answers| == QUESTION_COUNT && 0 <= r.question < QUESTION_COUNT
  {
    var answers := a.answers[a.question := score];
    if a.question < QUESTION_COUNT - 1 then Phq9(answers, a.question + 1, a.score)
    else Phq9(answers, 0, Sum(answers))
  }

  /** Answering the given scores one after another. */
  function AnswerAll(a: Phq9, scores: seq<int>): (r: Phq9)
    requires |a.answers| == QUESTION_COUNT && 0 <= a.question < QUESTION_COUNT
    ensures |r.answers| == QUESTION_COUNT && 0 <= r.question < QUESTION_COUNT
    decreases |scores|
  {
    if scores == [] then a else AnswerAll(Answer(a, scores[0]), scores[1..])
  }

  /** The starting state satisfies the invariant. */
  lemma InitialValid()
    ensures Valid(Initial())
  {
    SumOfZeros(Initial().answers);
  }

  lemma {:induction false} SumOfZeros(xs: seq<int>)
    requires forall k :: 0 <= k < |xs| ==> xs[k] == 0
    ensures Sum(xs) == 0
  {
    if xs != [] {
      SumOfZeros(xs[1..]);
    }
  }

  /**
   * One answer from an option button keeps the invariant: the slot gets the
   * score, no other slot changes, and either the index advances with the total
   * untouched, or (at question 9) the total becomes the sum of the slots.
   */
  lemma AnswerPreservesValid(a: Phq9, score: int)
    requires Valid(a) && IsAnswer(score)
    ensures var r := Answer(a, score);
      && Valid(r)
      && r.answers[a.question] == score
      && (forall k :: 0 <= k < QUESTION_COUNT && k != a.question ==> r.answers[k] == a.answers[k])
      && (a.question < QUESTION_COUNT - 1 ==> r.question == a.question + 1 && r.score == a.score)
      && (a.question == QUESTION_COUNT - 1 ==> r.question == 0 && r.score == Sum(r.answers))
  {
  }

  /**
   * Answering from question q to the end of the run: the slots before q keep
   * their values, the remaining ones receive the scores, and the stored total
   * is the sum of the resulting slots.
   */
  lemma {:induction false} FinishRun(a: Phq9, scores: seq<int>)
    requires |a.answers| == QUESTION_COUNT && 0 <= a.question < QUESTION_COUNT
    requires a.question + |scores| == QUESTION_COUNT
    ensures var slots := a.answers[..a.question] + scores;
      AnswerAll(a, scores) == Phq9(slots, 0, Sum(slots))
    decreases |scores|
  {
    var next := Answer(a, scores[0]);
    var slots := a.answers[..a.question] + scores;
    assert AnswerAll(a, scores) == AnswerAll(next, scores[1..]);
    if |scores| == 1 {
      assert next.question == 0 && next.answers == slots;
    } else {
      assert next.question == a.question + 1;
      assert next.answers[..next.question] == a.answers[..a.question] + [scores[0]];
      FinishRun(next, scores[1..]);
      assert next.answers[..next.question] + scores[1..] == slots;
    }
  }

  /**
   * Nine consecutive answers starting at the first question: whatever the
   * slots held before, the slots become the answers, the index is back at 0,
   * and the total is their sum, which lies in 0..27.
   */
  lemma CompleteRun(a: Phq9, scores: seq<int>)
    requires |a.answers| == QUESTION_COUNT && a.question == 0
    requires |scores| == QUESTION_COUNT && forall k :: 0 <= k < |scores| ==> IsAnswer(scores[k])
    ensures AnswerAll(a, scores) == Phq9(scores, 0, Sum(scores))
    ensures 0 <= Sum(scores) <= MAX_TOTAL
  {
    FinishRun(a, scores);
    assert a.answers[..0] + scores == scores;
  }

  /** The answers [0,1,2,3,0,1,2,3,0] of the worked example. */
  function ExampleAnswers(): seq<int> {
    [0, 1, 2, 3, 0, 1, 2, 3, 0]
  }

  /** Answering the example from the first question gives the total 12 and leaves the index at the first question. */
  lemma ExampleRun(a: Phq9)
    requires |a.answers| == QUESTION_COUNT && a.question == 0
    ensures AnswerAll(a, ExampleAnswers()) == Phq9(ExampleAnswers(), 0, 12)
  {
    CompleteRun(a, ExampleAnswers());
    assert Sum(ExampleAnswers()) == 12;
  }

  datatype Severity = Minimal | Mild | ModerateSymptoms | ModeratelySevere | Severe

  /** The label shown under the latest score: for a total in 0..27, the published band holding it. */
  function SeverityOf(score: int): (r: Severity)
    ensures 0 <= score <= MAX_TOTAL ==> BandLow(r) <= score <= BandHigh(r)
  {
    if score <= 4 then Minimal
    else if score <= 9 then Mild
    else if score <= 14 then ModerateSymptoms
    else if score <= 19 then ModeratelySevere
    else Severe
  }

  /** Lowest total of each published band. */
  function BandLow(s: Severity): int {
    match s
    case Minimal => 0
    case Mild => 5
    case ModerateSymptoms => 10
    case ModeratelySevere => 15
    case Severe => 20
  }

  /** Highest total of each published band. */
  function BandHigh(s: Severity): int {
    match s
    case Minimal => 4
    case Mild => 9
    case ModerateSymptoms => 14
    case ModeratelySevere => 19
    case Severe => 27
  }

  /** For every possible total, the label is the one published band that contains it. */
  lemma SeverityMatchesPublishedBands(score: int)
    requires 0 <= score <= MAX_TOTAL
    ensures forall s: Severity :: SeverityOf(score) == s <==> BandLow(s) <= score <= BandHigh(s)
  {
  }

  function SeverityRank(s: Severity): nat {
    match s
    case Minimal => 0
    case Mild => 1
    case ModerateSymptoms => 2
    case ModeratelySevere => 3
    case Severe => 4
  }

  /** A higher total never gets a milder label. */
  lemma SeverityMonotone(lower: int, higher: int)
    requires lower <= higher
    ensures SeverityRank(SeverityOf(lower)) <= SeverityRank(SeverityOf(higher))
  {
  }

  /** The latest-score panel: shown, with its label, only when the total is positive. */
  function ScorePanel(score: int): (r: Option<Severity>)
    ensures r.Some? <==> score > 0
    ensures r.Some? ==> r.value == SeverityOf(score)
  {
    if score > 0 then Some(SeverityOf(score)) else None
  }

  /**
   * A completed run of nine "not at all" answers from the start leaves the
   * assessment exactly as it was before any assessment, panel hidden:
   * a total of 0 cannot be told apart from no assessment.
   */
  lemma AllZeroRunLooksUnassessed()
    ensures AnswerAll(Initial(), seq(QUESTION_COUNT, _ => 0)) == Initial()
    ensures ScorePanel(AnswerAll(Initial(), seq(QUESTION_COUNT, _ => 0)).score) == None
  {
    var zeros: seq<int> := seq(QUESTION_COUNT, _ => 0);
    CompleteRun(Initial(), zeros);
    InitialValid();
  }
}
