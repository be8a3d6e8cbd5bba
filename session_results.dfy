/**
 * The results page: what it shows for the navigation state the session
 * runtime hands over, or the "no data" fallback when there is none.
 */
module SessionResults {
  import opened Wrappers
  import opened Api

  /** The navigation state a finished session carries to the results page. */
  datatype ResultsState = ResultsState(
    score: int,
    questionsAnswered: int,
    failures: int,
    rejects: int,
    aggregate: Option<LeaderboardAggregate>,
    topicTitle: Option<string>,
    bookTitle: Option<string>)

  /** What the page shows. */
  datatype ResultsView =
    | NoData
    | Summary(
        score: int,
        correct: int,
        failures: int,
        rejects: int,
        accuracy: int,
        overall: Option<LeaderboardAggregate>,
        heading: Option<(string, string)>)

  /** `correct`: the answers that were neither wrong nor skipped. */
  function Correct(questionsAnswered: int, failures: int, rejects: int): (correct: int)
    ensures correct + failures + rejects == questionsAnswered
  {
    questionsAnswered - failures - rejects
  }

  /**
   * `accuracy`: `Math.round(correct / questionsAnswered * 100)`, in integers.
   * With answers it is the percentage rounded half up (within one half of
   * 100 * correct / questionsAnswered, ties upward); with none it is 0.
   */
  function Accuracy(correct: int, questionsAnswered: int): (pct: int)
    ensures questionsAnswered <= 0 ==> pct == 0
    ensures questionsAnswered > 0 ==>
      2 * questionsAnswered * pct - questionsAnswered <= 200 * correct < 2 * questionsAnswered * pct + questionsAnswered
  {
    if questionsAnswered > 0 then
      var n, d := 200 * correct + questionsAnswered, 2 * questionsAnswered;
      assert n == d * (n / d) + n % d && 0 <= n % d < d;
      n / d
    else 0
  }

  /** Multiplying by a positive number keeps order both ways. */
  lemma CancelPositiveFactor(q: int, a: int, b: int)
    requires q > 0
    ensures q * a <= q * b <==> a <= b
    ensures q * a < q * b <==> a < b
  {
  }

  /** A count of correct answers between none and all gives a percentage between 0 and 100. */
  lemma AccuracyInRange(correct: int, questionsAnswered: int)
    requires 0 <= correct <= questionsAnswered
    ensures 0 <= Accuracy(correct, questionsAnswered) <= 100
  {
    if questionsAnswered > 0 {
      var q, pct := questionsAnswered, Accuracy(correct, questionsAnswered);
      assert q * (2 * pct - 1) <= q * 200;
      CancelPositiveFactor(q, 2 * pct - 1, 200);
      assert q * 0 < q * (2 * pct + 1);
      CancelPositiveFactor(q, 0, 2 * pct + 1);
    }
  }

  /** Rounding half up picks one percentage: any value meeting the bounds is the accuracy. */
  lemma AccuracyUnique(correct: int, questionsAnswered: int, pct: int)
    requires questionsAnswered > 0
    requires 2 * questionsAnswered * pct - questionsAnswered <= 200 * correct < 2 * questionsAnswered * pct + questionsAnswered
    ensures pct == Accuracy(correct, questionsAnswered)
  {
    var q, a := questionsAnswered, Accuracy(correct, questionsAnswered);
    assert q * (2 * pct - 1) < q * (2 * a + 1);
    assert q * (2 * a - 1) < q * (2 * pct + 1);
    CancelPositiveFactor(q, 2 * pct - 1, 2 * a + 1);
    CancelPositiveFactor(q, 2 * a - 1, 2 * pct + 1);
  }

  /**
   * A consistent breakdown (no negative count, no more wrong and skipped
   * answers than answers) shows a correct count between none and all and an
   * accuracy between 0 and 100: 100 when every answer was correct and 0 when
   * none was.
   */
  lemma RenderBreakdownInRange(state: ResultsState)
    requires 0 <= state.failures && 0 <= state.rejects
    requires state.failures + state.rejects <= state.questionsAnswered
    ensures var view := Render(Some(state));
      && 0 <= view.correct <= state.questionsAnswered
      && 0 <= view.accuracy <= 100
      && (state.questionsAnswered > 0 && view.correct == state.questionsAnswered ==> view.accuracy == 100)
      && (view.correct == 0 ==> view.accuracy == 0)
  {
    var q := state.questionsAnswered;
    var correct := Correct(q, state.failures, state.rejects);
    AccuracyInRange(correct, q);
    if q > 0 {
      if correct == q {
        AccuracyUnique(correct, q, 100);
      }
      if correct == 0 {
        AccuracyUnique(correct, q, 0);
      }
    }
  }

  /**
   * The page: the fallback without state; otherwise the server or local
   * score, the breakdown (which adds up to the answers given), the accuracy,
   * and the overall block exactly when an aggregate came along.
   */
  function Render(state: Option<ResultsState>): (view: ResultsView)
    ensures state.None? <==> view.NoData?
    ensures view.Summary? ==> view.score == state.value.score
    ensures view.Summary? ==> view.failures == state.value.failures && view.rejects == state.value.rejects
    ensures view.Summary? ==> view.correct + view.failures + view.rejects == state.value.questionsAnswered
    ensures view.Summary? ==> (view.heading.Some? <==> state.value.topicTitle.Some? && state.value.topicTitle.value != "")
    ensures view.Summary? ==> view.accuracy == Accuracy(view.correct, state.value.questionsAnswered)
    ensures view.Summary? ==> view.overall == state.value.aggregate
    ensures view.Summary? && view.heading.Some? ==>
      && view.heading.value.0 == state.value.topicTitle.value
      && (state.value.bookTitle.Some? ==> view.heading.value.1 == state.value.bookTitle.value)
      && (state.value.bookTitle.None? ==> view.heading.value.1 == "")
    ensures view.Summary? && state.value.questionsAnswered == 0 ==> view.accuracy == 0
  {
    match state
    case None => NoData
    case Some(s) =>
      var correct := Correct(s.questionsAnswered, s.failures, s.rejects);
      var heading := if s.topicTitle.Some? && s.topicTitle.value != "" then
        Some((s.topicTitle.value, s.bookTitle.GetOr(""))) else None;
      Summary(s.score, correct, s.failures, s.rejects, Accuracy(correct, s.questionsAnswered), s.aggregate, heading)
  }
}
