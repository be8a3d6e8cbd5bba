/**
 * The live quiz session: the state behind the active-session page. Each
 * asynchronous handler is split into the part that runs up to its network
 * call (Begin..., or the handler itself) and the part that runs when the call
 * settles (Complete..., given the outcome). Timer ticks arrive as Tick calls
 * and navigation to the results page is recorded in `results`.
 */
module ActiveSession {
  import opened Wrappers
  import opened Api
  import opened Text
  import Stores
  import SessionResults

  // ----- the countdown -----

  /** One interval tick: `t <= 1 ? 0 : t - 1`. */
  function TickValue(t: int): (next: int)
    ensures next >= 0 && (next < t || (t <= 0 && next == 0))
  {
    if t <= 1 then 0 else t - 1
  }

  /** The countdown after `k` ticks. */
  function AfterTicks(t: int, k: nat): int
    decreases k
  {
    if k == 0 then t else AfterTicks(TickValue(t), k - 1)
  }

  /** From `n` seconds the countdown reads `n - k` after `k` ticks and stays at 0 once there. */
  lemma {:induction false} CountdownAfterTicks(n: nat, k: nat)
    ensures AfterTicks(n, k) == if k >= n then 0 else n - k
  {
    if k > 0 {
      CountdownAfterTicks(TickValue(n), k - 1);
    }
  }

  /** A countdown from `n >= 1` first reads 0 after exactly `n` ticks, and never reads below 0. */
  lemma CountdownHitsZeroAtN(n: nat, k: nat)
    ensures AfterTicks(n, k) == 0 <==> k >= n
    ensures AfterTicks(n, k) >= 0
  {
    CountdownAfterTicks(n, k);
  }

  /** `durationMinutes * 60`, the duration falling back to 30 minutes without a stored session. */
  function InitialSeconds(session: Option<LocalSession>): (seconds: int)
    ensures session.None? ==> seconds == 1800
    ensures session.Some? ==> seconds == 60 * session.value.durationMinutes
  {
    session.GetOr(LocalSession("", "", "", "", Neutral, 30, None, None, None, None, None)).durationMinutes * 60
  }

  // ----- outcomes of the network calls -----

  datatype FetchOutcome = NextPrompt(next: Option<Prompt>) | FetchFailed
  datatype SubmitOutcome = Graded(result: SubmitOut) | SubmitFailed
  datatype EndOutcome = Ended(data: EndSessionOut) | EndFailed

  /** The page `navigate` goes to, with its state. */
  datatype Navigation = Navigation(path: string, state: SessionResults.ResultsState)

  function ResultsPath(sessionId: string): string {
    "/sessions/" + sessionId + "/results"
  }

  /** `Number(answer)` for the answers the page builds: a digit string, or '' (which is 0); None otherwise. */
  function NumberOf(answer: string): (n: Option<int>)
    ensures n.Some? <==> AllDigits(answer)
    ensures forall i: nat :: answer == Decimal(i) ==> n == Some(i)
  {
    if AllDigits(answer) then
      assert forall i: nat :: answer == Decimal(i) ==> ValueOf(answer) == i by {
        forall i: nat | answer == Decimal(i) ensures ValueOf(answer) == i {
          ValueOfDecimal(i);
        }
      }
      Some(ValueOf(answer))
    else None
  }

  /** The running totals: `score`, `failures`, `rejects`, `questionsAnswered`. */
  datatype Counters = Counters(score: int, failures: int, rejects: int, questionsAnswered: int)

  /** The state hooks that describe the question on screen. */
  datatype Screen = Screen(
    prompt: Option<Prompt>, selectedAnswer: Option<int>, lastResult: Option<SubmitOut>,
    meanComment: Option<string>, remaining: Option<int>,
    loading: bool, submitting: bool, sessionComplete: bool)

  /** `timeLeft`, and whether the countdown interval is still installed. */
  datatype Countdown = Countdown(timeLeft: int, running: bool)

  /**
   * `mountedRef`, `fetchingRef` and `endingRef`, with the requests in flight,
   * the pending comment clears and the navigation, once made.
   */
  datatype Latches = Latches(
    mounted: bool, fetching: bool, ending: bool, endPending: bool, endRequests: nat,
    pendingSubmit: Option<SubmitIn>, commentClears: nat, results: Option<Navigation>)

  class SessionRuntime {
    /** The route parameter; '' stands for a missing one (both are falsy). */
    const sessionId: string
    /** The session record as the history store had it when the page first rendered. */
    const session: Option<LocalSession>

    var totals: Counters
    var screen: Screen
    var clock: Countdown
    var refs: Latches

    /**
     * At most one end call, issued exactly when the end latch is taken, which
     * also stops the countdown; latches and in-flight calls agree.
     */
    ghost predicate Valid()
      reads this
    {
      && refs.endRequests == (if refs.ending then 1 else 0)
      && (refs.ending ==> !clock.running && sessionId != "")
      && (refs.endPending ==> refs.ending)
      && (refs.results.Some? ==> refs.ending && !refs.endPending)
      && (refs.fetching ==> sessionId != "")
      && (refs.pendingSubmit.Some? ==> screen.submitting && screen.lastResult.None?)
    }

    /** The first render: nothing fetched yet, `loading`, and the full countdown not yet installed. */
    constructor (sessionId: string, session: Option<LocalSession>)
      ensures Valid() && this.sessionId == sessionId && this.session == session
      ensures totals == Counters(0, 0, 0, 0)
      ensures screen == Screen(None, None, None, None, None, true, false, false)
      ensures clock == Countdown(InitialSeconds(session), false)
      ensures refs == Latches(false, false, false, false, 0, None, 0, None)
    {
      this.sessionId := sessionId;
      this.session := session;
      totals := Counters(0, 0, 0, 0);
      screen := Screen(None, None, None, None, None, true, false, false);
      clock := Countdown(InitialSeconds(session), false);
      refs := Latches(false, false, false, false, 0, None, 0, None);
    }

    /**
     * `doEndSession` up to its network call: dropped once the latch is taken
     * or without a session id; otherwise takes the latch, stops the countdown
     * and issues the one end call.
     */
    method BeginEnd() returns (issued: bool)
      requires Valid()
      modifies this
      ensures Valid()
      ensures issued == (!old(refs.ending) && sessionId != "")
      ensures totals == old(totals) && screen == old(screen)
      ensures clock == (if issued then old(clock).(running := false) else old(clock))
      ensures refs == (if issued then old(refs).(ending := true, endPending := true, endRequests := 1)
                       else old(refs))
    {
      if refs.ending || sessionId == "" {
        return false;
      }
      clock := clock.(running := false);
      refs := refs.(ending := true, endPending := true, endRequests := refs.endRequests + 1);
      issued := true;
    }

    /**
     * `doEndSession` after the call settles. Success writes exactly the
     * server's `ended_at` and `score` into the session record and goes to the
     * results with the server score and aggregate; failure leaves the store
     * alone and goes to the results with the local score and no aggregate.
     * The titles come from the store's record as it is when the call settles.
     */
    method CompleteEnd(outcome: EndOutcome, store: Stores.SessionHistoryStore)
      requires Valid() && refs.endPending
      modifies this, store
      ensures Valid()
      ensures totals == old(totals) && screen == old(screen) && clock == old(clock)
      ensures refs == old(refs).(endPending := false, results := Some(Navigation(ResultsPath(sessionId),
        ResultsOf(outcome, totals, old(store.GetSession(sessionId))))))
      ensures outcome.Ended? ==> |store.all| == |old(store.all)|
      ensures outcome.Ended? ==> forall i :: 0 <= i < |store.all| ==>
        store.all[i] == Stores.Owned(
          Stores.PatchIfId(old(store.all)[i].record, sessionId,
                           Stores.EndPatch(outcome.data.endedAt, outcome.data.score)),
          old(store.all)[i].uid)
      ensures outcome.Ended? ==> store.Scoped()
      ensures outcome.EndFailed? ==> unchanged(store)
    {
      var record := store.GetSession(sessionId);
      if outcome.Ended? {
        store.UpdateSession(sessionId, Stores.EndPatch(outcome.data.endedAt, outcome.data.score));
      }
      refs := refs.(endPending := false,
                    results := Some(Navigation(ResultsPath(sessionId), ResultsOf(outcome, totals, record))));
    }

    /** `fetchPrompt` up to its network call: dropped without a session id or while a fetch is in flight. */
    method BeginFetch() returns (issued: bool)
      requires Valid()
      modifies this
      ensures Valid()
      ensures issued == (sessionId != "" && !old(refs.fetching))
      ensures totals == old(totals) && clock == old(clock)
      ensures screen == (if issued then old(screen).(loading := true) else old(screen))
      ensures refs == (if issued then old(refs).(fetching := true) else old(refs))
    {
      if sessionId == "" || refs.fetching {
        return false;
      }
      refs := refs.(fetching := true);
      screen := screen.(loading := true);
      issued := true;
    }

    /**
     * `fetchPrompt` after the call settles: a prompt is shown (and its
     * remaining count kept when present); no prompt marks the session complete
     * without ending it; a failure shows nothing new. Either way the fetch
     * latch is released and loading stops.
     */
    method CompleteFetch(outcome: FetchOutcome)
      requires Valid() && refs.fetching
      modifies this
      ensures Valid()
      ensures totals == old(totals) && clock == old(clock)
      ensures refs == old(refs).(fetching := false)
      ensures screen == FetchedScreen(old(screen), outcome)
    {
      screen := FetchedScreen(screen, outcome);
      refs := refs.(fetching := false);
    }

    /** The fetch-on-mount effect: fetches only the first time it runs. */
    method FetchOnMount() returns (issued: bool)
      requires Valid()
      modifies this
      ensures Valid()
      ensures issued == (!old(refs.mounted) && sessionId != "" && !old(refs.fetching))
      ensures totals == old(totals) && clock == old(clock)
      ensures screen == (if issued then old(screen).(loading := true) else old(screen))
      ensures refs == old(refs).(mounted := true, fetching := old(refs.fetching) || issued)
    {
      if refs.mounted {
        return false;
      }
      refs := refs.(mounted := true);
      issued := BeginFetch();
    }

    /**
     * The mount effects in order: install the countdown, end at once if it
     * already reads 0, and fetch the first prompt.
     */
    method Mount() returns (endIssued: bool, fetchIssued: bool)
      requires Valid() && !refs.mounted && !refs.ending && !refs.fetching
      modifies this
      ensures Valid()
      ensures endIssued == (old(clock.timeLeft) == 0 && sessionId != "")
      ensures fetchIssued == (sessionId != "")
      ensures totals == old(totals)
      ensures screen == (if fetchIssued then old(screen).(loading := true) else old(screen))
      ensures clock == Countdown(old(clock.timeLeft), !endIssued)
      ensures refs == old(refs).(mounted := true, fetching := fetchIssued,
                                 ending := endIssued, endPending := endIssued,
                                 endRequests := if endIssued then 1 else 0)
    {
      clock := clock.(running := true);
      endIssued := false;
      if clock.timeLeft == 0 {
        endIssued := BeginEnd();
      }
      fetchIssued := FetchOnMount();
    }

    /**
     * One second of the countdown, then the end-on-zero effect: the count
     * drops by one, or to 0 from 1 or less, which clears the interval and,
     * when the count changed to 0, ends the session.
     */
    method Tick() returns (endIssued: bool)
      requires Valid()
      modifies this
      ensures Valid()
      ensures endIssued == (old(clock.running) && old(clock.timeLeft) <= 1 && old(clock.timeLeft) != 0 &&
                            sessionId != "")
      ensures clock == (if old(clock.running) then Countdown(TickValue(old(clock.timeLeft)), old(clock.timeLeft) > 1)
                        else old(clock))
      ensures totals == old(totals) && screen == old(screen)
      ensures refs == (if endIssued then old(refs).(ending := true, endPending := true, endRequests := 1)
                       else old(refs))
    {
      endIssued := false;
      if !clock.running {
        return;
      }
      var before := clock.timeLeft;
      clock := Countdown(TickValue(before), before > 1);
      if clock.timeLeft != before && clock.timeLeft == 0 {
        endIssued := BeginEnd();
      }
    }

    /**
     * `handleSubmitAnswer` up to its network call: a no-op while submitting,
     * while a result is shown, or with no prompt; otherwise marks submitting,
     * sends the answer for the current prompt and, for an answer (not a skip),
     * selects the chosen option at once.
     */
    method SubmitAnswer(answer: string, reject: bool) returns (issued: bool)
      requires Valid()
      modifies this
      ensures Valid()
      ensures issued == (!old(screen.submitting) && old(screen.lastResult).None? && old(screen.prompt).Some?)
      ensures totals == old(totals) && clock == old(clock)
      ensures !issued ==> screen == old(screen) && refs == old(refs)
      ensures issued ==>
        && screen == old(screen).(submitting := true,
                                  selectedAnswer := if reject then old(screen.selectedAnswer) else NumberOf(answer))
        && refs == old(refs).(pendingSubmit := Some(SubmitIn(old(screen.prompt).value.promptId, answer, reject)))
    {
      if screen.submitting || screen.lastResult.Some? || screen.prompt.None? {
        return false;
      }
      screen := screen.(submitting := true,
                        selectedAnswer := if reject then screen.selectedAnswer else NumberOf(answer));
      refs := refs.(pendingSubmit := Some(SubmitIn(screen.prompt.value.promptId, answer, reject)));
      issued := true;
    }

    /** `handleAnswer(index)`: submits the option's index in decimal and selects that option. */
    method HandleAnswer(index: nat) returns (issued: bool)
      requires Valid()
      modifies this
      ensures Valid()
      ensures issued == (!old(screen.submitting) && old(screen.lastResult).None? && old(screen.prompt).Some?)
      ensures totals == old(totals) && clock == old(clock)
      ensures !issued ==> screen == old(screen) && refs == old(refs)
      ensures issued ==>
        && screen == old(screen).(submitting := true, selectedAnswer := Some(index))
        && refs == old(refs).(pendingSubmit := Some(SubmitIn(old(screen.prompt).value.promptId, Decimal(index), false)))
    {
      issued := SubmitAnswer(Decimal(index), false);
    }

    /** `handleSkip`: submits an empty rejected answer; the selection is left as it was. */
    method HandleSkip() returns (issued: bool)
      requires Valid()
      modifies this
      ensures Valid()
      ensures issued == (!old(screen.submitting) && old(screen.lastResult).None? && old(screen.prompt).Some?)
      ensures totals == old(totals) && clock == old(clock)
      ensures !issued ==> screen == old(screen) && refs == old(refs)
      ensures issued ==>
        && screen == old(screen).(submitting := true)
        && refs == old(refs).(pendingSubmit := Some(SubmitIn(old(screen.prompt).value.promptId, "", true)))
    {
      issued := SubmitAnswer("", true);
    }

    /**
     * `handleSubmitAnswer` after the call settles. On success the counters
     * and the screen move as `SubmitTotals` and `SubmitView` say, and a tone
     * comment schedules one clear; `submitting` stays set until Next. On
     * failure only `submitting` is cleared.
     */
    method CompleteSubmit(outcome: SubmitOutcome)
      requires Valid() && refs.pendingSubmit.Some?
      modifies this
      ensures Valid()
      ensures clock == old(clock)
      ensures outcome.SubmitFailed? ==>
        && totals == old(totals)
        && screen == old(screen).(submitting := false)
        && refs == old(refs).(pendingSubmit := None)
      ensures outcome.Graded? ==>
        && totals == SubmitTotals(old(totals), outcome.result)
        && screen == SubmitView(old(screen), outcome.result)
        && refs == old(refs).(pendingSubmit := None,
             commentClears := old(refs.commentClears) + if ShowsComment(outcome.result) then 1 else 0)
    {
      match outcome {
        case Graded(r) =>
          totals := SubmitTotals(totals, r);
          screen := SubmitView(screen, r);
          refs := refs.(pendingSubmit := None,
                        commentClears := refs.commentClears + if ShowsComment(r) then 1 else 0);
        case SubmitFailed =>
          screen := screen.(submitting := false);
          refs := refs.(pendingSubmit := None);
      }
    }

    /** A five-second timeout fires and clears the comment on screen. */
    method ClearMeanComment()
      requires Valid() && refs.commentClears > 0
      modifies this
      ensures Valid()
      ensures totals == old(totals) && clock == old(clock)
      ensures screen == old(screen).(meanComment := None)
      ensures refs == old(refs).(commentClears := old(refs.commentClears) - 1)
    {
      screen := screen.(meanComment := None);
      refs := refs.(commentClears := refs.commentClears - 1);
    }

    /**
     * `handleNext`, reachable while a result is shown: clears the selection,
     * the result and `submitting`; a complete session drops the prompt with no
     * fetch, otherwise the next prompt is fetched.
     */
    method HandleNext() returns (fetchIssued: bool)
      requires Valid() && screen.lastResult.Some?
      modifies this
      ensures Valid()
      ensures totals == old(totals) && clock == old(clock)
      ensures old(screen.sessionComplete) ==> !fetchIssued && refs == old(refs)
      ensures old(screen.sessionComplete) ==>
        screen == old(screen).(selectedAnswer := None, lastResult := None, submitting := false, prompt := None)
      ensures !old(screen.sessionComplete) ==> fetchIssued == (sessionId != "" && !old(refs.fetching))
      ensures !old(screen.sessionComplete) ==>
        screen == old(screen).(selectedAnswer := None, lastResult := None, submitting := false,
                               loading := old(screen.loading) || fetchIssued)
      ensures !old(screen.sessionComplete) ==> refs == old(refs).(fetching := old(refs.fetching) || fetchIssued)
    {
      screen := screen.(selectedAnswer := None, lastResult := None, submitting := false);
      if screen.sessionComplete {
        screen := screen.(prompt := None);
        return false;
      }
      fetchIssued := BeginFetch();
    }
  }

  /**
   * The results state `doEndSession` navigates with: the server's score and
   * aggregate on success, the local score and no aggregate on failure; the
   * titles from the stored session record when there is one.
   */
  function ResultsOf(outcome: EndOutcome, totals: Counters, record: Option<Stores.Owned<LocalSession>>)
    : (state: SessionResults.ResultsState)
    ensures state.questionsAnswered == totals.questionsAnswered
    ensures state.failures == totals.failures && state.rejects == totals.rejects
    ensures outcome.Ended? ==> state.score == outcome.data.score && state.aggregate == outcome.data.aggregate
    ensures outcome.EndFailed? ==> state.score == totals.score && state.aggregate.None?
    ensures state.topicTitle.Some? <==> record.Some?
    ensures record.Some? ==> state.topicTitle == Some(record.value.record.topicTitle)
    ensures record.Some? ==> state.bookTitle == Some(record.value.record.bookTitle)
    ensures record.None? ==> state.bookTitle.None?
  {
    SessionResults.ResultsState(
      if outcome.Ended? then outcome.data.score else totals.score,
      totals.questionsAnswered, totals.failures, totals.rejects,
      if outcome.Ended? then outcome.data.aggregate else None,
      if record.Some? then Some(record.value.record.topicTitle) else None,
      if record.Some? then Some(record.value.record.bookTitle) else None)
  }

  /**
   * The screen after a fetch settles: loading stops; a prompt replaces the
   * one shown (and its remaining count the old one, when present); no prompt
   * marks the session complete; a failure shows nothing new.
   */
  function FetchedScreen(v: Screen, outcome: FetchOutcome): (n: Screen)
    ensures !n.loading
    ensures n.selectedAnswer == v.selectedAnswer && n.lastResult == v.lastResult
    ensures n.submitting == v.submitting && n.meanComment == v.meanComment
    ensures outcome.NextPrompt? && outcome.next.Some? ==>
      && n.prompt == outcome.next && n.sessionComplete == v.sessionComplete
      && n.remaining == (if outcome.next.value.remaining.Some? then outcome.next.value.remaining else v.remaining)
    ensures outcome.NextPrompt? && outcome.next.None? ==>
      n.sessionComplete && n.prompt == v.prompt && n.remaining == v.remaining
    ensures outcome.FetchFailed? ==> n == v.(loading := false)
  {
    match outcome
    case NextPrompt(Some(p)) =>
      v.(prompt := Some(p), loading := false, remaining := if p.remaining.Some? then p.remaining else v.remaining)
    case NextPrompt(None) => v.(sessionComplete := true, loading := false)
    case FetchFailed => v.(loading := false)
  }

  /** A graded submission shows a tone comment when it carries a non-empty one and was not a skip. */
  predicate ShowsComment(r: SubmitOut) {
    r.rejected != Some(true) && r.meanComment.Some? && r.meanComment.value != ""
  }

  /**
   * The totals after a graded submission: one more question answered; a
   * skip moves only the skip count (the server's, else one more); an answer
   * moves only score and failures (the server's, else unchanged).
   */
  function SubmitTotals(c: Counters, r: SubmitOut): (n: Counters)
    ensures n.questionsAnswered == c.questionsAnswered + 1
    ensures r.rejected == Some(true) ==>
      n.score == c.score && n.failures == c.failures &&
      (r.sessionRejects.None? ==> n.rejects == c.rejects + 1) &&
      (r.sessionRejects.Some? ==> n.rejects == r.sessionRejects.value)
    ensures r.rejected != Some(true) ==>
      n.rejects == c.rejects &&
      (r.sessionScore.Some? ==> n.score == r.sessionScore.value) &&
      (r.sessionScore.None? ==> n.score == c.score) &&
      (r.failures.Some? ==> n.failures == r.failures.value) &&
      (r.failures.None? ==> n.failures == c.failures)
  {
    if r.rejected == Some(true) then
      c.(rejects := r.sessionRejects.GetOr(c.rejects + 1), questionsAnswered := c.questionsAnswered + 1)
    else
      c.(score := r.sessionScore.GetOr(c.score), failures := r.failures.GetOr(c.failures),
         questionsAnswered := c.questionsAnswered + 1)
  }

  /**
   * The screen after a graded submission: the result is shown, `submitting`
   * stays set, the remaining count and completion flag follow the server
   * when it sends them, and a tone comment replaces the one on screen.
   */
  function SubmitView(v: Screen, r: SubmitOut): (n: Screen)
    ensures n.lastResult == Some(r) && n.submitting == v.submitting
    ensures n.prompt == v.prompt && n.selectedAnswer == v.selectedAnswer && n.loading == v.loading
    ensures n.sessionComplete <==> v.sessionComplete || r.sessionComplete == Some(true)
    ensures r.remaining.Some? ==> n.remaining == r.remaining
    ensures r.remaining.None? ==> n.remaining == v.remaining
    ensures ShowsComment(r) ==> n.meanComment == r.meanComment
    ensures !ShowsComment(r) ==> n.meanComment == v.meanComment
  {
    v.(lastResult := Some(r),
       remaining := if r.remaining.Some? then r.remaining else v.remaining,
       meanComment := if ShowsComment(r) then r.meanComment else v.meanComment,
       sessionComplete := v.sessionComplete || r.sessionComplete == Some(true))
  }

  /**
   * With no other event, a session of `minutes` minutes ends by itself after
   * exactly `minutes * 60` ticks, with one end call.
   */
  method CountdownEndsOnce(minutes: nat) returns (ticks: nat, endCalls: nat)
    requires minutes >= 1
    ensures ticks == minutes * 60 && endCalls == 1
  {
    var record := LocalSession("s1", "t1", "Thermodynamics", "Physics 101", Neutral, minutes, None, None, None, None, None);
    var rt := new SessionRuntime("s1", Some(record));
    var _, _ := rt.Mount();
    ticks := 0;
    while rt.clock.running
      invariant rt.Valid()
      invariant rt.clock.running ==> !rt.refs.ending && rt.clock.timeLeft == minutes * 60 - ticks >= 1
      invariant !rt.clock.running ==> rt.refs.ending && ticks == minutes * 60
      decreases minutes * 60 - ticks
    {
      var _ := rt.Tick();
      ticks := ticks + 1;
    }
    endCalls := rt.refs.endRequests;
  }

  /**
   * A correct answer graded with score 10 and no failures, then a skip graded
   * with one reject: the totals read 10, 0, 1 after two questions.
   */
  method AnswerThenSkip() returns (totals: Counters)
    ensures totals == Counters(10, 0, 1, 2)
  {
    var rt := new SessionRuntime("s1", None);
    var _, _ := rt.Mount();
    var p1 := Prompt("p1", "", "Q1", ["a", "b", "c", "d"], Some(4));
    rt.CompleteFetch(NextPrompt(Some(p1)));
    var sent := rt.HandleAnswer(2);
    rt.CompleteSubmit(Graded(SubmitOut(Some(true), Some(10), Some(0), None, None, None, None, None, None, Some(3), None)));
    var _ := rt.HandleNext();
    var p2 := Prompt("p2", "", "Q2", ["a", "b", "c", "d"], Some(3));
    rt.CompleteFetch(NextPrompt(Some(p2)));
    sent := rt.HandleSkip();
    rt.CompleteSubmit(Graded(SubmitOut(None, None, None, None, None, None, None, Some(true), Some(1), Some(2), None)));
    totals := rt.totals;
  }
}
