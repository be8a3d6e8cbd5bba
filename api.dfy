/**
 * Shapes of the records the client exchanges with the grading service and
 * keeps in its local cache (the request and response types of the REST API).
 * Only the fields the modelled code reads or writes are kept.
 */
module Api {
  import opened Wrappers

  /** A generated study topic of a book. */
  datatype Topic = Topic(id: string, title: string)

  /** A book as the local cache keeps it. */
  datatype LocalBook = LocalBook(
    bookId: string,
    title: string,
    authors: Option<string>,
    uploadedAt: string,
    topics: seq<Topic>)

  /** What `addBook` is given: a book without its topics and upload time. */
  datatype NewBook = NewBook(bookId: string, title: string, authors: Option<string>)

  datatype SessionTone = Neutral | Mean

  /** A quiz session as the local history keeps it. */
  datatype LocalSession = LocalSession(
    sessionId: string,
    topicId: string,
    topicTitle: string,
    bookTitle: string,
    tone: SessionTone,
    durationMinutes: int,
    startedAt: Option<string>,
    endedAt: Option<string>,
    score: Option<int>,
    failures: Option<int>,
    rejects: Option<int>)

  /** One question as the service delivers it. */
  datatype Prompt = Prompt(
    promptId: string,
    promptText: string,
    question: string,
    choices: seq<string>,
    remaining: Option<int>)

  /** The body of a submit request. */
  datatype SubmitIn = SubmitIn(promptId: string, answer: string, reject: bool)

  /** The grading outcome of one submitted or skipped prompt. */
  datatype SubmitOut = SubmitOut(
    correct: Option<bool>,
    sessionScore: Option<int>,
    failures: Option<int>,
    correctIndex: Option<int>,
    correctAnswer: Option<string>,
    explanation: Option<string>,
    meanComment: Option<string>,
    rejected: Option<bool>,
    sessionRejects: Option<int>,
    remaining: Option<int>,
    sessionComplete: Option<bool>)

  /** A user's leaderboard summary. */
  datatype LeaderboardAggregate = LeaderboardAggregate(
    userId: string,
    bestScore: int,
    totalScore: int,
    sessions: nat,
    updatedAt: string)

  /** The answer to an end-session request. */
  datatype EndSessionOut = EndSessionOut(
    sessionId: string,
    endedAt: string,
    score: int,
    aggregate: Option<LeaderboardAggregate>)

  /** A registered user, as the user list returns it. */
  datatype UserOut = UserOut(id: string, email: string, displayName: Option<string>, createdAt: string)
}
