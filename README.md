# StudyAcc client core in Dafny

This project models the state-bearing core of the StudyAcc web client, a study
app in which a signed-in student uploads books and runs timed quiz sessions
against a server. It covers:

- **The per-user local cache** (`Stores`). There are two persisted stores, books and session history. Each keeps an unscoped, owner-tagged list (`_allBooks`, `_allSessions`) and a derived view for the current user. They are classes whose methods replace those fields, with the predicate `Scoped()` saying `view == OwnedBy(all, currentUserId)`. The module-level auth subscriber and its `_prevUserId` are the class `Client`.
- **The authentication store** (`Auth`). Four fields that `setAuth` and `logout` overwrite, an expiry query, and the persisted snapshot.
- **The utility helpers** (`Utils`). The JWT claim decoding wrapper, expiry and minutes-left arithmetic, the `mm:ss` format and the leaderboard rank label.
- **The live quiz session** (`ActiveSession`). The counters, screen state, countdown and one-shot latches of the active-session page, as the class `SessionRuntime`. Every asynchronous handler is split into the part before its network call and a `Complete…` method that receives the call's outcome. Timer ticks are `Tick()` calls, and navigation to the results page is recorded in `refs.results`.
- **The rules embedded in pages**:
  - the results page breakdown and accuracy (`SessionResults`);
  - rank tiers and expiry split (`Profile`);
  - the upload form (`UploadBook`);
  - the leaderboard's name map and chart (`Leaderboard`);
  - the navigation bar's highlight rule and mobile menu (`Navbar`).

`Wrappers` holds `Option`. `Text` holds the string operations the source
borrows from JavaScript: `split`, decimal `toString`/`Number`, `trim` with
ECMAScript white space, and string prefix. `Api` holds the record shapes that
the client exchanges with the server.

The clock (`Date.now()`, `toISOString()`) is a parameter of the operations
that read it. Base64/JSON decoding of a token payload is a function parameter
`parse`, and network calls are outcomes passed to the `Complete…` methods.

A logged-out view might be expected to be empty. The code filters on the
empty user id instead (src/stores/bookStore.ts:10, 31-34), so a record added
while logged out shows up in the logged-out view. The model follows the code.
`Stores.LoggedOutViewOnlyUntagged` states when that view is empty.

## Model

| member | source | states |
|---|---|---|
| Stores.CurrentUserId | src/stores/bookStore.ts:9-11 | the auth store's user id, or '' when there is none |
| Stores.OwnedBy | src/stores/bookStore.ts:31-34 | the view holds exactly the records tagged with the uid, never more than the list |
| Stores.OwnedByOthers | src/stores/bookStore.ts:67 | holds exactly the records not tagged with the uid |
| Stores.MapRecords | src/stores/bookStore.ts:55-57 | same length; each record rewritten in place with its owner kept |
| Stores.FindFirst | src/stores/bookStore.ts:62 | returns the first record with the key in the view, or none iff no record has it |
| Stores.OwnedByAppend | src/stores/bookStore.ts:45-49 | filtering a concatenation filters each part |
| Stores.OwnedByIdempotent | src/stores/bookStore.ts:85-88 | deriving the view of a view changes nothing |
| Stores.OwnedByMapRecords | src/stores/bookStore.ts:55-58 | rewriting then filtering equals filtering then rewriting |
| Stores.MapRecordsAppend | src/stores/bookStore.ts:55-57 | rewriting distributes over concatenation |
| Stores.ClearKeepsOtherOwners | src/stores/bookStore.ts:64-70 | after clearing uid nothing of uid remains and every other user's view is unchanged |
| Stores.ViewsAreDisjoint | src/stores/bookStore.ts:31-34 | two different users' views share no record |
| Stores.LoggedOutViewOnlyUntagged | src/stores/bookStore.ts:9-11 | the logged-out view is empty when no record carries the '' tag |
| Stores.BookStore.constructor | src/stores/bookStore.ts:39-40 | empty list and view |
| Stores.BookStore.AddBook | src/stores/bookStore.ts:42-51 | prepends one book with the current uid, empty topics and the given time; the old list is the tail; the view stays scoped and gains the book at its front |
| Stores.BookStore.SetTopics | src/stores/bookStore.ts:53-60 | same length and order; a record changes only in topics and only when its id matches, whatever its owner; an unknown id is a no-op; the view stays scoped |
| Stores.BookStore.GetBook | src/stores/bookStore.ts:62 | the first book of the current view with that id (every earlier one has another id); none iff no view book has it |
| Stores.BookStore.ClearForUser | src/stores/bookStore.ts:64-70 | keeps exactly the other owners' books in order; view set to [] |
| Stores.BookStore.Rehydrate | src/stores/bookStore.ts:75-79 | loads the stored list and re-derives the view from it |
| Stores.BookStore.Resync | src/stores/bookStore.ts:85-88 | only the view changes, it becomes scoped, and a scoped store is left as it was |
| Stores.EndPatchSetsOnlyEndAndScore | src/stores/bookStore.ts:128 | the end-of-session patch changes exactly ended_at and score |
| Stores.SessionHistoryStore.constructor | src/stores/bookStore.ts:114-115 | empty list and view |
| Stores.SessionHistoryStore.AddSession | src/stores/bookStore.ts:117-123 | prepends the session with the current uid; the old list is the tail; the view stays scoped |
| Stores.SessionHistoryStore.UpdateSession | src/stores/bookStore.ts:125-132 | same length and order; a record changes only by the patch and only when its id matches, whatever its owner; unknown id is a no-op |
| Stores.SessionHistoryStore.GetSession | src/stores/bookStore.ts:134-135 | the first session of the current view with that id (every earlier one has another id); none iff no view session has it |
| Stores.SessionHistoryStore.ClearForUser | src/stores/bookStore.ts:137-143 | keeps exactly the other owners' sessions; view set to [] |
| Stores.SessionHistoryStore.Rehydrate | src/stores/bookStore.ts:147-151 | loads the stored list and re-derives the view |
| Stores.SessionHistoryStore.Resync | src/stores/bookStore.ts:156-159 | only the view changes, it becomes scoped; a scoped store is left as it was |
| Stores.Client.Startup | src/stores/bookStore.ts:163-173 | corrected start-up: stores restored, views scoped, the subscriber starts from the restored user id |
| Stores.Client.StartupAsWritten | src/stores/bookStore.ts:163 | as written: same restore, but the subscriber starts from null |
| Stores.Client.OnAuthChange | src/stores/bookStore.ts:165-173 | resyncs both views iff the user id differs from the last one seen, then records it; the lists never change |
| Stores.Client.Login | src/stores/authStore.ts:24-32 | after setAuth and the subscriber, both views belong to the new uid |
| Stores.Client.Logout | src/stores/authStore.ts:34-36 | after logout and the subscriber, both views are the ''-tagged records |
| Stores.RestoredLogoutLeaksView | src/stores/bookStore.ts:163-168 | after a reload, the first logout leaves the previous user's book in the view |
| Stores.RestoredLogoutStaysScoped | src/stores/bookStore.ts:163-173 | with the corrected start-up the same logout leaves an empty, scoped view |
| Auth.AuthStore.constructor | src/stores/authStore.ts:19-22 | all four fields null |
| Auth.AuthStore.SetAuth | src/stores/authStore.ts:24-32 | token and userId stored verbatim; email and display name from the decoded claims, null when absent |
| Auth.AuthStore.Logout | src/stores/authStore.ts:34-36 | all four fields null |
| Auth.AuthStore.IsAuthenticated | src/stores/authStore.ts:38-42 | true iff a non-empty token with a numeric exp later than now; reads only |
| Auth.AuthStore.Rehydrate | src/stores/authStore.ts:46-51 | the persisted snapshot is exactly the four data fields and round-trips |
| Utils.PayloadSegment | src/lib/utils.ts:12 | absent iff the token has no dot; otherwise the text after the first dot, up to the next dot or the end |
| Utils.DecodeJwt | src/lib/utils.ts:10-17 | never fails: no segment or a failed decode gives the empty claims; a segment that decodes gives exactly its claims |
| Utils.IsJwtExpired | src/lib/utils.ts:20-24 | not expired iff the exp claim is numeric and now < exp·1000 |
| Utils.JwtMinutesRemaining | src/lib/utils.ts:27-31 | never negative; 0 without numeric exp or with under a minute left; otherwise the floor of the minutes left |
| Utils.ExpiredTokenHasNoMinutesLeft | src/lib/utils.ts:20-31 | an expired token shows 0 minutes left |
| Utils.Pad2 | src/lib/utils.ts:37 | at least two digits, exactly two below 100, reads back as n; the only leading zero is the padding of a one-digit number |
| Utils.FormatTime | src/lib/utils.ts:34-38 | minutes field, colon, two-digit seconds below 60; minutes field is n div 60 untruncated; m·60+s == n |
| Utils.FormatTimeFields | src/lib/utils.ts:37 | splitting at ':' gives exactly the two padded fields |
| Utils.RankLabel | src/lib/utils.ts:52-57 | gold, silver and bronze medal (U+1F947, U+1F948, U+1F949) for places 0, 1, 2; otherwise '#' then digits reading back as index+1 |
| Utils.RankLabelInjective | src/lib/utils.ts:52-57 | different places get different labels |
| Text.ValueOfDecimal | src/pages/ActiveSessionPage.tsx:152 | Number(String(i)) == i for every index |
| Text.JoinSplit | src/lib/utils.ts:12 | joining the split parts gives the string back |
| Text.TrimBlank | src/pages/UploadBookPage.tsx:74-75 | trim gives '' iff the string is all white space |
| ActiveSession.TickValue | src/pages/ActiveSessionPage.tsx:120-126 | never negative and below t unless already at 0 or less |
| ActiveSession.CountdownAfterTicks | src/pages/ActiveSessionPage.tsx:119-127 | after k ticks from n the count reads n-k, or 0 once k ≥ n |
| ActiveSession.CountdownHitsZeroAtN | src/pages/ActiveSessionPage.tsx:119-127 | from any start n the count reads 0 exactly from tick n on and is never negative |
| ActiveSession.InitialSeconds | src/pages/ActiveSessionPage.tsx:39-40 | duration·60, the duration defaulting to 30 minutes |
| ActiveSession.NumberOf | src/pages/ActiveSessionPage.tsx:152 | a number iff the answer is a digit string; the decimal of i reads back as i |
| ActiveSession.SessionRuntime.constructor | src/pages/ActiveSessionPage.tsx:25-42 | zero counters, nothing shown, loading, full countdown not yet running, all latches clear |
| ActiveSession.SessionRuntime.BeginEnd | src/pages/ActiveSessionPage.tsx:57-60 | issues a call iff the latch is free and there is a session id; then takes the latch, stops the countdown, one end request in total; otherwise nothing changes |
| ActiveSession.SessionRuntime.CompleteEnd | src/pages/ActiveSessionPage.tsx:61-91 | success patches exactly ended_at and score of that session and navigates with the server score and aggregate; success also leaves the session view scoped to the current user; failure leaves the store and navigates with local counters and no aggregate |
| ActiveSession.ResultsOf | src/pages/ActiveSessionPage.tsx:67-90 | the results state: server score and aggregate on success, local score and null on failure, local counters and the stored titles either way |
| ActiveSession.SessionRuntime.BeginFetch | src/pages/ActiveSessionPage.tsx:96-99 | dropped without a session id or while fetching; otherwise takes the latch and sets loading, nothing else |
| ActiveSession.SessionRuntime.CompleteFetch | src/pages/ActiveSessionPage.tsx:100-114 | releases the latch; the screen becomes FetchedScreen of the outcome; counters, countdown and other latches unchanged |
| ActiveSession.FetchedScreen | src/pages/ActiveSessionPage.tsx:100-114 | loading stops; a prompt is shown and remaining is replaced only when given; no prompt marks complete without ending; a failure changes nothing else |
| ActiveSession.SessionRuntime.FetchOnMount | src/pages/ActiveSessionPage.tsx:139-145 | fetches only the first time it runs |
| ActiveSession.SessionRuntime.Mount | src/pages/ActiveSessionPage.tsx:117-145 | starts the countdown, ends at once iff it reads 0, fetches the first prompt iff there is a session id |
| ActiveSession.SessionRuntime.Tick | src/pages/ActiveSessionPage.tsx:119-136 | t becomes 0 if t ≤ 1 else t-1; the interval stops at ≤ 1; the end call is issued iff the count changed to 0 |
| ActiveSession.SessionRuntime.SubmitAnswer | src/pages/ActiveSessionPage.tsx:148-159 | a no-op while submitting, with a result shown or without a prompt; otherwise sets submitting, selects Number(answer) unless a skip, and sends the current prompt's id |
| ActiveSession.SessionRuntime.HandleAnswer | src/pages/ActiveSessionPage.tsx:190-192 | submits String(index) and selects exactly that index |
| ActiveSession.SessionRuntime.HandleSkip | src/pages/ActiveSessionPage.tsx:194-196 | submits an empty rejected answer and leaves the selection |
| ActiveSession.SessionRuntime.CompleteSubmit | src/pages/ActiveSessionPage.tsx:161-185 | success moves counters and screen as SubmitTotals and SubmitView and schedules a clear for a tone comment; failure only clears submitting |
| ActiveSession.SubmitTotals | src/pages/ActiveSessionPage.tsx:162-169 | one more question; a skip sets rejects to the server count or one more and keeps score and failures; otherwise score and failures take the server values or stay |
| ActiveSession.SubmitView | src/pages/ActiveSessionPage.tsx:161-179 | the result is shown; remaining only replaced when given; complete once the server says so; a tone comment replaces the one on screen |
| ActiveSession.SessionRuntime.ClearMeanComment | src/pages/ActiveSessionPage.tsx:172 | the five-second timeout clears the comment |
| ActiveSession.SessionRuntime.HandleNext | src/pages/ActiveSessionPage.tsx:198-211 | clears selection, result and submitting; if complete drops the prompt with no fetch, otherwise fetches |
| ActiveSession.CountdownEndsOnce | src/pages/ActiveSessionPage.tsx:117-136 | with no other event a session of m minutes ends after exactly m·60 ticks with one end call |
| ActiveSession.AnswerThenSkip | src/pages/ActiveSessionPage.tsx:161-174 | a graded answer (score 10, failures 0) then a graded skip (1 reject) leave the totals 10, 0, 1 after 2 questions |
| SessionResults.Correct | src/pages/SessionResultsPage.tsx:33 | the answers neither wrong nor skipped, so the three breakdown cards add up to the answers given |
| SessionResults.RenderBreakdownInRange | src/pages/SessionResultsPage.tsx:33-34 | for a consistent breakdown the correct count lies between none and all and the accuracy in 0..100: 100 when all are correct, 0 when none is |
| SessionResults.Accuracy | src/pages/SessionResultsPage.tsx:34 | 0 without answers; otherwise 100·correct/qa rounded half up |
| SessionResults.AccuracyInRange | src/pages/SessionResultsPage.tsx:34 | lies in 0..100 when 0 ≤ correct ≤ qa |
| SessionResults.AccuracyUnique | src/pages/SessionResultsPage.tsx:34 | the rounding bounds determine the accuracy |
| SessionResults.Render | src/pages/SessionResultsPage.tsx:21-34 | no state iff the fallback; the score, breakdown and accuracy; the heading iff a non-empty topic title, showing that title and the book title (empty when absent); the overall block is exactly the aggregate handed over |
| Profile.MinutesLeft | src/pages/ProfilePage.tsx:21 | 0 with no (or an empty) token, else the token's minutes remaining |
| Profile.ExpiredSessionShowsNoTime | src/pages/ProfilePage.tsx:21-56 | signed out or with an expired token, the page says the session expires in 0h 0m |
| Profile.ExpiryParts | src/pages/ProfilePage.tsx:22-56 | hours·60 + minutes == minutesLeft with minutes below 60 |
| Profile.TotalSessions | src/pages/ProfilePage.tsx:25 | the aggregate's count when present, else the local history length |
| Profile.BadgeFollowsSessionCount | src/pages/ProfilePage.tsx:25-33 | without an aggregate a longer local history never shows a lower badge; with one the history does not matter |
| Profile.Statistics | src/pages/ProfilePage.tsx:65-79 | nothing while loading; otherwise the sessions card shows the same count the badge uses, and best score and total XP are the server's or 0 |
| Profile.HeadingName | src/pages/ProfilePage.tsx:47 | display name, else the email's text before '@', else 'Student'; never empty |
| Profile.RankOf | src/pages/ProfilePage.tsx:26-33 | Legend from 50, Expert from 20, Learner from 5, else Beginner |
| Profile.RankMonotone | src/pages/ProfilePage.tsx:26-33 | more sessions never lower the rank |
| Profile.RankIsHighestReachedTier | src/pages/ProfilePage.tsx:89-98 | the badge is the last reached tier of the progress list |
| Profile.ReachedTiersArePrefix | src/pages/ProfilePage.tsx:89-114 | reached tiers form a prefix and Beginner is always reached |
| UploadBook.StripExtension | src/pages/UploadBookPage.tsx:35 | a prefix of the name; removes a final '.' with non-dot text after it, otherwise the name is unchanged |
| UploadBook.StripExtensionDropsTheExtension | src/pages/UploadBookPage.tsx:35 | whenever the name has such an ending, exactly it is removed |
| UploadBook.StemExamples | src/pages/UploadBookPage.tsx:35 | notes.txt → notes, a.b.pdf → a.b, file. and README unchanged, .bashrc → '' |
| UploadBook.OptionalAuthors | src/pages/UploadBookPage.tsx:48 | '' becomes absent, anything else is kept |
| UploadBook.UploadForm.constructor | src/pages/UploadBookPage.tsx:25-29 | file mode, empty title, authors and text, no file, nothing pending, not navigated |
| UploadBook.UploadForm.OnDrop | src/pages/UploadBookPage.tsx:31-37 | takes only the first file; fills the title only while it is empty; an empty list changes nothing |
| UploadBook.UploadForm.CanSubmit | src/pages/UploadBookPage.tsx:72-76 | non-blank title, a file in file mode or non-blank text in text mode, and nothing pending |
| UploadBook.UploadForm.Submit | src/pages/UploadBookPage.tsx:47-85 | sends the file or text request with authors or none and marks pending |
| UploadBook.UploadForm.Complete | src/pages/UploadBookPage.tsx:49-69 | success adds the book under the server id with the form's title and authors or none, and goes to its topics; failure only clears pending |
| Leaderboard.DisplayNameOf | src/pages/LeaderboardPage.tsx:42 | display name if non-empty, else the email's text before the first '@' |
| Leaderboard.BuildUserMap | src/pages/LeaderboardPage.tsx:39-45 | the map after setting each user in order; no list gives the empty map |
| Leaderboard.UserMapLastWins | src/pages/LeaderboardPage.tsx:39-45 | the keys are exactly the listed ids, each naming the last user listed with it |
| Leaderboard.ChartName | src/pages/LeaderboardPage.tsx:48 | the first space-free word of the mapped name, else '#' and i+1; never empty |
| Leaderboard.ChartScore | src/pages/LeaderboardPage.tsx:49 | best score for 'best', total score otherwise |
| Leaderboard.ChartData | src/pages/LeaderboardPage.tsx:47-51 | min(10, n) entries in order, each with its name, score and own-row flag |
| Leaderboard.ShortId | src/pages/LeaderboardPage.tsx:167 | the first 8 characters of the id followed by '…' |
| Leaderboard.TableName | src/pages/LeaderboardPage.tsx:165-167 | own display name on the own row, else the mapped name, else the short id; never empty |
| Leaderboard.TableRows | src/pages/LeaderboardPage.tsx:146-167 | one row per aggregate in order, with its rank label, own-row flag and name |
| Leaderboard.ChartFollowsTable | src/pages/LeaderboardPage.tsx:47-51 | the chart shows the table's first rows with the same own-row flag |
| Navbar.ActiveFlags | src/components/layout/Navbar.tsx:50-54 | each item's highlight: the root only on exactly '/', others on a plain prefix |
| Navbar.AtMostOneActive | src/components/layout/Navbar.tsx:17-23 | no path highlights two items |
| Navbar.PrefixIgnoresSegments | src/components/layout/Navbar.tsx:54 | every item but the root is highlighted on any path extending its own, whatever follows (so '/bookshelf' highlights the books item); the root only on '/' |
| Navbar.UserLabel | src/components/layout/Navbar.tsx:78 | one of the two fields, the display name when non-empty, else the email; shows text iff either field has some |
| Navbar.LabelAgreesWithHeading | src/components/layout/Navbar.tsx:78 | with a display name set, the bar's label and the profile heading name the user alike |
| Navbar.MobileMenu.constructor | src/components/layout/Navbar.tsx:30 | starts closed |
| Navbar.MobileMenu.Toggle | src/components/layout/Navbar.tsx:92 | flips the panel |
| Navbar.MobileMenu.FollowLink | src/components/layout/Navbar.tsx:130 | following a mobile link closes the panel |
| Navbar.MobileMenu.Logout | src/components/layout/Navbar.tsx:141-144 | logs out (views re-derived for '') and closes the panel |

## Left out

- Network calls (`src/api/client.ts`, `src/api/endpoints.ts`): every request is an outcome given to a `Complete…` method. The bearer header and the 401 redirect are not modelled.
- Requests still in flight when another event arrives are not cancelled in the source, and the model does not cancel them either. A late `CompleteFetch` after the page ended is accepted as the source accepts it.
- Toasts, framer-motion animation, skeletons and all JSX rendering beyond the values listed above are not modelled.
- The per-option explanations carried in `SubmitOut` are not modelled, because the model keeps only the fields the state machine reads.
- `setInterval`/`setTimeout` timing: ticks and the five-second comment clear are explicit calls. The model assumes React renders between events, so the end-on-zero effect sees each new count.
- React StrictMode double effects: only the `mountedRef` guard is modelled.
- zustand `persist`/localStorage serialisation: rehydration is "load the stored list, then re-derive the view".
- Base64/JSON decoding in `decodeJwt` is the `parse` parameter. A non-integer `exp` is not modelled, and claim values of other JSON types are read as absent.
- Utils.DecodeJwt: a payload that decodes to JSON `null` makes `decodeJwt` return `null` in the source, and then reading `exp` or `email` throws in `isJwtExpired`, `jwtMinutesRemaining` and `setAuth`. The parameter `parse` cannot return `null`, so the model treats such a token as one without claims: expired, 0 minutes, and a login that stores it.
- `Date.now()` and `new Date().toISOString()` are parameters.
- `formatDate` (locale formatting) and `cn` (class merging) are foreign library calls.
- Float percentages: the progress-bar clamp and the low-time bar in the active-session page are not modelled.
- SessionResults.Accuracy: computed in exact integers (100·correct/answered rounded half up), while the page rounds a double product. Where that product falls just below a half the page shows one less: for 23 correct of 40 the double is 57.49999999999999, the page shows 57 and the model 58.
- ActiveSession.NumberOf: `Number(answer)` is modelled only for the digit strings and the empty string the page builds.
- Leaderboard.ShortId: `slice` counts UTF-16 code units in the source and characters here.
- Stores.SessionHistoryStore.UpdateSession: a patch field can only be set, not set to `undefined`.
- The login/register forms, the books, history, dashboard, topics and new-session pages, the UI components, the layout, the auth guard and the router are not part of this model.

## Findings

| source | as written | input that shows it | evidently intended | confidence | as-written member | corrected member |
|---|---|---|---|---|---|---|
| src/stores/bookStore.ts:163 | `_prevUserId` starts as null, while the persisted auth store has already restored a user id | reload with u1 logged in and a stored book of u1, then log out: the subscriber sees null == null and skips the resync, so the book view keeps u1's book while the current user id is '' | the subscriber starts from the restored user id, so the first logout re-derives the views | medium, not executed | Stores.RestoredLogoutLeaksView | Stores.RestoredLogoutStaysScoped |
