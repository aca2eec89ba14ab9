# MandarinHack spaced-repetition core in Dafny

A Dafny model of the scheduling core of MandarinHack, an HSK 6 vocabulary trainer. The model covers four parts:

- **The browser's SM-2 scheduler** (`services/srsService.ts`).
  - `calculateReview` maps a card and a grade (Again, Hard, Good, Easy) to a new interval, repetition count, ease factor and review date.
  - `createNewCard` creates every card.
  - The module is `SrsService`, built on the record types of `types.ts` in module `Types`.
- **The study-session controller** (`App.tsx`).
  - It holds four React state fields: `cards`, `sessionQueue`, `currentCardIndex` and `view`.
  - Three handlers change them: Start Review, grading the shown card, and Exit Study.
  - Module `App` gives each handler as a pure step on an `AppState` value.
  - The class `App.StudyApp` holds the four fields. Each of its methods is proved to perform its step.
  - A handler sees the state of the last render. An append it schedules becomes visible only to the next call. This is why failing the last card of a session still ends the session.
  - The flashcard component decides which grade is sent: Good for a right answer, Again otherwise. It also refuses blank answers. These two rules are in module `Flashcard`.
- **The dashboard statistics** (`components/Dashboard.tsx`, module `Dashboard`):
  - the due count and the total;
  - the seven-day forecast, with overdue cards folded into "Today";
  - the mastery count and the study-time estimate.
- **The backend strength scheduler** (`app/srs.py`, module `BackendSrs`).
  - A user's word is either "learning" or "review".
  - Its strength in [0, 1], its interval and its due time change with each rating: AGAIN, HARD or GOOD.
  - `UpdatedSrs` and `InitialSrs` give the behaviour on values.
  - The class `BackendSrs.UserWord` is the database record. Its method `UpdateSrs` mutates the record in place, as the source does.

Numbers:

- Browser timestamps are integer milliseconds, and one day is 86 400 000 ms.
- The ease factor is an integer in hundredths: 250 is 2.5 and the floor 130 is 1.3. The SM-2 arithmetic is therefore exact. `Math.ceil(interval * ease)` becomes `(interval * ease + 99) / 100`.
- The backend uses exact `real`s, with times in days.
- Reads of the clock (`Date.now()`, `datetime.now()`) are the explicit parameter `now`.

Notes on the code as written:

- **A failed last card is not shown again.** The comment at App.tsx:100-101 says the queue length can change because failed cards are re-queued. The checks at lines 97 and 103 still use `sessionQueue.length` as the handler saw it, which is the length before the append of line 93. As a result:
  - failing the last card ends the session, and the re-queued copy is never shown;
  - a session of one card failed once ends after one grading (`App.SingleCardAgainEndsSession`);
  - failing the first card and passing the rest takes n + 1 gradings only from two cards up (`App.FirstAgainSessionLength`).
- **Exit Study changes only the view.** The handler at App.tsx:138 sets the view to the dashboard. The queue and the index stay as they were (`App.ExitStudyOnlySwitchesView`).
- **One backend case never applies.** A pass with an interval below 0.04 days jumps to a fixed interval (app/srs.py:66-67). Every record the scheduler builds has an interval of at least 0.04, so this case never applies to them (`BackendSrs.ShortIntervalCaseUnused`). A first lapse sets exactly 0.04, which is not below it.

## Model

| member | source | states |
|---|---|---|
| Types.SRSGrade.Ordinal | types.ts:1-6 | the grades are numbered 0 to 3, and only Again is 0 |
| Collections.Filter | App.tsx:50 | `filter` returns no more elements than it was given; which ones is stated by the two lemmas below |
| Collections.FilterMembers | App.tsx:50 | `filter` keeps exactly the elements that pass the test, each one taken from the input |
| Collections.FilterMultiset | App.tsx:50 | `filter` keeps exactly the multiplicity of every passing value and drops every failing one |
| SrsService.CeilHundredths | services/srsService.ts:42 | the integer result is the ceiling of x/100: `x <= 100r < x + 100` |
| SrsService.CalculateReview | services/srsService.ts:10-57 | the ease is never below 1.3; the next review is `interval` days after now; repetition is 0 exactly for Again and one more than before otherwise |
| SrsService.WithSchedule | App.tsx:84-85 | merging the returned fields over a card keeps every content field and takes the four scheduling fields from the update |
| SrsService.Reschedule | App.tsx:84-85 | the merged card is the same word, at or above the 1.3 ease floor, due `interval` days from now, and has repetition 0 exactly when it was failed |
| SrsService.CreateNewCard | services/srsService.ts:59-78 | id equals hanzi; content fields are copied; the card is added and due at `now`; interval 0, repetition 0, ease 2.5 |
| SrsService.AgainResets | services/srsService.ts:15-22 | Again gives repetition 0, interval 0, due now and ease max(1.3, ef - 0.2), from any prior state |
| SrsService.SuccessEase | services/srsService.ts:28-30 | the SM-2 update is -0.14 for Hard, 0 for Good and +0.10 for Easy, then floored at 1.3 |
| SrsService.EarlyIntervals | services/srsService.ts:33-39 | a success at repetition 0 gives 7 days; a success at repetition 1 gives 14 days |
| SrsService.LaterIntervalGrows | services/srsService.ts:40-43 | later successes give the ceiling of interval × updated ease, which is never below the old interval |
| SrsService.WorkedExample | services/srsService.ts:28-49 | interval 14, repetition 2 and ease 2.5 graded Good give ease 2.5, interval 35, repetition 3, due 35 days on |
| SrsService.NewCardFirstReview | services/srsService.ts:59-78 | a new card is due from its creation on; failing it gives ease 2.3, passing it gives a week |
| SrsService.ReplayKeepsContentAndFloor | services/srsService.ts:10-57 | no sequence of reviews changes a card's content, and after one review the ease stays at or above 1.3 |
| SrsService.ReplayRepetitionIsStreak | services/srsService.ts:15-45 | after any history, repetition is the number of successes since the last failure, or the old count plus the number of reviews if nothing failed |
| SrsService.SuccessNeverShortens | services/srsService.ts:33-43 | every review keeps the early-spacing bounds, and a success never shortens the interval |
| SrsService.SuccessRunMonotone | services/srsService.ts:33-45 | along a run of successes from a new or just-failed card, the intervals never decrease |
| SrsService.NewCardEarlySpacing | services/srsService.ts:75-76 | a created card satisfies the early-spacing bounds |
| Dashboard.DueCount | components/Dashboard.tsx:25 | the due count is at most the total, and it is zero exactly when no card's review date has arrived |
| Dashboard.CountBetween | components/Dashboard.tsx:35 | a range count is at most the number of cards |
| Dashboard.ComputeStats | components/Dashboard.tsx:20-48 | the total is the collection length and learned-today is 0; the due count is the filter count; there are 7 bars; bar 0 is the due count plus the first day's range; bar i is the count in `[now + i·day, now + (i+1)·day)` |
| Dashboard.MasteryCount | components/Dashboard.tsx:101 | mastery is at most the total, and it is zero exactly when no interval exceeds 21 days |
| Dashboard.StudyMinutes | components/Dashboard.tsx:112 | the minutes are the ceiling of half the due count |
| Dashboard.ForecastLabels | components/Dashboard.tsx:32-37 | the bars are labelled Today, +1d, +2d, +3d, +4d, +5d and +6d |
| Dashboard.DayLabelValues | components/Dashboard.tsx:37 | the label of each of the seven days |
| Dashboard.CountBetweenSplit | components/Dashboard.tsx:33-35 | adjacent half-open ranges share no card, so their counts add up |
| Dashboard.BucketTotalIsRange | components/Dashboard.tsx:33-35 | the first k day buckets together count exactly the cards due within k days |
| Dashboard.ForecastBucketsDisjoint | components/Dashboard.tsx:33-35 | the seven raw bucket counts sum to the week's range count, which is at most the total |
| Dashboard.ForecastTotal | components/Dashboard.tsx:32-40 | the bars sum to the due count plus the cards due within the week |
| Dashboard.DueNowCountedTwice | components/Dashboard.tsx:25-38 | for any collection, the Today bar is the due count plus the cards due exactly at now plus those due later that day, and the cards due exactly at now are also inside the due count (the count at now - 1 plus those at now), so they are counted twice |
| Dashboard.CountBetweenZero | components/Dashboard.tsx:35 | a range count is zero exactly when no card's date lies in the range |
| Dashboard.DueCountLater | components/Dashboard.tsx:25 | for t0 <= t1, the due count at t1 is the due count at t0 plus the cards whose date lies in (t0, t1] |
| App.InsertByReviewDate | App.tsx:50 | insertion into a date-sorted queue keeps it sorted and adds exactly that card |
| App.SortByReviewDate | App.tsx:50 | the sort returns a date-sorted permutation of its input |
| App.InsertKeepsEqualDateOrder | App.tsx:50 | inserting a card keeps, for every review date, the order of the cards due at that date, with the inserted card first among its equals |
| App.SortIsStable | App.tsx:50 | the sort is stable: for every review date, the cards due at that date keep their input order, as JavaScript's `sort` does |
| App.SelectDue | App.tsx:50 | the queue is sorted by date, is a permutation of the due filter, holds exactly the due cards, and is as long as the due count |
| App.ReplaceById | App.tsx:88 | the id-replacing map keeps the collection length |
| App.StartReviewStep | App.tsx:47-60 | the cards are untouched; either nothing changes, or the view is review at index 0 with as many queued cards as are due, and at least one |
| App.GradeCardStep | App.tsx:83-111 | the collection keeps its length; the index moves on by one unless the queue is emptied; an empty queue means the dashboard is shown; the queue grows by at most one |
| App.ExitStudyStep | App.tsx:138 | after Exit Study no flashcard is on screen |
| App.StudyApp.constructor | App.tsx:14-17 | the initial state: no cards, an empty queue, index 0, the dashboard view |
| App.StudyApp.HandleStartReview | App.tsx:47-60 | the fields afterwards are exactly the Start Review step of the fields before |
| App.StudyApp.HandleGradeCard | App.tsx:83-111 | the fields afterwards are exactly the grading step of the rendered fields, with the dead branch of lines 107-108 proved unreachable |
| App.StudyApp.ExitStudy | App.tsx:138 | the fields afterwards are exactly the Exit Study step of the fields before |
| App.StartReviewQueuesDueCards | App.tsx:50-59 | with a card due, the queue is the sorted permutation of the due cards, the index is 0, the view is review and the cards are unchanged |
| App.StartReviewNothingDue | App.tsx:52-55 | with nothing due, starting a review leaves all four fields as they were |
| App.SessionLengthVsDashboard | components/Dashboard.tsx:20-48 | with the button's count computed at t0 and the click at t1 >= t0, the session holds that count plus the cards that fell due in (t0, t1]; it matches the button exactly when no card's date lies in between |
| App.GradeWritesBackById | App.tsx:84-88 | every entry with the graded id becomes the rescheduled card and keeps its content; other entries stay; the length is kept |
| App.GradeAdvances | App.tsx:91-98 | below the last position the index moves by exactly one and the view stays; Again appends the updated card and other grades keep the queue |
| App.GradeLastCardEndsSession | App.tsx:99-110 | at the last position of the rendered queue the view becomes the dashboard and the queue empty, including after Again; the index stays |
| App.ExitStudyOnlySwitchesView | App.tsx:138 | Exit Study sets the dashboard view and keeps cards, queue and index |
| App.GoodRun | App.tsx:96-110 | k Good grades from position i of a length-n queue reach position i + k, or end the session when i + k = n, whatever time each grading reads |
| App.AllGoodSessionLength | App.tsx:91-110 | a session of n due cards all graded Good shows a card after each of the first n - 1 gradings and ends at the n-th, for any clock reading at each grading |
| App.FirstAgainSessionLength | App.tsx:91-110 | with n ≥ 2 due cards, failing the first and passing the rest ends the session after exactly n + 1 gradings, for any clock reading at each grading |
| App.SingleCardAgainEndsSession | App.tsx:91-106 | with one due card, failing it ends the session at once and empties the queue, whenever the click comes |
| App.ExitStudyStopsGrading | App.tsx:168-187 | after Exit Study no card is shown, so no grading changes the state, at any times |
| Flashcard.Submits | components/Flashcard.tsx:26 | an answer is checked exactly when it has a non-whitespace character |
| Flashcard.GradeForAnswer | components/Flashcard.tsx:35-40 | only Good or Again is sent, and Good exactly for a right answer |
| Flashcard.DontKnowResets | components/Flashcard.tsx:35-50 | a wrong or unknown answer resets repetition and interval to 0 |
| Flashcard.FlashcardNeverRaisesEase | components/Flashcard.tsx:35-40 | ease never rises through the flashcard: a right answer keeps it once floored; a wrong one gives max(1.3, ease - 0.2), so it strictly lowers an ease above 1.3 and keeps an ease of 1.3 |
| BackendSrs.AsciiUpper | app/srs.py:42 | upper-casing keeps the length |
| BackendSrs.ParseRatingNames | app/srs.py:42-54 | each rating name is accepted, in upper or lower case, as that rating |
| BackendSrs.ParseRating | app/srs.py:42-72 | a rating is accepted exactly when its upper-cased form is one of the three names, and then it is the rating of that name; anything else is the `ValueError` |
| BackendSrs.EasyIsRejected | app/srs.py:71-72 | every string that upper-cases to "EASY" is refused |
| BackendSrs.InitialSrs | app/srs.py:11-37 | a known word starts in review at strength 0.7 and interval 3, due in 3 days; another starts learning at 0.1 and 0.25, due now; both counters are 0 |
| BackendSrs.UpdatedSrs | app/srs.py:40-74 | a valid update makes the word due its new interval from now, with an interval of at least 0.04; it adds a lapse exactly for AGAIN; the word is learning afterwards exactly after AGAIN or a first pass of a learning word |
| BackendSrs.IsStrong | app/srs.py:77-82 | strong means review status, strength at least 0.8 and interval at least 7 days; its properties are in NotStrongAfterStartOrLapse and PassKeepsStrong |
| BackendSrs.UserWord.InitNew | app/srs.py:11-37 | the new record's ids and flag are the arguments, and its scheduling fields are the initial values |
| BackendSrs.UserWord.UpdateSrs | app/srs.py:40-74 | an unknown rating is refused with every field unchanged; a valid one changes the record to the updated record |
| BackendSrs.AgainLapses | app/srs.py:44-52 | AGAIN adds a lapse, takes 0.3 off the strength down to 0, resets the streak, sets learning, and sets 0.04 days on the first lapse and 0.25 after that |
| BackendSrs.PassPromotes | app/srs.py:54-57 | HARD/GOOD lengthen the streak and keep the lapses; a learning word moves to review at a streak of 2; no other status changes |
| BackendSrs.OnlyAgainDemotes | app/srs.py:44-57 | a word leaves review for learning only on AGAIN |
| BackendSrs.StrengthSteps | app/srs.py:44-64 | strength moves by -0.3, +0.05 or +0.15, clamped to [0, 1], and stays in [0, 1] |
| BackendSrs.PassNeverShortens | app/srs.py:59-69 | a pass never shortens the interval and leaves it at least 0.04; a sub-0.04 interval becomes 1.0 (GOOD) or 0.5 (HARD) |
| BackendSrs.PassInterval | app/srs.py:59-69 | from an interval of at least 0.04, a pass sets max(0.04, interval × (2 + s')) for GOOD and max(0.04, interval × (1.2 + 0.6·s')) for HARD, with s' the updated strength |
| BackendSrs.PassKeepsStrong | app/srs.py:54-82 | a strong word stays strong after HARD or GOOD |
| BackendSrs.NotStrongAfterStartOrLapse | app/srs.py:77-82 | no new record is strong, and no record is strong right after AGAIN |
| BackendSrs.TwoGoodReviewsPromote | app/srs.py:54-74 | a new learning word graded GOOD twice is in review with strength 0.4 and interval 1.35 days |
| BackendSrs.InitialWellFormed | app/srs.py:11-37 | both initial records are well formed |
| BackendSrs.UpdateKeepsWellFormed | app/srs.py:40-74 | a well-formed record stays well formed. Well formed means: strength in [0, 1], interval at least 0.04, counters not negative, learning or review, and a learning word never on a streak of 2 or more |
| BackendSrs.ShortIntervalCaseUnused | app/srs.py:66-67 | after any history from a new record, the interval is not below 0.04, so the short-interval case of a pass does not apply |
| BackendSrs.ReplayWellFormed | app/srs.py:40-74 | every history from a new record is well formed, and its lapse count is the number of AGAIN ratings |

## Left out

- Floating point: the JavaScript ease arithmetic, `Math.ceil` of a float product and the Python float intervals are modelled exactly, in hundredths and in `real`s. IEEE-754 rounding can differ from these values.
- The dashboard's clock read is memoized on `cards` (components/Dashboard.tsx:20-21, 48), so its counts keep their time until the collection changes or the dashboard is shown again. It is rendered only in the dashboard view (App.tsx:159-166), so leaving a review gives it a fresh clock reading. The model gives the dashboard its own time `t0`, separate from the click's `t1` (App.tsx:48). `App.SessionLengthVsDashboard` relates the two.
- Clock reads become parameters. Starting a review reads the clock once (App.tsx:48), and each grading reads it again through `calculateReview` (services/srsService.ts:11), so `App.RunSession` takes one time per grading. `createNewCard` reads the clock twice (services/srsService.ts:73-74); the model uses one `now` for both.
- Persistence in App.tsx is left out because it is I/O: the localStorage load and save (App.tsx:22-45) and the confirm-driven reset (App.tsx:113-118).
- `handleLearnNew` (App.tsx:62-81) is left out because it waits on an external word generator.
- The header logo click (App.tsx:128) sets the dashboard view, like Exit Study. It has no member of its own.
- The alert dialogs (App.tsx:53, 104) are user-interface output only.
- The component's `isLoadingNew` and `errorMsg` fields are not modelled; they only drive rendering.
- services/geminiService.ts is not part of this model. It is a network client, and the answer checking it performs becomes the `isCorrect` input of `Flashcard.GradeForAnswer`.
- services/hskData.ts is not part of this model. It is static seed data built with `createNewCard`.
- The FastAPI, SQLAlchemy and Postgres layers (app/main.py, app/crud.py, app/database.py, app/models.py, app/schemas.py) are not part of this model. This includes the SQL ordering of due words and the request-level rating regex.
- Flashcard.Submits tests only ASCII whitespace, while JavaScript's `trim` also strips other Unicode spaces.
- BackendSrs.AsciiUpper upper-cases only ASCII letters, where Python's `str.upper` applies full Unicode case mapping. It therefore accepts the same three names but not Unicode look-alikes that upper-case to them.
- Rendering is not modelled: the progress bar, the forecast chart and the flashcard's display states.
- App.ReplaceById: its own contract states only the length; what it does to each entry is stated by `App.GradeWritesBackById`.
