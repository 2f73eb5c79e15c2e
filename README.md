# Mandarin Master: a verified model of the quiz, session and profile logic

Mandarin Master is a mobile web app for learning Mandarin at HSK levels 1 to 4,
meant for Indonesian speakers. A user logs in with a name and an email. They pick
lessons or quizzes from a dashboard. Quizzes come in two modes: Latihan (practice,
5 questions) and Simulasi (mock exam, 10 questions). A finished quiz is saved
as a score record in the user's profile when the user presses "Simpan &
Kembali", and the profile is kept in browser storage. A generative-AI service writes all lesson and quiz content.

This project models the app's deterministic logic in Dafny and proves properties
about it:

- `types.dfy`, module `Types`: the data model. It has HSK levels as a subset type
  of `int` in 1..4, the four material types, the two quiz modes, and the
  `ScoreRecord`, `QuizQuestion` and `User` records.
- `jsmath.dfy`, module `JsMath`: `Math.round` over exact reals, plus helper facts
  about dividing by a positive real.
- `quiz_view.dfy`, module `QuizView`: the quiz runner, a class whose handlers
  update its fields in place. Each question goes select → reveal → advance. A
  ghost sequence `answers` records the answer locked in at each question passed.
  `Valid()` ties the score to the number of correct entries in that sequence.
  The module also has the requested question count and the finish screen's
  percentage and message.
- `app.dfy`, module `App`: the shell. It holds the current user, the current
  view, the selection parameters (level, material type, quiz mode), and the
  persisted `hsk_user` slot, modelled as an `Option<User>` field. Its invariant
  says two things: the slot always equals the user in memory, and a user is
  present exactly when the view is not login. The render guards are a function
  of the view and the user.
- `profile.dfy`, module `Profile`: the completed count, the average percentage
  (a mean of per-record ratios), the LULUS/REMIDI label, and the history list.
- `login.dfy`, module `Login`: the form's fields with their change handlers,
  and the submit guard that builds a new user.
- `flow.dfy`, module `Flow`: how the parts connect. It covers a reload restoring
  the session, a new record showing at the top of the history, the finish
  message compared with the profile label, and a whole session. In that
  session, Ana logs in, takes a 5-question practice quiz, answers every question
  correctly, and the profile then shows one test with an average of 100.

Observations from the proofs:

- The finish screen compares the rounded percentage against 60. The profile
  compares the exact ratio against 0.6.
  - At 5 or 10 questions the two always agree (`Flow.MessageAgreesWithVerdict`).
  - At 25 right out of 42 they disagree: the finish screen says "Kerja bagus",
    but the saved record is labelled REMIDI (`Flow.MessageDisagreesAt42`).
- Division by zero follows JavaScript's numbers. For a record with total 0, the
  label is LULUS when the score is positive (x/0 is +Infinity) and REMIDI when
  the score is 0 (0/0 is NaN). The average is then not a finite number, which
  the model writes as `None`. The app itself never saves such a record: a quiz
  with no questions fails while drawing its first question
  (components/QuizView.tsx:134 and 158) before it can reach the finish screen,
  so every saved record has a total of at least 1.
- The code runs the quiz on whatever list of questions arrives and does not
  guard an empty list: rendering the first question of `[]` fails. The model's
  runner therefore requires a non-empty list.
- For checking an answer when nothing is selected, the model follows the code,
  which returns without doing anything.
- The bottom navigation bar is shown on the lesson and quiz pages too, so the
  code can go from those pages straight to the profile. The model follows the
  code here as well.

## Model

| member | source | states |
|---|---|---|
| `QuizView.RequestedCount` | components/QuizView.tsx:28 | 10 questions are requested exactly for Simulasi, and 5 exactly for Latihan |
| `QuizView.CorrectCount` | components/QuizView.tsx:56-59 | the number of locked-in answers equal to their question's correct answer; it never exceeds the number of questions answered |
| `QuizView.CorrectCountFull` | components/QuizView.tsx:56-59 | the count equals the number of questions answered if and only if every locked-in answer was correct (both directions) |
| `QuizView.FinishPercentage` | components/QuizView.tsx:94 | the percentage is `score/total*100` rounded to the nearest integer, halves up, and lies in 0..100 when score <= total |
| `QuizView.FinishMessage` | components/QuizView.tsx:116 | "Luar biasa" exactly at 80 or more, "Kerja bagus" exactly in 60..79, "Tetap semangat" exactly below 60 |
| `QuizView.MessageMonotone` | components/QuizView.tsx:94-116 | a higher score over the same total never gives a lower percentage or a lower message tier |
| `QuizView.QuizRunner.Valid` | components/QuizView.tsx:56-68 | the runner's invariant: the index is in bounds, score = correct answers among those locked in, score <= questions answered <= number of questions, a reveal implies a selection, finished implies the last question |
| `QuizView.QuizRunner.constructor` | components/QuizView.tsx:15-20 | a runner starts on a non-empty question list at index 0, with no selection, score 0, nothing revealed and not finished |
| `QuizView.QuizRunner.SelectOption` | components/QuizView.tsx:167 | before the reveal, the clicked option becomes the selection (re-clicking overwrites); after the reveal nothing changes; score and index never change |
| `QuizView.QuizRunner.CheckAnswer` | components/QuizView.tsx:49-54 | with no selection nothing changes; otherwise the answer is revealed and the correctness signal returned, while score, index and selection stay the same |
| `QuizView.QuizRunner.HandleNext` | components/QuizView.tsx:56-68 | the selected answer is locked in once; score rises by exactly 1 if and only if it is correct; before the last question, it moves to the next question with the selection cleared and not revealed; on the last question it finishes and keeps the index |
| `QuizView.QuizRunner.Finish` | components/QuizView.tsx:70-78 | the one record holds the quiz's level, mode, score and question count, with 0 < total and score <= total, and its score is the count of correct locked-in answers |
| `App.Rendered` | App.tsx:53-95 | the login page is drawn exactly when the view is login; each other page is drawn exactly when a user is present and that page is the view |
| `App.OnePagePerState` | App.tsx:53-98 | in any state where a user is present exactly off the login view, exactly the current page is drawn, and the bottom bar is shown exactly off the login view |
| `App.BlankWithoutUser` | App.tsx:55-98 | with no user, a non-login view draws nothing and has no bottom bar |
| `App.AppState.constructor` | App.tsx:11-24 | start-up: with a saved user, user and view become that user and the dashboard; otherwise no user and the login view; the slot mirrors the user |
| `App.AppState.HandleLogin` | App.tsx:26-30 | sets the user and the slot to the new user and the view to the dashboard; the selections are unchanged |
| `App.AppState.HandleLogout` | App.tsx:32-36 | clears the slot and the user and returns to the login view |
| `App.AppState.SaveScore` | App.tsx:38-45 | with no user nothing changes; otherwise the history becomes the new record followed by the old history, id/name/email are kept, and the slot equals the new user; view and selections are unchanged |
| `App.AppState.SelectLesson` | App.tsx:58-62 | sets the level and material type and opens the lesson page; the quiz mode, user and slot are unchanged |
| `App.AppState.SelectQuiz` | App.tsx:63-67 | sets the level and quiz mode and opens the quiz page; the material type, user and slot are unchanged |
| `App.AppState.GoDashboard` | App.tsx:76 | back from lesson (76), quiz (85) or profile (93), and Beranda on the bar (101): the dashboard, with user, slot and selections unchanged |
| `App.AppState.GoProfile` | App.tsx:68 | the dashboard's profile link (68) and Profil on the bar (108): the profile page, with user, slot and selections unchanged |
| `App.AppState.FinishQuiz` | components/QuizView.tsx:79-80 | the finished quiz's record is saved first (prepended and persisted), then the view returns to the dashboard |
| `Profile.PassRuleExact` | components/Profile.tsx:78-79 | for a positive total, `score/total >= 0.6` holds if and only if `5*score >= 3*total` |
| `Profile.VerdictOf` | components/Profile.tsx:78-79 | LULUS if and only if `score/total >= 0.6` for a positive total; for a zero total, LULUS if and only if the score is positive (the IEEE Infinity and NaN cases) |
| `Profile.AveragePercentage` | components/Profile.tsx:47-49 | 0 for an empty history; not finite exactly when some record has a zero total; otherwise the mean of the per-record ratios times 100, to the nearest integer |
| `Profile.SumRatiosBounds` | components/Profile.tsx:48 | for well-formed records the sum of ratios lies between 0 and the number of records |
| `Profile.AverageInRange` | components/Profile.tsx:48 | for well-formed records the average is finite and lies in 0..100 |
| `Profile.AverageIsMeanOfRatios` | components/Profile.tsx:48 | records 1/1 and 1/2 average to 75, while the pooled 2/3 would give 67 |
| `Profile.SumRatiosPerfect` | components/Profile.tsx:48 | when every record is perfect, the ratios add up to the number of records |
| `Profile.AveragePerfect` | components/Profile.tsx:48 | a non-empty history of perfect records averages exactly 100 |
| `JsMath.Round` | components/Profile.tsx:48 | `Math.round`: the result is within half of the argument, with halves rounded up |
| `Profile.RowOf` | components/Profile.tsx:65-80 | a row shows the record's mode, level, score, total and date, its mode's badge, and its pass label |
| `Profile.BadgeOnlyByMode` | components/Profile.tsx:68-69 | two rows have the same icon and colour if and only if their records have the same mode |
| `Profile.HistoryOf` | components/Profile.tsx:58-65 | the placeholder shows exactly for an empty history; otherwise one row per record, in stored order |
| `Profile.HistoryAfterPrepend` | components/Profile.tsx:65 | a record prepended to the history is listed first, followed by the earlier rows in their earlier order |
| `Login.Submit` | components/Login.tsx:15-21 | the handler's guard: a user is created if and only if both name and email are non-empty; it has the entered name and email untrimmed, the given id, and an empty history |
| `Login.WhitespaceAccepted` | components/Login.tsx:15 | the handler does not trim: a name of a single space with any non-empty email still creates a user |
| `Login.LoginForm.constructor` | components/Login.tsx:10-11 | both fields start empty |
| `Login.LoginForm.SetName` | components/Login.tsx:41 | the name field takes the typed value; the email is unchanged |
| `Login.LoginForm.SetEmail` | components/Login.tsx:53 | the email field takes the typed value; the name is unchanged |
| `Login.LoginForm.HandleSubmit` | components/Login.tsx:13-23 | submitting yields the user that `Submit` builds from the current fields, or none (no login callback) |
| `Flow.Reload` | App.tsx:17-24 | restarting from the persisted slot gives back the user that was in memory, on the dashboard if someone is logged in and on login otherwise |
| `Flow.SaveScoreShowsFirst` | App.tsx:42 | saving a record adds one to the completed count and makes it the first history row |
| `Flow.MessageAgreesWithVerdict` | components/QuizView.tsx:116 | for 5 or 10 questions, the finish message is encouraging if and only if the profile labels the record LULUS |
| `Flow.MessageDisagreesAt42` | components/QuizView.tsx:94 | 25 out of 42 shows 60% and "Kerja bagus" on the finish screen but is labelled REMIDI |
| `Flow.AnaSession` | components/QuizView.tsx:56-81 | login, a 5-question Latihan quiz answered correctly, save and profile: the profile page shows one test with an average of 100 |

## Left out

- Question and lesson generation through the Google GenAI SDK is not modelled, and neither is parsing the service's JSON output. The question list is an input to the quiz runner. LessonView's content fetch is left out for the same reason.
- The Dashboard's layout is not modelled. Its buttons only call the shell's `SelectLesson`, `SelectQuiz` and `GoProfile`, which are modelled.
- The asynchronous loading state is not modelled, including the failure path where the question list stays empty. React's batching of state updates is not modelled either: each handler is one atomic step.
- `QuizView.QuizRunner.constructor`: requires a non-empty question list, because the code does not handle an empty one. Rendering `questions[0]` of `[]` fails there.
- Haptic feedback (`navigator.vibrate`) is not modelled. `CheckAnswer` returns the correctness signal the haptics routine would receive.
- The mock email log line is not modelled.
- Random ids and `Date.now()` timestamps are parameters.
- Browser storage and the JSON serialisation round trip are modelled as one slot holding the user itself. Because of that, the round trip is exact by construction. The slot is treated as private to one browser tab. The code does not listen for storage changes made by other tabs: if another tab logs out, this tab's next `saveScore` writes its user back (App.tsx:45). `App.AppState.Valid`'s `storage == user` and `Flow.Reload` hold only under that single-writer assumption.
- The `if (savedUser)` truthiness test is not modelled separately: the slot holds a user or nothing.
- `Profile.VerdictOf`: uses exact rational comparison rather than IEEE doubles. It can differ from the code only for very large totals, about 2.6 * 10^15 (2^51) or more. There the double nearest a ratio just below 0.6 can equal the double for 0.6, so the code says LULUS where the model says REMIDI.
- `Profile.AveragePercentage`: uses exact real arithmetic, so it does not model floating-point rounding in the sum of ratios and the scaling by 100. The two already differ at small totals: for one record of 23/40, doubles give 57.49999999999999, shown as 57%, while the model gives exactly 57.5, shown as 58%.
- `QuizView.FinishPercentage`: uses exact real arithmetic instead of doubles. As above, this already differs at small totals: 23 out of 40 shows 57% in doubles and 58% in the model.
- `Login.Submit`: models only the submit handler's own guard. The browser's form checks are not modelled: both inputs are `required` and the email input has `type="email"` (components/Login.tsx:39, 50-51), so the browser blocks submission for an empty field or a malformed email, and it strips surrounding whitespace from the email value, before the handler runs.
- The progress bar's width, the "n / total" header, the date format and all other markup and styling are rendering only.
- `QuizView.QuizRunner.SelectOption`: requires the option index to be one of the current question's options, since only those buttons exist. It requires the quiz not to be finished, since the finish screen has no option buttons.
- `QuizView.QuizRunner.CheckAnswer` and `QuizView.QuizRunner.HandleNext`: require the button that calls them to be on screen. Reveal needs the quiz unrevealed, advance needs it revealed, and neither can happen after the quiz is finished.
- The shell's navigation methods require the calling page or bar to be on screen, meaning a user is present and the view is not login.
- Leaving a quiz without a record is the shell's `GoDashboard` or `GoProfile` from the quiz page. This happens midway through, with the close button. It also happens from the finish screen, through the bottom bar (Beranda or Profil), which is drawn over it (App.tsx:98-114). Only "Simpan & Kembali" (components/QuizView.tsx:122-126) runs the finish action that saves a record.
- `Profile.CompletedCount` is the length of the history. It has no contract of its own; `Flow.SaveScoreShowsFirst` and `Flow.AnaSession` state its behaviour.
- `App.NavShown` (the bottom bar's guard) is stated through `App.OnePagePerState` and `App.BlankWithoutUser`.
