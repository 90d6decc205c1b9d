# Math quiz: a verified model of the quiz session, the question store and the teacher dashboard

The application is a browser quiz for grades 6 to 9. Students pick a grade and
optionally a curriculum (BNCC) topic, type a name and answer a shuffled set of
multiple-choice questions. Feedback is shown for a moment after each click; when
the last question is committed, an attempt with the score is saved. Teachers add
questions by hand or through a generation service. They delete questions, reset
the data and view the attempts ranked by score. Everything is persisted as two
JSON lists in the browser's key-value store; the question list is seeded with
twelve built-in questions when absent.

The model has four modules:

- `Types` (`types.dfy`): the records of `types.ts`. It also holds the counting of
  correct answers and a generic `Filter`, the array `filter` used throughout,
  with its lemmas.
- `Storage` (`storage.dfy`): `services/storageService.ts`.
  - The curriculum topic table and the built-in questions, as constants.
  - The `Store` class, whose two `Option` fields are the two keys (`None` is an
    absent key). Its methods are the service's read-modify-write operations.
- `Quiz` (`quiz.dfy`): `components/StudentQuiz.tsx`.
  - The pure parts: `String.prototype.trim`, the grade/topic selection and the
    rounded percentage.
  - The `QuizSession` class, whose fields are the component's state variables.
    Its invariant `Valid()` ties the screens (`Phase()`) to the state.
  - The feedback timer armed by a click is the field `pending` (the answer it
    will record); `Commit` is the timer firing.
  - The ghost field `emitted` records the attempts the session wrote.
- `Dashboard` (`dashboard.dfy`): `components/TeacherDashboard.tsx`.
  - The `TeacherDashboard` class holds the form state and the lists it shows.
  - The ranking of attempts is a stable insertion sort (`Ranking`), proved to be
    a permutation, ordered by the comparator and stable.

The following are parameters supplied by the caller:

- clock readings (`Date.now()`) and the ids derived from them;
- the outcome of the question-generation service (`generate`);
- the user's answer to the delete confirmation (`confirmed`).

The random shuffle is modelled as "some permutation".

## Model

| member | source | states |
|---|---|---|
| Types.CountCorrect | components/StudentQuiz.tsx:72 | the score (number of answers marked correct) never exceeds the number of answers |
| Types.CountCorrectFull | components/StudentQuiz.tsx:182-183 | the score equals the number of answers exactly when every answer is correct |
| Types.CountCorrectZero | components/StudentQuiz.tsx:182-183 | the score is 0 exactly when no answer is correct |
| Types.CountCorrectAppend | components/StudentQuiz.tsx:58-59 | appending an answer raises the score by one exactly when that answer is correct |
| Types.Filter | services/storageService.ts:188 | the filtered list is no longer than the input, and every element is kept by the predicate and comes from the input |
| Types.FilterCount | components/StudentQuiz.tsx:27-31 | filtering keeps each accepted element exactly as often as it occurs, and drops every rejected one |
| Types.FilterMembers | services/storageService.ts:188 | an element is in the filtered list exactly when it is in the input and accepted |
| Types.FilterConcat | services/storageService.ts:188 | filtering a concatenation is the concatenation of the filtered parts, so survivors keep their relative order |
| Types.FilterKeepsAll | services/storageService.ts:188 | a list whose every element is accepted is returned unchanged |
| Types.FilterKeepsNone | components/StudentQuiz.tsx:27 | a list none of whose elements is accepted filters to the empty list |
| Storage.BnccTopics | services/storageService.ts:6-39 | each grade has exactly six curriculum topics, pairwise distinct |
| Storage.SeedOfShape | services/storageService.ts:41-169 | each grade has three built-in questions of that grade; each has four options, a correct index among them, the load time as creation time, and a category from that grade's topics |
| Storage.SeedWellFormed | services/storageService.ts:41-169 | there are twelve built-in questions, each well formed and filed under one of its grade's topics |
| Storage.RemoveById | services/storageService.ts:186-190 | a question survives deletion exactly when it was present and its id differs from the deleted one |
| Storage.RemoveByIdIdempotent | services/storageService.ts:188 | deleting an id twice equals deleting it once |
| Storage.RemoveByIdConcat | services/storageService.ts:188 | deletion acts on each part of a concatenation separately, keeping the survivors' order |
| Storage.Store.constructor | services/storageService.ts:41-169 | the store's seed is the built-in question list stamped with the load time |
| Storage.Store.GetQuestions | services/storageService.ts:171-178 | an absent key is seeded and the seed returned; a present key is returned unchanged; attempts are untouched |
| Storage.Store.SaveQuestion | services/storageService.ts:180-184 | the stored questions become the new question followed by the previous list (the seed if absent); attempts are untouched |
| Storage.Store.DeleteQuestion | services/storageService.ts:186-190 | the stored questions become the previous list without the questions of that id; attempts are untouched |
| Storage.Store.GetAttempts | services/storageService.ts:192-195 | an absent key reads as no attempts, a present one as its value |
| Storage.Store.SaveAttempt | services/storageService.ts:197-201 | the stored attempts become the new attempt followed by the previous list; the questions key is untouched |
| Storage.Store.ClearAllData | services/storageService.ts:203-206 | both keys are removed, so the questions read as the seed and the attempts as empty |
| Storage.ResetThenRead | services/storageService.ts:203-206 | after a reset, the next question read returns exactly the twelve seeded questions and stores them, and attempts read as empty |
| Storage.ReadTwice | services/storageService.ts:171-178 | seeding happens once: two reads in a row return the same list, the one the first read found or seeded |
| Quiz.TrimStart | components/StudentQuiz.tsx:25 | the result is a suffix of the input, starts with a non-whitespace character (or is empty), and everything dropped is whitespace |
| Quiz.TrimEnd | components/StudentQuiz.tsx:25 | the result is a prefix of the input, ends with a non-whitespace character (or is empty), and everything dropped is whitespace |
| Quiz.NonBlankIff | components/StudentQuiz.tsx:25 | a trimmed name is non-empty exactly when the name has a non-whitespace character |
| Quiz.SelectQuestions | components/StudentQuiz.tsx:27-31 | every selected question has the chosen grade, and the chosen category unless the topic is "all" |
| Quiz.SelectQuestionsCount | components/StudentQuiz.tsx:27-31 | the selection holds each matching question of the bank as often as the bank does, and nothing else |
| Quiz.SelectGroup | components/StudentQuiz.tsx:27 | a block of questions all of one grade, followed by more, is kept whole by a selection of that grade and dropped whole by any other |
| Quiz.SeedSelection | services/storageService.ts:41-169 | on the built-in bank, a grade with "all" topics selects exactly that grade's built-in questions, in order |
| Quiz.SeedQuizSize | services/storageService.ts:41-169 | on the built-in bank, a grade with "all" topics yields a three-question quiz |
| Quiz.ReorderedMatches | components/StudentQuiz.tsx:33 | any reordering of a selection still matches the grade and topic |
| Quiz.ShuffledSelection | components/StudentQuiz.tsx:26-33 | the session's questions are a permutation of the selection, and each matches the grade and topic |
| Quiz.Percentage | components/StudentQuiz.tsx:183 | the percentage is 100·score/total rounded to nearest with halves up: it lies in 0..100, is 100 for a full score and 0 for a zero score |
| Quiz.PercentageBounds | components/StudentQuiz.tsx:183 | the integer quotient used for the percentage is the rounded ratio and stays within 0..100 |
| Quiz.QuizSession.constructor | components/StudentQuiz.tsx:11-21 | a new session is on the start screen with an empty name, no grade and topic "all" |
| Quiz.QuizSession.SetName | components/StudentQuiz.tsx:135 | typing sets the name and keeps the invariant |
| Quiz.QuizSession.SelectGrade | components/StudentQuiz.tsx:98-101 | choosing a grade resets the topic filter to "all" |
| Quiz.QuizSession.SelectTopic | components/StudentQuiz.tsx:114-126 | a topic can be chosen only once a grade is chosen |
| Quiz.QuizSession.Start | components/StudentQuiz.tsx:24-38 | without a non-blank trimmed name and a grade nothing changes. Otherwise the questions are a permutation of the stored bank's selection, each matching grade and topic, and the session is on the first question or the empty screen; the bank is seeded if absent and attempts are untouched |
| Quiz.QuizSession.Begin | components/StudentQuiz.tsx:35-36 | the session holds the chosen questions and shows the empty screen exactly when there are none |
| Quiz.QuizSession.Submit | components/StudentQuiz.tsx:40-48 | a click while feedback is shown changes nothing. Otherwise the armed answer carries the question's id, the chosen index and `timeSpentSeconds` 0; it is correct exactly when the index is the correct one, and the feedback agrees with it |
| Quiz.QuizSession.Commit | components/StudentQuiz.tsx:50-68 | exactly the armed answer is appended. Before the last question the index advances by one, feedback and selection are cleared and the store is untouched. At the last question one attempt is saved in front of the stored ones: its score is the correct count, its total the number of questions, and its answers all answers |
| Quiz.QuizSession.FinishQuiz | components/StudentQuiz.tsx:71-84 | the saved attempt has the student's name and grade, the caller's id and time, score = correct answers, total = number of questions = number of answers; the questions key is untouched |
| Quiz.QuizSession.FinalPercentage | components/StudentQuiz.tsx:181-183 | the results screen shows a percentage within 0..100: 100 when every answer is correct, 0 when none is |
| Quiz.EmptySessionEmitsNothing | components/StudentQuiz.tsx:159-179 | a session that found no questions has no answers, nothing pending, is not finished and has saved no attempt |
| Dashboard.CompareMeaning | components/TeacherDashboard.tsx:106 | the comparator puts higher scores first and, on equal scores, more recent attempts first; it is zero exactly on equal score and timestamp |
| Dashboard.Insert | components/TeacherDashboard.tsx:106 | insertion adds exactly one element to the multiset of the list |
| Dashboard.Ranking | components/TeacherDashboard.tsx:106 | the ranking is a permutation of the attempts |
| Dashboard.InsertRanked | components/TeacherDashboard.tsx:106 | inserting into a ranked list keeps it ranked |
| Dashboard.RankingRanked | components/TeacherDashboard.tsx:106 | the ranking lists attempts by score descending, then timestamp descending |
| Dashboard.TiedWithConcat | components/TeacherDashboard.tsx:106 | the attempts tied with a given one, taken from a concatenation, are those of each part in order |
| Dashboard.TiedWithSingleton | components/TeacherDashboard.tsx:106 | a single attempt is listed among the ties of a given one exactly when it is tied with it |
| Dashboard.InsertTied | components/TeacherDashboard.tsx:106 | insertion puts the new attempt before the attempts it is tied with and changes nothing else among ties |
| Dashboard.RankingStable | components/TeacherDashboard.tsx:106 | attempts with equal score and timestamp keep their stored order in the ranking |
| Dashboard.TeacherDashboard.SortedAttempts | components/TeacherDashboard.tsx:106 | the results table is a permutation of the attempts in ranking order, computed without changing them |
| Dashboard.TeacherDashboard.constructor | components/TeacherDashboard.tsx:11-52 | after mounting, the form is empty with four empty options, sixth grade, medium difficulty, and the first sixth-grade topic as category and generation topic; the lists hold the store's two reads, the questions seeded if absent |
| Dashboard.TeacherDashboard.Refresh | components/TeacherDashboard.tsx:31-34 | the shown lists are what the store reads (seeding the questions if absent); attempts are untouched |
| Dashboard.TeacherDashboard.SetFormGrade | components/TeacherDashboard.tsx:40-45 | changing the form grade selects that grade's first curriculum topic as category |
| Dashboard.TeacherDashboard.SetAiGrade | components/TeacherDashboard.tsx:47-52 | changing the generation grade selects that grade's first curriculum topic |
| Dashboard.TeacherDashboard.SetFormText | components/TeacherDashboard.tsx:222 | typing sets the statement |
| Dashboard.TeacherDashboard.SetFormCorrect | components/TeacherDashboard.tsx:232 | the radio button marks one of the four slots as correct |
| Dashboard.TeacherDashboard.SetFormCategory | components/TeacherDashboard.tsx:210 | typing sets the category |
| Dashboard.TeacherDashboard.SetFormDifficulty | components/TeacherDashboard.tsx:196 | choosing sets the form difficulty |
| Dashboard.TeacherDashboard.SetAiTopic | components/TeacherDashboard.tsx:294 | choosing sets the generation topic |
| Dashboard.TeacherDashboard.SetAiDifficulty | components/TeacherDashboard.tsx:280 | choosing sets the generation difficulty |
| Dashboard.TeacherDashboard.AddOption | components/TeacherDashboard.tsx:54-58 | typing into slot `idx` sets that slot and leaves the other slots and the slot count unchanged |
| Dashboard.TeacherDashboard.SaveQuestion | components/TeacherDashboard.tsx:60-80 | a save succeeds exactly when the statement and all options are non-empty; a rejected save changes nothing. An accepted save stores, in front of the bank, a well-formed question with the form's fields, the category or "Geral" when empty, and the caller's id and time; it then clears the statement and options and re-reads the lists |
| Dashboard.TeacherDashboard.GenerateAI | components/TeacherDashboard.tsx:89-103 | with an empty topic, or when the service fails, nothing changes. Otherwise the service is asked with the form's topic, difficulty and grade, and its question is stored in front of the bank with the creation time attached; no claim is made about its correct index |
| Dashboard.TeacherDashboard.Delete | components/TeacherDashboard.tsx:82-87 | a refused confirmation changes nothing; a confirmed one removes every question of that id, keeps all others, and re-reads the lists |
| Dashboard.TeacherDashboard.ResetAll | components/TeacherDashboard.tsx:322 | reset removes both keys, so the questions read as the seed and the attempts as empty |

## Left out

- `services/geminiService.ts` (the generation service, its prompt and the parsing of its reply) is not part of this model. `generate` stands for it, with `None` for any thrown error. The service fills the difficulty and grade from the request and the category from the reply; the dashboard only attaches `createdAt`. So `GenerateAI` promises nothing about the stored question beyond what the service returned. In particular it makes no claim that its `correctOptionIndex` is in range, because nothing checks it.
- `App.tsx` (switching between screens, and the exit buttons) is not part of this model. A session or dashboard leaving the screen is not modelled.
- Rendering, CSS classes, badges, the `alert` messages and the `confirm` dialog are not modelled; the dialog's answer is the parameter `confirmed`.
- The page reload that follows `clearAllData` is not modelled: the store's keys are removed and the objects stay as they were.
- JSON serialisation is taken as the identity: a key holds the list itself. `if (!stored)` is modelled as "key absent", the only falsy value the application can store.
- The 1500 ms delay of the feedback timer is not modelled; `Commit` is the timer firing, as a separate step.
- The shuffle by `sort(() => Math.random() - 0.5)` is modelled as any permutation. Its bias and the particular order are not modelled.
- `Math.round((score / total) * 100)` in floating point is replaced by the exact integer `(200·score + total) / (2·total)`, rounding halves up. For ratios where the floating-point product lands just below or above a half, the two can differ by one.
- `loadingAI`, the flag that disables the generation button during the request, is not modelled: a generation request runs as one step.
- `Quiz.QuizSession.Submit`: the option index is any integer, as in the source; the screen only offers indices of the current question's options.
- `Quiz.QuizSession.Start`: the order of the questions is not stated beyond being a permutation of the selection, because the source's order is random.
- The tab switch between questions and results on the dashboard is view state only and is not modelled.
- `Storage.SeedOfShape`, `Storage.SeedWellFormed`, `Storage.Store.constructor`: each of the twelve built-in questions calls `Date.now()` for its own `createdAt`, so their times may differ by a few milliseconds. The model takes the twelve readings as one, `loadTime`.
- Exceptions thrown by the browser's store (quota, disabled storage) are not modelled.
