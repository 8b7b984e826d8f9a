# Quiz-taking flow of the quiz web application

This project models the quiz-taking flow of a Flask quiz application in Dafny. The flow has three request handlers in `app.py`:

- `start_quiz` pools the questions of the selected chapters of one subject. It refuses an empty selection and an empty pool. It trims the pool to the requested count with `random.sample`, then stores the quiz in the user's session.
- `take_quiz` compares each submitted answer with the current question's correct label and moves the quiz forward one question.
- `quiz_results` computes the accuracy and inserts one `quiz_attempts` row plus one `quiz_chapters` row per selected chapter. It then removes the six quiz keys from the session.

Modules:

- `QuizTypes` (`quiz_types.dfy`): question, attempt and chapter-link rows, plus `Distinct` and its multiset characterisation.
- `Sampler` (`sampler.dfy`): the per-chapter query, the pool, the pooling loop, the random draw and the checks `start_quiz` makes before it creates a quiz.
- `Sessions` (`sessions.dfy`): a `QuizSession` class for the quiz keys of the session, and a `UserSession` class for the per-user session that holds at most one quiz. The class invariant is `correct <= current <= |questions|`. A ghost record of the submitted answers ties `correct` to the reference count `Score`.
- `Results` (`results.dfy`): accuracy, the `quiz_attempts` and `quiz_chapters` tables as a `Store` class, and the recording step.
- `Scenarios` (`scenarios.dfy`): worked runs on a six-row question bank.

The session dictionary is modelled as an explicit object. The six `quiz_*` keys become the fields of a `QuizSession`, and "the keys are absent" becomes `quiz == null`. The clock reading (`datetime.now()`) is a `real` parameter. `random.sample` is a nondeterministic choice (`:|`) of one position at a time. Its outcome is specified by `Sampler.IsDraw`: the pool itself when it holds at most `n` questions, otherwise `n` questions taken from distinct positions of the pool, in any order. Accuracy is a `real`, not a float.

The model follows `app.py` in these points:

- `quiz_results` does not check that every question was answered. It records the counts it finds, so `RecordResults` accepts an unfinished quiz.
- The chapter ids are not checked to belong to the subject. The per-chapter query filters on both subject and chapter, so a foreign chapter adds no questions.
- `quiz_chapters` has the primary key `(quiz_id, chapter_id)` (app.py:82), so a chapter selected twice makes the second link insert fail. That happens before `commit`, so the attempt row is rolled back too, and before the `session.pop` calls, so the quiz stays in the session. The model reports this as `DuplicateChapter` and changes nothing.
- The pie chart is drawn after the commit and before the `session.pop` calls (app.py:1025, 1038-1058). If drawing raises, the rows stay committed and the quiz stays in the session, so the next visit commits another attempt. `RecordResults` takes the fate of the chart step as a parameter `chartDrawn` and reports a failure as `ChartFailed`. A quiz with zero questions hands `[0, 0]` to `plt.pie` (app.py:1039), which is where this failure can be expected.
- A negative question count with a non-empty pool makes `random.sample` raise `ValueError`. This is `InvalidQuestionCount`, and no quiz is created.
- The correct answer is free text compared by exact, case-sensitive string equality. A missing answer (`request.form.get` returns `None`) never matches.

## Model

| member | source | states |
|---|---|---|
| `Sampler.ChapterQuestions` | app.py:923-926 | the per-chapter query returns no more rows than the bank holds, each with the requested subject and chapter |
| `Sampler.ChapterQuestionsRows` | app.py:923-926 | the per-chapter query returns exactly the bank rows with the requested subject and chapter, none more often than the bank holds it |
| `Sampler.ChapterQuestionsDistinct` | app.py:923-926 | a bank without duplicate rows gives a per-chapter result without duplicates |
| `Sampler.Pool` | app.py:921-927 | every pooled question has the requested subject and a selected chapter |
| `Sampler.PoolMembership` | app.py:921-927 | a question is pooled iff the bank holds it, it has the requested subject and its chapter is one of the selected ones |
| `Sampler.PoolDistinct` | app.py:921-927 | with no duplicate bank rows and no chapter selected twice, the pool holds no question twice |
| `Sampler.BuildPool` | app.py:921-927 | the loop over the selection yields the per-chapter results concatenated in selection order |
| `Sampler.IsDraw` | app.py:934-935 | an admissible outcome of the trim has `min(|pool|, n)` questions taken from distinct positions of the pool |
| `Sampler.Sample` | app.py:935 | the draw has exactly `k` elements taken from distinct positions of the pool (a sub-multiset) |
| `Sampler.DrawProperties` | app.py:934-935 | any admissible draw has `min(|pool|, n)` questions, all from the pool, none twice when the pool has none twice |
| `Sampler.DrawnQuestionsMatchSelection` | app.py:921-935 | every drawn question is in the bank, has the requested subject and comes from a selected chapter |
| `Sampler.SelectQuestions` | app.py:916-935 | empty selection -> `NoChapterSelected`; empty pool -> `NoQuestionsAvailable`; negative count with a non-empty pool -> `InvalidQuestionCount`; otherwise success, whose list is an admissible draw of the pool |
| `Sessions.Matches` | app.py:978-981 | a submission scores iff an answer was given and it equals the correct label exactly; a missing answer never scores |
| `Sessions.Score` | app.py:981-982 | the reference count of matching answers never exceeds the number of answers |
| `Sessions.ScoreAppend` | app.py:981-984 | one more answer raises the reference count by one exactly when it matches its question |
| `Sessions.ScoreAllCorrect` | app.py:981-982 | answering every question with its correct label scores every answer |
| `Sessions.QuizSession.Exhausted` | app.py:972 | under the invariant, the quiz is exhausted exactly when one answer was submitted per question |
| `Sessions.QuizSession.constructor` | app.py:937-942 | a new quiz holds the given snapshot list, subject, chapters and start time, with index 0 and 0 correct, and satisfies the invariant |
| `Sessions.QuizSession.Advance` | app.py:977-984 | the index rises by exactly one; the correct count rises by one exactly when the answer matches the current question; the question list, subject and chapters stay fixed; `correct <= current <= |questions|` is kept |
| `Sessions.UserSession.StartQuiz` | app.py:911-945 | each refusal case holds exactly under its condition and leaves the session's quiz as it was; on success a fresh quiz holds an admissible draw of the pool, the subject, the selection, index 0, 0 correct and the start time |
| `Sessions.UserSession.SubmitAnswer` | app.py:966-985 | no quiz -> `NoActiveQuiz`; an exhausted quiz -> `GoToResults` with nothing changed; otherwise the quiz advances as `Advance` states |
| `Sessions.UserSession.View` | app.py:966-997 | no quiz -> `NoQuiz`; exhausted -> `ShowResults`; otherwise the current question, its 1-based number and the total, with `1 <= number <= total` |
| `Results.Accuracy` | app.py:1004-1006 | 0 when there are no questions; otherwise `accuracy * total == correct * 100`; it lies in [0, 100] whenever `correct <= total` |
| `Results.LinksFor` | app.py:1019-1023 | one link per selected chapter, the i-th pointing from the attempt to the i-th selected chapter |
| `Results.LinksForChapters` | app.py:1019-1023 | one link per selected chapter, all pointing at the attempt, whose chapter column is the selection itself |
| `Results.LinksForMembership` | app.py:1019-1023 | a link of the attempt exists exactly for each selected chapter |
| `Results.Store.constructor` | app.py:62-84 | the empty attempt and link tables satisfy the key invariants, and the id counter starts at 1 |
| `Results.PendingLinks` | app.py:1019-1023 | the inserts fail exactly when a chapter is selected twice; otherwise they give one new, duplicate-free link per chapter that clashes with no stored link |
| `Results.RecordResults` | app.py:1000-1058 | no quiz -> nothing happens; a duplicated chapter -> nothing is stored and the quiz stays; otherwise exactly one attempt row with the quiz's counts and accuracy and the next id is appended, the links are appended and the store keeps its key invariants; the quiz is then removed from the session if the chart step succeeds, and stays unchanged (`ChartFailed`) if it raises |
| `Scenarios.ChapterRows` | app.py:923-926 | on the sample bank each chapter's query returns its subject-1 rows in storage order and skips the other subject's row |
| `Scenarios.PoolFollowsSelectionOrder` | app.py:921-927 | selecting chapters 20 then 10 pools chapter 20's questions first |
| `Scenarios.DrawThreeOfFive` | app.py:934-935 | five pooled questions from two chapters and a request for three: every draw is three distinct questions from those chapters |
| `Scenarios.DrawTwoOfTwo` | app.py:934-935 | two pooled questions and a request for ten give the pool itself |
| `Scenarios.ThreeOfFour` | app.py:977-984 | answers correct, wrong, correct, correct on four questions give 3 correct, an exhausted quiz and accuracy 75 |
| `Scenarios.StartWithoutChapters` | app.py:916-919 | an empty selection is refused, and no quiz exists afterwards |
| `Scenarios.RecordTwoChapters` | app.py:1010-1058 | recording a two-chapter quiz stores one attempt and exactly the two links and clears the quiz; a second visit records nothing |
| `Scenarios.ZeroQuestions` | app.py:1004-1006 | a request for zero questions gives an empty quiz that goes straight to the results and is recorded with accuracy 0 when the chart is drawn |
| `Scenarios.ZeroQuestionsChartFails` | app.py:1025-1058 | when the chart of an empty quiz raises, two visits of the results commit two attempts and the quiz stays in the session |

## Left out

- Flask routing, redirects, `flash` messages and template rendering. The outcome datatypes (`StartOutcome`, `SubmitOutcome`, `ViewOutcome`, `ResultsOutcome`) stand for the redirect or page chosen.
- The login gate (`user_id` and `role == 'user'`, app.py:906, 966, 1001) is assumed to be satisfied. `UserSession` carries only the user id.
- Form parsing: `int(request.form['num_questions'])` raising on non-numeric text, and ids arriving as strings. Ids are modelled as integers.
- SQL text and connections. The question bank is a sequence in storage order. The two result tables are the `Store` class, and its id counter plays the role of AUTOINCREMENT.
- The subject and chapter-name lookups after `commit` (app.py:1027-1034), and the crash when the subject has been deleted meanwhile. These only feed the results page.
- The pie chart and its base64 encoding (app.py:1038-1051). This is foreign library code working on floats. Only whether it succeeds or raises is modelled, by the `chartDrawn` parameter of `RecordResults`.
- The remaining-time hint (app.py:987-991). It depends on the wall clock and on float division, and it is only displayed.
- The actual randomness of `random.sample`. Only the properties of its result are specified.
- Persistence failures other than the duplicate link key. The store is assumed to accept every other insert.
- Concurrent double submission from one user. Each handler is modelled as one atomic step.
- Administrator CRUD handlers, schema creation beyond the keys used above, the broken `list_chapters` handler, and plain-text login checks. None of them is part of the quiz flow.
