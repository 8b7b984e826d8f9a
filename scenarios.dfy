/** Worked runs of the quiz flow on a small question bank: pooling and
    trimming, a four-question quiz scored 3 of 4, a start without chapters,
    and the chapter links of a recorded attempt. */
module Scenarios {
  import opened QuizTypes
  import Sampler
  import Sessions
  import Results

  /** A question of subject 1. */
  function Q(id: int, chapterId: int, correct: string): Question {
    Question(id, 1, chapterId, "q", "a", "b", "c", "d", correct)
  }

  /** Storage order of the bank: chapters 10 and 20 of subject 1 interleaved,
      and one chapter-10 question filed under subject 2. */
  function Bank(): seq<Question> {
    [Q(1, 10, "A"), Q(2, 20, "B"), Q(3, 10, "C"),
     Question(4, 2, 10, "q", "a", "b", "c", "d", "A"),
     Q(5, 20, "D"), Q(6, 10, "A")]
  }

  /** The per-chapter query on the bank returns each chapter's rows of
      subject 1 in storage order. */
  lemma ChapterRows()
    ensures Sampler.ChapterQuestions(Bank(), 1, 20) == [Q(2, 20, "B"), Q(5, 20, "D")]
    ensures Sampler.ChapterQuestions(Bank(), 1, 10) == [Q(1, 10, "A"), Q(3, 10, "C"), Q(6, 10, "A")]
  {
  }

  /** Selecting chapters 20 then 10 pools chapter 20's questions first, each
      chapter in storage order, and leaves out the other subject's question. */
  lemma PoolFollowsSelectionOrder()
    ensures Sampler.Pool(Bank(), 1, [20, 10]) == [Q(2, 20, "B"), Q(5, 20, "D"), Q(1, 10, "A"), Q(3, 10, "C"), Q(6, 10, "A")]
  {
  }

  /** The pool of chapters 20 and 10 holds no question twice. */
  lemma SelectionPoolDistinct()
    ensures Distinct(Sampler.Pool(Bank(), 1, [20, 10]))
  {
  }

  /** Five pooled questions from two chapters and a request for three: every
      possible draw has exactly three distinct questions of subject 1 from
      the two chapters. */
  lemma DrawThreeOfFive(s: seq<Question>)
    requires Sampler.IsDraw(Sampler.Pool(Bank(), 1, [20, 10]), 3, s)
    ensures |s| == 3 && Distinct(s)
    ensures forall q :: q in s ==> q.subjectId == 1 && (q.chapterId == 20 || q.chapterId == 10)
  {
    PoolFollowsSelectionOrder();
    SelectionPoolDistinct();
    Sampler.DrawProperties(Sampler.Pool(Bank(), 1, [20, 10]), 3, s);
    Sampler.DrawnQuestionsMatchSelection(Bank(), 1, [20, 10], 3, s);
  }

  /** Two pooled questions and a request for ten: the quiz is the pool
      itself, no error and no padding. */
  lemma DrawTwoOfTwo(s: seq<Question>)
    requires Sampler.IsDraw(Sampler.Pool(Bank(), 1, [20]), 10, s)
    ensures s == [Q(2, 20, "B"), Q(5, 20, "D")]
  {
  }

  /** Four questions answered correct, wrong, correct, correct: three are
      counted, the quiz is exhausted after the fourth submission and its
      accuracy is 75. */
  method ThreeOfFour() returns (correct: nat, exhausted: bool, accuracy: real)
    ensures correct == 3 && exhausted && accuracy == 75.0
  {
    var quiz := new Sessions.QuizSession([Q(1, 10, "A"), Q(2, 20, "B"), Q(3, 10, "C"), Q(5, 20, "D")], 1, [10, 20], 0.0);
    quiz.Advance(Some("A"));
    quiz.Advance(Some("C"));
    quiz.Advance(Some("C"));
    quiz.Advance(Some("D"));
    correct, exhausted := quiz.correct, quiz.Exhausted();
    accuracy := Results.Accuracy(correct, |quiz.questions|);
  }

  /** A start with no chapter selected is refused and leaves the session
      without a quiz; a submission then finds no active quiz. */
  method StartWithoutChapters() returns (start: Sessions.StartOutcome, submit: Sessions.SubmitOutcome, hasQuiz: bool)
    ensures start == Sessions.Rejected(Sampler.NoChapterSelected)
    ensures submit == Sessions.NoActiveQuiz && !hasQuiz
  {
    var user := new Sessions.UserSession(7);
    start := user.StartQuiz(Bank(), 1, [], 5, 0.0);
    submit := user.SubmitAnswer(Some("A"));
    hasQuiz := user.quiz != null;
  }

  /** A quiz over chapters 10 and 20, recorded into an empty store: one
      attempt row and exactly two link rows, one per selected chapter, and
      the session holds no quiz any more. */
  method RecordTwoChapters() returns (attempts: seq<Attempt>, links: seq<ChapterLink>, hasQuiz: bool, again: Results.ResultsOutcome)
    ensures |attempts| == 1 && attempts[0].id == 1 && attempts[0].userId == 7
    ensures links == [ChapterLink(1, 10), ChapterLink(1, 20)]
    ensures !hasQuiz
    ensures again == Results.NoActiveQuiz
  {
    var user := new Sessions.UserSession(7);
    var store := new Results.Store();
    var start := user.StartQuiz(Bank(), 1, [10, 20], 3, 0.0);
    PoolFollowsTwoChapters();
    assert start.Started?;
    var recorded := Results.RecordResults(user, store, 60.0, true);
    assert Distinct([10, 20]);
    assert recorded.Recorded?;
    assert [10, 20][..1] == [10];
    assert [10][..0] == [];
    attempts, links, hasQuiz := store.attempts, store.links, user.quiz != null;
    // revisiting the results finds no quiz and records nothing more
    again := Results.RecordResults(user, store, 120.0, true);
    assert store.attempts == attempts && store.links == links;
  }

  /** A request for zero questions from a non-empty pool starts an empty
      quiz: the question page goes straight to the results, a submission is
      sent there too without counting anything, and the attempt is recorded
      with accuracy 0, provided the chart of the two zero counts is drawn. */
  method ZeroQuestions() returns (view: Sessions.ViewOutcome, submit: Sessions.SubmitOutcome, recorded: Results.ResultsOutcome)
    ensures view == Sessions.ShowResults && submit == Sessions.GoToResults
    ensures recorded == Results.Recorded(Results.Summary(1, 0, 0, 0.0))
  {
    var user := new Sessions.UserSession(7);
    var store := new Results.Store();
    var start := user.StartQuiz(Bank(), 1, [20], 0, 0.0);
    ChapterRows();
    assert [20][..0] == [];
    assert start.Started?;
    view := user.View();
    submit := user.SubmitAnswer(Some("B"));
    assert Distinct([20]);
    recorded := Results.RecordResults(user, store, 30.0, true);
  }

  /** The same empty quiz when the chart of the two zero counts raises: each
      visit of the results commits another attempt, and the quiz stays in
      the session. */
  method ZeroQuestionsChartFails() returns (first: Results.ResultsOutcome, second: Results.ResultsOutcome, attempts: nat, hasQuiz: bool)
    ensures first == Results.ChartFailed(1) && second == Results.ChartFailed(2)
    ensures attempts == 2 && hasQuiz
  {
    var user := new Sessions.UserSession(7);
    var store := new Results.Store();
    var start := user.StartQuiz(Bank(), 1, [20], 0, 0.0);
    ChapterRows();
    assert [20][..0] == [];
    assert start.Started?;
    assert Distinct([20]);
    first := Results.RecordResults(user, store, 30.0, false);
    second := Results.RecordResults(user, store, 40.0, false);
    attempts, hasQuiz := |store.attempts|, user.quiz != null;
  }

  /** Chapters 10 and 20 of subject 1 pool a non-empty list. */
  lemma PoolFollowsTwoChapters()
    ensures Sampler.Pool(Bank(), 1, [10, 20]) != []
  {
  }
}
