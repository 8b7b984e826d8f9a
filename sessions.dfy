/** The quiz kept in a user's session: created by `start_quiz`, advanced one
    question per submission by `take_quiz`. */
module Sessions {
  import opened QuizTypes
  import Sampler

  /** The scoring rule: exact, case-sensitive equality between the submitted
      label and the stored correct label; a missing answer never matches. */
  function Matches(answer: Option<string>, correctAnswer: string): (r: bool)
    ensures r <==> answer.Some? && answer.value == correctAnswer
    ensures answer == None ==> !r
  {
    answer == Some(correctAnswer)
  }

  /** Reference count of correct answers: how many of the submitted answers
      match the question at the same position. */
  function Score(questions: seq<Question>, answers: seq<Option<string>>): (r: nat)
    requires |answers| <= |questions|
    ensures r <= |answers|
  {
    if answers == [] then 0
    else
      (if Matches(answers[0], questions[0].correctAnswer) then 1 else 0)
        + Score(questions[1..], answers[1..])
  }

  /** One more answer adds one to the score exactly when it matches the
      question it was given for. */
  lemma {:induction false} ScoreAppend(questions: seq<Question>, answers: seq<Option<string>>, a: Option<string>)
    requires |answers| < |questions|
    ensures Score(questions, answers + [a])
         == Score(questions, answers) + (if Matches(a, questions[|answers|].correctAnswer) then 1 else 0)
  {
    if answers != [] {
      assert (answers + [a])[1..] == answers[1..] + [a];
      ScoreAppend(questions[1..], answers[1..], a);
    }
  }

  /** Answering every question correctly scores every question. */
  lemma {:induction false} ScoreAllCorrect(questions: seq<Question>, answers: seq<Option<string>>)
    requires |answers| <= |questions|
    requires forall i :: 0 <= i < |answers| ==> answers[i] == Some(questions[i].correctAnswer)
    ensures Score(questions, answers) == |answers|
  {
    if answers != [] {
      ScoreAllCorrect(questions[1..], answers[1..]);
    }
  }

  /** The quiz keys of the session: the question snapshots, subject, chapter
      selection and start time, fixed at creation, and the two counters the
      submissions move forward. */
  class QuizSession {
    const questions: seq<Question>
    const subjectId: int
    const chapterIds: seq<int>
    const startTime: real
    var current: nat
    var correct: nat
    /** The answers submitted so far, one per advance. */
    ghost var answers: seq<Option<string>>

    ghost predicate Valid()
      reads this
    {
      && correct <= current <= |questions|
      && |answers| == current
      && correct == Score(questions, answers)
    }

    /** Every question has been submitted; further submissions go to results. */
    predicate Exhausted(): (r: bool)
      reads this
      ensures Valid() ==> (r <==> |answers| == |questions|)
    {
      current >= |questions|
    }

    constructor (questions: seq<Question>, subjectId: int, chapterIds: seq<int>, startTime: real)
      ensures Valid()
      ensures this.questions == questions && this.subjectId == subjectId
      ensures this.chapterIds == chapterIds && this.startTime == startTime
      ensures current == 0 && correct == 0 && answers == []
    {
      this.questions := questions;
      this.subjectId := subjectId;
      this.chapterIds := chapterIds;
      this.startTime := startTime;
      current := 0;
      correct := 0;
      answers := [];
    }

    /** Scores the answer against the current question and moves on. */
    method Advance(answer: Option<string>)
      requires Valid() && current < |questions|
      modifies this
      ensures Valid()
      ensures current == old(current) + 1
      ensures correct == old(correct) + (if Matches(answer, questions[old(current)].correctAnswer) then 1 else 0)
      ensures answers == old(answers) + [answer]
    {
      ScoreAppend(questions, answers, answer);
      if Matches(answer, questions[current].correctAnswer) {
        correct := correct + 1;
      }
      current := current + 1;
      answers := answers + [answer];
    }
  }

  /** What the start request leads to. */
  datatype StartOutcome = Started | Rejected(error: Sampler.StartError)

  /** What an answer submission leads to. */
  datatype SubmitOutcome =
    | NoActiveQuiz   // no quiz in the session: back to the dashboard
    | GoToResults    // the quiz is exhausted: on to the results
    | Answered       // the answer was scored and the quiz moved on

  /** What the question page shows. */
  datatype ViewOutcome =
    | NoQuiz
    | ShowResults
    | ShowQuestion(question: Question, number: nat, total: nat)

  /** The per-user session: the logged-in user and, while a quiz is kept in
      it, that quiz (null once its keys are removed or before they are set). */
  class UserSession {
    const userId: int
    var quiz: QuizSession?

    ghost predicate Valid()
      reads this, quiz
    {
      quiz != null ==> quiz.Valid()
    }

    constructor (userId: int)
      ensures Valid() && this.userId == userId && quiz == null
    {
      this.userId := userId;
      quiz := null;
    }

    /** `start_quiz` on submission: select the questions and, on success,
        replace whatever quiz the session held by a fresh one. */
    method StartQuiz(bank: seq<Question>, subjectId: int, chapterIds: seq<int>, n: int, now: real)
      returns (r: StartOutcome)
      requires Valid()
      modifies this
      ensures Valid()
      ensures r.Rejected? ==> quiz == old(quiz)
      ensures r == Rejected(Sampler.NoChapterSelected) <==> chapterIds == []
      ensures r == Rejected(Sampler.NoQuestionsAvailable)
          <==> chapterIds != [] && Sampler.Pool(bank, subjectId, chapterIds) == []
      ensures r == Rejected(Sampler.InvalidQuestionCount)
          <==> chapterIds != [] && Sampler.Pool(bank, subjectId, chapterIds) != [] && n < 0
      ensures r.Started? <==> chapterIds != [] && Sampler.Pool(bank, subjectId, chapterIds) != [] && 0 <= n
      ensures r.Started? ==>
          && quiz != null && fresh(quiz)
          && Sampler.IsDraw(Sampler.Pool(bank, subjectId, chapterIds), n, quiz.questions)
          && quiz.subjectId == subjectId && quiz.chapterIds == chapterIds
          && quiz.current == 0 && quiz.correct == 0 && quiz.startTime == now
    {
      var selection := Sampler.SelectQuestions(bank, subjectId, chapterIds, n);
      match selection
      case Failure(e) =>
        r := Rejected(e);
      case Success(questions) =>
        quiz := new QuizSession(questions, subjectId, chapterIds, now);
        r := Started;
    }

    /** `take_quiz` on submission. */
    method SubmitAnswer(answer: Option<string>) returns (r: SubmitOutcome)
      requires Valid()
      modifies quiz
      ensures Valid() && quiz == old(quiz)
      ensures r == NoActiveQuiz <==> quiz == null
      ensures r == GoToResults <==> quiz != null && old(quiz.current) >= |quiz.questions|
      ensures r != Answered ==> quiz == null || unchanged(quiz)
      ensures r == Answered ==>
          && quiz.current == old(quiz.current) + 1
          && quiz.correct == old(quiz.correct)
               + (if Matches(answer, quiz.questions[old(quiz.current)].correctAnswer) then 1 else 0)
          && quiz.answers == old(quiz.answers) + [answer]
    {
      if quiz == null {
        return NoActiveQuiz;
      }
      if quiz.current >= |quiz.questions| {
        return GoToResults;
      }
      quiz.Advance(answer);
      r := Answered;
    }

    /** `take_quiz` on display: the current question, its 1-based number and
        the total. The remaining-time hint is not modelled. */
    function View(): (v: ViewOutcome)
      reads this, quiz
      requires Valid()
      ensures v == NoQuiz <==> quiz == null
      ensures v == ShowResults <==> quiz != null && quiz.Exhausted()
      ensures v.ShowQuestion? ==>
          && 1 <= v.number <= v.total
          && v.total == |quiz.questions|
          && v.number == quiz.current + 1
          && v.question == quiz.questions[v.number - 1]
    {
      if quiz == null then NoQuiz
      else if quiz.current >= |quiz.questions| then ShowResults
      else ShowQuestion(quiz.questions[quiz.current], quiz.current + 1, |quiz.questions|)
    }
  }
}
