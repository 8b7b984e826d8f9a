/** `quiz_results`: score the quiz kept in the session, persist one attempt
    row and its chapter links, then remove the quiz from the session. */
module Results {
  import opened QuizTypes
  import Sessions

  /** Percentage of correct answers, 0 when there are no questions. */
  function Accuracy(correct: nat, total: nat): (r: real)
    ensures total == 0 ==> r == 0.0
    ensures total > 0 ==> r * (total as real) == (correct as real) * 100.0
    ensures correct <= total ==> 0.0 <= r <= 100.0
    ensures 0 < total == correct ==> r == 100.0
  {
    if total > 0 then (correct as real / total as real) * 100.0 else 0.0
  }

  /** The link rows inserted for one attempt, one per selected chapter, in
      selection order. */
  function LinksFor(quizId: int, chapterIds: seq<int>): (r: seq<ChapterLink>)
    ensures |r| == |chapterIds|
    ensures forall i :: 0 <= i < |r| ==> r[i] == ChapterLink(quizId, chapterIds[i])
  {
    if chapterIds == [] then []
    else LinksFor(quizId, chapterIds[..|chapterIds| - 1]) + [ChapterLink(quizId, chapterIds[|chapterIds| - 1])]
  }

  /** The chapter column of a list of link rows. */
  function ChaptersOf(links: seq<ChapterLink>): seq<int>
  {
    if links == [] then []
    else ChaptersOf(links[..|links| - 1]) + [links[|links| - 1].chapterId]
  }

  /** The links of an attempt all point at it, and their chapter column is
      exactly the selection: no chapter more, none fewer, none reordered. */
  lemma {:induction false} LinksForChapters(quizId: int, chapterIds: seq<int>)
    ensures |LinksFor(quizId, chapterIds)| == |chapterIds|
    ensures forall l :: l in LinksFor(quizId, chapterIds) ==> l.quizId == quizId
    ensures ChaptersOf(LinksFor(quizId, chapterIds)) == chapterIds
  {
    if chapterIds != [] {
      var init := chapterIds[..|chapterIds| - 1];
      LinksForChapters(quizId, init);
      var links := LinksFor(quizId, chapterIds);
      assert links[..|links| - 1] == LinksFor(quizId, init);
      assert chapterIds == init + [chapterIds[|chapterIds| - 1]];
    }
  }

  /** A link of the attempt exists exactly for each selected chapter. */
  lemma LinksForMembership(quizId: int, chapterIds: seq<int>, l: ChapterLink)
    ensures l in LinksFor(quizId, chapterIds) <==> l.quizId == quizId && l.chapterId in chapterIds
  {
  }

  /** The `quiz_attempts` and `quiz_chapters` tables. `nextId` is the id the
      next attempt gets (the table's AUTOINCREMENT counter). */
  class Store {
    var attempts: seq<Attempt>
    var links: seq<ChapterLink>
    var nextId: int

    /** Attempt ids increase and stay below the counter; every link points
        below the counter; (quiz_id, chapter_id) is a primary key. */
    ghost predicate Valid()
      reads this
    {
      && (forall i :: 0 <= i < |attempts| ==> attempts[i].id < nextId)
      && (forall i, j :: 0 <= i < j < |attempts| ==> attempts[i].id < attempts[j].id)
      && (forall l :: l in links ==> l.quizId < nextId)
      && Distinct(links)
    }

    constructor ()
      ensures Valid() && attempts == [] && links == [] && nextId == 1
    {
      attempts := [];
      links := [];
      nextId := 1;
    }
  }

  /** The link rows of attempt `quizId`, inserted one selected chapter at a
      time beside the rows already stored; None when an insert would repeat a
      (quiz_id, chapter_id) key, which happens exactly when a chapter is
      selected twice. */
  method PendingLinks(quizId: int, existing: seq<ChapterLink>, chapterIds: seq<int>)
    returns (r: Option<seq<ChapterLink>>)
    requires forall l :: l in existing ==> l.quizId < quizId
    ensures r.None? <==> !Distinct(chapterIds)
    ensures r.Some? ==> r.value == LinksFor(quizId, chapterIds)
    ensures r.Some? ==> Distinct(r.value) && forall l :: l in r.value ==> l !in existing
  {
    var rows: seq<ChapterLink> := [];
    var i := 0;
    while i < |chapterIds|
      invariant 0 <= i <= |chapterIds|
      invariant rows == LinksFor(quizId, chapterIds[..i])
      invariant Distinct(chapterIds[..i])
      invariant Distinct(rows) && forall l :: l in rows ==> l !in existing
    {
      var row := ChapterLink(quizId, chapterIds[i]);
      LinksForMembership(quizId, chapterIds[..i], row);
      if row in existing || row in rows {
        assert chapterIds[i] in chapterIds[..i];
        var k :| 0 <= k < i && chapterIds[..i][k] == chapterIds[i];
        assert chapterIds[k] == chapterIds[i];
        return None;
      }
      assert chapterIds[..i + 1] == chapterIds[..i] + [chapterIds[i]];
      assert chapterIds[..i + 1][..i] == chapterIds[..i];
      rows := rows + [row];
      i := i + 1;
    }
    assert chapterIds[..i] == chapterIds;
    return Some(rows);
  }

  /** What the results page shows. */
  datatype Summary = Summary(attemptId: int, totalQuestions: nat, correctAnswers: nat, accuracy: real)

  datatype ResultsOutcome =
    | NoActiveQuiz        // no quiz in the session: back to the dashboard
    | DuplicateChapter    // a chapter selected twice breaks the link table's key; nothing is committed
    | ChartFailed(attemptId: int)  // committed, but the chart step raised before the quiz keys were removed
    | Recorded(summary: Summary)

  /** Records the quiz held in `session` into `store` and removes it from the
      session. The quiz need not be exhausted: the counts so far are recorded.
      `chartDrawn` is the fate of the pie-chart step, which runs after the
      commit and before the quiz keys are removed; when it raises, the rows
      stay committed and the quiz stays in the session. */
  method RecordResults(session: Sessions.UserSession, store: Store, now: real, chartDrawn: bool)
    returns (r: ResultsOutcome)
    requires session.Valid() && store.Valid()
    modifies session, store
    ensures session.Valid() && store.Valid()
    ensures r == NoActiveQuiz <==> old(session.quiz) == null
    ensures r == DuplicateChapter <==> old(session.quiz) != null && !Distinct(old(session.quiz.chapterIds))
    ensures r.ChartFailed? <==> old(session.quiz) != null && Distinct(old(session.quiz.chapterIds)) && !chartDrawn
    ensures r == NoActiveQuiz || r == DuplicateChapter ==> session.quiz == old(session.quiz) && unchanged(store)
    ensures r.ChartFailed? || r.Recorded? ==>
      var q := old(session.quiz);
      var total, correct := |q.questions|, old(q.correct);
      var id := old(store.nextId);
      && store.attempts
           == old(store.attempts) + [Attempt(id, session.userId, q.subjectId, total, correct, Accuracy(correct, total), now)]
      && store.links == old(store.links) + LinksFor(id, q.chapterIds)
      && store.nextId == id + 1
      && (r.ChartFailed? ==> r.attemptId == id && session.quiz == q && unchanged(q))
      && (r.Recorded? ==> session.quiz == null && r.summary == Summary(id, total, correct, Accuracy(correct, total)))
  {
    if session.quiz == null {
      return NoActiveQuiz;
    }
    var quiz := session.quiz;
    var total, correct := |quiz.questions|, quiz.correct;
    var accuracy := Accuracy(correct, total);
    var id := store.nextId;
    var attempt := Attempt(id, session.userId, quiz.subjectId, total, correct, accuracy, now);
    var pending := PendingLinks(id, store.links, quiz.chapterIds);
    if pending.None? {
      // the insert that breaks the key fails and the open transaction,
      // attempt row included, is never committed
      return DuplicateChapter;
    }
    LinksForChapters(id, quiz.chapterIds);
    DistinctConcat(store.links, pending.value);
    store.attempts := store.attempts + [attempt];
    store.links := store.links + pending.value;
    store.nextId := id + 1;
    if !chartDrawn {
      return ChartFailed(id);
    }
    session.quiz := null;
    r := Recorded(Summary(id, total, correct, accuracy));
  }
}
