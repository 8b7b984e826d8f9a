/** The first half of `start_quiz`: pooling the questions of the selected
    chapters and trimming the pool to the requested count. */
module Sampler {
  import opened QuizTypes

  /** Why a quiz cannot be started. */
  datatype StartError =
    | NoChapterSelected      // the chapter selection is empty
    | NoQuestionsAvailable   // the selected chapters hold no question of the subject
    | InvalidQuestionCount   // a negative count, which the sampling call refuses

  /** The rows of the per-chapter query: the bank's questions of this subject
      and chapter, in storage order. */
  function ChapterQuestions(bank: seq<Question>, subjectId: int, chapterId: int): (r: seq<Question>)
    ensures |r| <= |bank|
    ensures forall i :: 0 <= i < |r| ==> r[i].subjectId == subjectId && r[i].chapterId == chapterId
  {
    if bank == [] then []
    else
      var rest := ChapterQuestions(bank[1..], subjectId, chapterId);
      if bank[0].subjectId == subjectId && bank[0].chapterId == chapterId then [bank[0]] + rest
      else rest
  }

  /** The per-chapter query returns exactly the bank's rows of that subject
      and chapter, each no more often than the bank holds it. */
  lemma {:induction false} ChapterQuestionsRows(bank: seq<Question>, subjectId: int, chapterId: int)
    ensures forall q :: q in ChapterQuestions(bank, subjectId, chapterId)
                    <==> q in bank && q.subjectId == subjectId && q.chapterId == chapterId
    ensures multiset(ChapterQuestions(bank, subjectId, chapterId)) <= multiset(bank)
  {
    if bank != [] {
      ChapterQuestionsRows(bank[1..], subjectId, chapterId);
      assert bank == [bank[0]] + bank[1..];
    }
  }

  /** The pool: the per-chapter results concatenated in selection order. */
  function Pool(bank: seq<Question>, subjectId: int, chapterIds: seq<int>): (r: seq<Question>)
    ensures forall i :: 0 <= i < |r| ==> r[i].subjectId == subjectId && r[i].chapterId in chapterIds
  {
    if chapterIds == [] then []
    else
      var init := chapterIds[..|chapterIds| - 1];
      assert forall c :: c in init ==> c in chapterIds;
      Pool(bank, subjectId, init)
        + ChapterQuestions(bank, subjectId, chapterIds[|chapterIds| - 1])
  }

  /** A question is pooled exactly when the bank holds it with the requested
      subject and one of the selected chapters. */
  lemma {:induction false} PoolMembership(bank: seq<Question>, subjectId: int, chapterIds: seq<int>, q: Question)
    ensures q in Pool(bank, subjectId, chapterIds)
        <==> q in bank && q.subjectId == subjectId && q.chapterId in chapterIds
  {
    if chapterIds != [] {
      var init, last := chapterIds[..|chapterIds| - 1], chapterIds[|chapterIds| - 1];
      PoolMembership(bank, subjectId, init, q);
      ChapterQuestionsRows(bank, subjectId, last);
      assert chapterIds == init + [last];
    }
  }

  lemma {:induction false} ChapterQuestionsDistinct(bank: seq<Question>, subjectId: int, chapterId: int)
    requires Distinct(bank)
    ensures Distinct(ChapterQuestions(bank, subjectId, chapterId))
  {
    var r := ChapterQuestions(bank, subjectId, chapterId);
    ChapterQuestionsRows(bank, subjectId, chapterId);
    DistinctIffSingleCounts(bank);
    DistinctIffSingleCounts(r);
    forall x ensures multiset(r)[x] <= 1 {
      assert multiset(r)[x] <= multiset(bank)[x];
    }
  }

  /** With no duplicate rows in the bank and no chapter selected twice, the
      pool holds no question twice. */
  lemma {:induction false} PoolDistinct(bank: seq<Question>, subjectId: int, chapterIds: seq<int>)
    requires Distinct(bank) && Distinct(chapterIds)
    ensures Distinct(Pool(bank, subjectId, chapterIds))
  {
    if chapterIds != [] {
      var init, last := chapterIds[..|chapterIds| - 1], chapterIds[|chapterIds| - 1];
      assert chapterIds == init + [last];
      assert Distinct(init) by {
        forall i, j | 0 <= i < j < |init| ensures init[i] != init[j] {
          assert init[i] == chapterIds[i] && init[j] == chapterIds[j];
        }
      }
      forall k | 0 <= k < |init| ensures init[k] != last {
        assert init[k] == chapterIds[k];
      }
      PoolDistinct(bank, subjectId, init);
      ChapterQuestionsDistinct(bank, subjectId, last);
      var p, c := Pool(bank, subjectId, init), ChapterQuestions(bank, subjectId, last);
      forall i, j | 0 <= i < j < |p + c| ensures (p + c)[i] != (p + c)[j] {
        if i < |p| && j >= |p| {
          PoolMembership(bank, subjectId, init, p[i]);
          ChapterQuestionsRows(bank, subjectId, last);
          assert c[j - |p|] in c;
        }
      }
    }
  }

  /** Builds the pool one selected chapter at a time. */
  method BuildPool(bank: seq<Question>, subjectId: int, chapterIds: seq<int>) returns (pool: seq<Question>)
    ensures pool == Pool(bank, subjectId, chapterIds)
  {
    pool := [];
    var i := 0;
    while i < |chapterIds|
      invariant 0 <= i <= |chapterIds|
      invariant pool == Pool(bank, subjectId, chapterIds[..i])
    {
      assert chapterIds[..i + 1][..i] == chapterIds[..i];
      pool := pool + ChapterQuestions(bank, subjectId, chapterIds[i]);
      i := i + 1;
    }
    assert chapterIds[..i] == chapterIds;
  }

  /** What the trimming step may produce: the pool itself when it holds at most
      `n` questions, otherwise `n` questions taken from distinct positions of
      the pool, in any order. */
  ghost predicate IsDraw(pool: seq<Question>, n: int, s: seq<Question>): (b: bool)
    ensures b ==> |s| == Min(|pool|, n) && multiset(s) <= multiset(pool)
  {
    if |pool| <= n then s == pool
    else 0 <= n && |s| == n && multiset(s) <= multiset(pool)
  }

  /** Draws `k` elements from distinct positions of `pool`; every such draw,
      in every order, is a possible outcome. */
  method Sample(pool: seq<Question>, k: nat) returns (s: seq<Question>)
    requires k <= |pool|
    ensures |s| == k
    ensures multiset(s) <= multiset(pool)
  {
    s := [];
    var rest := pool;
    while |s| < k
      invariant |s| <= k
      invariant |s| + |rest| == |pool|
      invariant multiset(s) + multiset(rest) == multiset(pool)
    {
      var j :| 0 <= j < |rest|;
      assert rest == rest[..j] + [rest[j]] + rest[j + 1..];
      s := s + [rest[j]];
      rest := rest[..j] + rest[j + 1..];
    }
    assert multiset(s) <= multiset(s) + multiset(rest);
  }

  /** A draw has min(|pool|, n) questions, all from the pool, and none twice
      when the pool has none twice. */
  lemma DrawProperties(pool: seq<Question>, n: int, s: seq<Question>)
    requires IsDraw(pool, n, s)
    ensures |s| == Min(|pool|, n)
    ensures forall q :: q in s ==> q in pool
    ensures Distinct(pool) ==> Distinct(s)
  {
    if |pool| > n {
      forall q | q in s ensures q in pool {
        assert multiset(s)[q] > 0;
      }
      if Distinct(pool) {
        DistinctIffSingleCounts(pool);
        DistinctIffSingleCounts(s);
        forall x ensures multiset(s)[x] <= 1 {
          assert multiset(s)[x] <= multiset(pool)[x];
        }
      }
    }
  }

  /** Every drawn question belongs to the bank, has the requested subject and
      comes from a selected chapter. */
  lemma DrawnQuestionsMatchSelection(bank: seq<Question>, subjectId: int, chapterIds: seq<int>, n: int, s: seq<Question>)
    requires IsDraw(Pool(bank, subjectId, chapterIds), n, s)
    ensures forall q :: q in s ==> q in bank && q.subjectId == subjectId && q.chapterId in chapterIds
  {
    DrawProperties(Pool(bank, subjectId, chapterIds), n, s);
    forall q | q in s ensures q in bank && q.subjectId == subjectId && q.chapterId in chapterIds {
      PoolMembership(bank, subjectId, chapterIds, q);
    }
  }

  /** Chapter check, pooling, empty-pool check and trimming, in the order in
      which `start_quiz` does them. */
  method SelectQuestions(bank: seq<Question>, subjectId: int, chapterIds: seq<int>, n: int)
    returns (r: Result<seq<Question>, StartError>)
    ensures r == Failure(NoChapterSelected) <==> chapterIds == []
    ensures r == Failure(NoQuestionsAvailable)
        <==> chapterIds != [] && Pool(bank, subjectId, chapterIds) == []
    ensures r == Failure(InvalidQuestionCount)
        <==> chapterIds != [] && Pool(bank, subjectId, chapterIds) != [] && n < 0
    ensures r.Success? <==> chapterIds != [] && Pool(bank, subjectId, chapterIds) != [] && 0 <= n
    ensures r.Success? ==> IsDraw(Pool(bank, subjectId, chapterIds), n, r.value)
  {
    if chapterIds == [] {
      return Failure(NoChapterSelected);
    }
    var questions := BuildPool(bank, subjectId, chapterIds);
    if questions == [] {
      return Failure(NoQuestionsAvailable);
    }
    if |questions| > n {
      if n < 0 {
        return Failure(InvalidQuestionCount);
      }
      questions := Sample(questions, n);
    }
    return Success(questions);
  }
}
