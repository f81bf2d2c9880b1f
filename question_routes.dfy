/**
 * The question routes: a random active question outside the excluded ids,
 * an active question by id, and the number of active questions. The random
 * sample is a nondeterministic choice from the eligible questions.
 */
module QuestionRoutes {
  import opened Base
  import opened QuestionModel

  datatype QuestionError = NoMoreQuestions | QuestionNotFound

  /** The `excludeIds` query value: absent, given once (possibly empty), or repeated. */
  datatype ExcludeParam = Absent | Once(id: Option<QuestionId>) | Repeated(ids: seq<QuestionId>)

  /** `Array.isArray(x) ? x : [x].filter(Boolean)`, with `[]` when the parameter is absent. */
  function ExcludeList(p: ExcludeParam): (r: seq<QuestionId>)
    ensures p.Repeated? ==> r == p.ids
    ensures p.Once? && p.id.Some? ==> r == [p.id.value]
    ensures p.Absent? || p == Once(None) ==> r == []
  {
    match p
    case Absent => []
    case Once(id) => if id.Some? then [id.value] else []
    case Repeated(ids) => ids
  }

  /** The questions the `$match` stage keeps: active and not excluded. */
  function Eligible(questions: map<QuestionId, Question>, excluded: seq<QuestionId>): set<QuestionId> {
    set id | id in questions && questions[id].isActive && id !in excluded
  }

  /** GET /random: some eligible question, or not-found when there is none. */
  method RandomQuestion(questions: map<QuestionId, Question>, excludeIds: ExcludeParam)
    returns (r: Result<(QuestionId, Question), QuestionError>)
    ensures r.Err? <==> Eligible(questions, ExcludeList(excludeIds)) == {}
    ensures r.Err? ==> r.error == NoMoreQuestions
    ensures r.Ok? ==>
      && r.value.0 in questions && r.value.1 == questions[r.value.0]
      && r.value.1.isActive
      && r.value.0 !in ExcludeList(excludeIds)
  {
    var excluded := ExcludeList(excludeIds);
    if exists id :: id in questions && questions[id].isActive && id !in excluded {
      var id :| id in questions && questions[id].isActive && id !in excluded;
      assert id in Eligible(questions, excluded);
      r := Ok((id, questions[id]));
    } else {
      assert Eligible(questions, excluded) == {};
      r := Err(NoMoreQuestions);
    }
  }

  /** The `$match` stage as the code runs it. `aggregate` does not cast its stages, so the
      excluded ids stay query strings; a string never equals an ObjectId `_id`, and `$nin`
      removes nothing. Only `isActive` filters. */
  function EligibleAsWritten(questions: map<QuestionId, Question>, excluded: seq<QuestionId>): set<QuestionId> {
    set id | id in questions && questions[id].isActive
  }

  /** GET /random as the code runs it: some active question, excluded or not. */
  method RandomQuestionAsWritten(questions: map<QuestionId, Question>, excludeIds: ExcludeParam)
    returns (r: Result<(QuestionId, Question), QuestionError>)
    ensures r.Err? <==> EligibleAsWritten(questions, ExcludeList(excludeIds)) == {}
    ensures r.Err? ==> r.error == NoMoreQuestions
    ensures r.Ok? ==>
      && r.value.0 in questions && r.value.1 == questions[r.value.0]
      && r.value.1.isActive
  {
    if exists id :: id in questions && questions[id].isActive {
      var id :| id in questions && questions[id].isActive;
      assert id in EligibleAsWritten(questions, ExcludeList(excludeIds));
      r := Ok((id, questions[id]));
    } else {
      assert EligibleAsWritten(questions, ExcludeList(excludeIds)) == {};
      r := Err(NoMoreQuestions);
    }
  }

  /** As written, an excluded active question stays a possible answer of `/random`, while the
      intended exclusion removes it. */
  lemma ExclusionIgnoredAsWritten(questions: map<QuestionId, Question>, excludeIds: ExcludeParam, id: QuestionId)
    requires id in questions && questions[id].isActive && id in ExcludeList(excludeIds)
    ensures id in EligibleAsWritten(questions, ExcludeList(excludeIds))
    ensures id !in Eligible(questions, ExcludeList(excludeIds))
  {
  }

  /** A one-question bank whose question the player has answered: the intended route answers
      not-found, the code as written offers the same question again. */
  lemma AnsweredQuestionComesBack(id: QuestionId, q: Question)
    requires q.isActive
    ensures Eligible(map[id := q], ExcludeList(Once(Some(id)))) == {}
    ensures EligibleAsWritten(map[id := q], ExcludeList(Once(Some(id)))) == {id}
  {
    assert id in EligibleAsWritten(map[id := q], [id]);
  }

  /** GET /:id: only an active question is found. */
  function GetById(questions: map<QuestionId, Question>, id: QuestionId): (r: Result<Question, QuestionError>)
    ensures r.Ok? <==> id in questions && questions[id].isActive
    ensures r.Ok? ==> r.value == questions[id]
    ensures r.Err? ==> r.error == QuestionNotFound
  {
    if id in questions && questions[id].isActive then Ok(questions[id]) else Err(QuestionNotFound)
  }

  /** The active questions. */
  function Active(questions: map<QuestionId, Question>): set<QuestionId> {
    set id | id in questions && questions[id].isActive
  }

  /** GET /stats/count. */
  function ActiveCount(questions: map<QuestionId, Question>): (n: nat)
    ensures n <= |questions.Keys|
    ensures n == |Active(questions)|
  {
    CardinalityOfSubset(Active(questions), questions.Keys);
    |Active(questions)|
  }

  lemma CardinalityOfSubset(a: set<QuestionId>, b: set<QuestionId>)
    requires a <= b
    ensures |a| <= |b|
  {
    assert b == a + (b - a);
  }

  /** Without exclusions the eligible questions are the ones counted; so `/random` with no
      exclusions fails exactly when the count is zero. */
  lemma CountIsEligibleWithoutExclusions(questions: map<QuestionId, Question>)
    ensures |Eligible(questions, [])| == ActiveCount(questions)
    ensures Eligible(questions, ExcludeList(Absent)) == {} <==> ActiveCount(questions) == 0
  {
    assert Eligible(questions, []) == Active(questions);
  }

  /** Excluding more ids never makes more questions eligible; excluding every active one leaves none. */
  lemma ExclusionShrinksEligible(questions: map<QuestionId, Question>, excluded: seq<QuestionId>, more: seq<QuestionId>)
    ensures Eligible(questions, excluded + more) <= Eligible(questions, excluded)
    ensures (forall id :: id in questions && questions[id].isActive ==> id in excluded) ==>
      Eligible(questions, excluded) == {}
  {
  }

  /** Every question `/random` can return is one `/:id` also returns. */
  lemma RandomIsFetchable(questions: map<QuestionId, Question>, excluded: seq<QuestionId>, id: QuestionId)
    requires id in Eligible(questions, excluded)
    ensures GetById(questions, id) == Ok(questions[id])
  {
  }
}
