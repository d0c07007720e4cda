/**
 * The handlers of backend/src/controllers/evaluationController.js. `Submit` is what one
 * `submitEvaluation` request does to the session and evaluation tables; `SubmitEvaluation`
 * performs it through the store.
 */
module EvaluationController {
  import opened Common
  import opened Models
  import opened Db

  const RequiredFields: string := "Session ID and rating are required"
  const NotFoundOrUnauthorized: string := "Chat session not found or unauthorized"
  const AlreadySubmitted: string := "Evaluation already submitted for this session"
  const NoEvaluation: string := "No evaluation found for this session"

  /** The reply a request gets and the two tables it leaves. */
  datatype Outcome = Outcome(response: Response, sessions: seq<ChatSession>, evaluations: seq<Evaluation>)

  /** `!rating` is false: a rating is present and is not 0. */
  predicate RatingGiven(rating: Option<int>)
  {
    rating.Some? && rating.value != 0
  }

  /** The evaluation stored for an admitted request. */
  function NewEvaluation(sid: Id, requester: Id, rating: int, comment: Option<string>, clock: nat, nextId: nat): Evaluation
  {
    Evaluation(nextId, sid, requester, rating, comment, clock)
  }

  /** `submitEvaluation`, as one function of the tables before the request. */
  function Submit(sessions: seq<ChatSession>, evaluations: seq<Evaluation>, clock: nat, nextId: nat, requester: Id,
                  sessionId: Option<IdText>, rating: Option<int>, comment: Option<string>): (o: Outcome)
    ensures o.response.Reply?
    ensures |o.sessions| == |sessions|
    ensures forall i :: 0 <= i < |sessions| ==> o.sessions[i].(evaluation := sessions[i].evaluation) == sessions[i]
    ensures evaluations <= o.evaluations && |o.evaluations| <= |evaluations| + 1
  {
    if sessionId.None? || !RatingGiven(rating) then Outcome(Reply(400, ErrorBody(RequiredFields)), sessions, evaluations)
    else match sessionId.value
      case NotObjectId => Outcome(Reply(500, ErrorBody(CastFailed)), sessions, evaluations)
      case ObjectId(sid) =>
        if !OwnedBy(sessions, sid, requester) then
          Outcome(Reply(404, ErrorBody(NotFoundOrUnauthorized)), sessions, evaluations)
        else if FindEvaluation(evaluations, sid).Some? then
          Outcome(Reply(400, ErrorBody(AlreadySubmitted)), sessions, evaluations)
        else if !EvaluationFieldsValid(rating.value, comment) then
          Outcome(Reply(500, ErrorBody(EvaluationInvalid)), sessions, evaluations)
        else
          var e := NewEvaluation(sid, requester, rating.value, comment, clock, nextId);
          var k := FindSession(sessions, sid).value;
          Outcome(Reply(201, EvaluationDoc(e)), sessions[k := sessions[k].(evaluation := Some(e.id))], evaluations + [e])
  }

  /** `submitEvaluation` over the store: checks, the insert, then the session's `evaluation` field saved. */
  method SubmitEvaluation(db: Database, requester: Id, sessionId: Option<IdText>, rating: Option<int>,
                          comment: Option<string>) returns (r: Response)
    requires db.Valid()
    modifies db
    ensures db.Valid()
    ensures Outcome(r, db.sessions, db.evaluations)
            == Submit(old(db.sessions), old(db.evaluations), old(db.clock), old(db.nextId), requester,
                      sessionId, rating, comment)
    ensures db.users == old(db.users) && db.messages == old(db.messages)
    ensures db.clock == old(db.clock) + (|db.evaluations| - |old(db.evaluations)|)
    ensures db.nextId == old(db.nextId) + (|db.evaluations| - |old(db.evaluations)|)
  {
    if sessionId.None? || rating.None? || rating.value == 0 {
      return Reply(400, ErrorBody(RequiredFields));
    }
    match sessionId.value {
      case NotObjectId =>
        return Reply(500, ErrorBody(CastFailed));
      case ObjectId(sid) =>
        var k := FindSession(db.sessions, sid);
        if k.None? || db.sessions[k.value].user != requester {
          return Reply(404, ErrorBody(NotFoundOrUnauthorized));
        }
        if FindEvaluation(db.evaluations, sid).Some? {
          return Reply(400, ErrorBody(AlreadySubmitted));
        }
        ghost var before := db.evaluations;
        var created := db.CreateEvaluation(sid, requester, rating.value, comment);
        if created.Failure? {
          return Reply(500, ErrorBody(created.error));
        }
        var evaluation := created.value;
        assert db.evaluations[..|before|] == before;
        assert FindEvaluation(db.evaluations, sid) == Some(|before|);
        db.SetEvaluation(k.value, evaluation.id);
        r := Reply(201, EvaluationDoc(evaluation));
    }
  }

  /** `getEvaluationBySession`: the ownership 404, then the missing-evaluation 404, then the evaluation. */
  function GetEvaluationBySession(sessions: seq<ChatSession>, evaluations: seq<Evaluation>, requester: Id,
                                  sessionId: IdText): (r: Response)
    ensures sessionId.NotObjectId? ==> r == Reply(500, ErrorBody(CastFailed))
    ensures sessionId.ObjectId? && !OwnedBy(sessions, sessionId.id, requester)
            ==> r == Reply(404, ErrorBody(NotFoundOrUnauthorized))
    ensures sessionId.ObjectId? && OwnedBy(sessions, sessionId.id, requester)
            && FindEvaluation(evaluations, sessionId.id).None?
            ==> r == Reply(404, ErrorBody(NoEvaluation))
    ensures r.Reply? && r.status == 200 ==>
              sessionId.ObjectId? && OwnedBy(sessions, sessionId.id, requester)
              && r.body.EvaluationDoc? && r.body.evaluation in evaluations
              && r.body.evaluation.session == sessionId.id
  {
    match sessionId
    case NotObjectId => Reply(500, ErrorBody(CastFailed))
    case ObjectId(sid) =>
      if !OwnedBy(sessions, sid, requester) then Reply(404, ErrorBody(NotFoundOrUnauthorized))
      else match FindEvaluation(evaluations, sid)
        case None => Reply(404, ErrorBody(NoEvaluation))
        case Some(j) => Reply(200, EvaluationDoc(evaluations[j]))
  }

  /** Any reply but 201 leaves both tables as they were. */
  lemma RejectionChangesNothing(sessions: seq<ChatSession>, evaluations: seq<Evaluation>, clock: nat, nextId: nat,
                                requester: Id, sessionId: Option<IdText>, rating: Option<int>, comment: Option<string>)
    requires Submit(sessions, evaluations, clock, nextId, requester, sessionId, rating, comment).response.status != 201
    ensures Submit(sessions, evaluations, clock, nextId, requester, sessionId, rating, comment).sessions == sessions
    ensures Submit(sessions, evaluations, clock, nextId, requester, sessionId, rating, comment).evaluations == evaluations
  {
  }

  /** A missing session id or a falsy rating, 0 included, is refused before any lookup and changes nothing. */
  lemma FalsyRatingRefused(sessions: seq<ChatSession>, evaluations: seq<Evaluation>, clock: nat, nextId: nat,
                           requester: Id, sessionId: Option<IdText>, rating: Option<int>, comment: Option<string>)
    requires sessionId.None? || !RatingGiven(rating)
    ensures Submit(sessions, evaluations, clock, nextId, requester, sessionId, rating, comment)
            == Outcome(Reply(400, ErrorBody(RequiredFields)), sessions, evaluations)
  {
  }

  /** A session that does not exist and a session of someone else get the same 404, and nothing changes. */
  lemma ForeignSessionRefused(sessions: seq<ChatSession>, evaluations: seq<Evaluation>, clock: nat, nextId: nat,
                              requester: Id, sid: Id, rating: Option<int>, comment: Option<string>)
    requires RatingGiven(rating) && !OwnedBy(sessions, sid, requester)
    ensures Submit(sessions, evaluations, clock, nextId, requester, Some(ObjectId(sid)), rating, comment)
            == Outcome(Reply(404, ErrorBody(NotFoundOrUnauthorized)), sessions, evaluations)
  {
  }

  /** A second submission for a session of the requester is refused with 400, whatever its rating. */
  lemma SecondSubmissionRefused(sessions: seq<ChatSession>, evaluations: seq<Evaluation>, clock: nat, nextId: nat,
                                requester: Id, sid: Id, rating: int, comment: Option<string>)
    requires rating != 0 && OwnedBy(sessions, sid, requester)
    requires exists j :: 0 <= j < |evaluations| && evaluations[j].session == sid
    ensures Submit(sessions, evaluations, clock, nextId, requester, Some(ObjectId(sid)), Some(rating), comment)
            == Outcome(Reply(400, ErrorBody(AlreadySubmitted)), sessions, evaluations)
  {
  }

  /** Submitting keeps at most one evaluation per session. */
  lemma SubmitKeepsOnePerSession(sessions: seq<ChatSession>, evaluations: seq<Evaluation>, clock: nat, nextId: nat,
                                 requester: Id, sessionId: Option<IdText>, rating: Option<int>, comment: Option<string>)
    requires OneEvaluationPerSession(evaluations)
    ensures OneEvaluationPerSession(Submit(sessions, evaluations, clock, nextId, requester, sessionId, rating, comment).evaluations)
  {
  }

  /** Replacing one session's `evaluation` field keeps every id lookup where it was. */
  lemma FindSessionIgnoresEvaluation(sessions: seq<ChatSession>, k: nat, x: Option<Id>, id: Id)
    requires k < |sessions|
    ensures FindSession(sessions[k := sessions[k].(evaluation := x)], id) == FindSession(sessions, id)
  {
    var updated := sessions[k := sessions[k].(evaluation := x)];
    assert forall i :: 0 <= i < |sessions| ==> updated[i].id == sessions[i].id;
  }

  /**
   * A successful submission sets the session's `evaluation` field to the new evaluation's id,
   * and a get on the same session then returns exactly that evaluation.
   */
  lemma SubmitThenGet(sessions: seq<ChatSession>, evaluations: seq<Evaluation>, clock: nat, nextId: nat,
                      requester: Id, sessionId: Option<IdText>, rating: Option<int>, comment: Option<string>)
    requires Submit(sessions, evaluations, clock, nextId, requester, sessionId, rating, comment).response.status == 201
    ensures var o := Submit(sessions, evaluations, clock, nextId, requester, sessionId, rating, comment);
            && sessionId.Some? && sessionId.value.ObjectId? && rating.Some?
            && var e := NewEvaluation(sessionId.value.id, requester, rating.value, comment, clock, nextId);
            && o.response == Reply(201, EvaluationDoc(e))
            && o.evaluations == evaluations + [e]
            && var k := FindSession(sessions, sessionId.value.id).value;
            && o.sessions == sessions[k := sessions[k].(evaluation := Some(e.id))]
            && GetEvaluationBySession(o.sessions, o.evaluations, requester, sessionId.value) == Reply(200, EvaluationDoc(e))
  {
    var sid := sessionId.value.id;
    var e := NewEvaluation(sid, requester, rating.value, comment, clock, nextId);
    var k := FindSession(sessions, sid).value;
    FindSessionIgnoresEvaluation(sessions, k, Some(e.id), sid);
    assert (evaluations + [e])[..|evaluations|] == evaluations;
  }

  /**
   * A 201 comes exactly when the request names a session of the requester that has no
   * evaluation yet, with a truthy rating and fields the evaluation model accepts.
   */
  lemma Gives201Exactly(sessions: seq<ChatSession>, evaluations: seq<Evaluation>, clock: nat, nextId: nat,
                        requester: Id, sessionId: Option<IdText>, rating: Option<int>, comment: Option<string>)
    ensures Submit(sessions, evaluations, clock, nextId, requester, sessionId, rating, comment).response.status == 201
            <==> sessionId.Some? && sessionId.value.ObjectId? && RatingGiven(rating)
                 && OwnedBy(sessions, sessionId.value.id, requester)
                 && FindEvaluation(evaluations, sessionId.value.id).None?
                 && EvaluationFieldsValid(rating.value, comment)
  {
  }

  /**
   * A valid first submission on a session of the requester gets 201 with the new evaluation,
   * which is appended to the evaluations and linked from that session.
   */
  lemma FirstValidSubmissionStored(sessions: seq<ChatSession>, evaluations: seq<Evaluation>, clock: nat, nextId: nat,
                                   requester: Id, sid: Id, rating: int, comment: Option<string>)
    requires rating != 0 && OwnedBy(sessions, sid, requester)
    requires forall j :: 0 <= j < |evaluations| ==> evaluations[j].session != sid
    requires EvaluationFieldsValid(rating, comment)
    ensures var e := NewEvaluation(sid, requester, rating, comment, clock, nextId);
            var k := FindSession(sessions, sid).value;
            Submit(sessions, evaluations, clock, nextId, requester, Some(ObjectId(sid)), Some(rating), comment)
            == Outcome(Reply(201, EvaluationDoc(e)), sessions[k := sessions[k].(evaluation := Some(e.id))], evaluations + [e])
  {
  }

  /** Fields the evaluation model rejects get 500 with its validation message, and nothing changes. */
  lemma InvalidFieldsRefused(sessions: seq<ChatSession>, evaluations: seq<Evaluation>, clock: nat, nextId: nat,
                             requester: Id, sid: Id, rating: int, comment: Option<string>)
    requires rating != 0 && OwnedBy(sessions, sid, requester)
    requires FindEvaluation(evaluations, sid).None?
    requires !EvaluationFieldsValid(rating, comment)
    ensures Submit(sessions, evaluations, clock, nextId, requester, Some(ObjectId(sid)), Some(rating), comment)
            == Outcome(Reply(500, ErrorBody(EvaluationInvalid)), sessions, evaluations)
  {
  }

  /** When each session has at most one evaluation, get returns that one evaluation of the requester's session. */
  lemma GetReturnsTheOnlyEvaluation(sessions: seq<ChatSession>, evaluations: seq<Evaluation>, requester: Id, j: nat)
    requires OneEvaluationPerSession(evaluations)
    requires j < |evaluations| && OwnedBy(sessions, evaluations[j].session, requester)
    ensures GetEvaluationBySession(sessions, evaluations, requester, ObjectId(evaluations[j].session))
            == Reply(200, EvaluationDoc(evaluations[j]))
  {
    var f := FindEvaluation(evaluations, evaluations[j].session);
    assert f.Some?;
    assert f.value == j;
  }
}
