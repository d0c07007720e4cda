/** The handlers of backend/src/controllers/chatController.js. */
module ChatController {
  import opened Common
  import opened Models
  import opened Db

  const NotFound: string := "Chat session not found"
  const NotAuthorized: string := "Not authorized to view this chat session"

  /**
   * `createChatSession`: one new session owned by the requester, titled with the request's
   * title when it is truthy and "New Chat" otherwise; no existing session changes.
   */
  method CreateChatSession(db: Database, requester: Id, title: Option<string>) returns (r: Response)
    requires db.Valid()
    modifies db
    ensures db.Valid()
    ensures var s := ChatSession(old(db.nextId), requester, if Truthy(title) then title.value else DefaultTitle,
                                 DefaultBotType, None, old(db.clock), old(db.clock), [], None);
            r == Reply(201, SessionDoc(s)) && db.sessions == old(db.sessions) + [s]
    ensures db.users == old(db.users) && db.messages == old(db.messages) && db.evaluations == old(db.evaluations)
    ensures db.clock == old(db.clock) + 1 && db.nextId == old(db.nextId) + 1
  {
    var t := if Truthy(title) then title.value else DefaultTitle;
    var s := db.CreateSession(requester, t);
    r := Reply(201, SessionDoc(s));
  }

  /** `getChatSessions`: exactly the requester's sessions, newest first. */
  function GetChatSessions(sessions: seq<ChatSession>, requester: Id): (r: Response)
    ensures r.Reply? && r.status == 200 && r.body.SessionList?
    ensures forall s :: s in r.body.sessions <==> s in sessions && s.user == requester
    ensures CreatedInOrder(sessions) ==> NewestFirst(r.body.sessions)
  {
    var list := SessionsNewestFirst(sessions, requester);
    assert CreatedInOrder(sessions) ==> NewestFirst(list) by {
      if CreatedInOrder(sessions) {
        SessionsNewestFirstSorted(sessions, requester);
      }
    }
    Reply(200, SessionList(list))
  }

  /** `getChatSessionById`: a cast failure, then existence (404), then ownership (403). */
  function GetChatSessionById(sessions: seq<ChatSession>, requester: Id, id: IdText): (r: Response)
    ensures id.NotObjectId? ==> r == Reply(500, ErrorBody(CastFailed))
    ensures id.ObjectId? && FindSession(sessions, id.id).None? ==> r == Reply(404, ErrorBody(NotFound))
    ensures id.ObjectId? && FindSession(sessions, id.id).Some? && !OwnedBy(sessions, id.id, requester)
            ==> r == Reply(403, ErrorBody(NotAuthorized))
    ensures r.Reply? && r.status == 200 ==>
              id.ObjectId? && r.body.SessionDoc? && r.body.session in sessions
              && r.body.session.id == id.id && r.body.session.user == requester
  {
    match id
    case NotObjectId => Reply(500, ErrorBody(CastFailed))
    case ObjectId(i) =>
      match FindSession(sessions, i)
      case None => Reply(404, ErrorBody(NotFound))
      case Some(k) =>
        if sessions[k].user != requester then Reply(403, ErrorBody(NotAuthorized))
        else Reply(200, SessionDoc(sessions[k]))
  }

  /** With distinct ids, the requester gets back each of their own sessions by its id, and only those. */
  lemma GetByIdReturnsOwnSession(sessions: seq<ChatSession>, requester: Id, k: nat)
    requires DistinctSessionIds(sessions)
    requires k < |sessions|
    ensures sessions[k].user == requester
            <==> GetChatSessionById(sessions, requester, ObjectId(sessions[k].id)) == Reply(200, SessionDoc(sessions[k]))
    ensures sessions[k].user != requester
            ==> GetChatSessionById(sessions, requester, ObjectId(sessions[k].id)) == Reply(403, ErrorBody(NotAuthorized))
  {
    var f := FindSession(sessions, sessions[k].id);
    assert f.Some?;
    assert f.value == k;
  }
}
