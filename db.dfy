/**
 * The document store the controllers use through Mongoose, reduced to one atomic step per
 * call: four collections, a clock that advances with every insert (`Date.now` defaults),
 * and a counter that hands out fresh ObjectIds.
 */
module Db {
  import opened Common
  import opened Models

  /** The position of the first element satisfying `p`, the document a `findOne` query returns. */
  function FindFirst<T>(s: seq<T>, p: T -> bool): (k: Option<nat>)
    ensures k.Some? ==> k.value < |s| && p(s[k.value]) && forall i :: 0 <= i < k.value ==> !p(s[i])
    ensures k.None? ==> forall i :: 0 <= i < |s| ==> !p(s[i])
  {
    if |s| == 0 then None
    else match FindFirst(s[..|s| - 1], p)
      case Some(k) => Some(k)
      case None => if p(s[|s| - 1]) then Some(|s| - 1) else None
  }

  /** `ChatSession.findById(id)`: the position of the session with that id, if any. */
  function FindSession(sessions: seq<ChatSession>, id: Id): (k: Option<nat>)
    ensures k.Some? ==> k.value < |sessions| && sessions[k.value].id == id
                        && forall i :: 0 <= i < k.value ==> sessions[i].id != id
    ensures k.None? ==> forall i :: 0 <= i < |sessions| ==> sessions[i].id != id
  {
    FindFirst(sessions, (s: ChatSession) => s.id == id)
  }

  /** The session exists and belongs to the requester (`session.user.toString() === req.user.id`). */
  predicate OwnedBy(sessions: seq<ChatSession>, id: Id, requester: Id)
  {
    FindSession(sessions, id).Some? && sessions[FindSession(sessions, id).value].user == requester
  }

  /** `Evaluation.findOne({ session })`: the position of the first evaluation of that session. */
  function FindEvaluation(evaluations: seq<Evaluation>, session: Id): (k: Option<nat>)
    ensures k.Some? ==> k.value < |evaluations| && evaluations[k.value].session == session
                        && forall i :: 0 <= i < k.value ==> evaluations[i].session != session
    ensures k.None? ==> forall i :: 0 <= i < |evaluations| ==> evaluations[i].session != session
  {
    FindFirst(evaluations, (e: Evaluation) => e.session == session)
  }

  /** `User.findOne({ email })`: the position of the first user with exactly that email. */
  function FindUserByEmail(users: seq<User>, email: string): (k: Option<nat>)
    ensures k.Some? ==> k.value < |users| && users[k.value].email == email
                        && forall i :: 0 <= i < k.value ==> users[i].email != email
    ensures k.None? ==> forall i :: 0 <= i < |users| ==> users[i].email != email
  {
    FindFirst(users, (u: User) => u.email == email)
  }

  /** `Message.find({ session })`: the session's messages, in store order. */
  function MessagesOf(messages: seq<Message>, session: Id): (r: seq<Message>)
    ensures |r| <= |messages|
    ensures forall m :: m in r <==> m in messages && m.session == session
  {
    if |messages| == 0 then []
    else
      var last := messages[|messages| - 1];
      MessagesOf(messages[..|messages| - 1], session) + (if last.session == session then [last] else [])
  }

  /** `ChatSession.find({ user })`, newest first: the user's sessions, last inserted first. */
  function SessionsNewestFirst(sessions: seq<ChatSession>, user: Id): (r: seq<ChatSession>)
    ensures |r| <= |sessions|
    ensures forall s :: s in r <==> s in sessions && s.user == user
  {
    if |sessions| == 0 then []
    else
      var last := sessions[|sessions| - 1];
      (if last.user == user then [last] else []) + SessionsNewestFirst(sessions[..|sessions| - 1], user)
  }

  /** Strictly ascending timestamps, the order of `.sort({ timestamp: 1 })`. */
  predicate Chronological(messages: seq<Message>)
  {
    forall i, j :: 0 <= i < j < |messages| ==> messages[i].timestamp < messages[j].timestamp
  }

  predicate CreatedInOrder(sessions: seq<ChatSession>)
  {
    forall i, j :: 0 <= i < j < |sessions| ==> sessions[i].createdAt < sessions[j].createdAt
  }

  /** Strictly descending creation times, the order of `.sort({ createdAt: -1 })`. */
  predicate NewestFirst(sessions: seq<ChatSession>)
  {
    forall i, j :: 0 <= i < j < |sessions| ==> sessions[i].createdAt > sessions[j].createdAt
  }

  /** Filtering a chronological table keeps it chronological, so the filter is the sorted result. */
  lemma {:induction false} MessagesOfChronological(messages: seq<Message>, session: Id)
    requires Chronological(messages)
    ensures Chronological(MessagesOf(messages, session))
  {
    if |messages| > 0 {
      var front := messages[..|messages| - 1];
      var last := messages[|messages| - 1];
      assert Chronological(front);
      MessagesOfChronological(front, session);
      var r := MessagesOf(messages, session);
      var f := MessagesOf(front, session);
      forall i, j | 0 <= i < j < |r| ensures r[i].timestamp < r[j].timestamp {
        if j >= |f| {
          assert r[j] == last && r[i] == f[i] && f[i] in front;
        }
      }
    }
  }

  /** The newest-first listing of a table kept in creation order is sorted newest first. */
  lemma {:induction false} SessionsNewestFirstSorted(sessions: seq<ChatSession>, user: Id)
    requires CreatedInOrder(sessions)
    ensures NewestFirst(SessionsNewestFirst(sessions, user))
  {
    if |sessions| > 0 {
      var front := sessions[..|sessions| - 1];
      var last := sessions[|sessions| - 1];
      assert CreatedInOrder(front);
      SessionsNewestFirstSorted(front, user);
      var f := SessionsNewestFirst(front, user);
      forall s | s in f ensures s.createdAt < last.createdAt {
        var k :| 0 <= k < |front| && front[k] == s;
        assert sessions[k] == s;
      }
      if last.user == user {
        var r := [last] + f;
        assert SessionsNewestFirst(sessions, user) == r;
        forall i, j | 0 <= i < j < |r| ensures r[i].createdAt > r[j].createdAt {
          assert r[j] == f[j - 1];
          if i > 0 {
            assert r[i] == f[i - 1];
          } else {
            assert f[j - 1] in f;
          }
        }
      } else {
        assert SessionsNewestFirst(sessions, user) == f;
      }
    }
  }

  /** A message appended to the table is the last message of its session. */
  lemma AppendedMessageIsLast(messages: seq<Message>, m: Message)
    ensures MessagesOf(messages + [m], m.session) == MessagesOf(messages, m.session) + [m]
  {
    assert (messages + [m])[..|messages|] == messages;
  }

  /** No two users share an email (the schema's `unique` index). */
  predicate UniqueEmails(users: seq<User>)
  {
    forall i, j :: 0 <= i < j < |users| ==> users[i].email != users[j].email
  }

  /** No two evaluations share a session (the schema's `unique` index). */
  predicate OneEvaluationPerSession(evaluations: seq<Evaluation>)
  {
    forall i, j :: 0 <= i < j < |evaluations| ==> evaluations[i].session != evaluations[j].session
  }

  /** A session's `evaluation` field, once set, names the evaluation stored for that session. */
  predicate EvaluationLinks(sessions: seq<ChatSession>, evaluations: seq<Evaluation>)
  {
    forall i :: 0 <= i < |sessions| && sessions[i].evaluation.Some? ==>
      FindEvaluation(evaluations, sessions[i].id).Some?
      && evaluations[FindEvaluation(evaluations, sessions[i].id).value].id == sessions[i].evaluation.value
  }

  predicate IdsBelow(users: seq<User>, sessions: seq<ChatSession>, messages: seq<Message>,
                     evaluations: seq<Evaluation>, nextId: nat)
  {
    && (forall i :: 0 <= i < |users| ==> users[i].id < nextId)
    && (forall i :: 0 <= i < |sessions| ==> sessions[i].id < nextId)
    && (forall i :: 0 <= i < |messages| ==> messages[i].id < nextId)
    && (forall i :: 0 <= i < |evaluations| ==> evaluations[i].id < nextId)
  }

  predicate DistinctSessionIds(sessions: seq<ChatSession>)
  {
    forall i, j :: 0 <= i < j < |sessions| ==> sessions[i].id != sessions[j].id
  }

  /** Everything the store keeps true between requests. */
  predicate TablesValid(users: seq<User>, sessions: seq<ChatSession>, messages: seq<Message>,
                        evaluations: seq<Evaluation>, clock: nat, nextId: nat)
  {
    && IdsBelow(users, sessions, messages, evaluations, nextId)
    && DistinctSessionIds(sessions)
    && (forall i :: 0 <= i < |messages| ==> messages[i].timestamp < clock)
    && Chronological(messages)
    && (forall i :: 0 <= i < |sessions| ==> sessions[i].createdAt < clock)
    && CreatedInOrder(sessions)
    && UniqueEmails(users)
    && OneEvaluationPerSession(evaluations)
    && EvaluationLinks(sessions, evaluations)
  }

  /** The pre-save hook: a password that was set is replaced by its hash; an absent one stays absent. */
  function StoredPassword(password: Option<string>, hash: (string, string) -> string, salt: string): Option<string>
  {
    match password
    case None => None
    case Some(p) => Some(hash(p, salt))
  }

  const DuplicateKey: string := "E11000 duplicate key error"

  class Database {
    var users: seq<User>
    var sessions: seq<ChatSession>
    var messages: seq<Message>
    var evaluations: seq<Evaluation>
    var clock: nat
    var nextId: nat

    ghost predicate Valid()
      reads this
    {
      TablesValid(users, sessions, messages, evaluations, clock, nextId)
    }

    constructor ()
      ensures Valid()
      ensures users == [] && sessions == [] && messages == [] && evaluations == []
      ensures clock == 0 && nextId == 0
    {
      users, sessions, messages, evaluations := [], [], [], [];
      clock, nextId := 0, 0;
    }

    /** `ChatSession.create({ user, title })` with the schema's defaults. */
    method CreateSession(user: Id, title: string) returns (s: ChatSession)
      requires Valid()
      modifies this
      ensures Valid()
      ensures s == ChatSession(old(nextId), user, title, DefaultBotType, None, old(clock), old(clock), [], None)
      ensures sessions == old(sessions) + [s]
      ensures users == old(users) && messages == old(messages) && evaluations == old(evaluations)
      ensures clock == old(clock) + 1 && nextId == old(nextId) + 1
    {
      s := ChatSession(nextId, user, title, DefaultBotType, None, clock, clock, [], None);
      sessions := sessions + [s];
      clock, nextId := clock + 1, nextId + 1;
      assert forall i :: 0 <= i < |sessions| - 1 ==> sessions[i] == old(sessions)[i];
    }

    /** `Message.create({ session, sender, content })`; the `required` validator rejects empty content. */
    method CreateMessage(session: Id, sender: Sender, content: string) returns (r: Result<Message>)
      requires Valid()
      modifies this
      ensures Valid()
      ensures content == "" ==> r == Failure(MessageContentRequired)
                                && messages == old(messages) && clock == old(clock) && nextId == old(nextId)
      ensures content != "" ==>
                r == Success(Message(old(nextId), session, sender, content, old(clock)))
                && messages == old(messages) + [r.value] && clock == old(clock) + 1 && nextId == old(nextId) + 1
      ensures users == old(users) && sessions == old(sessions) && evaluations == old(evaluations)
    {
      if content == "" {
        return Failure(MessageContentRequired);
      }
      var m := Message(nextId, session, sender, content, clock);
      messages := messages + [m];
      clock, nextId := clock + 1, nextId + 1;
      r := Success(m);
    }

    /**
     * `Evaluation.create({ session, user, rating, comment })`: the validators run first, then
     * the unique index on `session` refuses a second evaluation.
     */
    method CreateEvaluation(session: Id, user: Id, rating: int, comment: Option<string>) returns (r: Result<Evaluation>)
      requires Valid()
      modifies this
      ensures Valid()
      ensures !EvaluationFieldsValid(rating, comment) ==> r == Failure(EvaluationInvalid)
      ensures EvaluationFieldsValid(rating, comment) && FindEvaluation(old(evaluations), session).Some?
              ==> r == Failure(DuplicateKey)
      ensures r.Failure? ==> evaluations == old(evaluations) && clock == old(clock) && nextId == old(nextId)
      ensures EvaluationFieldsValid(rating, comment) && FindEvaluation(old(evaluations), session).None? ==>
                r == Success(Evaluation(old(nextId), session, user, rating, comment, old(clock)))
                && evaluations == old(evaluations) + [r.value] && clock == old(clock) + 1 && nextId == old(nextId) + 1
      ensures users == old(users) && sessions == old(sessions) && messages == old(messages)
    {
      if !EvaluationFieldsValid(rating, comment) {
        return Failure(EvaluationInvalid);
      }
      if FindEvaluation(evaluations, session).Some? {
        return Failure(DuplicateKey);
      }
      var e := Evaluation(nextId, session, user, rating, comment, clock);
      ghost var before := evaluations;
      evaluations := evaluations + [e];
      clock, nextId := clock + 1, nextId + 1;
      assert evaluations[..|before|] == before;
      forall i | 0 <= i < |sessions| && sessions[i].evaluation.Some?
        ensures FindEvaluation(evaluations, sessions[i].id) == FindEvaluation(before, sessions[i].id)
      {
      }
      r := Success(e);
    }

    /** `session.evaluation = id; session.save()` for the session at position `k`. */
    method SetEvaluation(k: nat, evaluation: Id)
      requires Valid()
      requires k < |sessions|
      requires FindEvaluation(evaluations, sessions[k].id).Some?
      requires evaluations[FindEvaluation(evaluations, sessions[k].id).value].id == evaluation
      modifies this
      ensures Valid()
      ensures sessions == old(sessions)[k := old(sessions)[k].(evaluation := Some(evaluation))]
      ensures users == old(users) && messages == old(messages) && evaluations == old(evaluations)
      ensures clock == old(clock) && nextId == old(nextId)
    {
      sessions := sessions[k := sessions[k].(evaluation := Some(evaluation))];
    }

    /**
     * `User.create({ displayName, email, password })`: the email pattern is validated, the
     * unique index on `email` refuses a duplicate, and the pre-save hook stores
     * `hash(password, salt)` in place of a given password (bcrypt with a fresh salt).
     */
    method CreateUser(displayName: Option<string>, email: string, password: Option<string>,
                      hash: (string, string) -> string, salt: string) returns (r: Result<User>)
      requires Valid()
      modifies this
      ensures Valid()
      ensures !EmailMatches(email) ==> r == Failure(EmailInvalid)
      ensures EmailMatches(email) && FindUserByEmail(old(users), email).Some? ==> r == Failure(DuplicateKey)
      ensures r.Failure? ==> users == old(users) && clock == old(clock) && nextId == old(nextId)
      ensures EmailMatches(email) && FindUserByEmail(old(users), email).None? ==>
                r == Success(User(old(nextId), None, displayName, email, None, StoredPassword(password, hash, salt), old(clock)))
                && users == old(users) + [r.value] && clock == old(clock) + 1 && nextId == old(nextId) + 1
      ensures sessions == old(sessions) && messages == old(messages) && evaluations == old(evaluations)
    {
      if !EmailMatches(email) {
        return Failure(EmailInvalid);
      }
      if FindUserByEmail(users, email).Some? {
        return Failure(DuplicateKey);
      }
      var u := User(nextId, None, displayName, email, None, StoredPassword(password, hash, salt), clock);
      users := users + [u];
      clock, nextId := clock + 1, nextId + 1;
      r := Success(u);
    }
  }
}
