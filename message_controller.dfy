/**
 * The handlers of backend/src/controllers/messageController.js. `Send` is what one
 * `sendMessage` request does to the message table; `SendMessage` performs it through the
 * store's inserts, one step at a time as the handler does.
 */
module MessageController {
  import opened Common
  import opened Models
  import opened Db
  import BotInterface
  import Bots
  import BotFactory
  import ReplayBot
  import GeminiBot

  const RequiredFields: string := "Session ID, content and botType are required"
  const NotFoundOrUnauthorized: string := "Chat session not found or unauthorized"

  /** The reply call `sendMessage` makes: the content, the session's history, the bot tag. */
  type BotCall = (string, seq<Message>, string) -> Result<string>

  /** The reply a request gets and the message table it leaves. */
  datatype Outcome = Outcome(response: Response, messages: seq<Message>)

  /** All three body fields are truthy. */
  predicate Accepted(sessionId: Option<IdText>, content: Option<string>, botType: Option<string>)
  {
    sessionId.Some? && Truthy(content) && Truthy(botType)
  }

  /** The request passes the field check and names a session of the requester. */
  predicate Admitted(sessions: seq<ChatSession>, requester: Id,
                     sessionId: Option<IdText>, content: Option<string>, botType: Option<string>)
  {
    Accepted(sessionId, content, botType) && sessionId.value.ObjectId?
    && OwnedBy(sessions, sessionId.value.id, requester)
  }

  /** The user message an admitted request stores first. */
  function UserMessage(sessionId: Option<IdText>, content: Option<string>, clock: nat, nextId: nat): Message
    requires sessionId.Some? && sessionId.value.ObjectId? && content.Some?
  {
    Message(nextId, sessionId.value.id, UserSender, content.value, clock)
  }

  /** The history the bot is given: the session's messages once the user message is stored. */
  function BotHistory(messages: seq<Message>, sessionId: Option<IdText>, content: Option<string>, clock: nat, nextId: nat): seq<Message>
    requires sessionId.Some? && sessionId.value.ObjectId? && content.Some?
  {
    MessagesOf(messages + [UserMessage(sessionId, content, clock, nextId)], sessionId.value.id)
  }

  /** `sendMessage`, as one function of the tables before the request. */
  function Send(sessions: seq<ChatSession>, messages: seq<Message>, clock: nat, nextId: nat, requester: Id,
                sessionId: Option<IdText>, content: Option<string>, botType: Option<string>, botCall: BotCall): (o: Outcome)
    ensures o.response.Reply?
    ensures messages <= o.messages && |o.messages| <= |messages| + 2
  {
    if !Accepted(sessionId, content, botType) then Outcome(Reply(400, ErrorBody(RequiredFields)), messages)
    else match sessionId.value
      case NotObjectId => Outcome(Reply(500, ErrorBody(CastFailed)), messages)
      case ObjectId(sid) =>
        if !OwnedBy(sessions, sid, requester) then Outcome(Reply(404, ErrorBody(NotFoundOrUnauthorized)), messages)
        else
          var u := UserMessage(sessionId, content, clock, nextId);
          var stored := messages + [u];
          match botCall(content.value, BotHistory(messages, sessionId, content, clock, nextId), botType.value)
          case Failure(e) => Outcome(Reply(500, ErrorBody(e)), stored)
          case Success(reply) =>
            if reply == "" then Outcome(Reply(500, ErrorBody(MessageContentRequired)), stored)
            else
              var b := Message(nextId + 1, sid, BotSender, reply, clock + 1);
              Outcome(Reply(201, Exchange(u, b)), stored + [b])
  }

  /** `sendMessage` over the store: the field check, the ownership check, two inserts around the bot call. */
  method SendMessage(db: Database, requester: Id, sessionId: Option<IdText>, content: Option<string>,
                     botType: Option<string>, botCall: BotCall) returns (r: Response)
    requires db.Valid()
    modifies db
    ensures db.Valid()
    ensures Outcome(r, db.messages)
            == Send(old(db.sessions), old(db.messages), old(db.clock), old(db.nextId), requester,
                    sessionId, content, botType, botCall)
    ensures db.users == old(db.users) && db.sessions == old(db.sessions) && db.evaluations == old(db.evaluations)
    ensures db.clock == old(db.clock) + (|db.messages| - |old(db.messages)|)
    ensures db.nextId == old(db.nextId) + (|db.messages| - |old(db.messages)|)
  {
    if sessionId.None? || !Truthy(content) || !Truthy(botType) {
      return Reply(400, ErrorBody(RequiredFields));
    }
    match sessionId.value {
      case NotObjectId =>
        return Reply(500, ErrorBody(CastFailed));
      case ObjectId(sid) =>
        var k := FindSession(db.sessions, sid);
        if k.None? || db.sessions[k.value].user != requester {
          return Reply(404, ErrorBody(NotFoundOrUnauthorized));
        }
        var created := db.CreateMessage(sid, UserSender, content.value);
        var userMessage := created.value;
        var history := MessagesOf(db.messages, sid);
        var reply := botCall(content.value, history, botType.value);
        if reply.Failure? {
          return Reply(500, ErrorBody(reply.error));
        }
        var botCreated := db.CreateMessage(sid, BotSender, reply.value);
        if botCreated.Failure? {
          return Reply(500, ErrorBody(botCreated.error));
        }
        r := Reply(201, Exchange(userMessage, botCreated.value));
    }
  }

  /** A request missing a field, or with one that is empty, gets 400 before any lookup and stores nothing. */
  lemma IncompleteRequestStoresNothing(sessions: seq<ChatSession>, messages: seq<Message>, clock: nat, nextId: nat,
                                       requester: Id, sessionId: Option<IdText>, content: Option<string>,
                                       botType: Option<string>, botCall: BotCall)
    requires !Accepted(sessionId, content, botType)
    ensures Send(sessions, messages, clock, nextId, requester, sessionId, content, botType, botCall)
            == Outcome(Reply(400, ErrorBody(RequiredFields)), messages)
  {
  }

  /**
   * A session that does not exist and a session of someone else get the same 404, and no
   * message is stored.
   */
  lemma ForeignSessionLooksMissing(sessions: seq<ChatSession>, messages: seq<Message>, clock: nat, nextId: nat,
                                   requester: Id, sid: Id, content: Option<string>,
                                   botType: Option<string>, botCall: BotCall)
    requires Truthy(content) && Truthy(botType)
    requires FindSession(sessions, sid).None? || sessions[FindSession(sessions, sid).value].user != requester
    ensures Send(sessions, messages, clock, nextId, requester, Some(ObjectId(sid)), content, botType, botCall)
            == Outcome(Reply(404, ErrorBody(NotFoundOrUnauthorized)), messages)
  {
  }

  /**
   * A 201 reply means the request was admitted and exactly two messages were appended to
   * that session: the user's content, then the bot's reply.
   */
  lemma {:induction false} SuccessStoresTheExchange(sessions: seq<ChatSession>, messages: seq<Message>, clock: nat, nextId: nat,
                                  requester: Id, sessionId: Option<IdText>, content: Option<string>,
                                  botType: Option<string>, botCall: BotCall)
    requires Send(sessions, messages, clock, nextId, requester, sessionId, content, botType, botCall).response.status == 201
    ensures Admitted(sessions, requester, sessionId, content, botType)
    ensures var o := Send(sessions, messages, clock, nextId, requester, sessionId, content, botType, botCall);
            var reply := botCall(content.value, BotHistory(messages, sessionId, content, clock, nextId), botType.value);
            && o.response.body.Exchange?
            && var u := o.response.body.userMessage;
            && var b := o.response.body.botMessage;
            && o.messages == messages + [u, b]
            && u.session == sessionId.value.id && u.sender == UserSender && u.content == content.value
            && b.session == sessionId.value.id && b.sender == BotSender
            && reply.Success? && b.content == reply.value && b.content != ""
            && u.timestamp < b.timestamp
  {
    var o := Send(sessions, messages, clock, nextId, requester, sessionId, content, botType, botCall);
    assert o.messages == messages + [o.response.body.userMessage] + [o.response.body.botMessage];
  }

  /**
   * A 201 comes exactly when the request is admitted and the bot answers with a non-empty
   * reply.
   */
  lemma Gives201Exactly(sessions: seq<ChatSession>, messages: seq<Message>, clock: nat, nextId: nat,
                        requester: Id, sessionId: Option<IdText>, content: Option<string>,
                        botType: Option<string>, botCall: BotCall)
    ensures Send(sessions, messages, clock, nextId, requester, sessionId, content, botType, botCall).response.status == 201
            <==> Admitted(sessions, requester, sessionId, content, botType)
                 && var reply := botCall(content.value, BotHistory(messages, sessionId, content, clock, nextId), botType.value);
                 reply.Success? && reply.value != ""
  {
  }

  /**
   * An admitted request whose bot answers with a non-empty reply gets 201 with the two new
   * messages, and exactly those two are appended: the user's at the clock, the bot's one tick later.
   */
  lemma AdmittedReplyGives201(sessions: seq<ChatSession>, messages: seq<Message>, clock: nat, nextId: nat,
                              requester: Id, sessionId: Option<IdText>, content: Option<string>,
                              botType: Option<string>, botCall: BotCall)
    requires Admitted(sessions, requester, sessionId, content, botType)
    requires var reply := botCall(content.value, BotHistory(messages, sessionId, content, clock, nextId), botType.value);
             reply.Success? && reply.value != ""
    ensures var reply := botCall(content.value, BotHistory(messages, sessionId, content, clock, nextId), botType.value);
            var u := UserMessage(sessionId, content, clock, nextId);
            var b := Message(nextId + 1, sessionId.value.id, BotSender, reply.value, clock + 1);
            Send(sessions, messages, clock, nextId, requester, sessionId, content, botType, botCall)
            == Outcome(Reply(201, Exchange(u, b)), messages + [u, b])
  {
    var reply := botCall(content.value, BotHistory(messages, sessionId, content, clock, nextId), botType.value);
    var u := UserMessage(sessionId, content, clock, nextId);
    var b := Message(nextId + 1, sessionId.value.id, BotSender, reply.value, clock + 1);
    assert messages + [u] + [b] == messages + [u, b];
  }

  /**
   * An admitted request whose bot answers with an empty reply gets 500 from the message
   * model's `required` check; the user message stays stored and no bot message is.
   */
  lemma EmptyReplyKeepsUserMessage(sessions: seq<ChatSession>, messages: seq<Message>, clock: nat, nextId: nat,
                                   requester: Id, sessionId: Option<IdText>, content: Option<string>,
                                   botType: Option<string>, botCall: BotCall)
    requires Admitted(sessions, requester, sessionId, content, botType)
    requires botCall(content.value, BotHistory(messages, sessionId, content, clock, nextId), botType.value) == Success("")
    ensures Send(sessions, messages, clock, nextId, requester, sessionId, content, botType, botCall)
            == Outcome(Reply(500, ErrorBody(MessageContentRequired)), messages + [UserMessage(sessionId, content, clock, nextId)])
  {
  }

  /**
   * When the bot call fails, the user message stays stored, no bot message is stored, and the
   * reply is 500 with the error's text.
   */
  lemma BotFailureKeepsUserMessage(sessions: seq<ChatSession>, messages: seq<Message>, clock: nat, nextId: nat,
                                   requester: Id, sessionId: Option<IdText>, content: Option<string>,
                                   botType: Option<string>, botCall: BotCall)
    requires Admitted(sessions, requester, sessionId, content, botType)
    requires botCall(content.value, BotHistory(messages, sessionId, content, clock, nextId), botType.value).Failure?
    ensures Send(sessions, messages, clock, nextId, requester, sessionId, content, botType, botCall)
            == Outcome(Reply(500, ErrorBody(botCall(content.value, BotHistory(messages, sessionId, content, clock, nextId), botType.value).error)),
                       messages + [UserMessage(sessionId, content, clock, nextId)])
  {
  }

  /**
   * The history given to the bot is that session's stored messages followed by the new user
   * message, in ascending timestamp order when the table is.
   */
  lemma HistoryEndsWithUserMessage(messages: seq<Message>, sessionId: Option<IdText>, content: Option<string>, clock: nat, nextId: nat)
    requires sessionId.Some? && sessionId.value.ObjectId? && content.Some?
    requires Chronological(messages)
    requires forall i :: 0 <= i < |messages| ==> messages[i].timestamp < clock
    ensures var u := UserMessage(sessionId, content, clock, nextId);
            var h := BotHistory(messages, sessionId, content, clock, nextId);
            h == MessagesOf(messages, sessionId.value.id) + [u] && Chronological(h)
  {
    var u := UserMessage(sessionId, content, clock, nextId);
    AppendedMessageIsLast(messages, u);
    var all := messages + [u];
    assert Chronological(all) by {
      forall i, j | 0 <= i < j < |all| ensures all[i].timestamp < all[j].timestamp {
        if j == |messages| {
          assert all[i] == messages[i];
        }
      }
    }
    MessagesOfChronological(all, sessionId.value.id);
  }

  /** Appending a message of one session leaves every other session's messages as they were. */
  lemma OtherSessionUnaffected(messages: seq<Message>, m: Message, other: Id)
    requires m.session != other
    ensures MessagesOf(messages + [m], other) == MessagesOf(messages, other)
  {
    assert (messages + [m])[..|messages|] == messages;
  }

  /** A request never changes the messages of any session other than the one it names. */
  lemma {:induction false} SendTouchesOnlyItsSession(sessions: seq<ChatSession>, messages: seq<Message>, clock: nat, nextId: nat,
                                   requester: Id, sessionId: Option<IdText>, content: Option<string>,
                                   botType: Option<string>, botCall: BotCall, other: Id)
    requires !(sessionId.Some? && sessionId.value.ObjectId? && sessionId.value.id == other)
    ensures MessagesOf(Send(sessions, messages, clock, nextId, requester, sessionId, content, botType, botCall).messages, other)
            == MessagesOf(messages, other)
  {
    var o := Send(sessions, messages, clock, nextId, requester, sessionId, content, botType, botCall);
    if o.messages != messages {
      var u := UserMessage(sessionId, content, clock, nextId);
      OtherSessionUnaffected(messages, u, other);
      if |o.messages| == |messages| + 2 {
        var b := o.messages[|messages| + 1];
        assert o.messages == messages + [u] + [b];
        OtherSessionUnaffected(messages + [u], b, other);
      } else {
        assert o.messages == messages + [u];
      }
    }
  }

  /** `getMessagesBySession`: the same 404 rule, then exactly that session's messages. */
  function GetMessagesBySession(sessions: seq<ChatSession>, messages: seq<Message>, requester: Id, sessionId: IdText): (r: Response)
    ensures sessionId.NotObjectId? ==> r == Reply(500, ErrorBody(CastFailed))
    ensures sessionId.ObjectId? && !OwnedBy(sessions, sessionId.id, requester)
            ==> r == Reply(404, ErrorBody(NotFoundOrUnauthorized))
    ensures sessionId.ObjectId? && OwnedBy(sessions, sessionId.id, requester) ==>
              r.Reply? && r.status == 200 && r.body.MessageList?
              && (forall m :: m in r.body.messages <==> m in messages && m.session == sessionId.id)
              && (Chronological(messages) ==> Chronological(r.body.messages))
  {
    match sessionId
    case NotObjectId => Reply(500, ErrorBody(CastFailed))
    case ObjectId(sid) =>
      if !OwnedBy(sessions, sid, requester) then Reply(404, ErrorBody(NotFoundOrUnauthorized))
      else
        var list := MessagesOf(messages, sid);
        assert Chronological(messages) ==> Chronological(list) by {
          if Chronological(messages) {
            MessagesOfChronological(messages, sid);
          }
        }
        Reply(200, MessageList(list))
  }

  // The bot call as the handler is written, and as it is evidently meant to be.

  /** Calling the `generateBotResponse` binding, which the utility module does not export, throws. */
  const NotAFunction: string := "generateBotResponse is not a function"

  function UnboundImport(content: string, history: seq<Message>, botType: string): Result<string>
  {
    Failure(NotAFunction)
  }

  /**
   * As written, no admitted request ever gets a bot reply: each one answers 500 and leaves an
   * orphan user message behind.
   */
  lemma AsWrittenNeverReplies(sessions: seq<ChatSession>, messages: seq<Message>, clock: nat, nextId: nat,
                              requester: Id, sessionId: Option<IdText>, content: Option<string>, botType: Option<string>)
    ensures Send(sessions, messages, clock, nextId, requester, sessionId, content, botType, UnboundImport).response.status != 201
    ensures Admitted(sessions, requester, sessionId, content, botType) ==>
              Send(sessions, messages, clock, nextId, requester, sessionId, content, botType, UnboundImport)
              == Outcome(Reply(500, ErrorBody(NotAFunction)), messages + [UserMessage(sessionId, content, clock, nextId)])
  {
  }

  /** A stored message as the bots read a history entry: it has a sender and content but no role. */
  function AsEntry(m: Message): (e: BotInterface.Entry)
    ensures BotInterface.SentByUser(e) <==> m.sender == UserSender
    ensures !BotInterface.RoleIsUser(e)
  {
    BotInterface.Entry(Some(SenderName(m.sender)), None, Some(m.content))
  }

  function AsHistory(history: seq<Message>): (h: seq<BotInterface.Entry>)
    ensures |h| == |history| && forall i :: 0 <= i < |history| ==> h[i] == AsEntry(history[i])
  {
    seq(|history|, i requires 0 <= i < |history| => AsEntry(history[i]))
  }

  /** The evidently intended call: build the bot the tag names and ask it for a reply. */
  function DispatchedReply(env: Env, providers: Bots.Providers, content: string, history: seq<Message>, botType: string): (r: Result<string>)
    ensures BotFactory.CreateBot(botType, env).Failure? ==> r == Failure(BotFactory.CreateBot(botType, env).error)
    ensures BotFactory.CreateBot(botType, env).Success? ==>
              r == Bots.Respond(BotFactory.CreateBot(botType, env).value, content, AsHistory(history), providers)
  {
    match BotFactory.CreateBot(botType, env)
    case Failure(e) => Failure(e)
    case Success(bot) => Bots.Respond(bot, content, AsHistory(history), providers)
  }

  function Dispatched(env: Env, providers: Bots.Providers): BotCall
  {
    (c: string, h: seq<Message>, t: string) => DispatchedReply(env, providers, c, h, t)
  }

  /**
   * With the dispatching call, an admitted request naming the replay bot always gets 201,
   * and the stored bot message is the replay text quoting the user's content.
   */
  lemma CorrectedReplayReplies(sessions: seq<ChatSession>, messages: seq<Message>, clock: nat, nextId: nat,
                               requester: Id, sessionId: Option<IdText>, content: Option<string>,
                               botType: Option<string>, env: Env, providers: Bots.Providers)
    requires Admitted(sessions, requester, sessionId, content, botType)
    requires Lower(botType.value) == "replay"
    ensures var o := Send(sessions, messages, clock, nextId, requester, sessionId, content, botType, Dispatched(env, providers));
            o.response.status == 201 && o.response.body.Exchange?
            && o.response.body.botMessage.content
               == ReplayBot.GenerateResponse(content.value, AsHistory(BotHistory(messages, sessionId, content, clock, nextId)))
  {
    ReplayBot.ResponseEmbedsPrompt(content.value, AsHistory(BotHistory(messages, sessionId, content, clock, nextId)), []);
  }

  /**
   * Stored messages carry no `role`, so the Gemini bot sends every history entry under the
   * model role; only its fixed opening turn is a user turn.
   */
  lemma {:induction false} GeminiSeesOnlyModelTurns(systemPrompt: string, history: seq<Message>)
    ensures var turns := GeminiBot.ReplyHistory(systemPrompt, AsHistory(history));
            turns[0].role == GeminiBot.User
            && forall i :: 1 <= i < |turns| ==> turns[i].role == GeminiBot.Model
  {
    var h := AsHistory(history);
    var turns := GeminiBot.ReplyHistory(systemPrompt, h);
    forall i | 1 <= i < |turns| ensures turns[i].role == GeminiBot.Model {
      assert h[i - 1] == AsEntry(history[i - 1]);
    }
  }
}
