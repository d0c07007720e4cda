/**
 * The stored records of backend/src/models/ (ChatSession.js, Message.js, Evaluation.js,
 * User.js) with their defaults and validators, and the HTTP replies of the controllers.
 */
module Models {
  import opened Common

  /** A document identity (an ObjectId); the store hands them out in increasing order. */
  type Id = nat

  /**
   * A request's id text as `findById` casts it: a valid ObjectId, or non-empty text it cannot
   * cast. An id field that is absent or empty is `None` in an `Option<IdText>`: both are
   * falsy, so the handlers refuse them with 400 before any cast is tried.
   */
  datatype IdText = ObjectId(id: Id) | NotObjectId

  datatype Sender = UserSender | BotSender

  function SenderName(s: Sender): string
  {
    match s
    case UserSender => "user"
    case BotSender => "bot"
  }

  const DefaultTitle: string := "New Chat"
  const DefaultBotType: string := "openai"

  datatype ChatSession = ChatSession(
    id: Id, user: Id, title: string, botType: string, promptId: Option<Id>,
    createdAt: nat, updatedAt: nat, messages: seq<Id>, evaluation: Option<Id>)

  /** The schema declares no `user` or `botType` field, so those values passed to `create` are not stored. */
  datatype Message = Message(id: Id, session: Id, sender: Sender, content: string, timestamp: nat)

  datatype Evaluation = Evaluation(id: Id, session: Id, user: Id, rating: int, comment: Option<string>, createdAt: nat)

  datatype User = User(
    id: Id, googleId: Option<string>, displayName: Option<string>, email: string,
    photo: Option<string>, password: Option<string>, createdAt: nat)

  /** The `required` validator of a string path rejects the empty string. */
  const MessageContentRequired: string := "Message validation failed: content: Path `content` is required."

  const RatingMin: int := 1
  const RatingMax: int := 5
  const CommentMaxLength: nat := 500
  const EvaluationInvalid: string := "Evaluation validation failed"

  /** The Evaluation schema's `min`, `max` and `maxlength` validators; JavaScript lengths count UTF-16 units. */
  predicate EvaluationFieldsValid(rating: int, comment: Option<string>)
  {
    RatingMin <= rating <= RatingMax && (comment.None? || Utf16Length(comment.value) <= CommentMaxLength)
  }

  const EmailInvalid: string := "User validation failed: email: Please enter a valid email address"

  /** The characters the regular-expression `.` does not match. */
  predicate IsLineTerminator(c: char)
  {
    c == '\n' || c == '\r' || c == '\U{2028}' || c == '\U{2029}'
  }

  /** No line break in `s[i..j]`. */
  predicate NoLineBreak(s: string, i: int, j: int)
    requires 0 <= i <= j <= |s|
  {
    forall k :: i <= k < j ==> !IsLineTerminator(s[k])
  }

  /** After the `@` at `at`: at least one character, a `.`, and a character after it, no line break in between. */
  predicate DomainAfter(s: string, at: nat)
  {
    exists dot :: at + 2 <= dot && dot + 2 <= |s| && s[dot] == '.' && !IsLineTerminator(s[dot + 1])
                  && NoLineBreak(s, at + 1, dot)
  }

  /** The User schema's `match: /.+@.+\..+/`, which is not anchored. */
  predicate EmailMatches(s: string)
  {
    exists at :: 1 <= at < |s| && s[at] == '@' && !IsLineTerminator(s[at - 1]) && DomainAfter(s, at)
  }

  /** Every accepted email has an `@` after its first character and, two or more places later, a `.` that is not last. */
  lemma EmailHasAtAndDot(s: string)
    requires EmailMatches(s)
    ensures exists at, dot :: 1 <= at && at + 2 <= dot && dot + 2 <= |s| && s[at] == '@' && s[dot] == '.'
  {
    var at :| 1 <= at < |s| && s[at] == '@' && !IsLineTerminator(s[at - 1]) && DomainAfter(s, at);
    var dot :| at + 2 <= dot && dot + 2 <= |s| && s[dot] == '.' && !IsLineTerminator(s[dot + 1])
               && NoLineBreak(s, at + 1, dot);
    assert s[at] == '@' && s[dot] == '.';
  }

  /** On text without line breaks the pattern asks for exactly that shape, so the converse holds too. */
  lemma SingleLineEmailMatches(s: string, at: nat, dot: nat)
    requires forall k :: 0 <= k < |s| ==> !IsLineTerminator(s[k])
    requires 1 <= at && at + 2 <= dot && dot + 2 <= |s| && s[at] == '@' && s[dot] == '.'
    ensures EmailMatches(s)
  {
    assert !IsLineTerminator(s[at - 1]) && !IsLineTerminator(s[dot + 1]);
    assert NoLineBreak(s, at + 1, dot);
    assert DomainAfter(s, at);
  }

  /** The pattern is not anchored: text around an accepted email is accepted too. */
  lemma EmailMatchUnanchored(s: string, before: string, after: string)
    requires EmailMatches(s)
    ensures EmailMatches(before + s + after)
  {
    var t := before + s + after;
    var at :| 1 <= at < |s| && s[at] == '@' && !IsLineTerminator(s[at - 1]) && DomainAfter(s, at);
    var dot :| at + 2 <= dot && dot + 2 <= |s| && s[dot] == '.' && !IsLineTerminator(s[dot + 1])
               && NoLineBreak(s, at + 1, dot);
    var n := |before|;
    assert t[n + at] == '@' && t[n + at - 1] == s[at - 1];
    assert t[n + dot] == '.' && t[n + dot + 1] == s[dot + 1];
    assert NoLineBreak(t, n + at + 1, n + dot) by {
      forall k | n + at + 1 <= k < n + dot ensures !IsLineTerminator(t[k]) {
        assert t[k] == s[k - n];
      }
    }
    assert DomainAfter(t, n + at);
  }

  /** Text with no `@` is refused, like "a.b"; so is "a@b", which has no `.` after the `@`. */
  lemma EmailNeedsAt(s: string)
    requires forall k :: 0 <= k < |s| ==> s[k] != '@'
    ensures !EmailMatches(s)
    ensures !EmailMatches("a@b")
  {
  }

  /** The JSON body of a reply. */
  datatype Body =
    | ErrorBody(message: string)
    | SessionDoc(session: ChatSession)
    | SessionList(sessions: seq<ChatSession>)
    | MessageList(messages: seq<Message>)
    | Exchange(userMessage: Message, botMessage: Message)
    | EvaluationDoc(evaluation: Evaluation)
    | AuthDoc(id: Id, displayName: Option<string>, email: string, token: string)

  /**
   * What a handler does with the response: send a status and body, redirect, or reject its
   * promise without sending anything (an error thrown outside any try block).
   */
  datatype Response = Reply(status: nat, body: Body) | Redirect(location: string) | Unhandled(error: string)

  /** The message Mongoose gives when `findById` cannot cast the id text. */
  const CastFailed: string := "Cast to ObjectId failed"
}
