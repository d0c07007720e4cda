/** The placeholder keyword responder of backend/src/utils/chatbotService.js. */
module ChatbotService {
  import opened Common

  const HelloReply: string := "Hello there! How can I assist you today?"
  const HowAreYouReply: string := "I'm just a bot, but I'm doing great! Thanks for asking."
  const NameReply: string := "I don't have a name. I'm an AI assistant."

  const FallbackOpening: string := "You said: \""
  const FallbackClosing: string := "\". I'm still under development, but I'm learning!"

  /** The reply used when no keyword occurs: it quotes the message as the user wrote it. */
  function Fallback(content: string): string
  {
    FallbackOpening + content + FallbackClosing
  }

  /** `getBotResponse`: the first keyword of "hello", "how are you", "your name" found in the lowercased message decides the reply. */
  function GetBotResponse(content: string): (r: string)
    ensures r == HelloReply || r == HowAreYouReply || r == NameReply || r == Fallback(content)
  {
    var lowered := Lower(content);
    if Contains(lowered, "hello") then HelloReply
    else if Contains(lowered, "how are you") then HowAreYouReply
    else if Contains(lowered, "your name") then NameReply
    else Fallback(content)
  }

  /** No fallback reply coincides with a keyword reply: they begin differently. */
  lemma FallbackIsNotAKeywordReply(content: string)
    ensures Fallback(content) != HelloReply
    ensures Fallback(content) != HowAreYouReply
    ensures Fallback(content) != NameReply
  {
    assert Fallback(content)[0] == 'Y';
  }

  /** "hello" wins over every later keyword. */
  lemma HelloReplyExactly(content: string)
    ensures GetBotResponse(content) == HelloReply <==> Contains(Lower(content), "hello")
  {
    FallbackIsNotAKeywordReply(content);
  }

  /** The "how are you" reply is given exactly when "hello" is absent and "how are you" is present. */
  lemma HowAreYouReplyExactly(content: string)
    ensures GetBotResponse(content) == HowAreYouReply
            <==> !Contains(Lower(content), "hello") && Contains(Lower(content), "how are you")
  {
    FallbackIsNotAKeywordReply(content);
  }

  /** The "your name" reply is given exactly when neither earlier keyword is present and "your name" is. */
  lemma NameReplyExactly(content: string)
    ensures GetBotResponse(content) == NameReply
            <==> !Contains(Lower(content), "hello") && !Contains(Lower(content), "how are you")
                 && Contains(Lower(content), "your name")
  {
    FallbackIsNotAKeywordReply(content);
  }

  /** Without any keyword the reply quotes the original, not the lowercased, message. */
  lemma FallbackQuotesContent(content: string)
    requires !Contains(Lower(content), "hello") && !Contains(Lower(content), "how are you")
    requires !Contains(Lower(content), "your name")
    ensures GetBotResponse(content) == Fallback(content)
    ensures Contains(GetBotResponse(content), content)
  {
    var r := GetBotResponse(content);
    assert StartsWith(r[|FallbackOpening|..], content);
  }

  /** Two messages that lowercase alike and hold a keyword get the same reply. */
  lemma KeywordRepliesIgnoreCase(a: string, b: string)
    requires Lower(a) == Lower(b)
    requires Contains(Lower(a), "hello") || Contains(Lower(a), "how are you") || Contains(Lower(a), "your name")
    ensures GetBotResponse(a) == GetBotResponse(b)
  {
  }
}
