/** The OpenAI-backed agent of backend/src/services/bots/OpenAIBot.js. */
module OpenAIBot {
  import opened Common
  import opened BotInterface
  import opened BotTitles

  const MissingKeyMessage: string := "OpenAI API key is not provided."
  const ModelName: string := "gpt-4o-mini"
  const TitleMaxTokens: nat := 20

  /** What the constructor keeps: the key handed to the SDK client, and the optional system prompt. */
  datatype Config = Config(apiKey: string, systemPrompt: Option<string>)

  datatype Role = System | User | Assistant

  datatype ChatEntry = ChatEntry(role: Role, content: Option<string>)

  /** The argument of `chat.completions.create`; `maxTokens` is absent for replies. */
  datatype CompletionRequest = CompletionRequest(model: string, messages: seq<ChatEntry>, maxTokens: Option<nat>)

  /**
   * The provider: the content of the first choice, or the error the SDK throws. A completion
   * without content is folded into the error case.
   */
  type Completions = CompletionRequest -> Result<string>

  /** The constructor: it throws unless the key is truthy. */
  function New(apiKey: Option<string>, systemPrompt: Option<string>): (r: Result<Config>)
    ensures r.Success? <==> Truthy(apiKey)
    ensures r.Success? ==> r.value == Config(apiKey.value, systemPrompt)
    ensures r.Failure? ==> r.error == MissingKeyMessage
  {
    if Truthy(apiKey) then Success(Config(apiKey.value, systemPrompt)) else Failure(MissingKeyMessage)
  }

  function RoleOf(e: Entry): Role
  {
    if SentByUser(e) then User else Assistant
  }

  /** The history as chat entries: sender "user" stays 'user', anything else becomes 'assistant'. */
  function HistoryMessages(history: seq<Entry>): (r: seq<ChatEntry>)
    ensures |r| == |history|
    ensures forall i :: 0 <= i < |history| ==>
              r[i].content == history[i].content && (r[i].role == User <==> SentByUser(history[i]))
              && r[i].role != System
  {
    seq(|history|, i requires 0 <= i < |history| => ChatEntry(RoleOf(history[i]), history[i].content))
  }

  /**
   * The message list of a reply request: a system entry exactly when the system prompt is
   * truthy, then one entry per history item in order, then the prompt as a 'user' entry.
   */
  function ReplyMessages(systemPrompt: Option<string>, prompt: string, history: seq<Entry>): (r: seq<ChatEntry>)
    ensures var offset := if Truthy(systemPrompt) then 1 else 0;
            |r| == offset + |history| + 1
            && (Truthy(systemPrompt) ==> r[0] == ChatEntry(System, systemPrompt))
            && (forall i :: offset <= i < |r| ==> r[i].role != System)
            && r[offset..offset + |history|] == HistoryMessages(history)
            && r[|r| - 1] == ChatEntry(User, Some(prompt))
  {
    var head := if Truthy(systemPrompt) then [ChatEntry(System, systemPrompt)] else [];
    var r := head + HistoryMessages(history) + [ChatEntry(User, Some(prompt))];
    assert r[|head|..|head| + |history|] == HistoryMessages(history);
    r
  }

  /** `generateResponse` builds its list by pushing, as the source does. */
  method BuildReplyMessages(systemPrompt: Option<string>, prompt: string, history: seq<Entry>)
    returns (messages: seq<ChatEntry>)
    ensures messages == ReplyMessages(systemPrompt, prompt, history)
  {
    messages := [];
    if Truthy(systemPrompt) {
      messages := messages + [ChatEntry(System, systemPrompt)];
    }
    ghost var head := messages;
    var i := 0;
    while i < |history|
      invariant 0 <= i <= |history|
      invariant messages == head + HistoryMessages(history[..i])
    {
      assert HistoryMessages(history[..i + 1]) == HistoryMessages(history[..i]) + [ChatEntry(RoleOf(history[i]), history[i].content)];
      messages := messages + [ChatEntry(RoleOf(history[i]), history[i].content)];
      i := i + 1;
    }
    assert history[..i] == history;
    messages := messages + [ChatEntry(User, Some(prompt))];
  }

  function ReplyRequest(config: Config, prompt: string, history: seq<Entry>): CompletionRequest
  {
    CompletionRequest(ModelName, ReplyMessages(config.systemPrompt, prompt, history), None)
  }

  /** `generateResponse`: whatever the provider answers to the request; a provider error propagates. */
  method GenerateResponse(config: Config, prompt: string, history: seq<Entry>, complete: Completions)
    returns (r: Result<string>)
    ensures r == complete(ReplyRequest(config, prompt, history))
  {
    var messages := BuildReplyMessages(config.systemPrompt, prompt, history);
    r := complete(CompletionRequest(ModelName, messages, None));
  }

  /** The title request: the mapped history followed by the one instruction entry, capped at 20 tokens. */
  function TitleRequest(history: seq<Entry>): (r: CompletionRequest)
    ensures r.model == ModelName && r.maxTokens == Some(TitleMaxTokens)
    ensures |r.messages| == |history| + 1
    ensures r.messages[..|history|] == HistoryMessages(history)
    ensures r.messages[|history|] == ChatEntry(User, Some(TitleInstruction))
  {
    var messages := HistoryMessages(history) + [ChatEntry(User, Some(TitleInstruction))];
    assert messages[..|history|] == HistoryMessages(history);
    CompletionRequest(ModelName, messages, Some(TitleMaxTokens))
  }

  /**
   * `generateTitle`: "Chat Session" without a provider call when there is no first content,
   * and also whenever the provider fails; otherwise the provider's text, cleaned.
   */
  function GenerateTitle(history: seq<Entry>, complete: Completions): (title: string)
    ensures !(|history| > 0 && Truthy(history[0].content)) ==> title == FallbackTitle
    ensures |history| > 0 && Truthy(history[0].content) ==>
              match complete(TitleRequest(history))
              case Failure(_) => title == FallbackTitle
              case Success(text) => title == CleanTitle(text)
  {
    var messages := HistoryMessages(history);
    if |messages| == 0 || !Truthy(messages[0].content) then FallbackTitle
    else
      match complete(TitleRequest(history))
      case Failure(_) => FallbackTitle
      case Success(text) => CleanTitle(text)
  }

  /** Without a system prompt, no entry of a reply request has the system role. */
  lemma NoSystemPromptNoSystemEntry(config: Config, prompt: string, history: seq<Entry>)
    requires !Truthy(config.systemPrompt)
    ensures forall e :: e in ReplyRequest(config, prompt, history).messages ==> e.role != System
  {
    var m := ReplyRequest(config, prompt, history).messages;
    forall e | e in m ensures e.role != System {
      var i :| 0 <= i < |m| && m[i] == e;
    }
  }
}
