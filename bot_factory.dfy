/** `BotFactory.createBot` of backend/src/services/bots/BotFactory.js. */
module BotFactory {
  import opened Common
  import opened Bots
  import OpenAIBot
  import GeminiBot

  const UnknownPrefix: string := "Unknown bot type: "

  /** The tags the dispatch knows, after lowercasing. */
  predicate KnownTag(tag: string)
  {
    var t := Lower(tag);
    t == "replay" || t == "openai" || t == "gemini"
  }

  /**
   * `createBot(botType)`: the variant named by the lowercased tag, its key read from the
   * environment and no system prompt; an unknown tag fails with the tag as given.
   */
  function CreateBot(botType: string, env: Env): (r: Result<Bot>)
    ensures Lower(botType) == "replay" ==> r == Success(Replay)
    ensures Lower(botType) == "openai" ==>
              (r.Success? <==> Truthy(env.openaiApiKey))
              && (r.Success? ==> r.value == OpenAI(OpenAIBot.Config(env.openaiApiKey.value, None)))
              && (r.Failure? ==> r.error == OpenAIBot.MissingKeyMessage)
    ensures Lower(botType) == "gemini" ==>
              (r.Success? <==> Truthy(env.geminiApiKey))
              && (r.Success? ==> r.value == Gemini(GeminiBot.Config(env.geminiApiKey.value)))
              && (r.Failure? ==> r.error == GeminiBot.MissingKeyMessage)
    ensures !KnownTag(botType) ==> r == Failure(UnknownPrefix + botType)
  {
    var tag := Lower(botType);
    if tag == "replay" then Success(Replay)
    else if tag == "openai" then
      match OpenAIBot.New(env.openaiApiKey, None)
      case Success(config) => Success(OpenAI(config))
      case Failure(e) => Failure(e)
    else if tag == "gemini" then
      match GeminiBot.New(env.geminiApiKey)
      case Success(config) => Success(Gemini(config))
      case Failure(e) => Failure(e)
    else Failure(UnknownPrefix + botType)
  }

  /** Tags that differ only in the case of their letters build the same bot. */
  lemma {:induction false} CreateBotIgnoresCase(a: string, b: string, env: Env)
    requires Lower(a) == Lower(b) && KnownTag(a)
    ensures CreateBot(a, env) == CreateBot(b, env)
  {
  }

  /** The replay tag, in any case, never fails: it needs no key. */
  lemma ReplayAlwaysBuilds(botType: string, env: Env)
    requires Lower(botType) == "replay"
    ensures CreateBot(botType, env).Success?
  {
  }

  /** Every built OpenAI bot sends reply requests without a system entry. */
  lemma FactoryOpenAIHasNoSystemEntry(botType: string, env: Env, prompt: string, history: seq<BotInterface.Entry>)
    requires CreateBot(botType, env).Success? && CreateBot(botType, env).value.OpenAI?
    ensures forall e :: e in OpenAIBot.ReplyRequest(CreateBot(botType, env).value.openai, prompt, history).messages
                        ==> e.role != OpenAIBot.System
  {
    OpenAIBot.NoSystemPromptNoSystemEntry(CreateBot(botType, env).value.openai, prompt, history);
  }
}
