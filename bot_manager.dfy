/** `getBot` of backend/src/services/bots/BotManager.js. */
module BotManager {
  import opened Common
  import opened Bots
  import OpenAIBot
  import GeminiBot
  import BotFactory

  const UnknownPrefix: string := "Unknown bot ID: "

  /** `getBot(botId)`: the same case-insensitive switch as the factory, with its own error text. */
  function GetBot(botId: string, env: Env): (r: Result<Bot>)
    ensures Lower(botId) == "replay" ==> r == Success(Replay)
    ensures !BotFactory.KnownTag(botId) ==> r == Failure(UnknownPrefix + botId)
  {
    var id := Lower(botId);
    if id == "openai" then
      match OpenAIBot.New(env.openaiApiKey, None)
      case Success(config) => Success(OpenAI(config))
      case Failure(e) => Failure(e)
    else if id == "replay" then Success(Replay)
    else if id == "gemini" then
      match GeminiBot.New(env.geminiApiKey)
      case Success(config) => Success(Gemini(config))
      case Failure(e) => Failure(e)
    else Failure(UnknownPrefix + botId)
  }

  /**
   * `getBot` and `createBot` agree on every tag: the same bot, the same key errors, and for
   * an unknown tag an error that differs only in its prefix.
   */
  lemma AgreesWithFactory(tag: string, env: Env)
    ensures BotFactory.KnownTag(tag) ==> GetBot(tag, env) == BotFactory.CreateBot(tag, env)
    ensures !BotFactory.KnownTag(tag) ==>
              GetBot(tag, env) == Failure(UnknownPrefix + tag)
              && BotFactory.CreateBot(tag, env) == Failure(BotFactory.UnknownPrefix + tag)
  {
  }
}
