/**
 * The closed family of agents the backend builds: the subclasses of BotInterface
 * (backend/src/services/bots/BotInterface.js), one constructor per variant.
 */
module Bots {
  import opened Common
  import opened BotInterface
  import ReplayBot
  import OpenAIBot
  import GeminiBot

  datatype Bot = Replay | OpenAI(openai: OpenAIBot.Config) | Gemini(gemini: GeminiBot.Config)

  /** The two provider SDKs, as the oracles the provider-backed variants call. */
  datatype Providers = Providers(completions: OpenAIBot.Completions, chat: GeminiBot.Chat)

  /** `bot.generateResponse(prompt, history)`, one arm per variant. */
  function Respond(bot: Bot, prompt: string, history: seq<Entry>, providers: Providers): (r: Result<string>)
    ensures bot.Replay? ==> r == Success(ReplayBot.GenerateResponse(prompt, history))
    ensures bot.OpenAI? ==> r == providers.completions(OpenAIBot.ReplyRequest(bot.openai, prompt, history))
    ensures bot.Gemini? ==> r == GeminiBot.Reply(prompt, history, providers.chat)
  {
    match bot
    case Replay => Success(ReplayBot.GenerateResponse(prompt, history))
    case OpenAI(config) => providers.completions(OpenAIBot.ReplyRequest(config, prompt, history))
    case Gemini(_) => GeminiBot.Reply(prompt, history, providers.chat)
  }

  /** The same dispatch through the variants' own step-by-step implementations. */
  method GenerateResponse(bot: Bot, prompt: string, history: seq<Entry>, providers: Providers) returns (r: Result<string>)
    ensures r == Respond(bot, prompt, history, providers)
  {
    match bot {
      case Replay =>
        r := Success(ReplayBot.GenerateResponse(prompt, history));
      case OpenAI(config) =>
        r := OpenAIBot.GenerateResponse(config, prompt, history, providers.completions);
      case Gemini(config) =>
        r := GeminiBot.GenerateResponse(config, prompt, history, providers.chat);
    }
  }

  /** `bot.generateTitle(history)`; it never fails. */
  function Title(bot: Bot, history: seq<Entry>, providers: Providers): (title: string)
    ensures bot.Replay? ==> title == ReplayBot.GenerateTitle(history)
    ensures bot.OpenAI? ==> title == OpenAIBot.GenerateTitle(history, providers.completions)
    ensures bot.Gemini? ==> title == GeminiBot.GenerateTitle(history, providers.chat)
  {
    match bot
    case Replay => ReplayBot.GenerateTitle(history)
    case OpenAI(_) => OpenAIBot.GenerateTitle(history, providers.completions)
    case Gemini(_) => GeminiBot.GenerateTitle(history, providers.chat)
  }

  /** The replay and Gemini variants never answer with an empty reply; only the OpenAI provider can. */
  lemma NonEmptyReplies(bot: Bot, prompt: string, history: seq<Entry>, providers: Providers)
    requires !bot.OpenAI?
    ensures Respond(bot, prompt, history, providers).Success?
            ==> Respond(bot, prompt, history, providers).value != ""
  {
  }
}
