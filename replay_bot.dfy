/** The deterministic stand-in agent of backend/src/services/bots/ReplayBot.js: no provider, no key. */
module ReplayBot {
  import opened Common
  import opened BotInterface

  const ResponseOpening: string := "This is a response from ReplayBot for: \""
  const ResponseClosing: string := "\""
  const FallbackTitle: string := "Replay Chat"
  const TitleLimit: nat := 50
  const Ellipsis: string := "..."

  /** `generateResponse`: the prompt inside a fixed template; the history is logged and otherwise unused. */
  function GenerateResponse(prompt: string, history: seq<Entry>): (r: string)
    ensures |r| == |ResponseOpening| + |prompt| + |ResponseClosing|
    ensures StartsWith(r, ResponseOpening) && r[|ResponseOpening|..|r| - 1] == prompt && r[|r| - 1] == '"'
  {
    ResponseOpening + prompt + ResponseClosing
  }

  /** Reads the prompt back out of a reply of this bot. */
  function PromptOf(reply: string): (prompt: Option<string>)
    ensures prompt.Some? ==> |reply| == |ResponseOpening| + |prompt.value| + |ResponseClosing|
  {
    if |reply| >= |ResponseOpening| + |ResponseClosing| && StartsWith(reply, ResponseOpening)
       && reply[|reply| - 1..] == ResponseClosing
    then Some(reply[|ResponseOpening|..|reply| - 1])
    else None
  }

  /** The reply determines the prompt: reading it back gives the prompt, whatever the history. */
  lemma ResponseRoundTrip(prompt: string, history: seq<Entry>)
    ensures PromptOf(GenerateResponse(prompt, history)) == Some(prompt)
  {
    var r := GenerateResponse(prompt, history);
    assert r[..|ResponseOpening|] == ResponseOpening;
    assert r[|r| - 1..] == ResponseClosing;
    assert r[|ResponseOpening|..|r| - 1] == prompt;
  }

  /** The prompt occurs in the reply, and the reply does not depend on the history. */
  lemma ResponseEmbedsPrompt(prompt: string, h1: seq<Entry>, h2: seq<Entry>)
    ensures Contains(GenerateResponse(prompt, h1), prompt)
    ensures GenerateResponse(prompt, h1) == GenerateResponse(prompt, h2)
  {
    var r := GenerateResponse(prompt, h1);
    assert StartsWith(r[|ResponseOpening|..], prompt);
  }

  /** `generateTitle`: the first message's content cut to 50 characters, with "..." when it was cut. */
  function GenerateTitle(history: seq<Entry>): (title: string)
    ensures !(|history| > 0 && Truthy(history[0].content)) ==> title == FallbackTitle
    ensures |history| > 0 && Truthy(history[0].content) ==>
              var c := history[0].content.value;
              (|c| <= TitleLimit ==> title == c)
              && (|c| > TitleLimit ==> title == c[..TitleLimit] + Ellipsis && |title| == TitleLimit + |Ellipsis|)
  {
    if |history| > 0 && Truthy(history[0].content) then
      var c := history[0].content.value;
      c[..if |c| < TitleLimit then |c| else TitleLimit] + (if |c| > TitleLimit then Ellipsis else "")
    else FallbackTitle
  }

  /** A title taken from the history is a prefix of the first content, maybe followed by "...", and at most 53 characters long. */
  lemma TitleIsBoundedPrefix(history: seq<Entry>)
    requires |history| > 0 && Truthy(history[0].content)
    ensures var c := history[0].content.value;
            var title := GenerateTitle(history);
            |title| <= TitleLimit + |Ellipsis|
            && exists n :: 0 < n <= |c| && n <= TitleLimit
                           && (title == c[..n] || title == c[..n] + Ellipsis)
  {
    var c := history[0].content.value;
    if |c| <= TitleLimit {
      assert GenerateTitle(history) == c[..|c|];
    } else {
      assert GenerateTitle(history) == c[..TitleLimit] + Ellipsis;
    }
  }

  /** Only the first entry of the history matters for the title. */
  lemma TitleReadsFirstEntryOnly(h1: seq<Entry>, h2: seq<Entry>)
    requires |h1| > 0 && |h2| > 0 && h1[0] == h2[0]
    ensures GenerateTitle(h1) == GenerateTitle(h2)
  {
  }
}
