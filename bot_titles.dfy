/**
 * The title helpers that backend/src/services/bots/OpenAIBot.js and GeminiBot.js each define
 * in the same words: the instruction sent with the history, the fallback title and the
 * clean-up of the provider's text.
 */
module BotTitles {
  import opened Common

  /** The instruction both provider-backed bots send when asking for a title. */
  const TitleInstruction: string :=
    "Por favor, resuma a conversa acima em um título curto e conciso (com menos de 10 palavras). Não inclua frases conversacionais ou saudações. Apenas o título."

  /** The title both provider-backed bots fall back to. */
  const FallbackTitle: string := "Chat Session"

  /** Drops a pair of `q` characters around `t`; a lone `q` becomes empty, as `slice(1, -1)` does. */
  function StripPair(t: string, q: char): (r: string)
    ensures |t| >= 2 && t[0] == q && t[|t| - 1] == q ==> t == [q] + r + [q]
    ensures t == [q] ==> r == ""
    ensures !(|t| > 0 && t[0] == q && t[|t| - 1] == q) ==> r == t
  {
    if |t| > 0 && t[0] == q && t[|t| - 1] == q then
      if |t| >= 2 then t[1..|t| - 1] else ""
    else t
  }

  /**
   * The title clean-up of both provider-backed bots: trim, then drop surrounding double
   * quotes, then surrounding single quotes. It never lengthens the trimmed text.
   */
  function CleanTitle(raw: string): (title: string)
    ensures |title| <= |Trim(raw)| <= |title| + 4
  {
    StripPair(StripPair(Trim(raw), '"'), '\'')
  }

  /** The cleaned title is a piece of the trimmed text with at most two characters dropped at each end. */
  lemma CleanTitleIsPiece(raw: string)
    ensures var t := Trim(raw);
            exists i :: 0 <= i <= 2 && i + |CleanTitle(raw)| <= |t| && StartsWith(t[i..], CleanTitle(raw))
  {
    var t := Trim(raw);
    var once := StripPair(t, '"');
    var twice := StripPair(once, '\'');
    var i: nat := if once == t || once == "" then 0 else 1;
    assert i + |once| <= |t| && StartsWith(t[i..], once);
    if twice == once {
      assert StartsWith(t[i..], twice);
    } else if twice == "" {
      assert StartsWith(t[0..], twice);
    } else {
      assert twice == once[1..|once| - 1];
      assert t[i..][1..] == t[i + 1..];
      assert StartsWith(t[i + 1..], twice);
    }
  }

  /** A title that the provider already returned clean comes back unchanged. */
  lemma CleanTitleKeepsPlainText(raw: string)
    requires raw != [] && !IsJsSpace(raw[0]) && !IsJsSpace(raw[|raw| - 1])
    requires raw[0] != '"' && raw[0] != '\''
    ensures CleanTitle(raw) == raw
  {
    TrimStartFixed(raw);
    TrimEndFixed(raw);
  }

  /** A double-quoted title loses exactly its quotes. */
  lemma CleanTitleDropsDoubleQuotes(inner: string)
    requires inner == [] || (!IsJsSpace(inner[0]) && !IsJsSpace(inner[|inner| - 1]))
    requires inner == [] || inner[0] != '\''
    ensures CleanTitle("\"" + inner + "\"") == inner
  {
    var raw := "\"" + inner + "\"";
    TrimStartFixed(raw);
    TrimEndFixed(raw);
    assert raw[1..|raw| - 1] == inner;
  }
}
