/** The Gemini-backed agent of backend/src/services/bots/GeminiBot.js. */
module GeminiBot {
  import opened Common
  import opened BotInterface
  import opened BotTitles

  const MissingKeyMessage: string := "Gemini API key is not provided."
  const ModelName: string := "gemini-1.5-flash"
  const ReplyMaxTokens: nat := 500
  const TitleMaxTokens: nat := 20

  /** The constructor keeps only the SDK model built from the key; no system prompt is configurable. */
  datatype Config = Config(apiKey: string)

  datatype Role = User | Model

  /** One history turn, `{ role, parts: [{ text }] }`. */
  datatype Turn = Turn(role: Role, text: Option<string>)

  datatype Candidate = Candidate(finishReason: Option<string>)

  /** What the SDK's response offers: `text()`, `promptFeedback.blockReason` and the candidates. */
  datatype Response = Response(text: string, blockReason: Option<string>, candidates: seq<Candidate>)

  /** `startChat({ history, generationConfig: { maxOutputTokens } })` followed by `sendMessage(message)`. */
  datatype ChatRequest = ChatRequest(model: string, history: seq<Turn>, maxOutputTokens: nat, message: string)

  /** The provider: the response to a chat request, or the error the SDK throws. */
  type Chat = ChatRequest -> Result<Response>

  /** The constructor: it throws unless the key is truthy. */
  function New(apiKey: Option<string>): (r: Result<Config>)
    ensures r.Success? <==> Truthy(apiKey)
    ensures r.Success? ==> r.value == Config(apiKey.value)
    ensures r.Failure? ==> r.error == MissingKeyMessage
  {
    if Truthy(apiKey) then Success(Config(apiKey.value)) else Failure(MissingKeyMessage)
  }

  /** The reply history reads the `role` field of each entry, not `sender`. */
  function ReplyRole(e: Entry): Role
  {
    if RoleIsUser(e) then User else Model
  }

  function ReplyTurn(e: Entry): Turn
  {
    Turn(ReplyRole(e), e.content)
  }

  /**
   * The history of a reply request: the fixed prompt as a 'user' turn, then one turn per
   * history entry in order, 'user' exactly when the entry's role field is "user".
   * The prompt is a parameter here; `Reply` passes `SystemPromptContent`.
   */
  function ReplyHistory(systemPrompt: string, history: seq<Entry>): (r: seq<Turn>)
    ensures |r| == 1 + |history|
    ensures r[0] == Turn(User, Some(systemPrompt))
    ensures forall i :: 0 <= i < |history| ==>
              r[i + 1].text == history[i].content && (r[i + 1].role == User <==> RoleIsUser(history[i]))
  {
    [Turn(User, Some(systemPrompt))] + seq(|history|, i requires 0 <= i < |history| => ReplyTurn(history[i]))
  }

  /** `generateResponse` builds the history by pushing, as the source does. */
  method BuildReplyHistory(systemPrompt: string, history: seq<Entry>) returns (messages: seq<Turn>)
    ensures messages == ReplyHistory(systemPrompt, history)
  {
    messages := [Turn(User, Some(systemPrompt))];
    var i := 0;
    while i < |history|
      invariant 0 <= i <= |history|
      invariant |messages| == 1 + i
      invariant messages[0] == Turn(User, Some(systemPrompt))
      invariant forall k :: 0 <= k < i ==> messages[k + 1] == ReplyTurn(history[k])
    {
      messages := messages + [ReplyTurn(history[i])];
      i := i + 1;
    }
  }

  /** The prompt goes out as the chat message; it is not part of the history. */
  function ReplyRequest(systemPrompt: string, prompt: string, history: seq<Entry>): (r: ChatRequest)
    ensures r.history == ReplyHistory(systemPrompt, history) && r.message == prompt
    ensures r.model == ModelName && r.maxOutputTokens == ReplyMaxTokens
  {
    ChatRequest(ModelName, ReplyHistory(systemPrompt, history), ReplyMaxTokens, prompt)
  }

  const Apology: string := "Desculpe, não consegui gerar uma resposta no momento."
  const Retry: string := " Por favor, tente novamente."
  const NoTextClause: string := " Nenhuma resposta textual válida foi gerada."

  function BlockedClause(reason: string): string
  {
    " Motivo: Conteúdo bloqueado por " + reason + "."
  }

  function FinishedClause(reason: string): string
  {
    " Motivo: Geração finalizada com razão: " + reason + "."
  }

  /**
   * The message returned instead of empty text: the apology, then the block reason if there
   * is one, else the first candidate's finish reason if there is one, else a generic clause,
   * then the request to try again.
   */
  function EmptyTextMessage(response: Response): (m: string)
    ensures StartsWith(m, Apology) && |m| >= |Retry| && m[|m| - |Retry|..] == Retry
    ensures Truthy(response.blockReason) ==> m == Apology + BlockedClause(response.blockReason.value) + Retry
    ensures !Truthy(response.blockReason) && |response.candidates| > 0 && Truthy(response.candidates[0].finishReason)
            ==> m == Apology + FinishedClause(response.candidates[0].finishReason.value) + Retry
    ensures !Truthy(response.blockReason) && !(|response.candidates| > 0 && Truthy(response.candidates[0].finishReason))
            ==> m == Apology + NoTextClause + Retry
  {
    var clause :=
      if Truthy(response.blockReason) then BlockedClause(response.blockReason.value)
      else if |response.candidates| > 0 && Truthy(response.candidates[0].finishReason) then
        FinishedClause(response.candidates[0].finishReason.value)
      else NoTextClause;
    Apology + clause + Retry
  }

  /** What `generateResponse` yields: non-empty provider text unchanged, the diagnostic message for empty text, the provider's error otherwise. */
  function Reply(prompt: string, history: seq<Entry>, chat: Chat): (r: Result<string>)
    ensures chat(ReplyRequest(SystemPromptContent, prompt, history)).Failure? ==> r == Failure(chat(ReplyRequest(SystemPromptContent, prompt, history)).error)
    ensures chat(ReplyRequest(SystemPromptContent, prompt, history)).Success? ==>
              var response := chat(ReplyRequest(SystemPromptContent, prompt, history)).value;
              r.Success? && (response.text != "" ==> r.value == response.text)
              && (response.text == "" ==> r.value == EmptyTextMessage(response))
    ensures r.Success? ==> r.value != ""
  {
    match chat(ReplyRequest(SystemPromptContent, prompt, history))
    case Failure(e) => Failure(e)
    case Success(response) =>
      if response.text != "" then Success(response.text) else Success(EmptyTextMessage(response))
  }

  /** `generateResponse`, step by step: build the history, ask, and assemble the diagnostic with `+=`. */
  method GenerateResponse(config: Config, prompt: string, history: seq<Entry>, chat: Chat) returns (r: Result<string>)
    ensures r == Reply(prompt, history, chat)
  {
    var messages := BuildReplyHistory(SystemPromptContent, history);
    var result := chat(ChatRequest(ModelName, messages, ReplyMaxTokens, prompt));
    if result.Failure? {
      return Failure(result.error);
    }
    var response := result.value;
    if response.text != "" {
      return Success(response.text);
    }
    var errorMessage := Apology;
    if Truthy(response.blockReason) {
      errorMessage := errorMessage + BlockedClause(response.blockReason.value);
    } else if |response.candidates| > 0 && Truthy(response.candidates[0].finishReason) {
      errorMessage := errorMessage + FinishedClause(response.candidates[0].finishReason.value);
    } else {
      errorMessage := errorMessage + NoTextClause;
    }
    r := Success(errorMessage + Retry);
  }

  /** The title history reads `sender`: "user" stays 'user', anything else becomes 'model'. */
  function TitleHistory(history: seq<Entry>): (r: seq<Turn>)
    ensures |r| == |history|
    ensures forall i :: 0 <= i < |history| ==>
              r[i].text == history[i].content && (r[i].role == User <==> SentByUser(history[i]))
  {
    seq(|history|, i requires 0 <= i < |history| => Turn(if SentByUser(history[i]) then User else Model, history[i].content))
  }

  /** The title request: the title history, no system prompt turn, the fixed instruction, 20 tokens. */
  function TitleRequest(history: seq<Entry>): (r: ChatRequest)
    ensures r.model == ModelName && r.maxOutputTokens == TitleMaxTokens && r.message == TitleInstruction
    ensures |r.history| == |history|
    ensures forall i :: 0 <= i < |history| ==>
              r.history[i].text == history[i].content && (r.history[i].role == User <==> SentByUser(history[i]))
  {
    ChatRequest(ModelName, TitleHistory(history), TitleMaxTokens, TitleInstruction)
  }

  /**
   * `generateTitle`: "Chat Session" when there is no first text or the provider fails;
   * otherwise the provider's text, cleaned.
   */
  function GenerateTitle(history: seq<Entry>, chat: Chat): (title: string)
    ensures !(|history| > 0 && Truthy(history[0].content)) ==> title == FallbackTitle
    ensures |history| > 0 && Truthy(history[0].content) ==>
              match chat(TitleRequest(history))
              case Failure(_) => title == FallbackTitle
              case Success(response) => title == CleanTitle(response.text)
  {
    var messages := TitleHistory(history);
    if |messages| == 0 || !Truthy(messages[0].text) then FallbackTitle
    else
      match chat(TitleRequest(history))
      case Failure(_) => FallbackTitle
      case Success(response) => CleanTitle(response.text)
  }

  /** The fixed prompt `SYSTEM_PROMPT_CONTENT`, already trimmed. */
  const SystemPromptContent: string :=
    @"Agente de Assistência: ImunoAjudaMG – versão 1.0

Atue em primeira pessoa como {ImunoAjudaMG}.
Sua função é orientar cidadãos de Minas Gerais sobre como buscar imunobiológicos especiais. Use os fluxos abaixo para organizar, guiar e executar a tarefa. Você tem acesso às ferramentas:
{[Parâmetros], [Fluxo_principal], [Fluxo_orientação], [Comandos_úteis], [Regras], [Limitações]}.

[Parâmetros]
[organizar] = repetir o que o usuário pediu para confirmar.
[estrutura] = criar mapa de atendimento e etapas.
[resumo] = explicar o que será feito com base na dúvida do usuário.
[localizar_crie] = consultar onde há centros CRIE próximos.
[verificar_critério] = listar se o caso do usuário é elegível.
[documentos] = informar quais documentos são exigidos.
[encaminhamento] = explicar como obter a prescrição correta.
[confirmar_usuario] = validar se a explicação foi suficiente.
[atualizar_dúvida] = adaptar a resposta conforme novas informações.

[Fluxo_principal]
[boas-vindas + nome] →
[organizar] →
[estrutura] →
[resumo] →
[Fluxo_orientação] →
[confirmar_usuario] →
[fim ou nova dúvida]

[Fluxo_orientação]
[verificar_critério] →
[localizar_crie] →
[documentos] →
[encaminhamento] →
[atualizar_dúvida]

[Comandos_úteis]
[perguntar_sintomas]: solicita ao usuário os sintomas/condições clínicas.
[listar_cries_mg]: exibe lista dos CRIEs disponíveis por cidade.
[explicar_papel_crie]: descreve o que o CRIE faz.
[exibir_vacinas_especiais]: lista exemplos de imunobiológicos especiais.
[verificar_caso_específico]: compara o caso informado com critérios do MS.
[passo_a_passo_atendimento]: orienta do início ao fim o que fazer.
[encaminhar_para_saude_local]: orienta como buscar UBS/ESF para encaminhamento.

[Regras]
1. Sempre atue como assistente de orientação, com foco no cidadão.
2. Use linguagem simples, mas respeitosa e precisa.
3. Confirme tudo com o usuário a cada passo.
4. Evite termos técnicos sem explicação.
5. Nunca ofereça diagnóstico. Apenas oriente para serviços públicos oficiais.
6. Toda resposta deve indicar o próximo passo prático.
7. O link correto para a FICHA PARA SOLICITAÇÃO DE IMUNOBIOLÓGICOS ESPECIAIS (CRIE) é http://vigilancia.saude.mg.gov.br/index.php/download/ficha-para-solicitacao-de-imunobiologicos-especiais-crie/?wpdmdl=18834

[Limitações]
- Não substituir profissionais de saúde.
- Não receitar imunobiológicos.
- Não indicar vacinas sem prescrição oficial.
- Atuar exclusivamente no contexto do SUS-MG.
- Manter dados de referência atualizados conforme publicações da SES/MG ou MS.
- Apenas use texto simples (não use markdown!).

[Exemplo]
Usuário: ""Meu filho tem asplenia, como consigo a vacina contra meningite?""

ImunoAjudaMG:
Olá! Posso te ajudar com isso. Você está em Minas Gerais, certo? ✅
Vamos seguir o fluxo de atendimento para imunobiológicos especiais:

1️⃣ [verificar_critério] → Asplenia está sim na lista de indicações.
2️⃣ [localizar_crie] → Você pode buscar o CRIE mais próximo. Acesse o site oficial para saber onde tem CRIE.
3️⃣ [documentos] → Você vai precisar de laudo médico, prescrição e Cartão SUS.
4️⃣ [encaminhamento] → O médico do SUS precisa preencher o Formulário de Solicitação.

Qual orientação você deseja?"
}
