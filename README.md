# eSaúdeZap backend core, modelled in Dafny

This project models the backend of eSaúdeZap, a chat application. Citizens talk to one of three
assistants: a deterministic replay stub, an OpenAI chat-completion agent, or a Gemini agent. The
modelled code is:

- `getBotResponse`, the keyword responder, as `ChatbotService`.
- The three agents behind the common bot interface, as `ReplayBot`, `OpenAIBot`, `GeminiBot` and `Bots`,
  with the title clean-up the two provider-backed agents share as `BotTitles`.
- Tag dispatch, as `BotFactory` and `BotManager`.
- The Express handlers for chats, messages, evaluations and authentication, as `ChatController`,
  `MessageController`, `EvaluationController` and `AuthController`. They run over an in-memory
  document store, `Db.Database`.

Modelling choices:

- **Provider calls and libraries are parameters.** The provider SDKs (chat completions, Gemini
  `startChat`/`sendMessage`) and the libraries (bcrypt's hash and compare, the JWT signer, the
  ObjectId text form) are function parameters. A provider call returns `Result`: its text, or the
  error it throws.
- **Handlers return a `Response`.** It is a status and JSON body, a redirect, or `Unhandled`.
  `Unhandled` is for the two handlers without a try block: their rejected promise sends nothing.
- **Each request is one atomic step.** Every `Database` insert advances a clock, which stands in
  for `Date.now`, and hands out a fresh id.
- **Three state-changing handlers come twice.** For `sendMessage`, `submitEvaluation` and
  `signupUser`, a pure function (`Send`, `Submit`, `Signup`) gives what one request does to the
  tables. The method (`SendMessage`, `SubmitEvaluation`, `SignupUser`) performs the same request
  step by step through the store and is proved equal to it. The lemmas about these handlers are
  stated on the pure function. `createChatSession` does a single insert, so it is only a method
  (`ChatController.CreateChatSession`), whose contract states the new session directly.
- **Absent and empty fields are one case.** A request field is an `Option`. `None` stands for a
  field that is absent or empty, since the handlers treat both alike through truthiness. An id
  that is present and non-empty is either `ObjectId` or `NotObjectId`, the text `findById` cannot
  cast.
- **JavaScript semantics are written out:**
  - truthiness: `None` or `""` is falsy;
  - `toLowerCase`, `trim` with the ECMAScript white-space set, `slice(1, -1)`;
  - `maxlength` counts UTF-16 code units;
  - template literals print a missing value as `undefined`;
  - the unanchored email regex `/.+@.+\..+/`.
- **Mongoose behaviour is written out:**
  - an id text that `findById` cannot cast makes it throw inside the try block, so the reply is 500;
  - `required` rejects `""`;
  - strict mode drops the `user` and `botType` values that `sendMessage` passes to
    `Message.create`, because the schema does not declare them.
- **Gemini's reply history is modelled as written.** `generateResponse` reads `role` from each
  history entry, but stored messages only have `sender`. So every stored message is sent as a
  model turn after the fixed opening user turn (`MessageController.GeminiSeesOnlyModelTurns`).

## Model

| member | source | states |
|---|---|---|
| ChatbotService.HelloReplyExactly | backend/src/utils/chatbotService.js:8-9 | the hello reply is given exactly when the lowercased message contains "hello", whatever other keywords it holds |
| ChatbotService.HowAreYouReplyExactly | backend/src/utils/chatbotService.js:10-11 | the "how are you" reply is given exactly when "hello" is absent and "how are you" present |
| ChatbotService.NameReplyExactly | backend/src/utils/chatbotService.js:12-13 | the "your name" reply is given exactly when both earlier keywords are absent and "your name" present |
| ChatbotService.FallbackQuotesContent | backend/src/utils/chatbotService.js:14-15 | with no keyword, the reply is the fallback, and it contains the original, un-lowercased message |
| ChatbotService.FallbackIsNotAKeywordReply | backend/src/utils/chatbotService.js:9-15 | no fallback reply equals any keyword reply |
| ChatbotService.KeywordRepliesIgnoreCase | backend/src/utils/chatbotService.js:8-13 | two messages that lowercase alike and hold a keyword get the same reply |
| ChatbotService.GetBotResponse | backend/src/utils/chatbotService.js:3-17 | every message gets one of the three keyword replies or its own fallback |
| ReplayBot.GenerateResponse | backend/src/services/bots/ReplayBot.js:15-20 | the reply is the fixed opening, the prompt and a closing quote, whatever the history |
| ReplayBot.ResponseRoundTrip | backend/src/services/bots/ReplayBot.js:15-20 | the prompt can be read back out of the reply: `PromptOf(GenerateResponse(p, h)) == Some(p)` |
| ReplayBot.ResponseEmbedsPrompt | backend/src/services/bots/ReplayBot.js:15-20 | the reply contains the prompt and does not depend on the history |
| ReplayBot.PromptOf | backend/src/services/bots/ReplayBot.js:19 | a reply parsed back has the template's length around the recovered prompt |
| ReplayBot.GenerateTitle | backend/src/services/bots/ReplayBot.js:28-35 | "Replay Chat" without a first content; the content itself up to 50 characters; its first 50 characters plus "..." (53 in all) beyond |
| ReplayBot.TitleIsBoundedPrefix | backend/src/services/bots/ReplayBot.js:30-32 | a non-fallback title is a prefix of the first content, optionally followed by "...", and at most 53 long |
| ReplayBot.TitleReadsFirstEntryOnly | backend/src/services/bots/ReplayBot.js:29-33 | histories with the same first entry get the same title |
| OpenAIBot.New | backend/src/services/bots/OpenAIBot.js:6-13 | construction succeeds exactly when the key is truthy, stores key and system prompt, and otherwise fails with "OpenAI API key is not provided." |
| OpenAIBot.HistoryMessages | backend/src/services/bots/OpenAIBot.js:29-34 | one entry per history item in order: sender "user" gives role user, anything else assistant; content copied |
| OpenAIBot.ReplyMessages | backend/src/services/bots/OpenAIBot.js:23-37 | a system entry first exactly when the system prompt is truthy, then the mapped history, then the user prompt; length is the history's plus one or two |
| OpenAIBot.BuildReplyMessages | backend/src/services/bots/OpenAIBot.js:23-37 | the push loop builds exactly `ReplyMessages` |
| OpenAIBot.GenerateResponse | backend/src/services/bots/OpenAIBot.js:21-49 | the provider receives the gpt-4o-mini request over those messages; its text or its error is returned as is |
| OpenAIBot.TitleRequest | backend/src/services/bots/OpenAIBot.js:58-77 | the mapped history plus exactly one trailing user instruction entry, model gpt-4o-mini, capped at 20 tokens |
| OpenAIBot.GenerateTitle | backend/src/services/bots/OpenAIBot.js:56-95 | "Chat Session" without a provider call when there is no first content; "Chat Session" on any provider failure; otherwise the cleaned provider text |
| OpenAIBot.NoSystemPromptNoSystemEntry | backend/src/services/bots/OpenAIBot.js:24-26 | without a truthy system prompt, no request entry has the system role |
| BotTitles.StripPair | backend/src/services/bots/OpenAIBot.js:82-87 | a text of two or more characters that starts and ends with the quote is the result wrapped in that quote; a lone quote becomes empty; any other text is unchanged |
| BotTitles.CleanTitle | backend/src/services/bots/OpenAIBot.js:79-87 | the cleaned title is never longer than the trimmed text and at most four characters shorter |
| BotTitles.CleanTitleIsPiece | backend/src/services/bots/OpenAIBot.js:79-87 | the cleaned title is a contiguous piece of the trimmed text that starts 0 to 2 characters in |
| BotTitles.CleanTitleKeepsPlainText | backend/src/services/bots/GeminiBot.js:171-179 | a text with no white space at either end that does not start with a quote comes back unchanged |
| BotTitles.CleanTitleDropsDoubleQuotes | backend/src/services/bots/GeminiBot.js:174-176 | `"t"` cleans to t, when t has no white space at either end and does not start with a single quote |
| GeminiBot.New | backend/src/services/bots/GeminiBot.js:80-87 | construction succeeds exactly when the key is truthy, otherwise fails with "Gemini API key is not provided." |
| GeminiBot.ReplyHistory | backend/src/services/bots/GeminiBot.js:97-106 | first a user turn holding the system prompt (`Reply` passes the fixed one), then one turn per entry in order, role user exactly when the entry's `role` is "user"; length is one more than the history |
| GeminiBot.BuildReplyHistory | backend/src/services/bots/GeminiBot.js:97-106 | the push loop builds exactly `ReplyHistory` |
| GeminiBot.ReplyRequest | backend/src/services/bots/GeminiBot.js:108-115 | the prompt is sent as the message, not in the history; model gemini-1.5-flash, 500 output tokens |
| GeminiBot.EmptyTextMessage | backend/src/services/bots/GeminiBot.js:124-137 | starts with the apology and ends with the retry request; the middle is the block reason clause, else the first candidate's finish reason clause, else the generic clause |
| GeminiBot.Reply | backend/src/services/bots/GeminiBot.js:95-142 | provider errors propagate; non-empty text is returned unchanged; empty text yields the diagnostic; a success is never empty |
| GeminiBot.GenerateResponse | backend/src/services/bots/GeminiBot.js:95-142 | the step-by-step version with `+=` yields exactly `Reply` |
| GeminiBot.TitleHistory | backend/src/services/bots/GeminiBot.js:152-155 | the title history reads `sender`: user exactly for sender "user", text copied |
| GeminiBot.TitleRequest | backend/src/services/bots/GeminiBot.js:152-167 | the title request sends one turn per entry, user exactly for sender "user", with no system prompt turn; the message is the title instruction, model gemini-1.5-flash, 20 output tokens |
| GeminiBot.GenerateTitle | backend/src/services/bots/GeminiBot.js:150-187 | "Chat Session" without a first text or on any provider failure; otherwise the cleaned text |
| Bots.Respond | backend/src/services/bots/BotInterface.js:9-11 | each variant answers with its own reply function |
| Bots.GenerateResponse | backend/src/services/bots/BotInterface.js:9-11 | dispatching to the variants' step-by-step methods gives `Respond` |
| Bots.Title | backend/src/services/bots/BotInterface.js:19-21 | each variant titles with its own title function |
| Bots.NonEmptyReplies | backend/src/services/bots/GeminiBot.js:119-137 | replay and Gemini replies are never empty |
| BotFactory.CreateBot | backend/src/services/bots/BotFactory.js:12-23 | any-case "replay" gives the replay bot; "openai"/"gemini" succeed exactly when the environment key is truthy, with no system prompt; any other tag fails with "Unknown bot type: " and the tag as given |
| BotFactory.CreateBotIgnoresCase | backend/src/services/bots/BotFactory.js:13 | tags that lowercase alike build the same bot |
| BotFactory.ReplayAlwaysBuilds | backend/src/services/bots/BotFactory.js:14-15 | the replay tag never fails |
| BotFactory.FactoryOpenAIHasNoSystemEntry | backend/src/services/bots/BotFactory.js:17 | an OpenAI bot built by the factory sends no system entry |
| BotManager.GetBot | backend/src/services/bots/BotManager.js:11-22 | "replay" always succeeds; unknown ids fail with "Unknown bot ID: " and the id as given |
| BotManager.AgreesWithFactory | backend/src/services/bots/BotManager.js:11-22 | on known tags `getBot` equals `createBot`; on unknown tags both fail, each with its own prefix |
| Common.Trim | backend/src/services/bots/OpenAIBot.js:79 | the result is a piece of the input with only white space cut away at both ends, and has none left at either end |
| Common.TrimIdempotent | backend/src/services/bots/OpenAIBot.js:79 | trimming twice is trimming once |
| Common.Lower | backend/src/services/bots/BotFactory.js:13 | same length, each character lowercased (ASCII letters only, see Left out) |
| Models.EmailHasAtAndDot | backend/src/models/User.js:17 | every accepted email has an `@` after its first character and, at least two places later, a `.` with a character after it |
| Models.SingleLineEmailMatches | backend/src/models/User.js:17 | conversely, text without line breaks that has that shape is accepted |
| Models.EmailMatchUnanchored | backend/src/models/User.js:17 | the pattern is unanchored: any text around an accepted email is accepted |
| Models.EmailNeedsAt | backend/src/models/User.js:17 | text without `@` is refused, and so is "a@b" |
| Db.FindSession | backend/src/controllers/chatController.js:36 | the first session with the id, or none has it |
| Db.FindEvaluation | backend/src/controllers/evaluationController.js:21 | the first evaluation of the session, or none exists |
| Db.FindUserByEmail | backend/src/controllers/authController.js:22 | the first user with exactly that email, or none has it |
| Db.MessagesOf | backend/src/controllers/messageController.js:30 | exactly the messages of the session |
| Db.SessionsNewestFirst | backend/src/controllers/chatController.js:24 | exactly the user's sessions |
| Db.MessagesOfChronological | backend/src/controllers/messageController.js:59 | the filter of a timestamp-ordered table is timestamp-ordered |
| Db.SessionsNewestFirstSorted | backend/src/controllers/chatController.js:24 | on a table kept in creation order, the listing is sorted by createdAt descending |
| Db.AppendedMessageIsLast | backend/src/controllers/messageController.js:22-30 | a message appended to the table is last among its session's messages |
| Db.Database.CreateSession | backend/src/models/ChatSession.js:3-41 | appends a session with the schema defaults (botType "openai", no prompt, no evaluation, empty message list, both dates now); keeps the store invariant |
| Db.Database.CreateMessage | backend/src/models/Message.js:3-22 | empty content fails validation and stores nothing; otherwise appends the message stamped now |
| Db.Database.CreateEvaluation | backend/src/models/Evaluation.js:3-29 | rating outside 1..5 or a comment over 500 UTF-16 units fails; a second evaluation of a session fails on the unique index; otherwise appends it |
| Db.Database.SetEvaluation | backend/src/controllers/evaluationController.js:34-35 | sets one session's evaluation field and nothing else |
| Db.Database.CreateUser | backend/src/models/User.js:4-40 | a malformed email or a taken one fails; otherwise appends the user with the hashed password |
| ChatController.CreateChatSession | backend/src/controllers/chatController.js:7-17 | appends exactly one session owned by the requester, titled with the truthy title or "New Chat", answers 201 with it; no other session changes |
| ChatController.GetChatSessions | backend/src/controllers/chatController.js:22-29 | 200 with exactly the requester's sessions, newest first |
| ChatController.GetChatSessionById | backend/src/controllers/chatController.js:34-51 | a cast failure gives 500; a missing session 404 before ownership; someone else's 403; 200 only with the requested session of the requester |
| ChatController.GetByIdReturnsOwnSession | backend/src/controllers/chatController.js:36-47 | with distinct ids, get-by-id answers 200 with a session exactly when it is the requester's, 403 otherwise |
| MessageController.Send | backend/src/controllers/messageController.js:8-47 | every request answers with a status, and the message table only grows, by at most two |
| MessageController.SendMessage | backend/src/controllers/messageController.js:8-47 | the handler over the store does exactly `Send`; users, sessions and evaluations are untouched; the store invariant holds |
| MessageController.IncompleteRequestStoresNothing | backend/src/controllers/messageController.js:11-13 | a missing or empty field gives 400 before any lookup, with nothing stored |
| MessageController.ForeignSessionLooksMissing | backend/src/controllers/messageController.js:16-19 | a missing session and someone else's session both give the same 404, with nothing stored |
| MessageController.SuccessStoresTheExchange | backend/src/controllers/messageController.js:22-43 | a 201 means exactly two messages were appended to that session (the user's content, then the bot's non-empty reply, in time order), and the reply holds both |
| MessageController.Gives201Exactly | backend/src/controllers/messageController.js:8-47 | a request gets 201 exactly when it is admitted and the bot answers with a non-empty reply |
| MessageController.AdmittedReplyGives201 | backend/src/controllers/messageController.js:22-43 | an admitted request with a non-empty bot reply gets 201 with the user and bot messages, and exactly those two are appended |
| MessageController.EmptyReplyKeepsUserMessage | backend/src/controllers/messageController.js:36-46 | an empty bot reply fails the message validation: 500, and only the user message stays stored |
| MessageController.BotFailureKeepsUserMessage | backend/src/controllers/messageController.js:33-46 | a failing bot call gives 500 with its error text, and only the user message stays stored |
| MessageController.HistoryEndsWithUserMessage | backend/src/controllers/messageController.js:22-30 | the bot's history is the session's earlier messages then the new user message, in timestamp order |
| MessageController.SendTouchesOnlyItsSession | backend/src/controllers/messageController.js:22-41 | no other session's messages change |
| MessageController.GetMessagesBySession | backend/src/controllers/messageController.js:52-64 | the same 404 rule, then 200 with exactly the session's messages, in timestamp order |
| MessageController.AsWrittenNeverReplies | backend/src/controllers/messageController.js:3-33 | as written no request gets 201; an admitted one answers 500 and leaves an orphan user message |
| MessageController.DispatchedReply | backend/src/services/bots/BotFactory.js:12-23 | the intended bot call: the factory's error, or the built bot's reply |
| MessageController.CorrectedReplayReplies | backend/src/controllers/messageController.js:33-43 | with the dispatching call, an admitted replay request gets 201 with the replay text |
| MessageController.GeminiSeesOnlyModelTurns | backend/src/services/bots/GeminiBot.js:101-106 | stored messages carry no role, so Gemini sends every one of them as a model turn |
| MessageController.AsEntry | backend/src/models/Message.js:9-12 | a stored message reads as sent by the user exactly when its sender is the user, and never has the user role |
| EvaluationController.Submit | backend/src/controllers/evaluationController.js:7-41 | sessions change only in their evaluation field; the evaluation table only grows, by at most one |
| EvaluationController.SubmitEvaluation | backend/src/controllers/evaluationController.js:7-41 | the handler over the store does exactly `Submit`; users and messages are untouched; the store invariant (one evaluation per session) holds |
| EvaluationController.RejectionChangesNothing | backend/src/controllers/evaluationController.js:10-24 | every answer but 201 leaves both tables unchanged |
| EvaluationController.FalsyRatingRefused | backend/src/controllers/evaluationController.js:10-12 | a missing or empty session id, or a missing or 0 rating, gives 400 with nothing changed |
| EvaluationController.ForeignSessionRefused | backend/src/controllers/evaluationController.js:15-18 | a missing session and someone else's session both give the same 404, with nothing changed |
| EvaluationController.SecondSubmissionRefused | backend/src/controllers/evaluationController.js:21-24 | a second submission for an owned session gives 400 "Evaluation already submitted for this session" with nothing changed |
| EvaluationController.SubmitKeepsOnePerSession | backend/src/controllers/evaluationController.js:21-31 | at most one evaluation per session is preserved |
| EvaluationController.FindSessionIgnoresEvaluation | backend/src/controllers/evaluationController.js:34-35 | setting a session's evaluation field moves no id lookup |
| EvaluationController.SubmitThenGet | backend/src/controllers/evaluationController.js:26-59 | a 201 appends the evaluation with session, requester, rating and comment, links it from the session, and a get then returns it |
| EvaluationController.Gives201Exactly | backend/src/controllers/evaluationController.js:7-41 | a submission gets 201 exactly when it names a session of the requester without an evaluation, with a truthy rating and fields the model accepts |
| EvaluationController.FirstValidSubmissionStored | backend/src/controllers/evaluationController.js:26-37 | a valid first submission on an owned session gets 201 with the new evaluation, which is appended and linked from the session |
| EvaluationController.InvalidFieldsRefused | backend/src/controllers/evaluationController.js:26-40 | fields the evaluation model rejects give 500 with its message, with nothing changed |
| EvaluationController.GetEvaluationBySession | backend/src/controllers/evaluationController.js:46-63 | 404 for a missing or foreign session, 404 without an evaluation, 200 only with an evaluation of that session |
| EvaluationController.GetReturnsTheOnlyEvaluation | backend/src/controllers/evaluationController.js:53-59 | with one evaluation per session, get returns the session's evaluation |
| AuthController.Signup | backend/src/controllers/authController.js:14-44 | the user table only grows, by at most one user |
| AuthController.SignupUser | backend/src/controllers/authController.js:14-44 | the handler over the store does exactly `Signup`; sessions, messages and evaluations are untouched |
| AuthController.SignupRefusalStoresNothing | backend/src/controllers/authController.js:17-25 | a missing field gives 400 "Please enter all fields", a taken email 400 "User already exists", and a refusal stores nothing |
| AuthController.SignupStoresOneUser | backend/src/controllers/authController.js:28-40 | a 201 stored exactly one user with the hashed password and answers with its id, name, email and token |
| AuthController.SignupSucceeds | backend/src/controllers/authController.js:17-40 | present fields, a free well-formed email and a signed token give 201 with the new user's id, name, email and token, and the user is appended |
| AuthController.SignerFailureKeepsUser | backend/src/controllers/authController.js:28-39 | a signing error escapes the handler after the insert, so the user stays stored |
| AuthController.SignupGives201Exactly | backend/src/controllers/authController.js:14-44 | a signup gets 201 exactly when its fields are present, its email free and well formed, and the signer succeeds |
| AuthController.SignupUserMatchesItsPassword | backend/src/models/User.js:43-48 | a user stored by signup matches exactly the passwords bcrypt's compare accepts against the stored hash |
| AuthController.NoPasswordNeverMatches | backend/src/models/User.js:44-46 | a user with no stored password never matches |
| AuthController.SignupKeepsEmailsUnique | backend/src/controllers/authController.js:22-32 | emails stay unique |
| AuthController.Login | backend/src/controllers/authController.js:49-65 | a 200 names a stored user with that email whose password matches, with its token |
| AuthController.LoginFailuresLookAlike | backend/src/controllers/authController.js:53-64 | an unknown email and a wrong password give the same 400 "Invalid credentials" |
| AuthController.LoginSucceedsForMatchingUser | backend/src/controllers/authController.js:53-61 | with unique emails, a user logs in exactly when the password matches and a token is signed |
| AuthController.LoginAfterSignup | backend/src/controllers/authController.js:28-61 | if compare accepts a password against its own hash, login after a 201 signup returns what the signup returned |
| AuthController.GoogleAuthCallback | backend/src/controllers/authController.js:70-85 | a signing failure gives 500; otherwise a redirect starting with FRONTEND_URL, the callback path and the token |
| AuthController.GoogleRedirectUrl | backend/src/controllers/authController.js:80 | the redirect starts with FRONTEND_URL, the callback path and the token, and ends with the email parameter |
| AuthController.RedirectFieldsRecoverable | backend/src/controllers/authController.js:80 | with no `&` in the fields, splitting the redirect at `&` gives back exactly the four parameters |
| AuthController.AmpersandInNameAddsParameter | backend/src/controllers/authController.js:80 | a display name holding `&` yields a fifth parameter, since nothing is encoded |

## Left out

- Provider SDKs, bcrypt, JWT signing and the ObjectId text form are parameters. Only their results are modelled: the text or thrown error, the hash, the compare verdict, the token or signing error, the id text.
- The `completion.choices[0].message.content` of OpenAI is taken as a string. A null content, or an empty choices list (a throw), is folded into the provider's `Failure`.
- Gemini's `response.text()` throwing on a blocked response is folded into the provider's `Failure`, caught by `generateTitle` and propagated by `generateResponse`.
- ReplayBot.GenerateTitle: truncates at 50 Unicode scalar values, not at 50 UTF-16 code units as `substring` does; the two differ only on text outside the Basic Multilingual Plane.
- Common.Lower: lowercases ASCII letters only. For the comparisons the code makes this agrees with JavaScript's full mapping: the keywords and bot tags are ASCII, and no other character lowercases to a single one of their letters.
- The exact Mongoose texts of a cast error, an evaluation validation error and a duplicate-key error are fixed constants here.
- Request bodies holding values of other types are not modelled. A string field is a string or `None`, and `None` stands for an absent or empty value alike. An id is `None` when absent or empty, and otherwise `ObjectId` or `NotObjectId`. A rating is an integer or absent; a rating that is not an integer, or NaN, is left out.
- `loginUser` with an absent email or password is not modelled; they are taken as present.
- The `else` branch "Invalid user data" of `signupUser` (backend/src/controllers/authController.js:41-43) is unreachable: `User.create` returns a document or throws.
- Concurrency between requests is not modelled: each handler call is one atomic step, and timestamps come from a strictly increasing counter, so no two records share a time.
- JWT expiry and issue time are not modelled; the signer is a function of the id alone.
- Title regeneration after the first exchange, appends to `session.messages`, credential and prompt lookups in the database, and a placeholder "Start of conversation." turn are not modelled. No handler or bot in the code does them: `sendMessage` never touches the session, and Gemini always prepends its fixed prompt.
- The frontend, backend/server.js (including its CORS pattern), passport, the routes, the logger, adminController.js and backend/scripts are not part of this model (framework wiring, UI, one-shot scripts).

## Findings

| source | as written | input that shows it | evidently intended | confidence | as-written member | corrected member |
|---|---|---|---|---|---|---|
| backend/src/controllers/messageController.js:3 | `sendMessage` imports `generateBotResponse` from chatbotService.js, which exports only `getBotResponse` (backend/src/utils/chatbotService.js:19-21). The binding is `undefined`, so the call at line 33 throws "generateBotResponse is not a function" | any admitted request, e.g. content "hello" and botType "replay" on a session of the requester: the reply is 500 and the user message stays stored without an answer | build the bot the tag names, as BotFactory does, and store its reply | high; not executed | MessageController.AsWrittenNeverReplies | MessageController.CorrectedReplayReplies |
