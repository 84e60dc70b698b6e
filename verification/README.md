# Grog Chat request adaptation, in Dafny

Grog Chat is a chat front end with several server entry points. All of them
forward a conversation to a hosted language model through an OpenAI-style
or Anthropic SDK. This project models the layer between the user and that one upstream call:

- **Registries and client factories.** `src/config/models.ts` maps an id to a
  configuration and builds a client with the OpenRouter headers.
  `src/config/models.js` is the older table, whose `createClient` switches on
  the API type.
- **Request validation ladders.** The Express `/chat` route in `server.ts`
  and the Netlify function `netlify/functions/chat.ts` each run an ordered
  list of checks over an untyped JSON body. The first failing check picks
  the status and the error text. The Next.js route
  `src/app/api/chat/route.ts` has no checks at all: every failure becomes 500.
- **Message preparation and provider-specific request shaping** in
  `src/services/chatService.js`:
  - the prepared list is system turn, then history, then user turn;
  - images are encoded as multi-part content;
  - the Anthropic branch moves the system prompt out of the message list;
  - the history grows only when a send succeeds.

  The thinner single-turn service in `src/services/chatService.ts` is modelled as well.
- **Two UI rules.** One is the send state machine of `src/components/Chat.tsx`.
  The other is the model table, lookup and price label of
  `src/components/ModelSelector.tsx`.

## How the model is built

- **JavaScript values** are `Js.Json`. A missing property, i.e. `undefined`,
  is `Option.None`. Truthiness and the destructuring `TypeError` follow
  JavaScript (`Js.Truthy`, `Js.Destructurable`).
- **Thrown errors** are values of `Js.Error`, carried in `Result`.
- **A mutator that throws part-way** returns both the partially updated
  state and the error. Examples are `setModel` in both services.
- **The upstream SDK call** is a function parameter `call: Request -> Answer`.
  It either answers with the content found at the provider's content path or
  fails with an optional HTTP status.
- **What `createClient` in `models.ts` reads** is the parameter
  `Registry.Runtime`: whether `import.meta.env` exists, its four `VITE_`
  values, and `window.location.origin` when `window` exists.
  - On a server (Node, Netlify, Next.js) `import.meta.env` is undefined. Reading
    `VITE_SITE_URL` then throws, so every `createClient` call throws there
    (`Registry.NoViteEnvMeansNoClient`).
  - `server.ts` imports `./src/config/models.js` with a default import. Only
    `models.ts` has a default export, so the Express route is modelled
    against `models.ts`.
- **`models.js` imports none of the three SDK classes it constructs.**
  Whether a class name resolves is the parameter `Scope.globals`. With the
  file as it stands, that set is empty: every call with a registered id
  throws a `ReferenceError` naming the class, and an unknown id throws a
  `TypeError` at the lookup before any class is named
  (`LegacyRegistry.NoImportsNoClient`).
- **Async handlers** are single atomic steps. The React handler is a `Begin`
  step followed by a `Complete` step once the fetch settles.

## Model

| member | source | states |
|---|---|---|
| Registry.KeysMatchIds | src/config/models.ts:15-455 | every registry key equals the `id` of its entry |
| Registry.UpstreamModelIsNeverTheId | src/config/models.ts:15-455 | no entry's upstream model string equals its own id, so a route that forwards the id instead of the model string always sends a different model name |
| Registry.Referer | src/config/models.ts:465 | the Referer is the site URL when one is set, otherwise the window origin; without `import.meta.env` or `window` the read throws |
| Registry.ClientFor | src/config/models.ts:464-483 | a client exists iff the header values can be read; otherwise the error is the `TypeError` or `ReferenceError` of that read. It carries `apiType`, the upstream model, the base URL and the API key. `HTTP-Referer` and `X-Title` (default `Grog Chat`) are always present, `Authorization: Bearer <key>` is present iff the base URL contains `openrouter.ai`, and there are no other headers |
| Registry.CreateClient | src/config/models.ts:457-484 | an unregistered id throws `Invalid model ID: <id>`; a registered id gives a client iff the headers resolve, with type and model taken from that entry, and otherwise fails with a `TypeError` or `ReferenceError`, never an upstream status |
| Registry.NoViteEnvMeansNoClient | src/config/models.ts:464-467 | without `import.meta.env` every call fails, with a `TypeError` for every registered id |
| Registry.OpenRouterBaseUrlIncludesHost | src/config/models.ts:470 | the OpenRouter base URL contains `openrouter.ai` |
| Registry.EveryEntryUsesOpenRouter | src/config/models.ts:15-455 | every entry's base URL is the OpenRouter URL |
| Registry.EveryClientAuthorizes | src/config/models.ts:470-472 | every entry uses the OpenRouter base URL, so every client that is built carries an `Authorization` header |
| LegacyRegistry.ClientFor | src/config/models.js:50-79 | a missing entry throws a `TypeError`; an unknown API type throws `Unknown API type`; for a known type the client exists iff its SDK class is in scope, a missing class throws a `ReferenceError` naming it, and the client carries that type tag, that SDK, the entry's base URL and the key |
| LegacyRegistry.CreateClient | src/config/models.js:49-80 | an unknown id fails with a `TypeError`; a client carries the entry's type and base URL |
| LegacyRegistry.TableApiTypesKnown | src/config/models.js:4-47 | every entry's API type is one of `openai`, `anthropic`, `together` |
| LegacyRegistry.NoImportsNoClient | src/config/models.js:49-80 | with no SDK class in scope, no id yields a client: a registered id throws a `ReferenceError` naming its class, an unknown id a `TypeError` |
| Upstream.Project | src/app/api/chat/route.ts:11-14 | projecting a message keeps exactly `role` and `content`, dropping them when undefined; a `null` message throws |
| Upstream.ProjectAll | src/services/chatService.js:113-116 | mapping the projection succeeds iff no element is `null`, keeps the length and the order, and projects each element |
| Upstream.ProjectTurn | src/services/chatService.js:113-116 | a role/content turn projects to itself |
| Upstream.ProjectAllTurns | src/services/chatService.js:113-116 | a list of turns projects to itself |
| Upstream.ProjectIdempotent | src/app/api/chat/route.ts:11-14 | projecting twice equals projecting once |
| LegacyChatService.New | src/services/chatService.js:4-7 | construction succeeds iff `createClient` does; a new session has an empty history and the entry's configuration and client type |
| LegacyChatService.SetModel | src/services/chatService.js:9-14 | the history is untouched and the configuration becomes the looked-up entry; when `createClient` throws, the old client is kept |
| LegacyChatService.ImageParts | src/services/chatService.js:72-82 | every part produced comes from an image file of the input, and there are no more parts than files |
| LegacyChatService.ImagePartsAppend | src/services/chatService.js:72-82 | the parts of a concatenation are the concatenation of the parts, i.e. the file order is kept |
| LegacyChatService.ImagePartsCount | src/services/chatService.js:72-82 | there is exactly one part per `image/` file |
| LegacyChatService.NonImageDropped | src/services/chatService.js:73 | inserting a non-image file anywhere changes nothing |
| LegacyChatService.MultiModalContent | src/services/chatService.js:62-85 | with no files the content is the plain message; otherwise it is one text part followed by the image parts |
| LegacyChatService.PrepareMessages | src/services/chatService.js:46-60 | the prepared list has length history+2: the fixed system turn, then the history unchanged, then the user turn; without a configuration it throws |
| LegacyChatService.UserContent | src/services/chatService.js:55 | without vision support the user content is the raw message, whatever the files |
| LegacyChatService.MaxTokens | src/services/chatService.js:99-128 | the `max_tokens` budget per client type: 1000 for openai, 2048 for anthropic, 1024 for together |
| LegacyChatService.CompletionsRequest | src/services/chatService.js:99-106 | the openai and together request: the chat-completions endpoint, the entry's model, the messages unchanged, the given budget, and no `system`, temperature or `stream` |
| LegacyChatService.AnthropicRequest | src/services/chatService.js:108-119 | `system` is the first message's content, the remaining messages are projected, and `max_tokens` is 2048 |
| LegacyChatService.RequestFor | src/services/chatService.js:18-33 | dispatch on the client type: `max_tokens` is 1000, 2048 or 1024; the Messages endpoint is used iff the type is anthropic; any other type throws `Unsupported client type` |
| LegacyChatService.SendMessage | src/services/chatService.js:16-44 | the send succeeds iff the request can be built and the call answers; the reply is then the content the call answered with, and the history gains exactly the user's plain text and then that reply. A request that cannot be built fails with that error and an upstream failure with its status and message; on any error the session is unchanged |
| LegacyChatService.ExchangeKeepsValid | src/services/chatService.js:36-37 | appending one exchange keeps the history made only of user and assistant turns |
| LegacyChatService.ConversationTurns | src/services/chatService.js:113-116 | a history of user and assistant turns followed by a user turn projects to itself and holds no system turn |
| LegacyChatService.RequestShape | src/services/chatService.js:99-128 | openai and together send the prepared list and no `system`; anthropic sends the system prompt once, as `system`, and a message list with no system turn |
| LegacyChatService.FailedSetModelBreaksSend | src/services/chatService.js:9-14 | after `setModel` with an unknown id, every send throws and the history stays as it was |
| LegacyChatService.TwoExchanges | src/services/chatService.js:35-37 | two successful sends add four entries after the old history |
| ChatService.New | src/services/chatService.ts:8-16 | the default id `claude-3-sonnet` is used when none is given; construction succeeds iff `createClient` does, and the stored id is the one given, or the default, and the stored client is the one built for it |
| ChatService.DefaultIsRegistered | src/services/chatService.ts:8 | the default id is a registry key |
| ChatService.SetModel | src/services/chatService.ts:39-43 | the id is stored before the client is rebuilt, so an unknown id throws `Invalid model ID` and stays in place, next to the old client; on success the client is the one built for the new id |
| ChatService.RequestFor | src/services/chatService.ts:21-26 | exactly one user turn carrying the message, the registry model string of the current id, `stream: false`, and nothing else |
| ChatService.SendMessage | src/services/chatService.ts:18-37 | a falsy content throws `No response from model`; otherwise that content is returned; factory errors propagate |
| ChatService.SameTextSameRequest | src/services/chatService.ts:18-37 | two services with the same current id send the same text as the same request |
| ChatService.BadIdSticks | src/services/chatService.ts:39-43 | after `setModel` with an unknown id, every send throws `Invalid model ID` |
| ChatService.SetModelIdempotent | src/services/chatService.ts:39-43 | setting the same valid model twice equals setting it once |
| ChatApi.CheckShape | server.ts:89-116 | the first failing check picks the error: messages, then message shape, then model; none fails iff the body is well formed |
| ChatApi.ShapeOkIffWellFormed | server.ts:89-116 | a body passes iff it is an object with a non-empty array of objects with string `role` and `content`, and a non-empty string `model` |
| ChatApi.ForwardedRequest | server.ts:142-147 | the upstream request of both server routes (also netlify/functions/chat.ts lines 91-96): the chat-completions endpoint, the given model string, the messages as received, `max_tokens` 1000, `temperature` 0.7, no `system` and no `stream` |
| ExpressChat.Catch | server.ts:162-185 | an upstream 401 gives 401, a 429 gives 429, anything else gives 500 `Failed to process request` |
| ExpressChat.Reply | server.ts:149-185 | 200 with the assistant content iff the call answered with a non-empty string; falsy content gives 500 `Invalid response from model`; truthy content that is not a string throws a `TypeError` at the `.substring` call of line 155 and gives 500; upstream 401 and 429 keep their codes |
| ExpressChat.HandleChat | server.ts:69-186 | the whole ladder in order: destructuring, body, shape, API key (500), registry (400 `Invalid model ID`); valid requests forward with the entry's model |
| ExpressChat.Validated | server.ts:89-125 | a truthy body is rejected with 400 by the first failing shape check, then with 500 when no API key is configured; otherwise it is forwarded under its model id; never `Missing request body` |
| ExpressChat.Forward | server.ts:128-185 | an unregistered id gives 400 `Invalid model ID`; a registered id whose headers cannot be read gives 500 with the factory's error; otherwise the reply to the request carrying the entry's model string |
| ExpressChat.StatusCodes | server.ts:69-186 | the status is always one of 200, 400, 401, 429, 500 |
| ExpressChat.MissingBodyReportedOnlyForFalsyValues | server.ts:78-86 | `Missing request body` is reported iff the body is `false`, `0` or `""`. A missing body throws at the destructuring and gives 500 instead |
| ExpressChat.RejectionsSkipUpstream | server.ts:89-134 | a 400 answer does not depend on the upstream call |
| ExpressChat.WithoutViteEnvValidRequestsFail | server.ts:137 | on the server, a valid request for a registered model still gets 500, because the factory throws |
| NetlifyChat.ParseBody | netlify/functions/chat.ts:30 | an absent or empty body parses as `{}` |
| NetlifyChat.Reply | netlify/functions/chat.ts:98-124 | 200 iff the content is truthy, with `Content-Type`; every failure is 500 with the CORS headers |
| NetlifyChat.Handler | netlify/functions/chat.ts:4-126 | OPTIONS gives 204 with no body; other non-POST methods give 405; unparsable JSON gives 500; otherwise it runs the ladder; the headers are the CORS headers, plus `Content-Type` exactly on 200 |
| NetlifyChat.Forward | netlify/functions/chat.ts:75-124 | an unregistered id gives 400 `Invalid model ID` with the CORS headers; a factory error gives 500; otherwise the reply to the request carrying the entry's model string |
| NetlifyChat.HandleParsed | netlify/functions/chat.ts:30-124 | the ladder: `null` gives 500, shape errors give 400, an unknown id gives 400 `Invalid model ID`, and a valid request forwards with the entry's model |
| NetlifyChat.ResponseHeadersAndCodes | netlify/functions/chat.ts:6-10 | every response carries the three CORS headers; `Content-Type` is there iff the status is 200 |
| NetlifyChat.AbsentBodyIsBadRequest | netlify/functions/chat.ts:30-42 | a POST without a body gets 400 `Invalid messages format` |
| NetlifyChat.AgreesWithExpress | netlify/functions/chat.ts:33-85 | for object bodies with the API key set: an Express 401 or 429 is a 500 here; an Express 200 is a 200 here with the same body; any other Express answer is repeated here with the same status and body unless this route answers 200, and it does so exactly when the body is valid, the id is registered, the headers resolve and the call answers truthy content that is not a string |
| NetlifyChat.ForwardsAgree | netlify/functions/chat.ts:75-124 | the same agreement for the forwarding step alone, for every id and message list |
| NetlifyChat.NumericReplyDisagrees | server.ts:149-155 | a valid request answered with the number 1 gets 500 from the Express route and 200 with that content from the Netlify function |
| NextChatRoute.RouteRequest | src/app/api/chat/route.ts:9-15 | the request of the Next.js route: the chat-completions endpoint, the given id as the model, the given messages, and no budget, temperature, `system` or `stream` |
| NextChatRoute.Forwarded | src/app/api/chat/route.ts:9-15 | the request goes to the chat-completions endpoint; the upstream model is the raw request id; the messages keep their order, each projected to role/content; no other options are sent, `stream` included |
| NextChatRoute.Post | src/app/api/chat/route.ts:4-33 | the only statuses are 200 and 500, always with a JSON `Content-Type`; an unknown id or a missing or non-array `messages` gives 500; a forwardable request answers with the upstream content |
| NextChatRoute.EmptyObjectIs500 | src/app/api/chat/route.ts:25-33 | `{}` gets 500 `Failed to process request` |
| NextChatRoute.SendsIdNotUpstreamModel | src/app/api/chat/route.ts:10 | for every registered id, the model sent upstream differs from the one the Express route sends |
| NextChatRoute.MissingContentIsSuccess | src/app/api/chat/route.ts:17-24 | an answer without content is still a 200 |
| ModelSelector.TableNotSortedByTotalCost | src/components/ModelSelector.tsx:13-126 | the table is not in ascending total-cost order: command-r7b follows llama-3-instruct, and claude-3-haiku follows claude-3-sonnet |
| ModelSelector.TableIdsUnique | src/components/ModelSelector.tsx:14-126 | the ids in the table are unique |
| ModelSelector.EveryIdRegistered | src/components/ModelSelector.tsx:14-126 | every id in the table is a key of the models.ts registry |
| ModelSelector.DeepSeekR1PricesDisagree | src/components/ModelSelector.tsx:25-33 | deepseek-r1 is labelled free, although the registry prices it at 6.5 in and 8 out |
| ModelSelector.Find | src/components/ModelSelector.tsx:134 | the result is none iff no entry has the id; otherwise it is the first entry with that id |
| ModelSelector.FindUnique | src/components/ModelSelector.tsx:134 | with unique ids, the lookup returns exactly the entry carrying the id |
| ModelSelector.PriceLabel | src/components/ModelSelector.tsx:149-151 | `Free` iff both prices are 0; otherwise both prices are shown |
| ModelSelector.Options | src/components/ModelSelector.tsx:147-153 | one option per entry, in table order, whose value is the id |
| ModelSelector.InfoPanel | src/components/ModelSelector.tsx:155-167 | a panel exists iff the selection is in the table, and it shows the first matching entry |
| ModelSelector.OptionValuesAreIds | src/components/ModelSelector.tsx:147-153 | some option has value `id` iff the lookup finds `id` |
| ChatView.Initial | src/components/Chat.tsx:16-20 | the state of a fresh view: no messages, empty input, not loading, no error, and `anthropic/claude-3.5-sonnet` selected |
| ChatView.TrimEmptyIffBlank | src/components/Chat.tsx:45 | `input.trim()` is empty iff every character is ECMAScript white space or a line terminator |
| ChatView.Begin | src/components/Chat.tsx:43-63 | a no-op iff the input is blank or a send is in flight; otherwise it appends the untrimmed user turn, clears the input and error, sets loading, and posts the new message list with the selected model |
| ChatView.Complete | src/components/Chat.tsx:65-76 | loading ends; an ok response's object is appended; a failure appends nothing and sets `Failed to send message` |
| ChatView.SelectModel | src/components/Chat.tsx:84 | choosing a model changes only the selection |
| ChatView.Exchange | src/components/Chat.tsx:43-77 | after a whole send, the user turn stays in every outcome; the reply follows it directly on success; on failure only the error is added |
| ChatView.NoSendWhileLoading | src/components/Chat.tsx:45 | while loading, a send changes nothing and posts nothing |
| ChatView.FailureSemanticsDiffer | src/components/Chat.tsx:48-73 | on failure this view keeps the user turn, while the `chatService.js` session keeps its history unchanged |
| ChatView.FirstPostWellFormed | src/components/Chat.tsx:59-62 | the first post from a fresh view passes the validation ladder and names the default selection |
| ChatView.UnregisteredModelRejected | server.ts:128-134 | a well-formed post naming an unregistered id gets 400 `Invalid model ID` from both the Express and Netlify routes |
| ChatView.DefaultNotOffered | src/components/Chat.tsx:20 | the default selection `anthropic/claude-3.5-sonnet` is not in the picker's table |
| ChatView.DefaultNotRegistered | src/components/Chat.tsx:20 | the default selection is not a key of the models.ts registry |
| ChatView.DefaultSelectionRejected | src/components/Chat.tsx:20 | the default selection is not a registry key, so the first send from a fresh view gets 400 `Invalid model ID` from both routes |

The three `ApiType` values of `models.ts` (line 8) are a datatype, so
"every entry's type is one of the three" holds by construction.

The comment at `src/components/ModelSelector.tsx:13` describes the list as
sorted by total cost. The model follows the table order the code actually
has, and proves that order is not sorted.

## Left out

- The SDK network calls are foreign code. They are the parameter `call`, and
  the response is assumed to have the shape the code reads (`choices[0]`
  exists), so only the content value is modelled.
- `fileToBase64` and `FileReader` are browser I/O. The base64 text is part of
  `LegacyChatService.File`.
- Environment reads are parameters: `Registry.Runtime`, `LegacyRegistry.Scope`,
  and the `apiKeyConfigured` flag of `ExpressChat.HandleChat`. This covers
  `import.meta.env`, `process.env`, `dotenv`, and the module-load read of
  `API_KEY` in `models.js`.
- Express middleware, CORS setup, logging, static serving, `listen` and the
  global error handler of `server.ts` are transport plumbing. The
  development-only `stack` field of the 500 body is left out as well.
- `server.js`, `script.js`, `src/main.ts`, `src/App.tsx` and the Vite
  configurations are wiring and build configuration. The image-generation
  flag that `script.js` passes is ignored by `sendMessage`.
- Rendering, clipboard copy, scrolling and the `contextLength / 1000`
  display are presentation and float formatting. Prices are kept as
  numbers, not formatted text.
- Interleaving of React state updates: each send is an atomic `Begin`
  followed by an atomic `Complete`.
- Keys inherited from `Object.prototype` (`toString`, `__proto__`) would make
  the registry lookups return functions. Registry membership is modelled as
  key membership only.
- NextChatRoute.Post: a `model` value that is not a string, e.g. an array,
  would be coerced to a string key by JavaScript. The model treats it as
  never naming an entry, so it gets 500.
- Registry.ClientFor: assumes that constructing the OpenAI SDK client never
  throws. The SDK throws when `apiKey` is undefined, i.e. when
  `VITE_API_KEY` is unset. The SDK is not part of this model, so such a
  client is built with an absent key.
- The upstream answer is taken to depend on the request only. After a
  `setModel` in `chatService.js` that throws at the SDK constructor for a
  registered id, `modelConfig` is the new entry while `client` is the old
  one, so the next request carries the new model string through the old
  client's SDK and base URL; `call` does not see which client sends it.
- Error messages produced by the JavaScript engine are modelled by their
  kind (`TypeError`, `ReferenceError`, `SyntaxError`), not their exact text.
- `NaN` and the other non-finite numbers are not JSON values, so they do not appear.
