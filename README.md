# chatterpop-widget: a Dafny model of the chat core

The project is an embeddable chat widget. It has a browser-side service that
either answers offline from canned replies or posts the conversation to a
small Express proxy, and the proxy forwards it to an OpenAI-style completion
endpoint. This Dafny project models these parts:

- the offline responder (`src/lib/mockApi.ts`), module `MockApi`. It has a
  case-insensitive keyword classifier where the first match wins, the table of
  canned replies, and a reply chosen by a random number in [0, 1) that is
  passed in as a parameter;
- the client service (`src/lib/llmService.ts`), module `LlmService`. It holds
  the default configuration and the constructor's spread merge, the `gqlmin`
  whitespace minifier, the formatting of the history for the proxy, and
  `sendMessage`. Without a key, `sendMessage` uses the offline responder; on
  any failure it returns a fixed apology; on success it copies the proxy's
  `reply`, `zalandoData` and `contentfulData`. `SendMessageResult` is the
  specification function, and the class `LLMService` holds the stored config
  and a `SendMessage` method that is proved against it;
- the `/api/chat` handler (`server/index.js`), module `Server`. It is a pure
  function from the request body and the outcome of the one upstream call to
  that call (if one is made) and the HTTP response;
- the widget's state (`ChatWidget.tsx`), class `ChatWidget.ChatWidget`. Its
  fields are `isOpen`, `messages`, `isLoading`, `zalandoData` and
  `contentfulData`. `handleSendMessage` is split at its `await`: `BeginSend`
  runs before the service call and `FinishSend` after it. `HandleSendMessage`
  runs both around the widget's own service;
- the input field (`ChatInput.tsx`), class `ChatInput.ChatInput`: the submit
  guard, the clearing of the field, and the disabled-button predicate;
- module `Deployment` connects the service and the proxy. It proves that with
  this proxy the service never receives `zalandoData` or `contentfulData`, and
  that a send through it leaves the widget's data fields unchanged, so they
  stay at their initial `null`.

Shared modules: `Js` holds JavaScript values (`undefined`, `null`, booleans,
integers, strings, arrays, objects), truthiness, property access (which throws
on `null`/`undefined`) and the abstract `fetch` outcome. The outcome is
`NetworkError | Response(status, Malformed | Json(value))`, and `ok` means a
status in 200..299. `Text` holds ASCII lower-casing, the whitespace set (space,
tab, LF, VT, FF, CR, used for both `\s` and `trim`), `trim` and substring
search. `ChatTypes` holds the `Message` record.

Two places where the code differs from the project's own description:
- The description speaks of a product-search → content-query → completion
  chain and of slug derivation. The handler in `server/index.js` makes a
  single completion call and ignores the `contentfulQuery` field that the
  client sends. The model follows the code.
- `gqlmin` is defined but never applied: the query is sent unminified. It is
  modelled and proved on its own.

## Model

| member | source | states |
|---|---|---|
| `Text.BlankIffAllWhitespace` | src/components/ChatWidget/ChatWidget.tsx:59 | `!text.trim()` holds exactly when every character of the text is whitespace (the empty string included) |
| `MockApi.MatchesAny` | src/lib/mockApi.ts:35-41 | a regular expression made of alternative words matches exactly when some alternative occurs as a substring of the message |
| `MockApi.ResponseCategory` | src/lib/mockApi.ts:32-46 | the classifier is total: every string, the empty one included, gets one of the five category names |
| `MockApi.TableCoversCategories` | src/lib/mockApi.ts:7-30 | the reply table has exactly the five category names as keys, and every list of replies is non-empty |
| `MockApi.CaseInsensitive` | src/lib/mockApi.ts:33 | two messages that differ only in the case of letters get the same category |
| `MockApi.LowerCaseSameCategory` | src/lib/mockApi.ts:33 | a message and its lower-cased form get the same category |
| `MockApi.GreetingWins` | src/lib/mockApi.ts:35-36 | a message containing hello, hi, hey or greetings is a greeting, whatever other keywords it contains |
| `MockApi.Precedence` | src/lib/mockApi.ts:35-45 | each category is chosen exactly when its keyword group matches and no earlier group does; default exactly when no group matches |
| `MockApi.WhichPlanIsGreeting` | src/lib/mockApi.ts:35-43 | "which plan" contains a pricing keyword, but it is classified as a greeting because it contains "hi" |
| `MockApi.EmptyIsDefault` | src/lib/mockApi.ts:45 | the empty message gets the default category |
| `MockApi.PickIndex` | src/lib/mockApi.ts:50 | for 0 <= r < 1 and a non-empty list, floor(r * length) is a valid index |
| `MockApi.RepliesFor` | src/lib/mockApi.ts:49 | a known category gives its own list, an unknown name gives the default list; the list is never empty |
| `MockApi.RandomResponse` | src/lib/mockApi.ts:48-52 | the chosen reply is an element of the category's list (or of the default list) |
| `MockApi.UnknownCategoryFallsBack` | src/lib/mockApi.ts:49 | a category name outside the five yields one of the default replies |
| `MockApi.MockChatResponse` | src/lib/mockApi.ts:54-62 | the offline reply is always a member of the list of the message's category |
| `MockApi.HelloGetsGreeting` | src/lib/mockApi.ts:8-12 | "hello" gets one of the three greeting replies, whatever the random number |
| `LlmService.Merge` | src/lib/llmService.ts:271 | the object spread: each field of the supplied config wins when present, otherwise the default field is kept |
| `LlmService.ConstructorConfig` | src/lib/llmService.ts:11-14 | the stored config keeps the supplied API key, and uses the supplied model and endpoint or else gpt-3.5-turbo and the OpenAI endpoint; model and endpoint are always set |
| `LlmService.MergeLaws` | src/lib/llmService.ts:270-272 | spreading `{}` is the identity, spreading the same config twice equals spreading it once, and spreads compose associatively |
| `LlmService.CollapseWs` | src/lib/llmService.ts:157 | `replace(/\s+/g, ' ')` leaves only single plain spaces as whitespace, starts with whitespace exactly when its input does, and keeps the non-whitespace characters in order |
| `LlmService.Gqlmin` | src/lib/llmService.ts:156-158 | the output of gqlmin has no leading or trailing whitespace, no two adjacent whitespace characters and no whitespace other than a single space, and it keeps the sequence of non-whitespace characters exactly |
| `LlmService.TrimKeepsNonWs` | src/lib/llmService.ts:157 | `trim` removes whitespace only |
| `LlmService.GqlminFixedPoints` | src/lib/llmService.ts:156-158 | gqlmin leaves a string unchanged exactly when that string is already minified |
| `LlmService.GqlminIdempotent` | src/lib/llmService.ts:156-158 | gqlmin(gqlmin(q)) == gqlmin(q) |
| `LlmService.CollapseSeparates` | src/lib/llmService.ts:157 | a non-empty whitespace run between a character that is not whitespace (or the start) and another (or the end) becomes exactly one space, and the two sides are collapsed independently |
| `LlmService.GqlminJoinsWithOneSpace` | src/lib/llmService.ts:156-158 | two non-empty minified pieces separated by any whitespace run minify to the pieces joined by exactly one space, so tokens are never merged |
| `LlmService.RoleOf` | src/lib/llmService.ts:285 | the role is 'user' exactly when the sender is the user; bot messages become 'assistant' |
| `LlmService.HistoryToWire` | src/lib/llmService.ts:284-287 | the mapped history has one entry per message, in order, with the mapped role and the message text as content |
| `LlmService.FormatHistory` | src/lib/llmService.ts:283-289 | the posted list has one entry more than the history, starts with the mapped history and ends with the user turn carrying the new message |
| `LlmService.HistoryToWireAppend` | src/lib/llmService.ts:284-287 | mapping the history commutes with appending turns |
| `LlmService.MockReply` | src/lib/llmService.ts:325-328 | the offline path resolves to a string reply and carries no data fields |
| `LlmService.MockReplyIsCanned` | src/lib/llmService.ts:325-328 | the offline reply is one of the canned replies of the message's category |
| `LlmService.ReplyFromProxy` | src/lib/llmService.ts:305-321 | a network error, a non-OK status or an unparsable body gives the apology; an OK object body gives its reply, zalandoData and contentfulData unchanged |
| `LlmService.SendMessageResult` | src/lib/llmService.ts:274-322 | without a truthy API key nothing is posted and the reply is the offline one; with a key, the formatted conversation and the config are posted and the reply is the one derived from the proxy's outcome |
| `LlmService.NoKeyNoFetch` | src/lib/llmService.ts:276-279 | without a key no fetch is made, and the reply does not depend on any proxy outcome |
| `LlmService.PostedConversation` | src/lib/llmService.ts:283-289 | each earlier turn is posted at its own position with its text and the mapped role, and the new user message comes last |
| `LlmService.FailuresGiveApology` | src/lib/llmService.ts:316-321 | a network error, a non-OK status, an unparsable body or a `null` body all give exactly "I'm having trouble connecting to my brain right now. Please try again later." with no data fields |
| `LlmService.LLMService.constructor` | src/lib/llmService.ts:270-272 | the stored config is the defaults overridden by the supplied fields |
| `LlmService.LLMService.SendMessage` | src/lib/llmService.ts:274-322 | the method posts and returns exactly what `SendMessageResult` describes for the stored config |
| `Server.BuildCall` | server/index.js:27-39 | the upstream URL is the configured endpoint or the OpenAI default, the Authorization header is "Bearer " + apiKey, and the body holds the configured model or gpt-3.5-turbo, the messages unchanged, temperature 0.7 and max_tokens 500 |
| `Server.Relay` | server/index.js:41-55 | a fetch failure or an unparsable body gives the fixed 500; a non-OK upstream status is passed through with its body; an OK answer gives 200 `{reply: choices[0].message.content}` when that path can be read and the fixed 500 when a step of it is null or undefined; any 200 answer carries the field `reply` and nothing else |
| `Server.ReplyContent` | server/index.js:48 | reading `data.choices[0].message.content` throws for a null or undefined body, a missing, null, undefined or empty `choices`, and a first choice that is null, undefined or has no message; when the first choice has a message object it yields its `content` (undefined when absent), whatever other keys are present |
| `Server.HandleChat` | server/index.js:19-56 | an upstream call is made exactly when a config with a truthy apiKey is present; otherwise the answer is 400 |
| `Server.MissingKeyRejected` | server/index.js:23-25 | a missing config, or one with an empty or missing key, gives 400 `{error:{message:'API key is required'}}` and no upstream call |
| `Server.OutgoingRequest` | server/index.js:27-38 | the upstream request uses the endpoint and model defaults, the bearer token, the messages verbatim and the fixed sampling parameters |
| `Server.UpstreamErrorPassedThrough` | server/index.js:41-44 | a non-OK upstream answer is returned with the upstream status and the upstream body verbatim |
| `Server.SuccessExtractsContent` | server/index.js:46-49 | an OK upstream answer whose first choice holds a message object yields 200 `{reply: choices[0].message.content}` and nothing else, whatever other keys the answer, the choice or the message carry |
| `Server.NoChoiceIsServerError` | server/index.js:50-55 | an OK answer that is null or undefined, has no `choices` or a null, undefined or empty one, or whose first choice is null, undefined or lacks `message` throws and gives 500 'Server error processing your request' |
| `Server.ResponseKinds` | server/index.js:19-56 | every response is the 400, the 500, the passed-through upstream error, or a 200 carrying only `reply` |
| `ChatWidget.BotText` | src/components/ChatWidget/ChatWidget.tsx:79-96 | the bot text is the reply when truthy, "Sorry, I couldn't process that request." when not, "Sorry, there was an error processing your request." when the call threw; it is never empty |
| `ChatWidget.KeepUnlessTruthy` | src/components/ChatWidget/ChatWidget.tsx:76-77 | a data field is overwritten only by a truthy value; otherwise the previous value stays |
| `ChatWidget.ChatWidget.constructor` | src/components/ChatWidget/ChatWidget.tsx:28-35 | the widget starts closed with an empty transcript, takes the given welcome message or the default "Hi there! ... How can I help you today?", no loading and null data, and uses the given service or one with the default config |
| `ChatWidget.ChatWidget.ToggleChat` | src/components/ChatWidget/ChatWidget.tsx:54-56 | `isOpen` flips and no other field changes |
| `ChatWidget.ChatWidget.Close` | src/components/ChatWidget/ChatWidget.tsx:129 | the header's close button sets `isOpen` to false and changes nothing else |
| `ChatWidget.ChatWidget.WelcomeEffect` | src/components/ChatWidget/ChatWidget.tsx:37-48 | an open widget with an empty transcript gets exactly the single bot welcome message; otherwise the transcript is unchanged |
| `ChatWidget.ChatWidget.BeginSend` | src/components/ChatWidget/ChatWidget.tsx:58-70 | text that is all whitespace (the empty text included) changes neither messages nor loading; other text appends exactly one user message with the text unchanged, sets loading, and hands the pre-send transcript to the service |
| `ChatWidget.ChatWidget.FinishSend` | src/components/ChatWidget/ChatWidget.tsx:72-99 | exactly one bot message is appended after whatever the transcript is now, loading is cleared on both paths, the message before the bot's is the user's turn when a reply was pending, and the data fields change only to truthy values |
| `ChatWidget.ChatWidget.HandleSendMessage` | src/components/ChatWidget/ChatWidget.tsx:58-100 | a non-blank send grows the transcript by exactly the user message and then the bot message for the service's reply to the pre-send history, and ends with loading cleared; a send of whitespace only changes nothing |
| `ChatInput.ChatInput.constructor` | src/components/ChatWidget/ChatInput.tsx:16 | the field starts empty |
| `ChatInput.ChatInput.Change` | src/components/ChatWidget/ChatInput.tsx:34 | typing sets the field to the typed value |
| `ChatInput.ChatInput.SubmitDisabled` | src/components/ChatWidget/ChatInput.tsx:43 | the submit button is disabled exactly while loading or while the field holds only whitespace |
| `ChatInput.ChatInput.HandleSubmit` | src/components/ChatWidget/ChatInput.tsx:18-24 | a submit goes through exactly when the button is enabled; the untrimmed text is handed over once (never blank) and the field is cleared; otherwise nothing is handed over and the field is unchanged |
| `Deployment.EncodeMessages` | src/lib/llmService.ts:297-302 | the JSON array posted has one entry per formatted message, in order |
| `Deployment.ThroughProxy` | server/index.js:27-49 | through the proxy, the completion call receives the formatted conversation, the configured or default model and the bearer key; the client gets the apology or the 200 reply, never any data field |
| `Deployment.DataFieldsNeverSet` | server/index.js:46-49 | with this proxy, and with or without a key, the service's reply never carries zalandoData or contentfulData |
| `Deployment.WidgetDataKept` | src/components/ChatWidget/ChatWidget.tsx:76-77 | a reply through this proxy leaves both of the widget's data fields at whatever they held |
| `Deployment.SendThroughProxy` | src/components/ChatWidget/ChatWidget.tsx:58-100 | a whole send of a widget whose service talks to this proxy leaves `zalandoData` and `contentfulData` unchanged |

## Left out

- The one-second `setTimeout` delay of the offline responder and all `async` suspension: each awaited call is a single step with an outcome given as input. The widget's send is split at its one `await` so that other transitions can happen in between.
- `Math.random` is a parameter in [0, 1); floating point is not modelled, and the pick uses Dafny's exact reals.
- `fetch` itself, Express middleware, CORS, static serving, the `*` route and `app.listen`: these are I/O and framework wiring. Both fetches are abstract outcomes.
- `console.warn` and `console.error` calls: logging only.
- The GraphQL query and fragment strings, and the `contentfulQuery` field posted with them: opaque data that the proxy never reads.
- JavaScript numbers are modelled as integers, and the 0.7 temperature as an exact real.
- Config fields are absent or strings. An explicitly `undefined` field (which a spread would copy over a default) and non-string `apiKey`/`model`/`apiEndpoint` values are not modelled, so string interpolation of other types is not either.
- `getRandomResponse` on names inherited from `Object.prototype` (such as "toString"): the lookup is modelled as a plain map lookup. The classifier can never produce such a name.
- `JSON.stringify` dropping `undefined`-valued keys: a missing key and an `undefined` field read the same to every consumer here.
- Unicode case mapping and the Unicode whitespace characters beyond the six ASCII ones listed above.
- Message ids and timestamps from `Date.now()`/`new Date()` are opaque parameters. The proxy's response status codes are not range-checked by Express here.
- The widget's unused `apiEndpoint` prop, the render functions, the scroll effect, and the JSX of both components are not modelled. `defaultLLMService` is shared by all widgets in the source; here each widget without a service builds its own, which is equivalent because the service's only field is constant.
- Other files (mounting, console injection, build scripts, other components) are not part of this model.
