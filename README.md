# Crypto assistant chat: a Dafny model

This project models the core of a crypto-assistant web application. The
front end keeps a chat transcript. It tags each question with the
cryptocurrency it mentions and shows a price chart under replies about an
asset. The back end answers through a language-model agent, with canned
replies as a fallback, and serves price series, with mock series as a
fallback.

Each source file is modelled in its own form:

- **`Detector`** (`detector.dfy`) models `detectCryptocurrency`. It scans a
  fixed, ordered keyword registry. The first asset that has any keyword as a
  plain substring of the lower-cased text wins.
- **`ChatInterface`** (`chat_interface.dfy`) models the transcript.
  - Class `ChatSession` has the fields `messages`, `isLoading`,
    `currentCrypto` and a key-to-string `storage` map. Its methods are the
    load effect, the persist effect, the send and the clear.
  - The send is split at its `await`: `BeginSend` is the part before it and
    `FinishSend` the part after. `HandleSendMessage` composes the two.
  - Pure functions give the turns a send appends. The invariant that
    replies carry their question's tag is stated. The uninterrupted send
    (`HandleSendMessage`) preserves it, and so does `FinishSend` when the
    last turn is still the question it answers. A clear between the two
    halves breaks it (see below).
- **`ChatMessages`** (`chat_messages.dfy`) covers rendering:
  - the relative-time label, with exact millisecond bounds for each bucket;
  - the rule that puts a chart on a message;
  - the one-to-one, in-order mapping of entries to views.
- **`ChatInput`** (`chat_input.dfy`) is class `Composer`. It holds the
  draft, the send gate, the Ctrl/Cmd+Enter shortcut, the suggestions and
  the disabled predicates.
- **`CryptoChart`** (`crypto_chart.dfy`) is class `ChartPanel`.
  - The fetch effect is keyed on the symbol and the timeframe. It is split
    at its `await` into `StartFetch` and `CompleteFetch`.
  - The panel also has the timeframe buttons, and `View` says what is shown.
- **`CryptoData`** (`crypto_data.py`'s model, `crypto_data.dfy`) covers:
  - the symbol and timeframe tables;
  - the conversion of milliseconds to seconds, truncating toward zero;
  - the fallback to mock data, and the mock series itself (30 days, a
    random walk floored at 1). Its loop is a method proved against a
    specification function.
- **`Bedrock`** (`bedrock_client.dfy`) covers:
  - client selection at construction;
  - the agent, then model, then mock fallback chain;
  - assembly of the agent's streamed chunks, as a loop proved against a
    function;
  - the mock reply, which matches full asset names in order.
- **`ChatApp`** (`chat_app.dfy`) connects the components:
  - the composer feeding the session, including a double submit (button,
    shortcut or suggestion) while a reply is pending;
  - which bubble of an exchange carries a chart;
  - charts in a well-tagged transcript, which request valid market-data ids;
  - how the mock's canned choice relates to the front end's tag.
- `Text` and `Wrappers` hold string helpers and `Option`.

Clocks, randomness, storage, the network and `window.confirm` are
parameters. Their representations:

- Time is an integer `now`. The front end counts milliseconds and the price
  provider counts seconds.
- The seeded generator is a function from the symbol to its sequence of
  draws.
- Storage is a map.
- The chat endpoint, the market-data service and the agent and model
  runtimes are functions from the request to an outcome datatype.
- A confirmation is a boolean.
- `JSON.stringify` is the session's `encode` function. `JSON.parse`
  followed by the timestamp conversion is a partial `decode` parameter.

Behaviour of the code a reader might not expect, which the model follows:

- **Clear.** A confirmed clear removes the storage slot. The persist effect
  then runs at once, because `messages` changed, and writes the one-turn
  after-clear transcript back. So after a clear the slot holds the greeting
  and is not absent (`ChatInterface.ChatSession.ClearChatHistory`).
- **Empty transcript.** The transcript is not always non-empty. A stored
  value that decodes to an empty list restores an empty transcript, and the
  persist effect then leaves storage alone
  (`ChatInterface.RestoreEmptyOnlyFromEmptyList`).
- **Stale chart replies.** Nothing discards them. `CompleteFetch` applies
  whatever reply settles. `CryptoChart.OutOfOrderReplies` shows two
  timeframe presses whose replies arrive reversed: the panel ends showing
  the older series under the newer button.
- **One send at a time.** Only the composer enforces it, by disabling the
  button, the shortcut, the textarea and the suggestions while loading.
  `handleSendMessage` itself does not check `isLoading` (`ChatApp.DoubleSubmit`).
- **Clear while a reply is pending.** Nothing disables the Clear History
  button. A clear confirmed during the `await` replaces the transcript with
  the after-clear greeting. The reply is then appended straight after it,
  still tagged with the question that was cleared, so the transcript is no
  longer well tagged (`ChatInterface.ClearWhilePending`).

## Model

| member | source | states |
|---|---|---|
| Text.Lower | src/app/components/ChatInterface.tsx:81 | `toLowerCase()` on ASCII; its properties are stated by Text.LowerIdempotent and Text.LowerKeepsLowerCase |
| Text.Contains | src/app/components/ChatInterface.tsx:84 | `includes`, as a left-to-right scan; Text.ContainsIff states it is "occurs at some index" |
| Text.LowerIdempotent | src/app/components/ChatInterface.tsx:81 | lower-casing twice is lower-casing once, so detection and mock matching ignore case |
| Text.LowerKeepsLowerCase | src/app/components/ChatInterface.tsx:81 | a text with no upper-case letter is left as it is by lower-casing |
| Text.ContainsIff | src/app/components/ChatInterface.tsx:84 | the substring search succeeds exactly when the keyword occurs at some position |
| Text.AbsentCharBlocks | src/app/components/ChatInterface.tsx:84 | a keyword holding a character the text lacks is never found |
| Text.Trim | src/app/components/ChatInterface.tsx:94 | `trim()`; Text.TrimStart and Text.TrimEnd state what each half removes |
| Text.IsBlank | src/app/components/ChatInterface.tsx:94 | `!content.trim()`; Text.IsBlankIff states it is "every character is whitespace" |
| Text.TrimStart | src/app/components/ChatInterface.tsx:94 | the result is a suffix, starts with no whitespace, and only whitespace was dropped |
| Text.TrimEnd | src/app/components/ChatInterface.tsx:94 | the result is a prefix, ends with no whitespace, and only whitespace was dropped |
| Text.IsBlankIff | src/app/components/ChatInterface.tsx:94 | `!content.trim()` holds exactly when every character is JavaScript whitespace (including the empty text) |
| Text.NatToString | src/app/components/ChatMessages.tsx:31 | a count prints as a non-empty digit string without leading zeros |
| Text.ParseNatToString | src/app/components/ChatMessages.tsx:31 | reading the printed digits back gives the count: the label's number is unambiguous |
| Detector.DetectFrom | src/app/components/ChatInterface.tsx:83-89 | the scan from row i returns only names of rows at or after i |
| Detector.Detect | src/app/components/ChatInterface.tsx:72-90 | a non-null detection is one of the five registry names |
| Detector.SomeKeywordIn | src/app/components/ChatInterface.tsx:84 | `keywords.some(includes)` as a recursion over the list; Detector.SomeKeywordInIff states its meaning |
| Detector.KeywordsIff | src/app/components/ChatInterface.tsx:84 | `keywords.some(includes)` holds exactly when some keyword occurs somewhere in the text |
| Detector.SomeKeywordInIff | src/app/components/ChatInterface.tsx:84 | an asset matches exactly when one of its keywords occurs in the text |
| Detector.RegistryNamesDistinct | src/app/components/ChatInterface.tsx:73-79 | no two registry rows share a name |
| Detector.DetectFromFirstMatch | src/app/components/ChatInterface.tsx:83-87 | the scan from row `start` returns row i iff row i matches and no row between `start` and i does |
| Detector.DetectFromNone | src/app/components/ChatInterface.tsx:83-89 | the scan from row `start` returns null iff no later row matches |
| Detector.DetectIsFirstMatch | src/app/components/ChatInterface.tsx:73-87 | detection yields asset i exactly when one of its keywords occurs in the lower-cased text and no earlier asset's does |
| Detector.DetectNoneIff | src/app/components/ChatInterface.tsx:81-89 | detection yields null exactly when no keyword of any asset occurs in the lower-cased text |
| Detector.DetectIgnoresCase | src/app/components/ChatInterface.tsx:81 | `detect(t) == detect(lower(t))` |
| Detector.DetectPrefersEarlierAsset | src/app/components/ChatInterface.tsx:73-87 | "btc and eth" detects bitcoin: declaration order breaks ties |
| Detector.DetectMatchesInsideWords | src/app/components/ChatInterface.tsx:84 | "method" detects ethereum: keywords match inside words |
| Detector.ScanReachesEthereum | src/app/components/ChatInterface.tsx:83-87 | a lower-cased text lacking b in which "eth" occurs is tagged ethereum |
| Detector.KeywordPair | src/app/components/ChatInterface.tsx:84 | a two-keyword row matches iff either keyword occurs |
| Detector.DetectSolanaQuestion | src/app/components/ChatInterface.tsx:73-87 | "Tell me about Solana" detects solana |
| Detector.ScanReachesSolana | src/app/components/ChatInterface.tsx:83-87 | a lower-cased text lacking c, h and d and containing "solana" is tagged solana |
| Detector.DetectNoMention | src/app/components/ChatInterface.tsx:83-89 | "what is a hash function" detects nothing |
| Detector.ScanFindsNothing | src/app/components/ChatInterface.tsx:83-89 | a lower-cased text lacking b, e, d and l matches no asset |
| ChatInterface.GreetingWellTagged | src/app/components/ChatInterface.tsx:43-55 | the welcome transcript satisfies the tagging invariant |
| ChatInterface.ExchangeKeepsTagging | src/app/components/ChatInterface.tsx:100-145 | appending an exchange keeps user turns tagged with their own detection and successful replies tagged like their question |
| ChatInterface.ReplyMentionIgnoresReplyText | src/app/components/ChatInterface.tsx:139-144 | the reply's tag depends on the question only, never on the reply text |
| ChatInterface.SolanaReplyTagged | src/app/components/ChatInterface.tsx:97-144 | a successful reply to "Tell me about Solana" carries solana |
| ChatInterface.Restore | src/app/components/ChatInterface.tsx:30-56 | the mount-time restore; ChatInterface.RestoreEmptyOnlyFromEmptyList states the welcome fallback and when the result is empty, ChatInterface.RestoreAfterPersist the round trip |
| ChatInterface.RestoreAfterPersist | src/app/components/ChatInterface.tsx:29-64 | a persisted non-empty encoding that decodes back restores the same transcript |
| ChatInterface.RestoreEmptyOnlyFromEmptyList | src/app/components/ChatInterface.tsx:31-55 | restoring yields an empty transcript exactly when a non-empty stored value decodes to the empty list; a missing, empty or undecodable value gives the single welcome turn |
| ChatInterface.ChatSession.constructor | src/app/components/ChatInterface.tsx:23-25 | mounting starts with no messages, not loading, no badge, nothing announced |
| ChatInterface.ChatSession.PersistMessages | src/app/components/ChatInterface.tsx:60-64 | the slot is overwritten with the encoded transcript only when it is non-empty |
| ChatInterface.ChatSession.LoadMessages | src/app/components/ChatInterface.tsx:29-57 | the transcript becomes the restored one and is then persisted |
| ChatInterface.NextBadge | src/app/components/ChatInterface.tsx:109-111 | a new detection replaces the badge, and a message with no mention keeps the previous badge |
| ChatInterface.Announcement | src/app/components/ChatInterface.tsx:109-115 | a send calls the listener at most once, exactly when something is detected and a listener is wired, and passes the detection |
| ChatInterface.ChatSession.ShowDetection | src/app/components/ChatInterface.tsx:109-115 | the badge becomes NextBadge of the detection and the listener calls grow by its Announcement |
| ChatInterface.ChatSession.BeginSend | src/app/components/ChatInterface.tsx:93-130 | blank text changes nothing; otherwise the tagged user turn is appended, loading starts, the badge and the callback follow a non-null detection only, and the request body is all prior turns plus the new one |
| ChatInterface.ChatSession.FinishSend | src/app/components/ChatInterface.tsx:132-160 | the reply (with the question's tag) or the fixed apology (untagged) is appended and loading ends on every path; the tagging invariant is kept when the last turn is the question the reply answers |
| ChatInterface.ReplyKeepsTagging | src/app/components/ChatInterface.tsx:139-156 | appending a reply to the question it answers, or an untagged reply to anything, keeps the transcript well tagged |
| ChatInterface.ClearWhilePending | src/app/components/ChatInterface.tsx:93-178 | send, then a confirmed clear, then the reply: the transcript is the after-clear greeting followed by the tagged reply, and it is not well tagged |
| ChatInterface.Greeting | src/app/components/ChatInterface.tsx:43-55 | the untagged assistant turn of the welcome and of the clear (line 168); ChatInterface.GreetingWellTagged states it is well tagged |
| ChatInterface.UserTurn | src/app/components/ChatInterface.tsx:100-106 | the user turn tagged with its own detection; ChatInterface.ExchangeKeepsTagging states the invariant it keeps |
| ChatInterface.ReplyTurn | src/app/components/ChatInterface.tsx:139-156 | the tagged reply or the untagged apology; ChatInterface.ReplyKeepsTagging and ChatInterface.ReplyMentionIgnoresReplyText state its tag |
| ChatInterface.Exchange | src/app/components/ChatInterface.tsx:100-156 | the two turns an accepted send appends; ChatInterface.ExchangeKeepsTagging states they keep the transcript well tagged |
| ChatInterface.ChatSession.HandleSendMessage | src/app/components/ChatInterface.tsx:93-161 | blank text changes nothing; otherwise exactly one exchange for the backend's answer to the full transcript is appended, loading ends, and the tagging invariant is preserved across the uninterrupted send |
| ChatInterface.ChatSession.ClearChatHistory | src/app/components/ChatInterface.tsx:164-178 | declined changes nothing; confirmed leaves one after-clear greeting, no badge, a null announcement to a listener, and the slot holding that greeting |
| ChatMessages.FormatTimestamp | src/app/components/ChatMessages.tsx:22-38 | the relative time label; ChatMessages.LabelPresentIffTimestamp, JustNowIffUnderHalfMinute, MinutesLabel, HoursLabel and DaysLabel state its cases |
| ChatMessages.LabelPresentIffTimestamp | src/app/components/ChatMessages.tsx:22-37 | the label is empty exactly when the timestamp is missing |
| ChatMessages.RoundedMinutes | src/app/components/ChatMessages.tsx:28 | `Math.round(diffMs / 60000)`, halves rounding up; ChatMessages.JustNowIffUnderHalfMinute and ChatMessages.MinutesLabel state its brackets |
| ChatMessages.Plural | src/app/components/ChatMessages.tsx:34-37 | the "s" suffix above one; ChatMessages.HoursLabel and ChatMessages.DaysLabel state where it appears |
| ChatMessages.JustNowIffUnderHalfMinute | src/app/components/ChatMessages.tsx:27-30 | "just now" exactly when the age is under 30 000 ms, future timestamps included |
| ChatMessages.MinutesLabel | src/app/components/ChatMessages.tsx:28-31 | ages from 30 s to 59.5 min read "m min ago" with m in 1..59, the age within half a minute of m minutes |
| ChatMessages.HoursLabel | src/app/components/ChatMessages.tsx:33-34 | ages from 59.5 min to 23 h 59.5 min read "h hour(s) ago" with h in 1..23 and "s" only above one |
| ChatMessages.DaysLabel | src/app/components/ChatMessages.tsx:36-37 | longer ages read "d day(s) ago" with d at least 1 and the age bracketed by d days |
| ChatMessages.ShowsChart | src/app/components/ChatMessages.tsx:78 | `!isUser && message.cryptoSymbol`; ChatMessages.RenderMessage states that a chart is drawn exactly then |
| ChatMessages.RenderMessage | src/app/components/ChatMessages.tsx:18-92 | a chart appears exactly on non-user messages with a non-empty tag, for that tag; a time label exactly when there is a timestamp |
| ChatMessages.RenderMessages | src/app/components/ChatMessages.tsx:141-146 | one view per entry, in transcript order |
| ChatMessages.RenderAppend | src/app/components/ChatMessages.tsx:141-146 | rendering a longer transcript renders the old part unchanged, followed by the new part |
| ChatInput.TextareaDisabled | src/app/components/ChatInput.tsx:195 | `disabled={isLoading}` on the textarea; ChatInput.NothingSendableWhileLoading and ChatInput.Composer.Edit state its effect |
| ChatInput.SendDisabled | src/app/components/ChatInput.tsx:204 | the send button's gate; ChatInput.Composer.HandleSubmit states that a submit sends exactly when it is open |
| ChatInput.SuggestionsVisible | src/app/components/ChatInput.tsx:160 | when the suggestions are rendered; ChatInput.Composer.HandleSuggestionClick states that a click sends exactly then |
| ChatInput.IsSubmitShortcut | src/app/components/ChatInput.tsx:45 | Ctrl or Meta with Enter; ChatInput.Composer.HandleKeyDown states that only it submits |
| ChatInput.NothingSendableWhileLoading | src/app/components/ChatInput.tsx:160-204 | while loading the button and textarea are disabled and the suggestions hidden |
| ChatInput.SuggestionsOnlyWithEmptyDraft | src/app/components/ChatInput.tsx:160 | suggestions show only with an empty draft, when the button is disabled |
| ChatInput.WhitespaceDraftBlocksSend | src/app/components/ChatInput.tsx:204 | a whitespace draft disables the button yet hides the suggestions |
| ChatInput.SuggestionsAreSendable | src/app/components/ChatInput.tsx:51-56 | each of the four suggestions is non-blank |
| ChatInput.Composer.constructor | src/app/components/ChatInput.tsx:11 | the draft starts empty |
| ChatInput.Composer.Edit | src/app/components/ChatInput.tsx:189-195 | typing replaces the draft unless the textarea is disabled |
| ChatInput.Composer.HandleSubmit | src/app/components/ChatInput.tsx:30-41 | sends iff the trimmed draft is non-empty and not loading; sends the untrimmed draft and clears it; otherwise leaves it |
| ChatInput.Composer.HandleKeyDown | src/app/components/ChatInput.tsx:44-48 | submits iff Ctrl or Meta is held with Enter and the gate is open |
| ChatInput.Composer.HandleSuggestionClick | src/app/components/ChatInput.tsx:58-60 | a click sends exactly when the suggestions are shown (empty draft, nothing in flight), and then sends that suggestion, which is never blank; the draft is untouched |
| CryptoChart.Truthy | src/app/components/CryptoChart.tsx:24 | the `!cryptoSymbol` test: a null or empty symbol is falsy; CryptoChart.ChartPanel.StartFetch and CryptoChart.ChartPanel.View state its effect |
| CryptoChart.TimeframeLabel | src/app/components/CryptoChart.tsx:184-187 | the button caption; CryptoChart.ButtonsDistinct states the captions are distinct |
| CryptoChart.ButtonsDistinct | src/app/components/CryptoChart.tsx:178-187 | the five buttons have distinct captions and strictly increasing day spans; the default "1mo" is one of them |
| CryptoChart.LatestPrice | src/app/components/CryptoChart.tsx:210-211 | a latest price exists iff there are prices and is the last one |
| CryptoChart.ChartPanel.constructor | src/app/components/CryptoChart.tsx:17-49 | mounting starts at "1mo" with no data and fetches iff the symbol is truthy |
| CryptoChart.ChartPanel.StartFetch | src/app/components/CryptoChart.tsx:23-32 | no symbol, no fetch; otherwise loading on, error cleared, data kept, one request logged |
| CryptoChart.ChartPanel.CompleteFetch | src/app/components/CryptoChart.tsx:34-45 | success stores the data, failure sets the fixed error; loading ends both ways; with a symbol the view then shows the body or the error |
| CryptoChart.ChartPanel.HandleTimeframeChange | src/app/components/CryptoChart.tsx:49-53 | the timeframe is set and a fetch restarts only if it changed and a symbol is present |
| CryptoChart.ChartPanel.SetSymbol | src/app/components/CryptoChart.tsx:23-49 | a new symbol prop restarts the fetch only if it changed and is truthy |
| CryptoChart.ChartPanel.View | src/app/components/CryptoChart.tsx:156-211 | the placeholder iff no truthy symbol; the body iff not loading, no error and data present |
| CryptoChart.OutOfOrderReplies | src/app/components/CryptoChart.tsx:23-49 | replies settling in reverse order leave the older series shown under the newer timeframe |
| CryptoData.CoinId | crypto_data.py:31 | the market-data id; CryptoData.CoinIdLookup and CryptoData.StellarId state its values |
| CryptoData.CoinIdLookup | crypto_data.py:17-31 | known lower-cased names map through the table, others to their lower-cased self; case never matters |
| CryptoData.StellarId | crypto_data.py:27 | "Stellar" maps to "stellar-lumens"; every other table entry maps to itself |
| CryptoData.Days | crypto_data.py:42 | the day count; CryptoData.DaysTable states its values |
| CryptoData.DaysTable | crypto_data.py:34-42 | the day count is one of 1, 7, 30, 90, 365, and 30 for any unlisted timeframe |
| CryptoData.TruncDiv | crypto_data.py:68 | `int(x / y)`, the quotient truncated toward zero; CryptoData.TruncDivBounds states it |
| CryptoData.TruncDivBounds | crypto_data.py:68 | `int(x/1000)` truncates toward zero |
| CryptoData.Seconds | crypto_data.py:68 | the whole seconds of each entry; CryptoData.SeriesAligned and CryptoData.TruncDivBounds state them |
| CryptoData.Prices | crypto_data.py:69 | the price of each entry; CryptoData.SeriesAligned states them |
| CryptoData.SeriesAligned | crypto_data.py:67-69 | timestamps and prices have the reply's length and order, each time the whole seconds of its entry |
| CryptoData.MockTimestamps | crypto_data.py:88 | the thirty mock times; CryptoData.MockTimestampsShape states their shape |
| CryptoData.MockTimestampsShape | crypto_data.py:85-88 | thirty times, one day apart, strictly increasing, ending one day before now |
| CryptoData.OrdSum | crypto_data.py:91 | `sum(ord(c) for c in symbol)`; CryptoData.BasePriceRange states the range of the price built on it |
| CryptoData.BasePrice | crypto_data.py:91 | the symbol's base price; CryptoData.BasePriceRange states its range |
| CryptoData.BasePriceRange | crypto_data.py:91 | the base price is in [100, 1099] |
| CryptoData.Step | crypto_data.py:98 | `random.uniform(-0.05 base, 0.05 base)` for a draw u; CryptoData.StepBounds states its range |
| CryptoData.Walk | crypto_data.py:96-98 | `current_price` after n iterations; CryptoData.WalkBounds and CryptoData.MockPrices state it |
| CryptoData.MockPriceSeries | crypto_data.py:95-99 | the thirty walk prices, each floored at 1; CryptoData.MockPrices states that the loop computes it |
| CryptoData.StepBounds | crypto_data.py:96-98 | one step with a draw in [0, 1) moves the price by at most 5% of the base |
| CryptoData.WalkBounds | crypto_data.py:96-98 | with draws in [0, 1) the walk moves at most 5% of the base per step |
| CryptoData.MockPrices | crypto_data.py:95-99 | the loop yields the walk's thirty prices, each floored at 1 |
| CryptoData.GenerateMockData | crypto_data.py:83-105 | the mock keeps the symbol, has thirty aligned entries, and its prices depend on the symbol alone |
| CryptoData.FetchCryptoData | crypto_data.py:11-80 | the mapped id and day count are requested; the reply is converted, or the mock returned on failure; the symbol is kept and the series aligned |
| Bedrock.MockMatchFrom | bedrock_client.py:161-164 | a match found from index i is a canned name at or after i that occurs in the prompt |
| Bedrock.MockMatchFromIsFirst | bedrock_client.py:161-164 | the match is the first occurring name, and none exactly when no name occurs |
| Bedrock.MockResponse | bedrock_client.py:138-176 | the text of the reply Bedrock.MockChoice selects; Bedrock.MockIgnoresCase states it ignores case |
| Bedrock.MockChoice | bedrock_client.py:153-176 | a canned pick is one of the five named replies; otherwise the reply is the general one at the drawn index |
| Bedrock.MockChoiceIsFirstName | bedrock_client.py:153-176 | the canned reply of name i is picked iff name i occurs and no earlier name does; the general reply iff no name occurs |
| Bedrock.MockIgnoresCase | bedrock_client.py:161 | the mock reply ignores case |
| Bedrock.TickerGetsGeneralReply | bedrock_client.py:153-176 | "btc price" gets a general reply: tickers are not names |
| Bedrock.NoNameFindsNothing | bedrock_client.py:161-164 | a lower-cased prompt lacking o, h, a, s and d matches no name |
| Bedrock.AssembledAppend | bedrock_client.py:81-96 | assembly distributes over concatenated streams |
| Bedrock.AssembledEmptyIff | bedrock_client.py:98-106 | the text is empty exactly when no event contributes |
| Bedrock.AssembleAgentText | bedrock_client.py:81-96 | the chunk loop yields the in-order concatenation of the JSON contents and plain texts |
| Bedrock.ModelRequestFor | bedrock_client.py:112-122 | the wrapped prompt holds the prompt, unchanged, between the two markers, and the token limit and temperature pass through |
| Bedrock.UnwrapPrompt | bedrock_client.py:119 | a recovered prompt is the wrapped text less the two markers |
| Bedrock.UnwrapModelPrompt | bedrock_client.py:119 | the prompt is read back unchanged from the model request |
| Bedrock.ModelRequestInjective | bedrock_client.py:112-122 | different prompts give different model requests |
| Bedrock.BedrockClient.constructor | bedrock_client.py:12-48 | credentials hold iff both keys are non-empty and a session and one client were created; exactly one client then exists, the agent preferred |
| Bedrock.BedrockClient.GenerateResponse | bedrock_client.py:50-136 | mock without credentials; agent text or the no-response text; else the model's string completion, the default when the field is absent, and the non-string value itself when it is present but not a string (the only non-string result); mock on any failure or with no client |
| Bedrock.AgentRequestFor | bedrock_client.py:72-78 | the agent id, alias id and the prompt as input text; Bedrock.BedrockClient.GenerateResponse states the agent reply is read from it |
| Bedrock.Contribution | bedrock_client.py:83-96 | what one chunk adds: the JSON content, or the plain text, else nothing; Bedrock.AssembledEmptyIff states when nothing is added |
| Bedrock.AssembledText | bedrock_client.py:81-96 | the in-order concatenation of the contributions; Bedrock.AssembledAppend and Bedrock.AssembleAgentText state its properties |
| ChatApp.ExchangeCharts | src/app/components/ChatMessages.tsx:78-82 | in an exchange only the reply bubble can carry a chart, exactly when the backend answered and the question mentions an asset |
| ChatApp.RenderAfterExchange | src/app/components/ChatMessages.tsx:141-146 | an exchange adds two views after the unchanged earlier ones |
| ChatApp.SubmitDraft | src/app/components/ChatInterface.tsx:318 | what the composer sends is never blank, so the transcript grows by one exchange; a refused submit (blank draft or loading) leaves the draft, transcript, loading flag, badge, storage and listener calls unchanged |
| ChatApp.TypeAndSubmitWhileLoading | src/app/components/ChatInput.tsx:30-60 | while loading, typing is ignored and neither the button, the shortcut nor a suggestion sends anything |
| ChatApp.DoubleSubmit | src/app/components/ChatInput.tsx:32-60 | a second submit while a reply is pending, by button, shortcut or suggestion, is refused, leaving exactly one exchange |
| ChatApp.ClickSuggestion | src/app/components/ChatInput.tsx:58-60 | a suggestion click appends one exchange for that suggestion exactly when the suggestions are shown; otherwise the transcript, loading flag, badge, storage and listener calls are unchanged |
| ChatApp.DetectedAssetsHaveIds | crypto_data.py:17-31 | every detectable asset is its own market-data id |
| ChatApp.RegistryNamesAreIds | crypto_data.py:17-31 | each registry name is a key of the id table that maps to itself |
| ChatApp.TranscriptChartsHaveIds | src/app/components/ChatMessages.tsx:78-82 | in a well-tagged transcript every chart is for a valid market-data id |
| ChatApp.ChartForReply | src/app/components/ChatMessages.tsx:78-118 | a bubble's chart mounts requesting its tag over the default month; in a well-tagged transcript the provider's query is that tag as the id, for thirty days |
| ChatApp.MockNamesAreRegistryNames | bedrock_client.py:153-159 | the mock's names are the registry's names, in the same order |
| ChatApp.MockAnswerImpliesDetection | bedrock_client.py:161-164 | when the mock picks name k, the question is tagged with asset k or an earlier one |
| ChatApp.TickerTaggedButAnsweredGenerally | bedrock_client.py:161-176 | "btc price" is tagged bitcoin yet answered generally |

## Left out

- Text.Lower: only ASCII A–Z are lower-cased. The keywords are ASCII, but `toLowerCase`/`lower()` also map other letters, and the model leaves those unchanged.
- Serialisation is abstract. `JSON.stringify`, `JSON.parse`, `new Date(...)` and the conversion of stored timestamps are the `encode` and `decode` parameters. The CoinGecko and agent JSON bodies are outcome datatypes. The model body's `completion` field is absent, a string, or some other value, without its contents.
- Bedrock.Payload: the bytes of a chunk are given already classified. A JSON value that is not an object with a string `content` (a number, a list) is skipped like other failures inside the chunk handler, so plain text that happens to parse as JSON contributes nothing. The model does not compute this classification from bytes. A chunk event without `bytes` is not a payload: the handler's own error print raises again, the exception leaves the loop and the reply becomes the mock, which the model expresses only as a failed agent call (`AgentFailed`).
- Default arguments are required parameters: `max_tokens=1000` and `temperature=0.7` of `generate_response` (Bedrock.BedrockClient.GenerateResponse) and `timeframe='1mo'` of `fetch_crypto_data` (CryptoData.FetchCryptoData) must be passed by the caller.
- ChatMessages.RenderMessages: every time label is computed at one common `now`. In the component each bubble is memoised (`memo` on `ChatMessage`, `CryptoChartInMessage` and `ChatMessages`), and appending keeps the earlier message objects, so an earlier bubble is not re-rendered and its relative-time label stays at the value from its first render (the welcome turn keeps reading "just now" until a reload). The model does not capture this per-bubble freezing of labels.
- Floating point: prices, `random.uniform` and `max(current_price, 1)` use exact reals. `toFixed(2)` formatting is not modelled.
- Randomness and the clock are parameters:
  - the generator seeded by the symbol is a draw sequence per symbol;
  - `random.choice` is an index `choice < 5`;
  - the agent session id, built from the time and a random number, is not modelled;
  - `time.sleep` is dropped.
- I/O: `fetch`, `requests.get`, the boto3 clients, `localStorage` and `window.confirm` are outcome parameters, the storage map and a boolean. Logging is dropped.
- Concurrency:
  - ChatInterface.ChatSession.HandleSendMessage runs the send as one sequential transition. Interleavings during the `await` are expressible only by calling `BeginSend` and `FinishSend` separately, as ChatInterface.ClearWhilePending does.
  - The stale `messages` closure used for the request body is not modelled: the request is built from the transcript at call time.
- Unmodelled view text and behaviour: the badge capitalisation, chart titles, the character count, auto-scroll, focus, textarea resize, chart.js options and styling.
- Not part of this model: src/app/components/Layout.tsx, src/app/api/page.tsx, src/app/components/ChartControls.tsx, src/app/lib/bedrock.ts and python/chat_handler.py. They are markup or thin wrappers. The chat endpoint and the price endpoint that connect the front end to the Python code are not among the source files; the model treats the chat endpoint as a function of the request body.
