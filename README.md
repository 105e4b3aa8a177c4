# AI Trading Assistant — a verified model of its decision logic

The extension is made of three scripts:

- **Page agent** (`content.js`): runs inside TradingView pages. It searches the document across shadow roots, extracts a snapshot of the page, and performs click / type / scroll actions.
- **Relay** (`background.js`): routes the panel's requests. It decides which tab a request targets and whether that tab is on tradingview.com. It makes sure the page agent is present before forwarding (ping, then inject once). It calls the language-model API and turns its answer into a reply, recovering JSON wrapped in prose.
- **Side panel** (`sidepanel.js`): the chat UI. Its `TradingAssistant` keeps the conversation log and a loading flag. It consumes a pending quick command once, refuses to send without an API key, and turns the relay's answers into chat lines and action buttons.

This project models the deterministic logic of all three in Dafny and proves what that logic promises. In one place the code does not keep the design's promise that a tab outside TradingView never leads to an API call. The model follows the code there, and "## Findings" records the gap with a corrected variant.

| file | module | models |
|---|---|---|
| `js.dfy` | `Js` | The JavaScript semantics the logic relies on: message values, truthiness, `?.` access, `String(v)`, `trim` (ECMAScript white space), UTF-16 `length`, `includes`. Promise settlement is `Settled`. |
| `dom.dfy` | `Dom` | The document as a tree of elements with optional shadow roots, and the light-DOM `querySelector` / `querySelectorAll` in document order. |
| `content.dfy` | `Content` | `deepQueryAll`, `deepQuerySelector`, the extractors, `extractTradingViewData`, `executeAction`, and the agent's message switch. The page is a class whose events and control values the actions update. |
| `background.dfy` | `Background` | Eligibility, tab resolution and gating, the presence check, forwarding, the page-data path, `safeParseJSON`, the tail of `callGeminiAPI`, `handlePageAnalysis`, and the dispatcher. |
| `sidepanel.dfy` | `Sidepanel` | The `TradingAssistant` class: log, loading flag, input boxes, storage, the rendered list, and the requests it sends. Covers `handleSend` and its helpers, `executeAction`, and saving and loading the key. |

Everything outside the scripts becomes an input, so each handler is a total function or method of these:

- **Browser and network calls.** Each chrome.* call and the `fetch` is an input: the value it resolves to, or the message it rejects with. Examples are `Host` and `FetchOutcome`, and in the panel the awaited replies passed as parameters.
- **Library calls.** `new URL(s).hostname` is `hostOf: string -> Option<string>` and `JSON.parse` is `parse: string -> Option<Value>`. `None` stands for "throws".
- **CSS matching.** An element records the set of selectors it matches.
- **Calls into the page.** The relay's calls into a tab (ping, inject, send) come back as an ordered trace `seq<PageCall>`. The proofs use this trace to state what was forwarded and when.

Where the source necessarily throws a `TypeError`, the model uses the message V8 gives. Examples are reading `.error` of an undefined reply and destructuring undefined request data. Those messages become visible text through `'Error: ' + error.message` and `'Failed to analyze page: ' + error.message`.

## Model

| member | source | states |
|---|---|---|
| Js.TrimIsMaximalSlice | sidepanel.js:96 | `trim()` keeps one contiguous slice of its input and drops only white space, none of which is left at either end of the result |
| Js.TrimIdempotent | sidepanel.js:96-97 | Trimming a trimmed key changes nothing, so a saved key is stored in its final form |
| Js.IncludesIffOccurs | background.js:45 | `s.includes(p)` holds exactly when `p` occurs at some position of `s` |
| Js.Utf16Length | content.js:103 | `text.length` counts UTF-16 code units: at least one and at most two per character |
| Dom.QuerySelector | content.js:64 | `root.querySelector` is null exactly when no light descendant matches. Otherwise it is the earliest matching light descendant in document order, which is also the first element of `querySelectorAll` |
| Dom.MatchingHead | content.js:64 | Filtering the descendants by a selector gives nothing exactly when none matches, and otherwise starts with the earliest element that matches |
| Dom.ElementQuerySelector | content.js:37-38 | `block.querySelector` looks only among the block's light descendants, the block itself excluded. It is null when none matches, and otherwise the earliest match in document order |
| Content.DeepQueryAll | content.js:78-93 | `deepQueryAll`: a null root gives `[]`; otherwise the result is the deep-search list (light matches, then each shadow host's recursive results), built by appending inside the loop |
| Content.SearchShadowRoots | content.js:86-91 | The loop over `querySelectorAll('*')` appends, host by host in document order, the deep matches inside every shadow root, and nothing for hosts without one |
| Content.LightMatchesFirst | content.js:82-83 | The light-DOM matches form a prefix of the deep search result, in document order |
| Content.DeepQuerySelector | content.js:60-76 | `deepQuerySelector`: null for a null root; the light match when one exists; null exactly when `deepQueryAll` is empty, and otherwise its first element |
| Content.DeepMatchesFilterDeepElements | content.js:78-93 | The deep search for any selector is the filter of one enumeration of the composed tree that does not depend on the selector, so the relative order of any two elements is the same for every selector |
| Content.NestedHostsFoundOuterFirst | content.js:87-90 | With N nested shadow roots each holding one match, the search finds all N, outermost first |
| Content.KeepDefinedAppend | content.js:36-40 | The map/filter pipeline of the extractors splits over concatenation: kept entries stay in input order |
| Content.KeepDefinedAt | content.js:36-40 | Entry `k` passes the map/filter pipeline, between the entries before and after it, exactly when the mapping keeps it |
| Content.PairsKeptInOrder | content.js:50-57 | Key-data and FAQ extraction keep only pairs whose two trimmed texts are both non-empty, and they keep deep-search order: the kept pairs split at every block boundary |
| Content.PairKeptAt | content.js:36-40 | Conversely, block `k` contributes its pair, between the pairs of the blocks before and after it, exactly when both its trimmed texts are non-empty, and contributes nothing otherwise |
| Content.TrimmedText | content.js:37 | `el?.innerText?.trim()` is defined exactly when an element with text was found. A non-empty result has no white space at either end |
| Content.CompanyInfo | content.js:44-47 | The company text is present exactly when the first deep match exists, has text, and that text is non-empty after trimming. It is then that trimmed text |
| Content.HeaderText | content.js:110 | `deepQuerySelector(document, s)?.innerText \|\| null` is present exactly when the first deep match exists and has non-empty text, and it is that text untrimmed |
| Content.HeaderSymbol | content.js:111 | `deepQuerySelector(document, s)?.dataset.symbol \|\| null` is present exactly when the first deep match carries a non-empty `data-symbol`, and it is that attribute |
| Content.TabsShortAndNonEmpty | content.js:95-104 | `getTabs` keeps only tabs with non-empty trimmed text shorter than 30 code units, each one a deep match of the tab selector |
| Content.ExtractTradingViewData | content.js:107-132 | An exception during extraction yields one `{error}` payload and no partial data. Otherwise each of the eight header fields is read from its own selector, the tabs, key data, company text and FAQ come from their extractors, and the timestamp is `now` |
| Content.ActionEffect | content.js:135-173 | No effect without an action, for an unknown type, or for click/type when the selector has no match. Click and type act on the first deep match; a click on a non-HTML match (no `innerText`) throws inside the catch and has no effect. Type writes `action.text`. A scroll happens exactly for a scroll action that has no selector or whose selector matches. It targets the window exactly when no selector is given, and scrolls by `amount`, or 100 |
| Content.Page.ExecuteAction | content.js:135-173 | The page's event log grows by exactly the events of the action's effect. Only a type action changes a control value, and it sets that value to `action.text` |
| Content.Page.HandleMessage | content.js:6-31 | PING is always answered `{success: true}`. EXTRACT_PAGE_DATA is answered with the snapshot or a single error. EXECUTE_ACTION and unknown types get no answer. Only EXECUTE_ACTION changes the page: its events grow by the action's events, and only a type action changes a control value |
| Background.EligibleIffHostnameContainsDomain | background.js:41-49 | A missing or empty URL is never eligible and an unparsable one is ineligible (no exception). Otherwise a tab is eligible exactly when its hostname contains `tradingview.com` |
| Background.ExplicitTabIdHasNoFallback | background.js:57-63 | With a `tabId` in the request, neither the sender's tab nor the active tab affects the choice. A failed lookup leaves no tab |
| Background.SenderTabBeforeActiveTab | background.js:64-67 | Without an explicit id, a sender tab with an id is chosen whatever the active-tab query returns |
| Background.ResolveTarget | background.js:53-78 | The if/else chain that reassigns `tabId` and `targetTab` ends in the priority order explicit id, then sender tab, then first active tab |
| Background.EnsureContentScriptLoaded | background.js:148-168 | The calls into the tab are a ping and, only when the ping fails, one injection. It fails, with "Failed to load content script on the page", exactly when both fail |
| Background.ForwardToContentScript | background.js:171-185 | The calls are the presence check's, followed by the structured request exactly when the agent is present. The call succeeds exactly when that forward also succeeds |
| Background.HandleExecuteAction | background.js:52-101 | No resolved tab, id or URL: exactly `{error: 'No active tab found'}`, no call into a tab. Ineligible tab: the actions-only message, no call. Eligible tab: the calls are the presence check and then the forwarded action exactly when the agent is present; the reply is `{success: true}` exactly when the forward came back, otherwise the action-failed error |
| Background.InjectionFailureReadsAsExtractFailure | background.js:207-219 | The injection error names neither connection error, so a failed injection is reported as an extraction failure |
| Background.GetPageDataFromContentScript | background.js:189-221 | A failed re-lookup goes through the error mapping and an ineligible tab gets the navigate message, both without a call into the page. For an eligible tab, the page-data request is sent exactly when the agent is present. Its answer is passed on unchanged. Failures map to "not loaded" only for the two connection messages; a failed injection gives the extract-failed error |
| Background.ExtractFromAgent | background.js:201-220 | The presence check, then the page-data request exactly when the agent is present. The reply is the extract-failed error after a failed injection, else the agent's answer or the mapped error of the request |
| Background.HandleGetPageData | background.js:103-145 | The same gate as for actions, with the GET_PAGE_DATA eligibility message. For a resolved, eligible tab, the reply and the calls are exactly those of the page-data path for the resolved id |
| Background.BraceSpanIsOutermostMatch | background.js:251 | The fallback match of `/\{[\s\S]*\}/` exists exactly when some `{…}` span exists, and it is the greedy one: from the first `{` to the last `}`, containing every other such span (not a balanced-brace scan) |
| Background.SafeParseJson | background.js:247-261 | The whole text's parse wins when it succeeds. Otherwise the result is the parse of a brace match, or null; with no brace match at all it is null |
| Background.SafeParseJsonTriesOnlyOutermostSpan | background.js:250-259 | When the whole text is not JSON, only the outermost brace match is tried: its value if it parses, null if it does not, even when a smaller brace span inside it would parse |
| Background.SafeParseJsonRecoversWrappedObject | background.js:247-261 | A JSON object wrapped in prose without further braces is recovered exactly |
| Background.PlainTextReply | background.js:349-354 | The fallback reply is truthy and carries the trimmed text, an empty action list and empty trading insights |
| Background.GeminiReply | background.js:329-355 | The tail of `callGeminiAPI`: a rejected fetch or a non-2xx status throws; a missing candidate text throws "Invalid response from Gemini API"; any value returned is truthy |
| Background.GeminiReplyOfText | background.js:338-354 | For a text answer, a truthy parse is returned as is, and otherwise the plain-text reply |
| Background.HttpErrorNamesStatus | background.js:329-336 | The error for a non-2xx response names the status, the status text and the API's own message |
| Background.HandlePageAnalysis | background.js:224-244 | Undefined or null data: the destructuring error. No API key: the configuration error and no API call. Missing page data: the error of reading `pageData.symbol`, no API call. Otherwise the API is called and its reply, or `{error: 'Failed to analyze page: ' + message}`, is the answer. The reply is always truthy |
| Background.HandleMessage | background.js:18-38 | Routing by `request.type`: the three known types get a reply, unknown ones none. ANALYZE_PAGE gets exactly what the analysis handler answers and makes no call into a tab; EXECUTE_ACTION and GET_PAGE_DATA get exactly what their handlers answer, with their calls. Only ANALYZE_PAGE calls the API |
| Sidepanel.ButtonLabels | sidepanel.js:234-240 | The labels are built in order. The `forEach` stops at the first label that throws, and that error is the result |
| Sidepanel.ButtonsCarryObjects | sidepanel.js:237-238 | Every action a button row carries is an object |
| Sidepanel.ResponseOutcome | sidepanel.js:149-165 | An error reply shows exactly "Error: " + error. Otherwise `response.response` is shown first. Buttons appear exactly when `actions` is a non-empty array whose labels all build. A second line appears exactly when `actions` is present with a positive length and a label throws, and it is "Error: " + that label's message |
| Sidepanel.AnalysisAlwaysCarriesPageData | sidepanel.js:170-178 | The analysis request always carries truthy page data: a missing page reply becomes `{error: 'No page data available'}` |
| Sidepanel.IneligibleTabStillReachesApi | sidepanel.js:136-147 | With a key, a page reply that is the relay's eligibility refusal still produces an analysis request, and the relay calls the API for its data (Background.AnalysisCalled) |
| Sidepanel.RefusalSentAsPageData | sidepanel.js:136-147 | A resolved refusal `{error: message}` is sent on unchanged as the analysis request's page data, beside the key |
| Sidepanel.GuardedSendRequests | sidepanel.js:136-147 | The corrected requests: the same as the panel's unless the page data carries an error, in which case only the page-data request is made. No analysis request ever carries page data with an error |
| Sidepanel.RelayRefusalMakesNoAnalysisRequest | background.js:132-142 | With the correction, any relay refusal (no tab, an ineligible tab) leads to no analysis request, so the API is not called |
| Sidepanel.OutcomeShownHasNoLoadingBubble | sidepanel.js:149-165 | Whatever the outcome, the finished send shows no loading bubble |
| Sidepanel.RemoveAppendedLoading | sidepanel.js:266-271 | Removing the first loading bubble after one was appended to a list without one restores that list |
| Sidepanel.WithoutFirstLoading | sidepanel.js:266-271 | Without a loading bubble, removing the loading message changes nothing |
| Sidepanel.TradingAssistant.AddMessage | sidepanel.js:186-212 | The log grows by exactly one entry and the container by exactly one bubble |
| Sidepanel.TradingAssistant.AddSystemMessage | sidepanel.js:214-227 | One bubble is shown and the log is untouched |
| Sidepanel.TradingAssistant.RemoveLoadingMessage | sidepanel.js:266-271 | Only the first loading bubble disappears |
| Sidepanel.TradingAssistant.SetLoading | sidepanel.js:273-286 | Only the flag changes |
| Sidepanel.TradingAssistant.Send | sidepanel.js:180-184 | The request is recorded, together with whether the panel was loading |
| Sidepanel.TradingAssistant.SaveApiKey | sidepanel.js:95-98 | Storage becomes `SavedKey`: the trimmed key under `gemini_api_key`, nothing else changed |
| Sidepanel.TradingAssistant.LoadApiKey | sidepanel.js:87-93 | The key box becomes `LoadedKey`: a stored truthy key fills it, otherwise it is untouched |
| Sidepanel.SavedKeyRoundTrip | sidepanel.js:87-98 | Saving and then loading restores the trimmed key. A blank key is stored empty and leaves the box as it was. Saving what was loaded stores the same key |
| Sidepanel.TradingAssistant.AddActionButtons | sidepanel.js:229-244 | The row is attached exactly when every label builds; otherwise nothing is attached and the error is returned |
| Sidepanel.TradingAssistant.ShowResponse | sidepanel.js:151-160 | The log and the container gain exactly the outcome's lines, with the buttons after the first line |
| Sidepanel.TradingAssistant.ShowError | sidepanel.js:162-165 | The catch replaces the loading bubble with "Error: " + message |
| Sidepanel.TradingAssistant.ShowAnalysis | sidepanel.js:140-165 | Once the analysis settles, the loading bubble gives way to the reply or to the rejection's error |
| Sidepanel.TradingAssistant.Exchange | sidepanel.js:135-165 | Both requests are made while loading: the analysis only after a page reply. The loading bubble is replaced by the outcome whether the reply succeeded, was an error, or threw |
| Sidepanel.TradingAssistant.Analyze | sidepanel.js:131-167 | The flag is true for the whole exchange and false afterwards, and no loading bubble is left behind |
| Sidepanel.TradingAssistant.TakePrompt | sidepanel.js:103-113 | A pending non-empty quick command replaces the typed prompt and is removed from storage, so a later read finds none |
| Sidepanel.TradingAssistant.Submit | sidepanel.js:117-167 | Without a key: the user line, one hint line, no request, and the flag still false. With one: the user line, the loading line, the requests and the outcome |
| Sidepanel.TradingAssistant.HandleSend | sidepanel.js:100-168 | While loading, nothing changes at all. An empty prompt shows and sends nothing. The quick command is consumed once. The flag always ends false and the "no loading bubble when idle" invariant is kept |
| Sidepanel.TradingAssistant.ExecuteAction | sidepanel.js:246-264 | "Executing: …" is logged and shown first, then the follow-up line when there is one. The request is sent with the action, and the "no loading bubble when idle" invariant is kept |
| Sidepanel.ActionFollowUp | sidepanel.js:255-262 | A thrown send gives the failure line with its message. A truthy reply gives "✅ Action executed" when it has `success`, else "❌ " + error when it has `error`. There is no line exactly when the reply is falsy or has neither flag |

## Left out

- chrome.* APIs (`tabs.get`, `tabs.query`, `tabs.sendMessage`, `runtime.sendMessage`, `scripting.executeScript`, `sidePanel.setOptions`, `storage.local`) are not modelled as calls. Their outcomes are inputs, and storage is a map field of the panel.
- The `onUpdated` listener that enables the side panel (background.js:4-15) and the `onInstalled` log line are browser wiring with no decision beyond `isTradingViewTab`, which is modelled.
- The `fetch` request itself, the prompt template text and the generation-config constants (background.js:265-327) are not modelled. The only part of the template that changes behaviour is kept: reading `pageData.symbol` throws for undefined or null page data.
- The internals of the `URL` parser, `JSON.parse`, CSS selector matching and `innerText` are abstract functions or recorded data.
- The 500 ms settle delay after injection is left out; it changes timing only.
- The async race in `handleSend` is not modelled. `isLoading` is tested before the storage `await` but set only later, so two quick sends could interleave. Sends run to completion one at a time here.
- DOM rendering is reduced to the ordered list of bubbles and button rows. Left out: the placeholder removal, innerHTML spinners, scrolling, the textarea auto-resize, button states and status badges.
- `checkPageStatus`, `updateStatus`, `init` and the event-listener setup in sidepanel.js are UI wiring. popup.js is not part of this model.
- `Date.now()` timestamps in the panel's log and `console` logging are left out. The snapshot's timestamp is the parameter `now`.
- Numbers are integers. No code path in the core does arithmetic, and statuses and amounts are passed through.
- Sidepanel.UpperAscii: `toUpperCase` is modelled for ASCII letters only; other characters are kept as they are.
- Sidepanel.LengthPositive: the length of an object is read only when it is a number. A `length` that is not a number is treated as absent, though JavaScript's `> 0` would coerce some of them (`"5"`, `true`, `[5]`) to a positive number.
- Background.HandleMessage: a null or undefined request (a TypeError in the listener before the switch) is not modelled. Requests are message values, and property reads on other values give undefined.
- Sidepanel.TradingAssistant.Exchange: a synchronous throw from `chrome.runtime.sendMessage` inside the panel's promise wrappers is modelled as a rejected reply, which reaches the same catch.
- Sidepanel.TradingAssistant.ExecuteAction: requires the action to be an object. Buttons only ever carry objects (Sidepanel.ButtonsCarryObjects), since building a label for anything else throws first.
- Background.GeminiReply: a truthy candidate text that is not a string is modelled by its coercion to a string and the `TypeError` of the string method the fallback then calls. The exact V8 message text is assumed.

## Findings

| source | as written | input that shows it | evidently intended | confidence | as-written member | corrected member |
|---|---|---|---|---|---|---|
| sidepanel.js:136-147, background.js:224-236 | `handleSend` sends whatever `getPageData` resolved with as `pageData`, including the relay's `{error}` refusal. `handlePageAnalysis` checks only the key before calling the API | a tab on https://example.com, a saved key and any prompt: GET_PAGE_DATA is refused with the eligibility error, ANALYZE_PAGE still goes out with that error object, and the API is called | a refusal from the relay ends the send, with no analysis request and no API call | high (not executed) | Sidepanel.IneligibleTabStillReachesApi | Sidepanel.RelayRefusalMakesNoAnalysisRequest |

The panel class (`TradingAssistant.Exchange`, `Submit`, `HandleSend`) models the code as written, using `SendRequests`. `GuardedSendRequests` is the corrected request sequence, and `RelayRefusalMakesNoAnalysisRequest` is proved about it.
