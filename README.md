# Voice StockBot: verified model of the turn pipeline and the widget client

Voice StockBot is a voice and text assistant for stock-market questions. It has two halves.

- **The reasoning server.** A turn first asks a *context agent* which tickers the conversation is about. It fetches each ticker's fundamentals and injects them into the system prompt. The main agent then answers with JSON that holds a spoken `response` and an optional list of `widgets`. A spreadsheet widget gets the financial column it asks for. The widget list is stored in the session. Unless the task was cancelled, the turn emits a "Widget" output and a "CustomerResponse" output.
- **The web client.** It finds the latest widget entry in the chat history and parses its `details`. It dispatches every descriptor to the component its `type` tag names. The client also keeps the page state and the button locks, and shows a one-time disclaimer.

The model is split into these modules:

| module | file | models |
|---|---|---|
| `Wrappers`, `JsonData` | `wrappers.dfy`, `json_data.dfy` | `Option`, `Result` (an exception becomes `Err`), the JSON values both halves exchange |
| `WidgetRender` | `widget_render.dfy` | `renderWidget` of `page.tsx`: the extractor, the JSON parse with its fallback, the eleven-way switch, the spreadsheet table |
| `HomePage` | `home_page.dfy` | the `Home` component's state as a class: page, text box, latest widget, button locks, the requests sent |
| `IntroPopup` | `intro_popup.dfy` | the disclaimer's visibility flag and the browser store that remembers the click |
| `Financials` | `financials.dfy` | `process_financials` and `get_stock_financials`; the trailing-four-quarter revenue and earnings per share |
| `Fundamentals` | `fundamentals.dfy` | `get_stock_fundamentals`: cache keys, cache hit, the "not available" fill, the market fields, the error reply |
| `Executor` | `executor.dfy` | `context_gathering_agent`, `single_turn_agent` with widget enrichment, and `run_agent` |
| `CrossProcess` | `contract.dfy` | what the server's widget output means once the client renders it |

Code that changes state step by step is imperative Dafny:

- the mutated dictionaries and the loops over them (`AppendSheet`, `FillMissing`, `AttachColumn`);
- the caller's message list and the session (`MessageList`, `Session`);
- the Redis cache (`RedisCache`) and `localStorage` (`LocalStorage`);
- the component state (`HomeState`, `Popup`).

The loops (`AppendSheet`, `FillMissing`, `AttachColumn`, `ContextGathering`, `EnrichWidgets`) and the turn (`SingleTurn`) are proved equal to a function that specifies them, and the properties are proved about those functions. The state-changing methods of `HomeState`, `Popup`, `LocalStorage`, `RedisCache`, `MessageList` and `Session` state their new state directly.

Three behaviours of the code are easy to misread:

- **Button locks.** `page.tsx` writes `loadingButtons` but never reads it. `handleButtonClick` always runs the action, so a repeated click sends its request again; nothing prevents duplicate submissions. `HomeState.ButtonClick` and `AddToCartScenario` state exactly this.
- **`renderWidget` argument.** `renderWidget` is called with `latestWidget` but ignores its argument and renders from the chat history.
- **Missing revenues.** When the financials lack "revenues" entirely, `get_stock_fundamentals` raises `KeyError` and returns the error reply. It does not leave the trailing figures out.

## Model

| member | source | states |
|---|---|---|
| WidgetRender.LastWidgetIndex | nextjs-client/src/app/page.tsx:165 | the index found is a widget entry and no later entry is one; no index means the history has no widget entry |
| WidgetRender.TagOf | nextjs-client/src/app/page.tsx:186-284 | a case is selected exactly when `type` is strictly equal to its label; any other value takes the default |
| WidgetRender.RowOf | nextjs-client/src/app/page.tsx:271-274 | an element gives the row of its `date` and `value`; it throws exactly when it is null or its `value` is missing or null |
| WidgetRender.RowsOf | nextjs-client/src/app/page.tsx:271-276 | rows exist only for an array `data`, one per element and each the row of that element; a non-array throws, and an array throws exactly when some element does |
| WidgetRender.Build | nextjs-client/src/app/page.tsx:186-282 | the component built is the one the case names; cases that read no parameters never throw; cases that read `parameters` throw exactly when it is missing or null, and the spreadsheet also when `metric` is not a string or `data` does not render; each component gets `symbol`, `comparisonSymbols`, `title` and `content` from `parameters`, and the spreadsheet the capitalised metric and the rows of `data` |
| WidgetRender.RenderOne | nextjs-client/src/app/page.tsx:182-285 | destructuring null throws; the default `null` slot is taken exactly for an unknown tag; a known tag gives the component its case builds from the descriptor's `parameters` and `data`, and throws exactly when that case throws |
| WidgetRender.RenderWidget | nextjs-client/src/app/page.tsx:164-288 | nothing is rendered without a widget entry or without a non-empty parsed array; a non-empty array whose descriptors all render gives one slot per descriptor, in order, each its own render; the render throws exactly when some descriptor throws |
| WidgetRender.LaterEntriesKeepIndex | nextjs-client/src/app/page.tsx:165 | appending entries that are not widgets leaves the same latest widget entry |
| WidgetRender.LaterEntriesKeepWidget | nextjs-client/src/app/page.tsx:164-288 | appending entries that are not widgets leaves the render unchanged |
| WidgetRender.NewWidgetEntryWins | nextjs-client/src/app/page.tsx:165 | a newly appended widget entry becomes the latest |
| WidgetRender.ParseFailureRendersNothing | nextjs-client/src/app/page.tsx:171-180 | details that do not parse fall back to `[]`, so nothing is rendered and nothing throws |
| WidgetRender.TagNameInjective | nextjs-client/src/app/page.tsx:186-284 | the eleven case labels are pairwise distinct |
| WidgetRender.CapitalizeFirstOnly | nextjs-client/src/app/page.tsx:254 | with ASCII upper-casing, capitalising the metric keeps its length, changes only the first character, leaves it not lower-case, and is idempotent |
| WidgetRender.PriceWidgetScenario | nextjs-client/src/app/page.tsx:186-191 | one price descriptor for NVDA renders one StockPrice slot with that symbol |
| WidgetRender.MalformedDetailsScenario | nextjs-client/src/app/page.tsx:171-178 | details "not json" render nothing |
| HomePage.NatToString | nextjs-client/src/app/page.tsx:134 | the printed number is a non-empty string of digits, one digit long exactly below ten |
| HomePage.NatToStringInjective | nextjs-client/src/app/page.tsx:134 | different numbers print differently |
| HomePage.SignChar | nextjs-client/src/app/page.tsx:134 | a printed number starts with a minus sign exactly when it is negative |
| HomePage.IntToStringInjective | nextjs-client/src/app/page.tsx:134 | different integers print differently |
| HomePage.KeyHead | nextjs-client/src/app/page.tsx:133-162 | the lock keys' first and third characters tell the four handlers apart |
| HomePage.LockKeysIdentifyButtons | nextjs-client/src/app/page.tsx:133-162 | two handlers share a lock key exactly when they act on the same product or variant (quantity aside) |
| HomePage.HomeState.constructor | nextjs-client/src/app/page.tsx:97-107 | the welcome page, an empty text box, no latest widget, no locks |
| HomePage.HomeState.StartClick | nextjs-client/src/app/page.tsx:110-113 | starts the agent and shows the home page |
| HomePage.HomeState.ChangeMessage | nextjs-client/src/app/page.tsx:115-117 | the text box holds the new text |
| HomePage.HomeState.SendTypedMessage | nextjs-client/src/app/page.tsx:123-126 | sends the typed text and clears the text box |
| HomePage.HomeState.ButtonClick | nextjs-client/src/app/page.tsx:128-131 | the button's lock is set and its action's request is always sent, locked or not |
| HomePage.HomeState.ShowDetails | nextjs-client/src/app/page.tsx:133-138 | locks `details-<id>` and sends `get_product_details` with the product id |
| HomePage.HomeState.AddToCart | nextjs-client/src/app/page.tsx:140-148 | locks `add-<id>` and sends `add_item_to_cart` with variant and quantity |
| HomePage.HomeState.DeleteFromCart | nextjs-client/src/app/page.tsx:150-155 | locks `delete-<id>` and sends `delete_item_from_cart` with the variant |
| HomePage.HomeState.SubmitOrder | nextjs-client/src/app/page.tsx:157-162 | locks `submit-order` and sends `submit_cart_for_order` with no parameters |
| HomePage.HomeState.ChatHistoryChanged | nextjs-client/src/app/page.tsx:291-297 | the latest widget message is replaced only when the history has a widget entry; all locks are cleared; the invariant that the stored message is the latest widget's is kept |
| HomePage.AddToCartScenario | nextjs-client/src/app/page.tsx:128-148 | a click locks "add-7", a second click sends the request again, and the next widget entry clears the lock |
| IntroPopup.LocalStorage.constructor | nextjs-client/src/app/components/intro-popup.tsx:12 | the store starts with the given items |
| IntroPopup.LocalStorage.GetItem | nextjs-client/src/app/components/intro-popup.tsx:12 | a value is returned exactly when the key is stored, and it is the stored value |
| IntroPopup.LocalStorage.SetItem | nextjs-client/src/app/components/intro-popup.tsx:20 | only the given key changes |
| IntroPopup.Popup.constructor | nextjs-client/src/app/components/intro-popup.tsx:8 | the popup starts hidden |
| IntroPopup.Popup.Mount | nextjs-client/src/app/components/intro-popup.tsx:10-16 | the popup becomes visible exactly when no truthy click flag is stored |
| IntroPopup.Popup.HandleEnter | nextjs-client/src/app/components/intro-popup.tsx:18-21 | the popup is hidden and the flag is stored as "true" |
| IntroPopup.Popup.Render | nextjs-client/src/app/components/intro-popup.tsx:23 | the card is shown exactly when the popup is visible |
| IntroPopup.TwoVisits | nextjs-client/src/app/components/intro-popup.tsx:10-23 | the first visit shows the card exactly when it was not acknowledged before; after Enter, a second visit shows nothing |
| Financials.Append | reasoning/app/agent/utils/stock_utils.py:229-231 | appends the entry under its key only, creating the key when absent; never leaves a key with an empty list |
| Financials.AppendSheet | reasoning/app/agent/utils/stock_utils.py:227-231 | every balance-sheet item is appended under its own name, dated by the report |
| Financials.AppendAttributes | reasoning/app/agent/utils/stock_utils.py:234-239 | exactly the income-statement attributes that carry a value are appended |
| Financials.AppendCashFlow | reasoning/app/agent/utils/stock_utils.py:242-266 | the two cash-flow figures are appended under their fixed names when present |
| Financials.AppendReport | reasoning/app/agent/utils/stock_utils.py:223-266 | one report appends its balance sheet, income statement and cash-flow figures, in that order |
| Financials.ProcessFinancials | reasoning/app/agent/utils/stock_utils.py:221-268 | fails exactly when some report has no statements; otherwise every key lists exactly what the reports append under it, in report order, and no key maps to an empty list |
| Financials.GetStockFinancials | reasoning/app/agent/utils/stock_utils.py:271-279 | a table exactly when the fetch succeeded and every report has statements, and then the table of those reports |
| Financials.ColumnAppend | reasoning/app/agent/utils/stock_utils.py:223 | the entries of earlier reports come before those of later ones |
| Financials.EntriesAreDated | reasoning/app/agent/utils/stock_utils.py:224 | every entry carries the end date of a report that had statements |
| Financials.ValuelessKeyAbsent | reasoning/app/agent/utils/stock_utils.py:236-239 | a name no report gives a value for is absent from the table, not an empty list |
| Financials.ColumnEmpty | reasoning/app/agent/utils/stock_utils.py:227-239 | reports that give a name no value append nothing under it |
| Financials.CashFlowOnePerReport | reasoning/app/agent/utils/stock_utils.py:242-266 | each cash-flow figure lists one entry per report that carries it |
| Financials.SharedNameListedTwice | reasoning/app/agent/utils/stock_utils.py:227-239 | a name in both the balance sheet and the income statement is listed twice under one date, balance sheet first |
| Financials.TrailingFigures | reasoning/app/agent/utils/stock_utils.py:157-176 | raises for a failed financials fetch, for missing revenues, and for missing earnings per share when there are four revenues; the figures exist exactly when both lists have at least four entries |
| Financials.TrailingSumsFirstFour | reasoning/app/agent/utils/stock_utils.py:166-173 | the figures are the sums of the first four entries, dated by the first |
| Financials.OlderQuartersIgnored | reasoning/app/agent/utils/stock_utils.py:166-173 | entries after the fourth never change the trailing figures |
| Fundamentals.TextAndJsonKeysDiffer | reasoning/app/agent/utils/stock_utils.py:88-90 | a text key never equals a JSON key |
| Fundamentals.TextKeyInjective | reasoning/app/agent/utils/stock_utils.py:88-89 | different tickers have different text keys |
| Fundamentals.JsonKeyInjective | reasoning/app/agent/utils/stock_utils.py:88-90 | different tickers have different JSON keys |
| Fundamentals.RedisCache.constructor | reasoning/app/agent/utils/stock_utils.py:14 | the cache starts with the given entries |
| Fundamentals.RedisCache.Get | reasoning/app/agent/utils/stock_utils.py:17-27 | a value exactly when the key is stored, and it is the stored value |
| Fundamentals.RedisCache.SetEx | reasoning/app/agent/utils/stock_utils.py:30-37 | only the given key changes |
| Fundamentals.CachedPair | reasoning/app/agent/utils/stock_utils.py:93-96 | a hit exactly when both entries are stored and non-empty, returning both |
| Fundamentals.WrittenPairIsServed | reasoning/app/agent/utils/stock_utils.py:93-96 | after both non-empty entries are written, the next lookup is a hit that returns them |
| Fundamentals.RelevantInfo | reasoning/app/agent/utils/stock_utils.py:103-134 | the profile has the fourteen attributes and an address of six fields; attributes are copied, null when absent; the address fields are copied from the address, and all null when there is none |
| Fundamentals.FilledHasNoNull | reasoning/app/agent/utils/stock_utils.py:136-144 | after filling, no field and no address field is null |
| Fundamentals.FilledKeepsValues | reasoning/app/agent/utils/stock_utils.py:136-144 | filling keeps every key and every value that was not null |
| Fundamentals.FilledIdempotent | reasoning/app/agent/utils/stock_utils.py:136-144 | filling twice changes nothing more |
| Fundamentals.FillAddress | reasoning/app/agent/utils/stock_utils.py:138-141 | the loop replaces each null address field by "not available" and keeps the rest |
| Fundamentals.FillMissing | reasoning/app/agent/utils/stock_utils.py:136-144 | the loop produces the filled profile |
| Fundamentals.WithMarketData | reasoning/app/agent/utils/stock_utils.py:153-184 | adds the four market fields, none null: the live price is the day's close, today's change and percentage are the snapshot's, and the historical changes are the fetched ones; every other field is kept |
| Fundamentals.PublishedProfileComplete | reasoning/app/agent/utils/stock_utils.py:103-209 | the published profile has all fourteen attributes, the address and the four market fields, with no null anywhere |
| Fundamentals.Fetch | reasoning/app/agent/utils/stock_utils.py:98-218 | the fetch succeeds exactly when the details arrived, the snapshot has price and changes, and the trailing figures do not raise; it then renders the completed profile |
| Fundamentals.GetStockFundamentals | reasoning/app/agent/utils/stock_utils.py:87-218 | a hit is returned unchanged; a successful fetch is returned and written under both keys; a failure returns the error text and "{}" and writes nothing |
| Fundamentals.AskTwice | reasoning/app/agent/utils/stock_utils.py:87-218 | on an empty cache, after a successful fetch with non-empty renderings, a second request is served from the cache whatever its sources |
| Executor.MessageList.constructor | reasoning/app/agent/executor.py:329 | the list holds the caller's messages |
| Executor.MessageList.Insert | reasoning/app/agent/executor.py:396-397 | inserts at the index, or appends when the index is past the end |
| Executor.MessageList.Append | reasoning/app/agent/executor.py:417 | appends one message |
| Executor.Session.constructor | reasoning/app/agent/executor.py:330 | the session holds the caller's data |
| Executor.Session.Set | reasoning/app/agent/executor.py:446-447 | only the given key changes |
| Executor.BlocksAppend | reasoning/app/agent/executor.py:372-374 | the blocks of consecutive ticker lists follow one another |
| Executor.StockContextEmptyIffNoTickers | reasoning/app/agent/executor.py:370-379 | the context is empty exactly when no ticker was named, and otherwise is the heading followed by the blocks |
| Executor.ContextGathering | reasoning/app/agent/executor.py:344-379 | the context, or the failure, that the context agent's reply determines, computed on a copy of the caller's list |
| Executor.EntriesJson | reasoning/app/agent/executor.py:439-441 | one `{date, value}` object per entry, in order |
| Executor.AttachColumn | reasoning/app/agent/executor.py:439-441 | the column named by the metric becomes `data`; a missing metric raises only when the table has a column |
| Executor.EnrichOne | reasoning/app/agent/executor.py:434-441 | raises exactly when the widget is not an object, has no `type`, or is a spreadsheet whose `parameters` or `symbol` is missing, whose financials failed, or whose non-empty financials meet a missing `metric`; a widget of another type is returned unchanged; a spreadsheet gets the column its `metric` names as `data` when there is one, and is otherwise returned unchanged (including empty financials without a `metric`) |
| Executor.EnrichWidget | reasoning/app/agent/executor.py:434-441 | the loop body computes the enrichment of one widget |
| Executor.Enriched | reasoning/app/agent/executor.py:430-443 | a list fails exactly when one widget fails, and otherwise each widget is enriched in place; anything else but an empty object or string raises |
| Executor.EnrichWidgets | reasoning/app/agent/executor.py:430-443 | the loop succeeds exactly when the enrichment does, with the same list |
| Executor.AssistantReply | reasoning/app/agent/executor.py:399-413 | the reply is the first call's, or the retry's when the first call raised; the turn gets no reply only when both raised |
| Executor.AnswerFor | reasoning/app/agent/executor.py:423-445 | succeeds exactly when the reply parses, has a `response`, and its widgets (if any) enrich; the serialised list is the enriched widgets or `[]` |
| Executor.TurnEffects | reasoning/app/agent/executor.py:382-473 | a failed context agent leaves the caller's list alone; otherwise the list starts with the system message (context, "\n# Instructions\n", prompt) and the greeting, keeps the caller's messages, and ends with the reply (the first call's, or the retry's when the first raised) when there is one; the stored widget JSON is the dumped enriched list (or `[]`), present exactly when the reply parses with a `response` and its widgets enrich; two outputs, Widget with those details and CustomerResponse with the parsed `response`, both carrying the reply, exactly when that JSON was stored and the status lookup neither raised nor read "cancelled"; otherwise none |
| Executor.SingleTurn | reasoning/app/agent/executor.py:382-473 | the caller's list, the session and the outputs are those of the turn |
| Executor.RunAgent | reasoning/app/agent/executor.py:324-341 | the caller's list becomes the turn's transcript and the session gains the stored widget JSON, as in the turn; one serialised response per output, in order, each carrying that post-turn session; the task id defaults to "" |
| Executor.CancellationOnlySilences | reasoning/app/agent/executor.py:445-453 | cancellation, or a raising status lookup, suppresses the outputs and changes neither the transcript nor the session |
| Executor.SpreadsheetGetsItsColumn | reasoning/app/agent/executor.py:435-441 | a spreadsheet whose metric is a column gets that column as `data` and nothing else changes |
| Executor.UnmatchedMetricLeftAlone | reasoning/app/agent/executor.py:435-441 | a spreadsheet whose metric is not a column passes through unchanged |
| CrossProcess.DeliveredDetailsAreTheServerList | reasoning/app/agent/executor.py:456-465 | the client's parsed details are exactly the list the server serialised |
| CrossProcess.ClientSeesSessionWidgets | reasoning/app/agent/executor.py:445-465 | after a turn with outputs, the client's details serialise to what the session records |
| CrossProcess.EntryRowsRender | nextjs-client/src/app/page.tsx:271-276 | a column sent by the server renders one row per entry, without throwing (entry values are never null in the model) |
| CrossProcess.FilledSpreadsheetRenders | nextjs-client/src/app/page.tsx:249-282 | a spreadsheet the server filled renders as the column's rows under the capitalised metric |
| CrossProcess.UnfilledSpreadsheetCrashesClient | nextjs-client/src/app/page.tsx:271 | a spreadsheet whose metric is not a column reaches the client without `data`, and the client's render throws |

## Left out

- The orchestrator client is not modelled: transport, voice mode, recording and `handleRecordClick`. Its chat history enters `HomeState` only through `ChatHistoryChanged`, and its three calls are recorded in `outbox`.
- JSX markup, styling, animation, the TradingView embeds and `exportToCSV` are left out. Only which component a descriptor selects, and with which props, is modelled.
- The order-confirmation page is left out. Nothing in the component sets `currentPage` to it, and `HomeState.Valid` states that.
- `JSON.parse`, `json.loads` and `json.dumps` are collaborator functions. Where a property needs a round trip, it is assumed as a precondition.
- The language model, the market-data client and the Redis task-status lookup are function parameters standing for what those calls return. A raising language-model or market-data call is `None`; a raising status lookup is `Err`, which ends the turn after the session write with no output.
- The fundamentals text and financials that a turn fetches are collaborator values. The cache writes they cause are modelled in `Fundamentals` but not threaded through `Executor`.
- Numbers are integers: floats, `round` and number formatting are left out.
- Financials.Entry: a data point's value is assumed non-null. The source appends `datapoint.value`, `value.value` and the cash-flow `.value` without checking for None; a None would make the trailing sums raise and the client's `item.value.toLocaleString()` throw, and the model does not capture either.
- `get_historical_data` is not modelled; its result is an opaque object.
- The text layout of the fundamentals is a collaborator. Only the condition under which formatting raises (a missing price or change) is modelled.
- The two system prompts' text is not modelled.
- Fundamentals.RedisCache.SetEx: the twenty-minute expiry is not modelled, because the model has no clock. Redis read and write failures and pickling are left out too.
- Executor.Tickers: iterating a non-empty JSON object is a failure in the model, because Python's key order is not modelled.
- WidgetRender.Capitalize: upper-cases ASCII letters only. JavaScript's `toUpperCase` maps every Unicode letter and can lengthen one ("ß" becomes "SS"), so `CapitalizeFirstOnly`'s length and idempotence clauses hold of the model, not of every metric name the source could receive.
- WidgetRender.ParsedDetails: a `details` that is not a string is treated as text that does not parse. `JSON.parse` would first convert it with `String()`, and a number or boolean would then parse.
- Logging, `console.log`, the observability decorator and asynchrony (the generator is modelled as the list it yields) are left out.
- reasoning/app/main.py and the context components are not part of this model.
