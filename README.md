# Copy-trading dashboard core, modelled in Dafny

The dashboard watches copy-trading tasks. Each task follows a target wallet on a prediction market, either with simulated fills (`mock`) or with real ones (`live`). The dashboard does not trade itself. It has two parts:

- **Valuation**: it values each task's positions, using order-book prices for mock tasks, and reports equity and P&L.
- **Commands**: to create, edit, stop or remove a task, it publishes a command for a separate worker process. It then waits up to 30 seconds for the worker's confirmation on a notification channel. The wait settles only once: on the first matching reply, on the timeout, or on a failure while subscribing or publishing.

This project models both parts and proves properties of them.

- **Valuation and normalisation** (`server/utils/task.ts`):
  - task normalisation;
  - the cost-basis fallback chain;
  - the order-book price map, as a loop over the distinct assets;
  - re-pricing by copy;
  - position statistics, as an accumulating loop;
  - the task summary;
  - the mapping of trade records.
- **The two list routes**:
  - `server/api/tasks/index.get.ts`: the portfolio cards;
  - `server/api/tasks/recent-trades.get.ts`: the task lookup loop and the formatting of trades.
- **The four trader routes** (`server/api/traders/{create,update,stop,remove}.post.ts`):
  - request validation;
  - the address scraper run over a profile page;
  - the command payloads;
  - each route's judgement of a notification;
  - the confirmation wait. The four files contain the same wait block, so it is one class, `Confirmation.Gate`. Each route supplies its own payload and its own verdict function.

Numbers follow JavaScript's `number` as `JsNumber.Number`: a finite real, ±Infinity or NaN. Addition, subtraction and multiplication are written out with IEEE-754's rules for infinities and NaN. Division is defined only for a finite, non-zero divisor. That is enough here, because the only division in the core is by a cost basis that has been checked to be positive.

- A record field that may be absent or not a number is a `NumField`. This makes each guard exact: `Number.isFinite`, `typeof x === 'number'`, `x || y` and `x ?? y`.
- Untyped request bodies and notification messages are `JsValue`s. These have JavaScript truthiness, `===` (where NaN equals nothing), `||`, `??` and `String.prototype.slice`.

Everything outside the core is a parameter of the model. This covers:

- the order-book price of an asset;
- the on-chain balance of a wallet;
- the positions in the store or from the positions API;
- the text of a fetched page;
- the pathname of a URL;
- the clock reading `normalizeTask` uses.

The wait is a class whose methods are the events that can reach it:

- a notification;
- the timer firing;
- `subscribeNotifications` returning;
- `publishTask` returning;
- either of them throwing.

Each method's contract states the complete new state. They also state that a settled wait never changes its outcome and that the subscription is released at most once, and only when it is assigned. Each route has scenario methods that drive a gate through the cases the routes have to handle.

Three details of the code are worth stating on their own:

- **NaN sizes.** The statistics loop skips a position with `if (size <= 0) continue` (server/utils/task.ts:171). That test is false for NaN, so a position whose size is NaN is counted as open (`Valuation.OpenExactly`).
- **Two cost-basis chains.** `getPositionCostBasis` (server/utils/task.ts:81-90) treats a non-finite average price as 0. The copy inside `computePositionStats` (server/utils/task.ts:177-181) uses `avgPrice || 0`, which lets an infinite average price through. The two agree everywhere else (`Valuation.StatCostBasisAgrees`, `Valuation.StatCostBasisDiffers`).
- **Releasing the subscription.** Every settling path in the wait releases the subscription with `if (subscription) await subscription.cleanup()` (server/api/traders/stop.post.ts:20, 31, 38 and 55). A path that settles before `subscribeNotifications` returns finds no subscription to release, and once it is assigned nothing else releases it (see Findings).

## Model

The predicates and functions `Valuation.HasPrice`, `Valuation.PricingSize`, `Valuation.StatSize`, `Valuation.IsOpen` and `TaskList.Summary` are helpers. Each one stands for a single source expression, and the rows of the members that use them state what they mean.

| member | source | states |
|---|---|---|
| Tasks.NormalizeTask | server/utils/task.ts:42-69 | Defaults are filled per field. `id`, `address` and `url` use `\|\| ''`. The wallet is `myWalletAddress`, else the legacy `wallet`, else `''`. Non-number amounts become 0, and a non-number `createdAt` becomes the clock reading. Status is `stopped` only for exactly `'stopped'`, type is `mock` only for exactly `'mock'`. A mock task keeps its key as given; a live task's key defaults to `''`. |
| Tasks.NormalizeStoredTask | server/utils/task.ts:42-69 | Normalising the stored form of a normalised task gives the same task back, whatever the clock says. |
| Tasks.NormalizeIdempotent | server/utils/task.ts:42-69 | Normalising twice, through the stored form, is normalising once. |
| Tasks.LegacyWalletFallback | server/utils/task.ts:43 | A record without a usable `myWalletAddress` takes its wallet from `wallet`. |
| Tasks.ExtractProfileName | server/utils/task.ts:71-79 | The name is never empty. It is `'Unknown'` when the URL does not parse. Otherwise it is `'Unknown'` or a piece with no `/` in it. |
| Tasks.Segments | server/utils/task.ts:74 | Every piece of `split('/').filter(Boolean)` is non-empty and has no `/`. |
| Tasks.Stored | server/utils/task.ts:8-20 | The stored form of a task carries every `CopyTask` field, and no legacy `wallet`. The key is stored as the task holds it. |
| Tasks.LastSegment | server/utils/task.ts:74-75 | `split('/').filter(Boolean)` yields no segment exactly when the path is only slashes. Otherwise the last segment is the slash-free run that ends where the trailing slashes begin. |
| Tasks.ProfileNameOfPath | server/utils/task.ts:74-75 | For a URL that parses, the profile name of a path is a non-empty, slash-free piece. It starts the path or follows a `/`, and only slashes come after it. A path of slashes gives `'Unknown'`. |
| Tasks.FetchLivePositions | server/utils/task.ts:195-196 | An empty address makes no request and yields no positions; otherwise the result is what the positions API returns for the address. |
| Tasks.TradeRecordOf | server/utils/task.ts:278-295 | The id is `_id` when present, else `taskId-executedAt`. The outcome index defaults to 0 with `??`. Title, slug, event slug and outcome default to `''`. The other fields pass through unchanged. |
| Tasks.FetchTrades | server/utils/task.ts:272-296 | There is one record per fetched trade, in order, each the mapping above. |
| Tasks.CompleteTradePassesThrough | server/utils/task.ts:278-295 | A trade carrying every optional field keeps all of them unchanged. |
| Valuation.GetPositionCostBasis | server/utils/task.ts:81-90 | The result is `totalBought` if finite and > 0, else `initialValue` if finite and > 0, else `avgPrice × size` with a non-finite `avgPrice` taken as 0. It is finite for a finite size. |
| Valuation.CostBasisFromRecordIsPositive | server/utils/task.ts:82-87 | When a recorded amount is usable, the cost basis is a positive finite number. |
| Valuation.AssetCandidates | server/utils/task.ts:96-98 | The candidates are exactly the non-empty string assets of the positions. |
| Valuation.QueriedAssets | server/utils/task.ts:96-98 | `Array.from(new Set(...))` has the same members as the candidates. |
| Valuation.QueriedAssetsAreDistinct | server/utils/task.ts:96-98 | Each asset is looked up once. |
| Valuation.PriceMapOf | server/utils/task.ts:96-126 | The keys are exactly the distinct assets whose lookup is a finite number > 0. Each value is that lookup. No asset gives the empty map. |
| Valuation.GetOrderBookPriceMap | server/utils/task.ts:92-127 | The loop over the lookup results builds exactly `PriceMapOf`, which keeps the usable price of each distinct asset. |
| Valuation.RepricePosition | server/utils/task.ts:139-155 | `curPrice` is the price, and `currentValue` is size × price, with a non-finite size taken as 0. `cashPnl` is value − cost basis. `percentPnl` is null exactly when the cost basis is ≤ 0, else cash P&L ÷ cost basis × 100; the division is never by zero. Every other field is copied. |
| Valuation.ApplyOrderBookPrices | server/utils/task.ts:129-157 | An empty map returns the input itself. The length and order are kept. Positions without a price are untouched; those with one are re-priced. |
| Valuation.RepricedFigures | server/utils/task.ts:139-143 | At a finite price the re-priced figures are the real products and differences, and the percentage is defined exactly when the cost basis is positive. |
| Valuation.ApplyIdempotent | server/utils/task.ts:129-157 | Re-pricing twice at the same prices is re-pricing once. |
| Valuation.StatValue | server/utils/task.ts:174-176 | A finite `currentValue` is taken as it is. Otherwise the value is size × the first truthy of `curPrice` and `avgPrice`, or size × 0 when neither is truthy. |
| Valuation.StatCostBasis | server/utils/task.ts:177-181 | `totalBought` is used when finite and > 0, else `initialValue` when finite and > 0; either gives a positive finite cost basis. |
| Valuation.TotalsOf | server/utils/task.ts:165-189 | The open count never exceeds the number of positions. |
| Valuation.PositionStatsOf | server/utils/task.ts:165-192 | The open count never exceeds the number of positions, and `unrealizedPnl` is value − cost. |
| Valuation.ComputePositionStats | server/utils/task.ts:159-193 | The loop's three accumulators equal the fold `PositionStatsOf` over the positions. `unrealizedPnl` is value − cost. |
| Valuation.ClosedPositionsIgnored | server/utils/task.ts:169-171 | Skipped positions contribute nothing: the totals are those of the open positions alone. |
| Valuation.OpenCount | server/utils/task.ts:171-172 | The open count is the number of positions not skipped. |
| Valuation.OpenExactly | server/utils/task.ts:170-171 | A position is counted exactly when its size is a number that is positive or NaN. |
| Valuation.AppendClosed | server/utils/task.ts:170-171 | Adding a position with a missing or non-positive size changes no statistic. |
| Valuation.FiniteTotals | server/utils/task.ts:174-184 | If every open position has a finite value and cost basis, the totals are finite. |
| Valuation.FiniteUnrealizedPnl | server/utils/task.ts:191 | The unrealized P&L is then the real difference of the totals. |
| Valuation.StatCostBasisAgrees | server/utils/task.ts:177-181 | The loop's inline cost basis is `getPositionCostBasis` unless the average price is infinite. |
| Valuation.StatCostBasisDiffers | server/utils/task.ts:177-181 | There is an example (average price Infinity, size 2) where the two differ: Infinity against 0. |
| Valuation.GetTaskSummary | server/utils/task.ts:233-270 | Only mock positions are re-priced. The live balance replaces the recorded one only for a live task and only when it is ≥ 0. The statistics are those of the priced positions. Equity is balance + value, total P&L is equity − initial, and realized P&L is balance + cost − initial. |
| Valuation.PnlDecomposition | server/utils/task.ts:255-259 | With finite figures, total P&L = realized P&L + unrealized P&L. |
| Valuation.MockBalanceIsRecorded | server/utils/task.ts:247-253 | A mock task's summary does not depend on the chain balance. |
| Dedup.Distinct | server/utils/task.ts:97 | `[...new Set(xs)]` has exactly the elements of `xs` and is no longer than `xs`. |
| Dedup.DistinctHasNoDuplicates | server/utils/task.ts:97 | `[...new Set(xs)]` has no repeated element. |
| Dedup.DistinctOfPrefix | server/utils/task.ts:97 | De-duplicating a prefix gives a prefix of the de-duplicated list, so insertion order is first occurrence. |
| Dedup.DistinctKeepsFirst | server/api/traders/create.post.ts:41-42 | De-duplication does not change the first element. |
| AddressScraper.FirstUserMatch | server/api/traders/create.post.ts:32 | This is the leftmost position where the case-insensitive `"user":"0x…"` pattern matches, or none. |
| AddressScraper.FirstAddressMatch | server/api/traders/create.post.ts:39 | This is the leftmost position where `0x` and 40 hex digits match, or none. |
| AddressScraper.AddressMatches | server/api/traders/create.post.ts:39 | Every match of the global pattern is `0x` and 40 hex digits. |
| AddressScraper.MatchesStartLeftmost | server/api/traders/create.post.ts:39-40 | The global match list is empty exactly when there is no match, and it starts with the leftmost one. |
| AddressScraper.ScrapeAddress | server/api/traders/create.post.ts:32-45 | Whatever the scraper yields looks like an address: 42 characters, `0x` (or `0X` from the case-insensitive pattern), then hex digits. |
| AddressScraper.ScrapeAddressChoice | server/api/traders/create.post.ts:32-45 | The result is the group of the leftmost pattern-1 match. Failing that, it is the leftmost plain address. Failing both, there is nothing. |
| AddressScraper.ScrapeFetched | server/api/traders/create.post.ts:15-51 | A failed, aborted or non-ok fetch scrapes nothing; otherwise the page is scraped. |
| AddressScraper.AddressValue | server/api/traders/create.post.ts:56 | A missing address is sent as null, a found one as the string. |
| Confirmation.BackendFailure | server/api/traders/stop.post.ts:39-40 | A refusal is a 500 whose message is `msg.error` when that is truthy, and `'Backend task failed'` when it is not. Either way the message is truthy. |
| Confirmation.ConfirmedResponse | server/api/traders/remove.post.ts:66-69 | The reply is `{success: true, data: confirmation}`. |
| Confirmation.Gate.constructor | server/api/traders/stop.post.ts:13-26 | A new gate is unresolved, with no subscription, nothing published or released, the timer armed for 30000 ms, and the subscribe call pending. |
| Confirmation.Gate.Settle | server/api/traders/stop.post.ts:28-32 | Settling sets the flag, clears the timer when asked, releases the subscription only if it is assigned, and records the outcome. |
| Confirmation.Gate.OnMessage | server/api/traders/stop.post.ts:26-43 | A settled wait, or a message the route ignores, changes nothing. A first accepted message resolves with it; a first refused one rejects with a 500. Either clears the timer and releases at most once. |
| Confirmation.Gate.OnTimeout | server/api/traders/stop.post.ts:17-23 | The timer fires. Once settled, it changes nothing. Otherwise it rejects with 504 "Timeout waiting for backend confirmation" and releases an assigned subscription. |
| Confirmation.Gate.OnSubscribeReturned | server/api/traders/stop.post.ts:26-49 | As written, the subscription is assigned and the command published even if the wait has settled. It leaves an unreleased subscription exactly when it had settled. |
| Confirmation.Gate.OnSubscribeReturnedReleasing | server/api/traders/stop.post.ts:26-49 | With the corrected step, a wait that has already settled releases the new subscription at once. The command is published as before. Every settled gate is then released exactly once. |
| Confirmation.Gate.OnPublishReturned | server/api/traders/stop.post.ts:46-49 | Publishing completes and nothing else changes. |
| Confirmation.Gate.OnSetupError | server/api/traders/stop.post.ts:51-57 | A failure while subscribing or publishing rejects with that exception if the wait is unresolved, clearing the timer and releasing an assigned subscription; otherwise the outcome is kept. |
| Confirmation.Gate.Settled | server/api/traders/stop.post.ts:12-59 | The awaited promise yields the confirming message exactly when the wait resolved, else the failure it was rejected with. |
| StopRoute.ValidateStop | server/api/traders/stop.post.ts:5-7 | A request is accepted exactly when `taskId` is a non-empty string; otherwise 400 "Missing or invalid taskId". |
| StopRoute.StopPayload | server/api/traders/stop.post.ts:46-49 | The command is exactly `{action: 'stop', taskId}`. |
| StopRoute.StopVerdict | server/api/traders/stop.post.ts:27-41 | The wait accepts exactly `task_stopped` for this task and refuses exactly `task_error`, whichever task it names, with the backend failure. |
| StopRoute.ErrorsAreNotKeyed | server/api/traders/stop.post.ts:27-41 | Any task's error refuses every stop wait, while a stop confirmation is accepted by at most one of two tasks. |
| StopRoute.StopResponse | server/api/traders/stop.post.ts:61-64 | `success` is the confirmation's own `success` unless that is null or undefined, else true. |
| StopRoute.HandleStop | server/api/traders/stop.post.ts:3-26 | A request is rejected with 400 "Missing or invalid taskId" exactly when validation fails, and then no gate exists, so nothing is subscribed or published. An accepted one gets a fresh gate with the stop payload and verdict, not yet subscribed. |
| StopRoute.StartStop | server/api/traders/stop.post.ts:12-26 | The route waits on a fresh gate carrying the stop payload and the stop verdict. |
| StopRoute.EarlySettlementLeaks | server/api/traders/stop.post.ts:17-49 | As written: the timer fires before `subscribeNotifications` returns, then the subscription is assigned and the command published. The wait stays rejected with the 504, and the subscription is never released. |
| StopRoute.EarlySettlementReleased | server/api/traders/stop.post.ts:17-49 | With the corrected step, the same events leave the wait rejected with the 504, the command published, and the subscription released exactly once. |
| RemoveRoute.ValidateRemove | server/api/traders/remove.post.ts:6-8 | `taskId` may be undefined or a string; anything else, null included, is 400 "Invalid taskId". |
| RemoveRoute.RemovePayload | server/api/traders/remove.post.ts:50-54 | The command is `{action: 'remove'}`, with `taskId` present exactly when it is truthy. |
| RemoveRoute.RemoveVerdict | server/api/traders/remove.post.ts:28-45 | `task_removed` accepts when no task is named or it names this one, and otherwise is ignored. Any `task_error` refuses. |
| RemoveRoute.RemoveAllOrOne | server/api/traders/remove.post.ts:28-36 | Without a task id, the command names none and any removal confirms. With one, only that task's removal confirms. |
| RemoveRoute.HandleRemove | server/api/traders/remove.post.ts:3-27 | A request is rejected with 400 "Invalid taskId" exactly when validation fails, and then no gate exists, so nothing is subscribed or published. An accepted one gets a fresh gate with the remove payload and verdict, not yet subscribed. |
| RemoveRoute.StartRemove | server/api/traders/remove.post.ts:13-27 | The route waits on a fresh gate carrying the remove payload and verdict. |
| UpdateRoute.ValidateUpdate | server/api/traders/update.post.ts:13-15 | A falsy `taskId` is 400 "Task ID is required", before any scraping. |
| UpdateRoute.UpdateScrape | server/api/traders/update.post.ts:19-51 | Nothing is fetched or found without a truthy profile; otherwise the profile page is scraped. |
| UpdateRoute.UpdateData | server/api/traders/update.post.ts:53-62 | `updateData` holds exactly the request's fields, with the scraped address or null. |
| UpdateRoute.UpdatePayload | server/api/traders/update.post.ts:103-107 | The command is `updateData` plus `action: 'edit'` and `fixAmount = fixedAmount`. |
| UpdateRoute.UpdateVerdict | server/api/traders/update.post.ts:84-99 | Both `task_updated` (accept) and `task_error` (refuse) count only when `msg.data?.id === taskId`. |
| UpdateRoute.OtherTasksErrorIgnored | server/api/traders/update.post.ts:91 | Another task's error does not end the wait. |
| UpdateRoute.NoProfileNoAddress | server/api/traders/update.post.ts:19-20 | Without a profile, the command carries `address: null`. |
| UpdateRoute.UpdateCommand | server/api/traders/update.post.ts:13-62 | A falsy `taskId` gives the 400; any other request gives the edit command built from the scraped address. |
| UpdateRoute.RejectedBeforeScraping | server/api/traders/update.post.ts:13-20 | A rejected request is the same whatever a fetch would return, since validation comes before any scraping. |
| UpdateRoute.StartUpdate | server/api/traders/update.post.ts:68-83 | The route waits on a fresh gate carrying the edit payload and the keyed verdict. |
| CreateRoute.CreateScrape | server/api/traders/create.post.ts:13-51 | The address is whatever the scraper finds on the fetched page. |
| CreateRoute.NewTrader | server/api/traders/create.post.ts:53-62 | `newTrader` holds exactly the request's fields, with the scraped address or null. |
| CreateRoute.CreatePayload | server/api/traders/create.post.ts:107-113 | The command is `newTrader` with the scraped address, the profile and `fixAmount = fixedAmount`. |
| CreateRoute.CreateVerdict | server/api/traders/create.post.ts:88-102 | The wait accepts any `task_created` and refuses any `task_error`, whatever they name. |
| CreateRoute.PlanCreate | server/api/traders/create.post.ts:66-140 | The route waits exactly when an address was scraped. Otherwise it answers at once with `{success: true, data: newTrader}`. |
| CreateRoute.WaitsIffScraped | server/api/traders/create.post.ts:66-140 | A scraped address is never empty, so the route waits exactly when the scrape found one. An immediate answer always carries `address: null`. |
| CreateRoute.StartCreate | server/api/traders/create.post.ts:71-86 | The route waits on a fresh gate carrying the create payload and the unkeyed verdict. |
| JsValue.SliceIndex | server/api/tasks/index.get.ts:61 | A `slice` bound resolves to an index within the string: a negative bound counts from the end and stops at 0, a large one stops at the length. |
| JsValue.Slice | server/api/tasks/index.get.ts:61 | `String.prototype.slice` never yields more characters than the string has. |
| TaskList.Description | server/api/tasks/index.get.ts:61 | The description is `Copying ` + the first six characters + `...` + the last four, with `slice` clamping on short addresses. |
| TaskList.DescriptionOfAddress | server/api/tasks/index.get.ts:61 | For a 42-character address the description has 21 characters and shows its first six and last four. |
| TaskList.TaskPositions | server/api/tasks/index.get.ts:48-53 | Mock tasks take the stored positions of their id. Live tasks take the positions API's answer for their own wallet, or none without a wallet. |
| TaskList.Portfolio | server/api/tasks/index.get.ts:46-76 | Identity fields are copied from the task. The name is the profile name. Status is active exactly when running, and `isVerified` is false. Balance, open count, P&L figures, equity and initial finance come unchanged from the summary. |
| TaskList.ListPortfolios | server/api/tasks/index.get.ts:42-77 | There is one card per stored task, in order, each normalised and then mapped. |
| TaskList.ListRoute | server/api/tasks/index.get.ts:41-83 | The route fails exactly when some stored entry does not parse. Otherwise it lists one card per entry, in order, each normalised and then mapped. |
| TaskList.StoredTaskListed | server/api/tasks/index.get.ts:42-76 | A task stored by the system is listed with its own id, mode, URL, dates, amounts and status. |
| TaskList.MockCardIgnoresChain | server/api/tasks/index.get.ts:56 | A mock card does not depend on the chain balance. |
| TaskList.WalletlessLiveCard | server/api/tasks/index.get.ts:52 | A live task without a wallet shows no open positions and zero position value. |
| RecentTrades.TaskRefOf | server/api/tasks/recent-trades.get.ts:56-60 | The entry keeps the id; a missing type becomes `mock`, a missing URL `''`. |
| RecentTrades.TasksMapOf | server/api/tasks/recent-trades.get.ts:53-64 | Every entry of the map is filed under its own id and has a non-empty type. |
| RecentTrades.BuildTasksMap | server/api/tasks/recent-trades.get.ts:51-64 | The loop builds exactly the fold `TasksMapOf`. Entries that do not parse are skipped, and later entries overwrite earlier ones. |
| RecentTrades.TasksMapKeys | server/api/tasks/recent-trades.get.ts:53-64 | An id is in the map exactly when some entry that parses carries it. |
| RecentTrades.TasksMapLastWins | server/api/tasks/recent-trades.get.ts:53-64 | The value under an id comes from the last entry that carries it. |
| RecentTrades.TradeTitle | server/api/tasks/recent-trades.get.ts:81 | The title is `title \|\| slug \|\| conditionId \|\| 'Unknown'`, and never empty. |
| RecentTrades.FormatTrade | server/api/tasks/recent-trades.get.ts:74-89 | A trade whose task is unknown shows "Unknown" and mode `mock`; a known one shows its profile name and type. The outcome defaults to `''`. Amounts, price, size and time default to 0 only when absent (`??`). `realizedPnl` passes through. |
| RecentTrades.RecentTradesData | server/api/tasks/recent-trades.get.ts:74-89 | There is one formatted trade per fetched trade, in order. |
| RecentTrades.TradeOfStoredTask | server/api/tasks/recent-trades.get.ts:75-79 | A trade of a stored task shows the last such entry's mode and profile name. |
| RecentTrades.TradeOfUnknownTask | server/api/tasks/recent-trades.get.ts:75-79 | A trade whose task id no parsed entry carries shows "Unknown" and `mock`. |

## Left out

- Network I/O is out of the model. The price API, the positions API, the profile-page fetch with its 5-second abort, and the on-chain balance are parameters: `price`, `livePositions`, `fetch` and `balanceOf`.
- `Number()` coercion of the positions API's fields is out of the model: the positions arrive already as `NumField`s.
- The Redis and MongoDB clients, `subscribeNotifications` internals and the JSON parsing in its listener are out of the model. So are the store queries with their sort and limit; the model takes the records they return, in order.
- Real timers and promise scheduling are out of the model. Events are method calls made one after another. The `await` on `cleanup()` before settling is merged into a single step.
- `Confirmation.Gate.Settle` records the outcome at the moment the flag is set. Because of the `await` on `cleanup()`, the source settles the promise only after that call, and a failing `cleanup()` is not modelled.
- Counting and ordering of releases by other handlers is out of the model. Only the release count of the gate's own subscription is kept.
- JSON serialisation of the published command is out of the model. Keys whose value is `undefined` would be dropped there; the model keeps them as `JUndefined`.
- IEEE-754 rounding, negative zero and `parseFloat` are out of the model. Arithmetic is exact on reals.
- WHATWG URL parsing is out of the model. `pathname` is a parameter; `None` means `new URL` throws.
- `TaskList.ListPortfolios` uses one clock reading for every task. The source calls `Date.now()` once per task without a number `createdAt`.
- `Tasks.Stored` keeps NaN and ±Infinity as numbers. `JSON.stringify` writes them as `null`, so in the store they would come back as missing fields. The model does not include that serialisation.
- Stored string fields that hold a non-string value are out of the model. A string field is a string or absent.
- Object identity is out of the model. Objects and arrays in request bodies are `JObject` references compared by identity, which is what `===` does.
- `Valuation.ApplyOrderBookPrices` does not model `toObject()` or aliasing. Positions are values, so "the input is not mutated" holds by construction and is not a separate statement.
- A stored entry that `JSON.parse` rejects, or that parses to `null`, fails the whole of `index.get.ts` (line 42 guards neither). `TaskList.ListRoute` models the failure as `None`. An entry of `null` counts as one that does not parse, since `normalizeTask(null)` throws on its first field access (server/utils/task.ts:43). The error response itself is out of the model. `recent-trades.get.ts` skips such entries instead, inside its `try`.
- Requests without a body are out of the model. Each route destructures `body` before validating it (stop.post.ts:3, remove.post.ts:3, update.post.ts:3-11, create.post.ts:3-10), so a missing or `null` body throws a `TypeError` (a 500) rather than the route's 400. The model starts from the destructured fields.
- UTF-16 code units are out of the model. Strings are sequences of Unicode scalar values, so the indices of `slice`, `split` and the address patterns agree with JavaScript only on text without surrogate pairs. Addresses and URL paths are ASCII in practice.
- Task ids that are not strings, in `recent-trades.get.ts`, are out of the model. An id is a string or absent.
- `performance.get.ts`, `[taskId].get.ts` and `[taskId]/trades.get.ts` are not part of this model. Neither are any equity-history builder, authentication, configuration, the position and trade schemas and the `useRedis` singleton.

## Findings

| source | as written | input that shows it | evidently intended | confidence | as-written member | corrected member |
|---|---|---|---|---|---|---|
| server/api/traders/stop.post.ts:17-49 (and the same block in remove.post.ts:18-54, update.post.ts:73-107, create.post.ts:76-113) | The timer and the notification handler release the subscription only `if (subscription)`. When either settles the wait before `subscribeNotifications` returns, nothing is released. The subscription is then assigned, the command is still published, and no path releases it again. | The timer fires (or a `task_error` of another task arrives, for stop, remove and create) while `subscribeNotifications` is still pending. | The release guards at stop.post.ts:20, 31, 38 and 55 show that a settled wait should not keep its subscription. A subscription assigned after the wait has settled should be released at once, so each wait releases it exactly once. | medium; not executed | Confirmation.Gate.OnSubscribeReturned, StopRoute.EarlySettlementLeaks | Confirmation.Gate.OnSubscribeReturnedReleasing, StopRoute.EarlySettlementReleased |
