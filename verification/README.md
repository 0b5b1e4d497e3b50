# Stock portfolio site — a verified model of its core

This project models the logic of a stock-portfolio web application in Dafny:

- the live-quote client (`useStockWebSocket`): one streaming connection, a reconnect counter with a ceiling of five, capped exponential backoff, and a per-symbol map of the latest quote;
- the persistent state hook with a time-to-live (`usePersistentState`) over the browser's local storage;
- the portfolio-list hook (`useSupabasePortfolios`): load, create, update and delete portfolios, the active portfolio, and the guarded holding operations;
- the data-access helpers (`database.ts`): upper-cased asset symbols, get-or-create asset, buy and sell transaction records, and the portfolio summary;
- the portfolio tab's totals, gain and guards; the stock tab's formatting decisions, search filter and selection; and the sign-up form's validation and state sequence.

Every backend answer, socket event, clock reading and parse result is an input, so each operation is deterministic.

Module layout:

| file | module | models |
|---|---|---|
| `wrappers.dfy` | `Wrappers` | `Option`, `Result`, and a caught value (`Thrown`) |
| `text.dfy` | `Text` | `toUpperCase`, `toLowerCase`, `trim`, `includes` |
| `records.dfy` | `Records` | the table rows and messages of `src/lib/types.ts` |
| `sums.dfy` | `Sums` | `reduce((s, x) => s + f(x), 0)` over reals |
| `live_quotes.dfy` | `LiveQuotes` | `src/lib/hooks/useStockWebSocket.ts` |
| `persistent_state.dfy` | `PersistentState` | `src/lib/hooks.ts` |
| `database.dfy` | `Database` | `src/lib/supabase/database.ts` |
| `portfolio_hook.dfy` | `PortfolioHook` | `src/lib/hooks/useSupabasePortfolios.ts` |
| `portfolio_tab.dfy` | `PortfolioTab` | `src/components/data_viz/tabs/PortfolioTab.tsx` |
| `stock_tab.dfy` | `StockTab` | `src/components/data_viz/tabs/StockTab.tsx` |
| `signup.dfy` | `SignUp` | `src/app/signup/page.tsx` |

Objects whose fields the source updates in place are classes; their methods state the whole new state with `old(...)`. These include the quote client, a persistent value and its storage, the backend store, the portfolio hook's state, the tabs' state and the sign-up form. Pure computations are functions with lemmas.

Numbers are exact reals. JavaScript's `||` defaults and truthiness are written out: a missing or empty id is unset, and a missing or zero fee is 0.

Two behaviours of the reconnect logic worth noting:

- The first reconnect waits 2000 ms, not 1000 ms. The counter is incremented before the delay `min(1000·2^n, 30000)` is computed (`src/lib/hooks/useStockWebSocket.ts:97-98`), so five closes give 2000, 4000, 8000, 16000 and 30000 ms.
- Reaching the ceiling records no error. There is no reconnecting or failed state; the client has only the `connected` flag (`src/lib/hooks/useStockWebSocket.ts:96`).

## Model

| member | source | states |
|---|---|---|
| Text.ToUpper | src/lib/supabase/database.ts:113-120 | the symbol as looked up: the same length, each ASCII lower-case letter upper-cased and every other character kept |
| Text.ToUpperIdempotent | src/lib/supabase/database.ts:541-546 | an upper-cased symbol has no lower-case letter left, and upper-casing it again changes nothing |
| Text.ToLower | src/components/data_viz/tabs/StockTab.tsx:204-205 | the same length, each ASCII upper-case letter lower-cased and every other character kept |
| Text.Trim | src/components/data_viz/tabs/PortfolioTab.tsx:42-43 | the result is a slice of the input with only white space around it and none at its own ends; it is empty exactly when the input is all white space |
| Text.TrimUnique | src/components/data_viz/tabs/PortfolioTab.tsx:42-43 | the trimmed form is unique: any non-empty slice with only white space around it and none at its ends is what trim returns |
| Text.Includes | src/components/data_viz/tabs/StockTab.tsx:204-205 | true exactly when the term occurs at some position of the string |
| LiveQuotes.BackoffDelay | src/lib/hooks/useStockWebSocket.ts:98 | every reconnect delay lies between 1000 and 30000 ms |
| LiveQuotes.BackoffMonotone | src/lib/hooks/useStockWebSocket.ts:97-98 | a later attempt never waits less than an earlier one |
| LiveQuotes.BackoffCappedFromFive | src/lib/hooks/useStockWebSocket.ts:98 | from attempt 5 on, the delay is the 30-second cap |
| LiveQuotes.BackoffDoubles | src/lib/hooks/useStockWebSocket.ts:98 | each delay is double the previous one until it reaches the cap |
| LiveQuotes.BackoffSchedule | src/lib/hooks/useStockWebSocket.ts:96-98 | attempts 1 to 5 wait 2000, 4000, 8000, 16000 and 30000 ms |
| LiveQuotes.Recorded | src/lib/hooks/useStockWebSocket.ts:71-75 | a parsed quote replaces its symbol's entry, keeps every other entry, and grows the map by at most one |
| LiveQuotes.LatestMessageWins | src/lib/hooks/useStockWebSocket.ts:71-75 | of two quotes for one symbol, only the later one remains |
| LiveQuotes.CloseRequested | src/lib/hooks/useStockWebSocket.ts:47-49 | closing a socket moves it from connecting or open to closing and leaves the other sockets as they were |
| LiveQuotes.QuoteClient.constructor | src/lib/hooks/useStockWebSocket.ts:34-39 | empty quote map, not connected, no error, no socket, zero attempts, no timer |
| LiveQuotes.QuoteClient.Connect | src/lib/hooks/useStockWebSocket.ts:42-111 | disabled or with no symbols: nothing changes. Otherwise the referenced socket is asked to close and a new one is created and referenced; a throw records the error. At most one socket stays live |
| LiveQuotes.QuoteClient.OnOpen | src/lib/hooks/useStockWebSocket.ts:54-65 | connected, error cleared, attempts reset to 0, and exactly one subscribe message carrying the full symbol list sent on that socket |
| LiveQuotes.QuoteClient.OnMessage | src/lib/hooks/useStockWebSocket.ts:67-81 | a parsed quote is recorded in the map; an unparsable payload changes nothing, including the connected flag and the attempt count |
| LiveQuotes.QuoteClient.OnError | src/lib/hooks/useStockWebSocket.ts:83-88 | only the error is recorded |
| LiveQuotes.QuoteClient.OnClose | src/lib/hooks/useStockWebSocket.ts:90-105 | as written: disconnected and reference cleared whichever socket closed. When enabled and below 5 attempts, the count goes up by one and a reconnect is scheduled after BackoffDelay(count); at the ceiling nothing is scheduled |
| LiveQuotes.QuoteClient.OnCloseCurrentOnly | src/lib/hooks/useStockWebSocket.ts:90-105 | the intended handler: the close of a socket that is no longer referenced changes nothing but that socket's state. It keeps at most one socket live |
| LiveQuotes.QuoteClient.OnTimer | src/lib/hooks/useStockWebSocket.ts:101-103 | a fired timer is no longer pending and `connect` runs with the client's current options, checked at fire time |
| LiveQuotes.QuoteClient.Disconnect | src/lib/hooks/useStockWebSocket.ts:113-122 | the pending timer is cancelled, the referenced socket is asked to close and dropped, and the client is disconnected |
| LiveQuotes.QuoteClient.Subscribe | src/lib/hooks/useStockWebSocket.ts:124-131 | sends one subscribe message exactly when the referenced socket is open; otherwise a no-op |
| LiveQuotes.QuoteClient.Unsubscribe | src/lib/hooks/useStockWebSocket.ts:133-140 | sends one unsubscribe message exactly when the referenced socket is open; otherwise a no-op |
| LiveQuotes.QuoteClient.ResubscribeOnChange | src/lib/hooks/useStockWebSocket.ts:151-158 | when connected with a socket, a subscribe for the new list is sent if it is open; the send throws exactly when the socket is still connecting |
| LiveQuotes.ReconnectSchedule | src/lib/hooks/useStockWebSocket.ts:96-103 | five drops without an open schedule reconnects after 2, 4, 8, 16 and 30 seconds; a sixth schedules nothing |
| LiveQuotes.StaleCloseAsWritten | src/lib/hooks/useStockWebSocket.ts:90-105 | a stale close event clears the reference to the new socket, and the reconnect it schedules leaves two sockets live |
| LiveQuotes.StaleCloseCurrentOnly | src/lib/hooks/useStockWebSocket.ts:90-105 | with the intended handler, the same stale close schedules nothing and the new socket stays referenced |
| PersistentState.Stamp | src/lib/hooks.ts:32-35 | the stored item holds the value with an expiry ttl·60000 ms after now, fresh at exactly the earlier times, and fresh at once for a positive TTL |
| PersistentState.Fresh | src/lib/hooks.ts:19 | the truthiness test on the expiry is implied by the comparison with a non-negative clock: fresh exactly when the expiry is present and later than now, and then positive |
| PersistentState.Classify | src/lib/hooks.ts:14-27 | untouched exactly for an absent key or content that is not a parsed item; restored (with the stored value) exactly for a fresh item; evicted exactly for a stale item |
| PersistentState.RestoredIffFresh | src/lib/hooks.ts:19-23 | a stored item is restored exactly when its expiry is present, non-zero and later than now, and then yields its value; otherwise it is evicted |
| PersistentState.OnlyItemsEvicted | src/lib/hooks.ts:14-27 | an absent key, blank content or unreadable content is left untouched; only a parsed item is ever removed |
| PersistentState.StampRoundTrip | src/lib/hooks.ts:19-35 | a value written at t with a TTL of n minutes is read back at t' exactly when t' < t + n·60000, and evicted otherwise |
| PersistentState.LocalStorage.Lookup | src/lib/hooks.ts:15 | `getItem`: the content under the key, present exactly when the key is stored |
| PersistentState.PersistentValue.constructor | src/lib/hooks.ts:10-11 | the state starts at the default whatever storage holds |
| PersistentState.PersistentValue.Load | src/lib/hooks.ts:13-28 | a fresh entry replaces the state; an expired one is removed from storage and the state kept; anything else changes nothing |
| PersistentState.PersistentValue.Set | src/lib/hooks.ts:11 | the state becomes the new value |
| PersistentState.PersistentValue.Save | src/lib/hooks.ts:30-39 | stores the state with expiry now + ttl·60000 under the key, replacing only that key; a refused write changes nothing |
| PersistentState.ReloadWithinTtl | src/lib/hooks.ts:13-39 | set, save, then load in a fresh instance within the TTL restores the value |
| PersistentState.ReloadAfterTtl | src/lib/hooks.ts:13-39 | the same sequence at or after expiry keeps the default and removes the entry |
| PersistentState.OverwriteKeepsLatest | src/lib/hooks.ts:30-39 | two saves under one key: a later load sees only the second value |
| Database.FindSymbol | src/lib/supabase/database.ts:113-120 | the first asset whose symbol equals the given one, or none when no asset has it |
| Database.DefaultAsset | src/lib/supabase/database.ts:528-547 | an asset created on demand has the upper-cased symbol, the name or else the upper-cased symbol, type `stock` by default, and currency `USD` |
| Database.BuyRecord | src/lib/supabase/database.ts:573-586 | a buy records type `buy`, the portfolio and asset ids, total = quantity·price, fees defaulting to 0, the date or now, and the notes |
| Database.SellRecord | src/lib/supabase/database.ts:600-613 | a sell records type `sell`, the caller's asset id, the same total formula and fee default |
| Database.Store.AssetBySymbol | src/lib/supabase/database.ts:113-120 | the lookup uses the upper-cased symbol: it finds an asset with that symbol, or none exists |
| Database.Store.CreateAsset | src/lib/supabase/database.ts:122-139 | inserts the row under the upper-cased symbol; a backend error or a taken symbol inserts nothing; symbols stay unique |
| Database.Store.UpsertAsset | src/lib/supabase/database.ts:141-159 | the row holding the upper-cased symbol takes the payload's fields and keeps its id, or the payload is inserted; other rows stay and symbols stay unique |
| Database.ReplaceSymbol | src/lib/supabase/database.ts:151-158 | every row with the conflicting symbol is replaced, every other row kept in place |
| Database.ReplacedRowFound | src/lib/supabase/database.ts:151-158 | after an upsert onto an existing symbol, symbols stay unique, lookup finds the new row, and rows with other symbols remain |
| Database.AppendedRowFound | src/lib/supabase/database.ts:133-138 | inserting a new symbol keeps symbols unique and lookup then finds the row |
| Database.Store.GetOrCreateAsset | src/lib/supabase/database.ts:528-547 | an existing asset is returned and nothing is created; otherwise the default asset is inserted, or the insert's error returned |
| Database.Store.ExecuteBuyTransaction | src/lib/supabase/database.ts:552-587 | when the asset step fails (an insert error for a missing symbol, or the duplicate after a failed lookup), that error is returned and neither assets nor transactions change. Otherwise the buy record for the asset holding the upper-cased symbol is appended and returned, with the asset created first when it was missing |
| Database.Store.ExecuteSellTransaction | src/lib/supabase/database.ts:592-614 | appends and returns the sell record for the caller's asset id, or returns the insert's error and appends nothing |
| Database.Store.InsertTransaction | src/lib/supabase/database.ts:245-263 | appends the record unless the backend fails |
| Database.PortfolioSummaryOf | src/lib/supabase/database.ts:619-647 | no data on a portfolio error, a missing portfolio or a holdings error. Otherwise total cost is the sum of the holdings' costs and positions is their count, with a missing list counting as empty |
| Database.SummaryCostNonNegative | src/lib/supabase/database.ts:634 | non-negative holding costs give a non-negative total cost |
| Database.SummaryAddsHolding | src/lib/supabase/database.ts:634-635 | one more holding adds its cost to the total and one to the count |
| PortfolioHook.ReplaceById | src/lib/hooks/useSupabasePortfolios.ts:130-133 | same length; each entry with the id becomes the returned row and every other entry stays in place |
| PortfolioHook.RemoveById | src/lib/hooks/useSupabasePortfolios.ts:152-153 | exactly the portfolios with another id remain |
| PortfolioHook.RemoveByIdAppend | src/lib/hooks/useSupabasePortfolios.ts:152-153 | the removal distributes over concatenation, so the remaining portfolios keep their order |
| PortfolioHook.RemoveAbsentId | src/lib/hooks/useSupabasePortfolios.ts:152-153 | removing an id no portfolio has changes nothing |
| PortfolioHook.FindActive | src/lib/hooks/useSupabasePortfolios.ts:292-294 | the first portfolio whose id is the active id, or none when no portfolio has it |
| PortfolioHook.ActiveAfterDelete | src/lib/hooks/useSupabasePortfolios.ts:154-157 | when the deleted portfolio was active, the first remaining id becomes active (if it is non-empty), or none when nothing remains or the first id is empty; otherwise the active id is unchanged |
| PortfolioHook.DeletedIsNotActive | src/lib/hooks/useSupabasePortfolios.ts:152-158 | after a delete, the deleted id is never the active one |
| PortfolioHook.AddHoldingRequest | src/lib/hooks/useSupabasePortfolios.ts:189-197 | the buy names the active portfolio, the form's symbol and name, shares as quantity, price, fees and notes, and no date |
| PortfolioHook.RemoveHoldingRequest | src/lib/hooks/useSupabasePortfolios.ts:268-275 | the sell names the active portfolio, the caller's asset id, shares as quantity, price, fees and notes, and no date |
| PortfolioHook.UpdateHoldingRequestAsWritten | src/lib/hooks/useSupabasePortfolios.ts:229-236 | as written, the buy request has the empty symbol and no asset name |
| PortfolioHook.UpdateHoldingIgnoresAssetId | src/lib/hooks/useSupabasePortfolios.ts:229-236 | as written, the caller's asset id makes no difference to the request, and the asset created for it has an empty symbol and name |
| PortfolioHook.UpdateHoldingAsWritten | src/lib/hooks/useSupabasePortfolios.ts:229-236 | as written, an update of asset `a1` (AAPL) records its buy against a new asset `a2` with an empty symbol |
| PortfolioHook.UpdateHoldingRequest | src/lib/hooks/useSupabasePortfolios.ts:229-236 | the intended request is a buy of the caller's asset by id for the active portfolio, carrying shares, price, fees and notes |
| PortfolioHook.UpdateHoldingRecord | src/lib/hooks/useSupabasePortfolios.ts:229-236 | the intended update records a buy of the caller's asset with total = shares·price, fees defaulting to 0, and the current date |
| PortfolioHook.UpdateHoldingTargetsAsset | src/lib/hooks/useSupabasePortfolios.ts:229-236 | the intended record is the buy the written request would make, with the caller's asset id in place of the looked-up one |
| PortfolioHook.PortfolioManager.constructor | src/lib/hooks/useSupabasePortfolios.ts:28-32 | no portfolios, no active id, no holdings, loading, no error |
| PortfolioHook.PortfolioManager.LoadPortfolios | src/lib/hooks/useSupabasePortfolios.ts:35-60 | with no user the list empties. Otherwise the list or an empty one replaces it, and the first portfolio becomes active only if none is set and the list is non-empty. An error is recorded with the list kept; loading ends false |
| PortfolioHook.PortfolioManager.LoadHoldings | src/lib/hooks/useSupabasePortfolios.ts:63-79 | with no active id the holdings empty; otherwise they are replaced by the answer, or the error is recorded |
| PortfolioHook.PortfolioManager.CreatePortfolio | src/lib/hooks/useSupabasePortfolios.ts:92-120 | throws without a user and sends nothing. Otherwise it sends the user's insert, with currency `USD` when none is given; a created portfolio is prepended, made active and its id returned. An error leaves the list, records the message and rethrows |
| PortfolioHook.PortfolioManager.UpdatePortfolio | src/lib/hooks/useSupabasePortfolios.ts:123-142 | a returned row replaces the entries with the id; an error leaves the list, records the message and rethrows |
| PortfolioHook.PortfolioManager.DeletePortfolio | src/lib/hooks/useSupabasePortfolios.ts:145-167 | removes the entries with the id and reassigns the active id; an error leaves list and active id, records the message and rethrows |
| PortfolioHook.PortfolioManager.SetActivePortfolio | src/lib/hooks/useSupabasePortfolios.ts:170-172 | the active id becomes the given id |
| PortfolioHook.PortfolioManager.ActivePortfolio | src/lib/hooks/useSupabasePortfolios.ts:292-294 | a listed portfolio whose id is the active id, or none when no listed portfolio has it |
| PortfolioHook.PortfolioManager.ActiveWithHoldings | src/lib/hooks/useSupabasePortfolios.ts:297-305 | the active portfolio paired with the holdings, present exactly when there is an active portfolio |
| PortfolioHook.PortfolioManager.Refresh | src/lib/hooks/useSupabasePortfolios.ts:308-311 | reloads the portfolios, then the holdings of the active id held before the reload; the error is the holdings failure if that load fails, else the portfolios failure if that load fails, else unchanged |
| PortfolioHook.PortfolioManager.AddHolding | src/lib/hooks/useSupabasePortfolios.ts:175-212 | throws with no active portfolio and sends nothing. Otherwise it sends a buy of the symbol for the active portfolio; success reloads the holdings and returns the transaction; an error records the message and rethrows |
| PortfolioHook.PortfolioManager.UpdateHolding | src/lib/hooks/useSupabasePortfolios.ts:215-251 | the same guard and error path, sending the intended buy of the caller's asset |
| PortfolioHook.PortfolioManager.RemoveHolding | src/lib/hooks/useSupabasePortfolios.ts:254-289 | the same guard and error path, sending a sell of the caller's asset id |
| PortfolioTab.TotalValue | src/components/data_viz/tabs/PortfolioTab.tsx:89-92 | 0 with no active portfolio or no holdings; non-negative when every holding has non-negative shares and current price |
| PortfolioTab.TotalCost | src/components/data_viz/tabs/PortfolioTab.tsx:94-96 | 0 with no active portfolio or no holdings; non-negative when every holding has non-negative shares and average price |
| PortfolioTab.TotalGain | src/components/data_viz/tabs/PortfolioTab.tsx:94-101 | no active portfolio gives 0 and 0. The amount is total value minus total cost; with a positive cost, percent·cost = amount·100; otherwise the percent is 0 |
| PortfolioTab.GainIsSumOfHoldingGains | src/components/data_viz/tabs/PortfolioTab.tsx:89-98 | the gain amount equals the sum over holdings of shares·(current − average price) |
| PortfolioTab.GainPercentSign | src/components/data_viz/tabs/PortfolioTab.tsx:99 | with a positive cost the percentage is positive, or zero, exactly when the amount is |
| PortfolioTab.NoGainAtCost | src/components/data_viz/tabs/PortfolioTab.tsx:89-101 | when every current price equals the average price, amount and percent are both 0 |
| PortfolioTab.TotalsAddHolding | src/components/data_viz/tabs/PortfolioTab.tsx:89-96 | one more holding adds shares·currentPrice to the value and shares·avgPrice to the cost |
| PortfolioTab.FormHolding | src/components/data_viz/tabs/PortfolioTab.tsx:57-63 | the submitted holding has the upper-cased ticker, the name, and the three parsed numbers |
| PortfolioTab.PortfolioTabState.HandleCreatePortfolio | src/components/data_viz/tabs/PortfolioTab.tsx:41-47 | a name that is blank once trimmed does nothing; otherwise the trimmed name is created, the field cleared and the dialog closed |
| PortfolioTab.PortfolioTabState.HandleDeletePortfolio | src/components/data_viz/tabs/PortfolioTab.tsx:49-53 | a delete is issued exactly when more than one portfolio exists |
| PortfolioTab.PortfolioTabState.HandleAddHolding | src/components/data_viz/tabs/PortfolioTab.tsx:55-68 | with an active id and all five fields filled, the parsed holding is added, the form reset and the dialog closed; otherwise nothing changes |
| PortfolioTab.PortfolioTabState.HandleEditHolding | src/components/data_viz/tabs/PortfolioTab.tsx:70-73 | the holding is being edited and the dialog is open |
| PortfolioTab.PortfolioTabState.HandleUpdateHolding | src/components/data_viz/tabs/PortfolioTab.tsx:75-81 | with an active id and a holding being edited, the update is issued and the dialog closed; otherwise nothing changes |
| PortfolioTab.PortfolioTabState.HandleRemoveHolding | src/components/data_viz/tabs/PortfolioTab.tsx:83-87 | a removal is issued exactly when an id is active |
| PortfolioTab.CreateFromPaddedName | src/components/data_viz/tabs/PortfolioTab.tsx:41-47 | a padded name creates the portfolio under the name without padding |
| PortfolioTab.CreateFromBlankName | src/components/data_viz/tabs/PortfolioTab.tsx:41-47 | a name of spaces and tabs creates nothing and leaves the dialog open |
| StockTab.FormatPrice | src/components/data_viz/tabs/StockTab.tsx:14-17 | `N/A` exactly when not given a number; otherwise the number |
| StockTab.FormatPercent | src/components/data_viz/tabs/StockTab.tsx:19-22 | `N/A` exactly when not given a number; otherwise the fraction times 100 |
| StockTab.FormatLargeNumber | src/components/data_viz/tabs/StockTab.tsx:25-37 | `N/A` exactly when not given a number; a scaled figure times its scale gives back the number; a plain figure is the number |
| StockTab.LargeNumberSuffix | src/components/data_viz/tabs/StockTab.tsx:27-36 | T exactly from 10^12, B exactly in [10^9, 10^12), M exactly in [10^6, 10^9), none below. B and M figures lie in [1, 1000) and T figures are at least 1 |
| StockTab.Matches | src/components/data_viz/tabs/StockTab.tsx:204-205 | the empty term matches every stock, and a term equal to the symbol or the name up to ASCII case matches |
| StockTab.SearchStocks | src/components/data_viz/tabs/StockTab.tsx:202-206 | a stock is listed exactly when its lower-cased symbol or name contains the lower-cased term |
| StockTab.SearchAppend | src/components/data_viz/tabs/StockTab.tsx:202-206 | the filter distributes over concatenation, so listed stocks keep their order |
| StockTab.SearchEmptyTerm | src/components/data_viz/tabs/StockTab.tsx:202-206 | an empty term lists every stock in order |
| StockTab.SelectedStockListed | src/components/data_viz/tabs/StockTab.tsx:88-93 | after a stock is selected its symbol is the term, and that stock stays listed |
| StockTab.SocketOptions | src/components/data_viz/tabs/StockTab.tsx:76-78 | the quote client is enabled exactly when a stock is searched, and then subscribes to that stock alone |
| StockTab.StockTabState.LoadStocks | src/components/data_viz/tabs/StockTab.tsx:52-70 | the list or an empty one becomes the available stocks, and a non-empty list's first stock is searched and selected; an error is recorded and nothing else changes |
| StockTab.StockTabState.SelectStock | src/components/data_viz/tabs/StockTab.tsx:88-97 | the ticker is searched and becomes the term, the list closes, and the selection is the first stock with that symbol, or none when no stock has it |
| StockTab.LoadThenSelect | src/components/data_viz/tabs/StockTab.tsx:52-97 | loading AAPL and MSFT selects AAPL; picking MSFT selects it; an unknown ticker is searched with nothing selected |
| SignUp.ValidationError | src/app/signup/page.tsx:37-47 | no message exactly when the passwords match and have at least 6 characters; a mismatch reports the mismatch; otherwise a short password reports the length |
| SignUp.MismatchReportedFirst | src/app/signup/page.tsx:37-47 | a short password typed differently twice reports the mismatch, never the length |
| SignUp.RedirectsHome | src/app/signup/page.tsx:26-30 | a user is redirected home exactly when authentication has loaded and the user is signed in |
| SignUp.SignUpForm.RedirectEffect | src/app/signup/page.tsx:26-30 | schedules one redirect to `/` exactly when RedirectsHome holds, and changes nothing else |
| SignUp.SignUpForm.HandleSubmit | src/app/signup/page.tsx:32-68 | a failed validation leaves its message, success false, loading untouched and nothing sent. Otherwise `signUp` is called once, and a rejection leaves its message, an acceptance sets success and schedules `/login` after 2000 ms, and a throw leaves the generic message; loading ends false |
| SignUp.RetryAfterRejection | src/app/signup/page.tsx:34-35 | a retry after a rejection clears the earlier message and succeeds |
| SignUp.MismatchedShortPassword | src/app/signup/page.tsx:38-41 | mismatched short passwords report the mismatch and call nothing |

## Left out

- The WebSocket transport, `JSON.parse`, `localStorage`, the Supabase client, `setTimeout`, `Date` and the auth provider are runtime services. Their results are inputs: socket events and a parse result, stored content after parsing, backend answers, a clock in milliseconds, and the provider's answer.
- React rendering and effect scheduling are left out. This covers the write effect that also runs on mount with the default value, re-creating `connect` when its options change, and the render-time capture of state by callbacks. In the quote client, `symbols` and `enabled` are fixed per client; `Refresh` models the one capture that changes an outcome.
- The `onUpdate` and `onError` callbacks, and all console logging, have no effect on the modelled state.
- Floating point: amounts are exact reals, so NaN, rounding and `parseFloat` of malformed text are not modelled. `parseFloat` is a function parameter.
- Display formatting (`toFixed`, `toLocaleString`, the `$` and `%` strings) is not modelled; only the `N/A` decision, the scale and the figure are.
- Text.ToUpper and Text.ToLower map ASCII letters only. JavaScript's full Unicode case mapping is not modelled.
- SignUp.ValidationError counts characters, where JavaScript's `length` counts UTF-16 code units. A password with characters outside the Basic Multilingual Plane is therefore shorter in the model.
- PersistentState.PersistentValue.Save and PersistentState.PersistentValue.Load store and read the value itself: the `JSON.stringify` then `JSON.parse` round trip (`src/lib/hooks.ts:17`, `src/lib/hooks.ts:35`) is taken as the identity, which values that do not survive JSON (dates, `undefined`, functions, cycles) do not satisfy. PersistentState.StampRoundTrip and PersistentState.ReloadWithinTtl rely on this.
- PersistentState.PersistentValue: the TTL is a whole number of minutes, so the fractional TTLs a JavaScript `number` allows are not modelled.
- PersistentState.PersistentValue.Load treats any parsed content whose field access does not throw as an item. A parsed primitive therefore falls under `Item` with no expiry, and is evicted as in the code.
- The assets table keeps only id, symbol, name, type and currency. Exchange, sector, industry, description, category and `is_active`, and the database's column defaults, are not modelled.
- The thin query wrappers of `database.ts` (get, update and delete by id; snapshots, watchlists, alerts, goals, categories, `getAssets` filters) are not modelled. Their results enter as answers to the hook and tab operations.
- The `usePortfolios` hook the portfolio tab calls is not part of this model. The tab's portfolio count, active id and active portfolio with its holdings are handler parameters, and the calls it issues are logged.
- Dialog open and close wiring and the stock tab's blur timer are user-interface plumbing and are not modelled.
- The sign-up page's redirect to `/login` is logged as a scheduled redirect; the router itself is not modelled.

## Findings

| source | as written | input that shows it | evidently intended | confidence | as-written member | corrected member |
|---|---|---|---|---|---|---|
| src/lib/hooks/useStockWebSocket.ts:90-105 | the close handler marks the client disconnected, clears the socket reference and schedules a reconnect for whichever socket closed, including one already replaced | connect, the socket opens, connect again (or disconnect then connect after a symbol change), then the first socket's close event arrives | a close event of a socket that is no longer referenced should be ignored, leaving at most one live socket | high; not executed | LiveQuotes.StaleCloseAsWritten | LiveQuotes.QuoteClient.OnCloseCurrentOnly |
| src/lib/hooks/useSupabasePortfolios.ts:229-236 | `updateHolding` sends a buy with the empty symbol and never passes `asset_id`, so the buy goes to, or creates, the asset with the empty symbol | `updateHolding({asset_id: "a1", shares: 5, price: 150})` with asset `a1` = AAPL: the buy is recorded against a new asset with an empty symbol | the buy should be recorded against the caller's `asset_id` | high; not executed | PortfolioHook.UpdateHoldingAsWritten | PortfolioHook.UpdateHoldingRecord |
