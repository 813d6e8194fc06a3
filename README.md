# Ostium trade-lifecycle core, modelled in Dafny

This project models the core of a small trading API in front of the Ostium
perpetual-futures venue. It covers three parts.

- **`OstiumService`** (`app/services/ostium_service.py`). It validates orders and
  collateral changes, resolves the id a client gives for a position against the
  trader's live positions, clamps ids and the close percentage into the venue's
  u16/u8 domains, classifies the outcome of a submitted close, and computes the
  trade summaries it logs (position size, liquidation price, profit and loss).
- **`StateManager`** (`app/state.py`). The process-wide wallet state: set, clear and
  query, the guard for functions that need a wallet, and the two accessors that
  refuse an unset key or address.
- **Market aggregation** (`app/routes/market.py`). The supported-currency lists,
  the market overview and the market status, computed from the service's results.

The SDK, the subgraph and the price feed are not modelled. The result of each call
into them is an input to the operation that makes the call. A `Failure` input
carries the text of the exception the call raised. Each service operation also
returns the gateway calls it issued, in order, so "rejected before any external
call" is stated as an empty call list. Monetary values are `real`. Ids are text,
as the HTTP layer passes them, and are turned into integers by a model of
Python's `int(...)`.

Files and modules:

- `wrappers.dfy` (`Wrappers`): `Option` and `Result`.
- `pytext.dfy` (`PyText`): the Python built-ins the core relies on. These are
  string truthiness and `or`, `int(text)` and `str(int)` with their round trip,
  and the string order used by `sorted`, with a `sorted(list(set))`.
- `errors.dfy` (`Errors`): the failures and their `error` texts.
- `gateway.dfy` (`Gateway`): the SDK's records, and the calls made to it.
- `encoder.dfy` (`Encoder`): the clamps of `close_trade`.
- `finance.dfy` (`Finance`): the size, liquidation and profit formulas.
- `resolver.dfy` (`Resolver`): the first-match scan over live positions, as a loop
  (`ScanPositions`) and as a specification function (`Resolve`).
- `tracker.dfy` (`Tracker`): the outcome of a submitted close.
- `summaries.dfy` (`Summaries`): `trade_data_points` and `close_trade_datapoints`.
- `service.dfy` (`Service`): the `OstiumService` class and its operations.
- `state.dfy` (`State`): `StateManager`, the singleton registry and the module-level
  accessors. The getters `PrivateKey`, `Address` and `IsWalletInitialized` read the
  fields directly, and the contracts below are stated in terms of them.
- `market.dfy` (`Market`): the three market aggregations.

Two facts about the code shape the close and encoding steps.

- A `track_order_and_trade` call that raises is caught only by the outer
  handler of `close_trade` (app/services/ostium_service.py:493-495). The close is
  then reported as failed, with the exception text. Only a tracking result with
  no usable `order` leads to the "submitted, but tracking failed" success
  (lines 485-492). See `Tracker.Classify`.
- The clamps of `close_trade` (lines 433-435) do not report whether they changed
  a value, so the model returns only the clamped values.

## Model

| member | source | states |
|---|---|---|
| `Encoder.Clamp` | app/services/ostium_service.py:433-435 | The result lies in [0, hi]. An in-range value passes unchanged, a negative one becomes 0 and one above hi becomes hi. |
| `Encoder.EncodePairId` | app/services/ostium_service.py:433 | The pair id is at most 65535. An absent id becomes 0, and an in-range id is kept. |
| `Encoder.EncodeTradeIndex` | app/services/ostium_service.py:434 | The trade index is at most 255. An absent index becomes 0, and an in-range index is kept. |
| `Encoder.EncodePercentage` | app/services/ostium_service.py:435 | The close percentage is at most 65535. An absent percentage becomes 100 (a full close), and an in-range one is kept. |
| `Encoder.EncodeIdempotent` | app/services/ostium_service.py:433-435 | Encoding an already-encoded value changes nothing. |
| `Encoder.ClampMonotone` | app/services/ostium_service.py:433-435 | Clamping preserves order. |
| `Encoder.EncoderExamples` | app/services/ostium_service.py:433-435 | 70000 becomes 65535, -5 becomes 0, an index of 300 becomes 255, and a missing percentage becomes 100. |
| `Finance.PositionSize` | app/services/ostium_service.py:786 | Size is positive for positive collateral and leverage. At leverage 1 or more it is at least the collateral, and at leverage 1 it is equal to it. |
| `Finance.LiquidationAtOpen` | app/services/ostium_service.py:786-791 | With positive leverage and price, a long liquidates below the entry price and a short above it. At leverage 1 or more, a long's liquidation price is not negative. |
| `Finance.LiquidationEstimate` | app/services/ostium_service.py:860-866 | Leverage of 0 or less gives the entry price. Otherwise a long's estimate is below a positive entry and a short's is above it. |
| `Finance.PnlOpen` | app/services/ostium_service.py:868-871 | With positive entry and size, a long profits exactly when the exit is above the entry, and a short exactly when it is below. No price move gives zero. |
| `Finance.PnlPercentage` | app/services/ostium_service.py:873 | 0 when collateral is 0 or less. Otherwise percentage × collateral = 100 × pnl. |
| `Finance.PnlClosed` | app/services/ostium_service.py:827-828 | pnl × 100 = reported percentage × collateral. |
| `Finance.PnlLongShortOpposite` | app/services/ostium_service.py:868-871 | A long and a short over the same move have opposite profits. |
| `Finance.PercentageRoundTrip` | app/services/ostium_service.py:826-873 | For positive collateral, the closed-trade formula and the percentage formula invert each other. |
| `Finance.OpenPercentageIsLeveredMove` | app/services/ostium_service.py:858-873 | The open-trade percentage is the relative price move × leverage × 100, whatever the collateral. |
| `Finance.EstimateIsBufferedAtOpen` | app/services/ostium_service.py:860-866 | The estimate's distance from entry is 0.9 × the at-open distance. The two formulas differ whenever the price is not 0. |
| `Finance.LongExample` | app/services/ostium_service.py:786-791 | 100 collateral at 10x and 1.10 gives size 1000 and liquidation 0.99. At 1.12 the profit is 200/11, and so is the percentage. |
| `Resolver.Resolve` | app/services/ostium_service.py:403-427 | The scan's specification. A found position matched the candidate. Its index is the caller's or a live position's. |
| `Resolver.ScanPositions` | app/services/ostium_service.py:397-427 | The loop with its flags and `break` computes exactly `Resolve`: found, not found, or raised. |
| `Resolver.ResolveAtFirstMatch` | app/services/ostium_service.py:403-416 | The first matching position decides. The pair id is its non-empty nested `pair.id`, else its `pairId`, else the candidate. The index is its `index`, else the caller's. |
| `Resolver.FoundHasFirstMatch` | app/services/ostium_service.py:403-416 | A found result always comes from a first match of some position. |
| `Resolver.NotFoundIffNoMatch` | app/services/ostium_service.py:403-419 | The result is "not found" exactly when every live position is readable and none matches. |
| `Resolver.RaisedIffUnreadableFirst` | app/services/ostium_service.py:397-427 | The scan raises exactly when it reaches an unreadable entry before any match. |
| `Resolver.AbsentFieldsNeverMatch` | app/services/ostium_service.py:404-411 | With a non-empty candidate, a position whose ids are all absent never matches. |
| `Resolver.ResolveExample` | app/services/ostium_service.py:403-424 | A position with trade id 7 and pair id 3 is found under "3" and under "7", both resolving to pair "3". "99" is not found. |
| `Tracker.ReportedPnl` | app/services/ostium_service.py:460-464 | Picks by which key is present: `profitPercent` when present (even 0), else `amountSentToTrader`, else 0. |
| `Tracker.Classify` | app/services/ostium_service.py:446-495 | An empty order id fails. A raising tracker fails with its message. No usable order gives the untracked success under the pair id. A tracked order without `tradeID` fails with the missing key. Otherwise the result is its `Report`. |
| `Tracker.Report` | app/services/ostium_service.py:456-484 | The status is Processed exactly when `isPending` is present and false. Success holds exactly when the order is not cancelled, and pnl is `ReportedPnl` of the order. A cancelled order carries its reason (default "Unknown") and the error "Order cancelled: reason". |
| `Tracker.SucceededIff` | app/services/ostium_service.py:446-495 | A submitted close succeeds exactly when it has an order id, tracking did not raise, and any tracked order names its trade and is not cancelled. |
| `Tracker.CancelledIsFailure` | app/services/ostium_service.py:476-479 | A venue cancellation makes the close a failure that carries the venue's reason. |
| `Tracker.UntrackedReportsPairId` | app/services/ostium_service.py:485-492 | Without a tracked order the close succeeds, and its trade id is the pair id the close was submitted under. |
| `Tracker.SlippageExample` | app/services/ostium_service.py:472-479 | A processed order cancelled for "slippage" is a failure whose cancel reason is "slippage". |
| `Summaries.TradeDataPoints` | app/services/ostium_service.py:769-801 | A missing price or zero leverage is an error. Otherwise the entry is the fetched price, size = collateral × leverage, and the liquidation price is the at-open formula `LiquidationAtOpen`. For positive leverage and price, it is on the losing side of entry. |
| `Summaries.FirstNonZero` | app/services/ostium_service.py:827 | The order's percentage wins when it is present and non-zero, else the trade's. The result is 0 exactly when both are absent or 0. A non-zero result is always one of the two. |
| `Summaries.CloseTradeDatapoints` | app/services/ostium_service.py:803-890 | A missing pair is an error. The trade counts as closed exactly when `isOpen` is false. A closed trade's percentage is `FirstNonZero` of the order's and the trade's, and its pnl is that share of collateral. An open trade is valued at the current price: pnl is `PnlOpen`, the percentage is `PnlPercentage` and the liquidation price is `LiquidationEstimate`. With both currencies present, a closed trade always succeeds, and an open one fails exactly when there is no price (the "Could not fetch current price" text) or the entry is 0 ("float division by zero"). The trade id is the trade's, else the order's. A closed trade carries the order's funding, rollover and liquidation fees. |
| `Summaries.ReportedZeroDiffers` | app/services/ostium_service.py:460-464 | For numeric values, a reported `profitPercent` of 0 gives pnl 0 in the close report. The logged closed summary passes over it to the trade's percentage. |
| `Summaries.ClosedAgreesWithOpen` | app/services/ostium_service.py:826-873 | If the venue reports the percentage the open path computes, both paths give the same profit. |
| `Service.ValidatePlaceOrder` | app/services/ostium_service.py:265-272 | Checks in order: a missing pair, then collateral of 0 or less, then leverage of 0 or less. Each error occurs exactly when its check is the first to fail. |
| `Service.ValidateAdjustment` | app/services/ostium_service.py:504-508 | An empty id fails first, then an amount of 0 or less. `remove_collateral` makes the same checks (lines 539-543). |
| `Service.ExecutionPrice` | app/services/ostium_service.py:309 | A limit order with a truthy limit price uses that price. Every other order uses the market price. |
| `Service.EncodeClose` | app/services/ostium_service.py:433-435 | A pair id or index that is not an integer is rejected, the pair id first. An index that is not an integer is rejected with its own text. Otherwise the pair id and index are the clamped values of `int(...)` of the texts, with an absent index giving 0, and the percentage is encoded. |
| `Service.EncodeRenderedIds` | app/services/ostium_service.py:433-435 | Ids that are the text of integers are clamped, never rejected. An absent index becomes 0. |
| `Service.OstiumService.Create` | app/services/ostium_service.py:17-93 | A missing RPC URL raises. Without a key there is no address, trader or SDK. With a key, the address comes from the account, the trader from TRADER_ADDRESS, and an SDK is built. Account and SDK errors propagate. |
| `Service.OstiumService.DelegatedTrader` | app/services/ostium_service.py:293-294 | The trader is set exactly when the argument or the configured address is truthy. The argument wins. |
| `Service.OstiumService.ActingAddress` | app/services/ostium_service.py:704 | The argument, else the configured trader, else the wallet's own address. |
| `Service.OstiumService.ParamsOf` | app/services/ostium_service.py:283-294 | The trade carries the request's collateral, leverage, asset, side and order type. An absent take-profit or stop-loss is 0. The trader is `DelegatedTrader`. |
| `Service.OstiumService.PlaceOrder` | app/services/ostium_service.py:251-343 | A validation failure makes no call. Otherwise the price is read, then the trade is submitted at the execution price with the delegated trader. The returned price is always the market price. Success occurs exactly when every step succeeds. |
| `Service.OstiumService.LivePositions` | app/services/ostium_service.py:375-385 | The trader's open trades, or none when the SDK is missing or the query raised. |
| `Service.OstiumService.FetchCalls` | app/services/ostium_service.py:375-385 | One open-trades query for the wallet's address when an SDK exists, none otherwise. |
| `Service.OstiumService.CloseTrade` | app/services/ostium_service.py:387-495 | An empty id makes no call. "Not found" submits nothing, and when every live position is readable and unmatched no close call is made. Otherwise the resolved ids, or after a failed scan the caller's, are encoded and submitted, and the outcome is `Classify` of the submission and tracking. |
| `Service.OstiumService.AddCollateral` | app/services/ostium_service.py:497-534 | Validation comes before any call. Then one call passes the caller's trader address as given, and the result echoes the id and the amount. |
| `Service.OstiumService.RemoveCollateral` | app/services/ostium_service.py:536-568 | Validation comes before any call. Then one call without a trader address, and the result echoes the id and the amount. |
| `Service.OstiumService.UpdateStopLoss` | app/services/ostium_service.py:696-713 | True exactly when the SDK exists and reports true. Any failure gives false. The call acts for `ActingAddress`. |
| `Service.OstiumService.UpdateTakeProfit` | app/services/ostium_service.py:715-732 | As for stop-loss, with the take-profit price. |
| `Service.OstiumService.GetRecentHistory` | app/services/ostium_service.py:358-373 | The query uses the given address or the wallet's, and the given limit when positive, else 10. Any failure gives an empty history. |
| `Service.OstiumService.GetNetworkInfo` | app/services/ostium_service.py:755-767 | The network is "testnet" exactly for a testnet configuration, else "mainnet". The address is the wallet's when truthy, else "Not initialized". The RPC URL and trader are the configured ones. Delegation is on exactly when a trader is configured. The wallet is initialised exactly when an address exists. |
| `State.StateManager.Allocate` | app/state.py:21-27 | A new instance starts not initialised. |
| `State.StateManager.Init` | app/state.py:29-33 | The first call creates an empty wallet state. Later calls leave the state untouched. |
| `State.StateManager.SetWallet` | app/state.py:35-40 | Afterwards the key and address are the ones given and the wallet is initialised. |
| `State.StateManager.ClearWallet` | app/state.py:57-62 | Afterwards the key, address and flag are all reset, and nothing is kept. |
| `State.StateManager.GetWalletInfo` | app/state.py:64-70 | Returns the address and flag. The result type has no key field. |
| `State.WalletInfoIgnoresKey` | app/state.py:64-70 | Two managers that differ only in their keys report the same info. |
| `State.Registry.Obtain` | app/state.py:21-33 | The first call creates the instance. Later calls return the same instance with its wallet state unchanged. |
| `State.ObtainTwice` | app/state.py:21-33 | A wallet set through the first handle is seen through the second, which is the same instance. |
| `State.CurrentPrivateKey` | app/state.py:88-93 | Returns the key exactly when it is set and non-empty. Otherwise fails with the "not initialized" message. |
| `State.CurrentAddress` | app/state.py:96-101 | Returns the address exactly when it is set and non-empty. Otherwise fails with the "not initialized" message. |
| `State.EmptyKeyAccepted` | app/state.py:35-40 | After setting an empty key, the wallet counts as initialised, yet the key accessor still refuses. |
| `State.RequireWalletInitialized` | app/state.py:77-85 | The function runs only when the wallet is initialised, and then its result is returned unchanged. Otherwise the guard fails without calling it. |
| `Market.SupportedCurrencies` | app/routes/market.py:115-127 | From and to each hold exactly the truthy symbols, strictly ascending (so deduplicated). "All" is the sorted union of the two. |
| `Market.Render` | app/routes/market.py:81 | The text is the from-symbol, a slash, then the to-symbol. A missing symbol is empty. |
| `Market.MarketOverview` | app/routes/market.py:72-82 | Missing lists count as empty, and the totals are the list lengths. Latest prices are the first min(10, n) prices. Available pairs are the first min(20, n) pairs rendered "from/to", with a missing side as "". |
| `Market.GetMarketStatus` | app/routes/market.py:97-103 | `market_open` and `rpc_connected` both equal the health check. Network, address and delegation come from the network info. |
| `Market.StatusOfService` | app/services/ostium_service.py:755-767 | With the service's own info, the network is never "unknown", the address is never empty, and delegation is on exactly when a trader is configured. |
| `PyText.Or` | app/services/ostium_service.py:704 | Python's `or` is truthy exactly when one side is, and gives the left side when that side is truthy. |
| `PyText.ParseDigits` | app/services/ostium_service.py:433-434 | A value exists exactly when the text is a non-empty run of decimal digits. |
| `PyText.ParseInt` | app/services/ostium_service.py:433-434 | A text parses exactly when, once whitespace is trimmed, it is an optional sign followed by a non-empty run of digits. The value is at most 0 under a minus sign, and at least 0 otherwise. |
| `PyText.ParseSigned` | app/services/ostium_service.py:433-434 | A minus sign negates the digits' value, and a plus sign keeps it. |
| `PyText.ParseRejectsTrailing` | app/services/ostium_service.py:433-434 | "3a" and "1 2" do not parse, so such an id makes the close fail. |
| `PyText.ParseIgnoresPadding` | app/services/ostium_service.py:433-434 | " 42 " parses to 42. |
| `PyText.ParseShowInt` | app/services/ostium_service.py:433-434 | `int(str(n)) == n` for every integer. |
| `PyText.BelowIrreflexive` | app/routes/market.py:125-127 | No string sorts before itself. |
| `PyText.BelowTransitive` | app/routes/market.py:125-127 | The string order is transitive. |
| `PyText.BelowTotal` | app/routes/market.py:125-127 | Of two different strings, one sorts first. |
| `PyText.LeastExists` | app/routes/market.py:125-127 | A non-empty set of strings has a least element. |
| `PyText.SortedList` | app/routes/market.py:125-127 | `sorted(list(s))` is strictly ascending and holds exactly the elements of `s`, once each. |

## Left out

- SDK, web3 and subgraph calls are foreign network calls, so their results are inputs. This covers price reads, `perform_trade`, the SDK's `close_trade`, `track_order_and_trade`, `get_open_trades`, collateral and SL/TP updates, and history.
- Thin SDK wrappers are not modelled: `get_faucet_usdc`, `get_balances`, `get_latest_prices`, `get_price`, `get_pair_info`, `get_formatted_pairs_details`, `track_order`, `update_limit_order`, the block-number and health checks, and `set_slippage_percentage`. Their results come from foreign calls. `get_price` reshapes the SDK's tuple into a dict.
- `set_slippage_percentage` (app/services/ostium_service.py:244-249) catches nothing. For a value outside 0..100 it logs a warning and forwards the value anyway. Without an SDK, its `AttributeError` reaches the caller.
- `get_faucet_usdc` (app/services/ostium_service.py:131-164) checks eligibility and formats the next-request time itself. That logic is not modelled, because it depends only on the faucet's answers and the clock.
- Temporary-SDK fallback with a dummy key, and the `SignedTransaction` patch: library plumbing.
- `bot_*` text builders: emoji and float formatting only.
- `round(..., 2)` and float arithmetic: the formulas are stated over unrounded reals.
- `float(...)` of non-numeric text raises in the source. The model receives subgraph amounts as numbers and does not capture this.
- `async`/`await`, and the locks and double-checked locking of the singleton: every operation is one sequential step.
- The wallet service (AES-GCM decryption, database queries) and key generation: cryptography and database calls.
- HTTP routing, request schemas, status-code mapping and `main.py`. The order-type string becomes the `OrderType` input.
- The market routes pass a `user_id` argument to service methods that take none, so as written they fail with an HTTP 500. Only the aggregation over the lists is modelled.
- `Market.GetMarketStatus` does not model the defaults "unknown", "" and False of `network_info.get(...)`. `get_network_info` always returns those keys, so the defaults are never used.
- `Service.OstiumService.PlaceOrder`: the second price read made by `trade_data_points` feeds only a log line, so it is not listed in the returned calls. The same holds for the read made by `close_trade_datapoints` in `CloseTrade`. Both summaries are stated as functions in `Summaries`.
- `Service.OstiumService.CloseTrade` has no branch for a missing SDK after the scan. Without an SDK the live-position list is empty, so the scan always ends in "not found" first.
- `Service.OstiumService.UpdateStopLoss` and `UpdateTakeProfit` assume the SDK returns a bool. They return true only for a successful call that reported true.
- `PyText.ParseInt` accepts ASCII whitespace, a sign and ASCII digits. It does not accept underscores between digits, non-ASCII digits or non-ASCII whitespace.
- `Errors.Message` shows the text of an `int(...)` failure between plain quotes. Python's `repr` escaping of quotes and control characters is not reproduced.
- `Tracker.Report` treats a key that is present with a null value as absent. In the source a null `profitPercent` makes `float(None)` raise, so the close fails (lines 461-462 and 493-495). A null `cancelReason` gives "Order cancelled: None" (line 479). A null `isPending` reads as Processed (line 472). Subgraph records are modelled as present-or-absent fields only.
- `Summaries.CloseTradeDatapoints` treats a null value as an absent key in the same way. In the source a null number would make `float(...)` raise. The `isOpen` read at line 826 would take a null as closed.
- `Market.Render` shows a null symbol as "". The source renders it as "None" (app/routes/market.py:81).
- `Resolver.Resolve` compares live-position fields by their `str(...)` text. A field whose value is an explicit null is treated as absent, although Python would compare the text "None".
- `Summaries.CloseTradeDatapoints` models trade ids as text, so a numeric id 0, which is falsy in Python, is not distinguished from other ids. The `current_price` field is not kept separately because it always equals the exit price.
