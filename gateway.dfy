/** What the service receives from, and sends to, the venue's SDK and subgraph.
    The SDK is not modelled: each call's result is an input to the operation that
    makes it (a `Failure` carries the text of the exception it raised), and each
    operation returns the list of calls it issued, in order. Values the subgraph
    reports are given as their `str(...)` rendering (ids) or as reals (prices and
    amounts); `None` stands for a key that is absent. */
module Gateway {
  import opened Wrappers

  datatype OrderType = Market | Limit

  /** The `trade_params` dict handed to `perform_trade`. */
  datatype TradeParams = TradeParams(
    collateral: real,
    leverage: int,
    assetType: int,
    isLong: bool,
    orderType: OrderType,
    takeProfit: real,
    stopLoss: real,
    trader: Option<string>)   // the "trader" key, present only for delegated trading

  /** A transaction receipt and order id returned by a submission. */
  datatype Submission = Submission(txHash: string, orderId: string)

  /** The order record tracking yields (`result['order']`). */
  datatype OrderRecord = OrderRecord(
    tradeId: Option<string>,
    isPending: Option<bool>,
    isCancelled: Option<bool>,
    cancelReason: Option<string>,
    profitPercent: Option<real>,
    amountSentToTrader: Option<real>,
    fundingFee: Option<real>,
    rolloverFee: Option<real>,
    liquidationFee: Option<real>)

  /** The trade record tracking yields (`result['trade']`); all keys absent when
      the result has no trade. */
  datatype TradeRecord = TradeRecord(
    tradeId: Option<string>,
    openPrice: Option<real>,
    closePrice: Option<real>,
    collateral: Option<real>,
    leverage: Option<real>,
    isBuy: Option<bool>,
    fromCurrency: Option<string>,
    toCurrency: Option<string>,
    isOpen: Option<bool>,
    profitPercent: Option<real>)

  /** What `track_order_and_trade` returned: nothing usable (a falsy result or
      one without an order), or an order with its trade. */
  datatype Tracking = NoOrder | Tracked(order: OrderRecord, trade: TradeRecord)

  /** The gateway calls an operation issues. */
  datatype Call =
    | GetPrice(fromCurrency: string, toCurrency: string)
    | PerformTrade(params: TradeParams, atPrice: real)
    | GetOpenTrades(trader: Option<string>)
    | CloseTrade(pairU16: nat, indexU8: nat, percentageU16: nat)
    | TrackOrder(orderId: string)
    | AddCollateral(pairId: string, index: string, amount: real, trader: Option<string>)
    | RemoveCollateral(pairId: string, index: string, amount: real)
    | UpdateStopLoss(pairId: string, index: string, price: real, trader: Option<string>)
    | UpdateTakeProfit(pairId: string, index: string, price: real, trader: Option<string>)
    | GetRecentHistory(trader: Option<string>, limit: int)
}
