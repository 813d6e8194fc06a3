/** The two trade summaries the service computes and logs: the one after an
    order is placed (`trade_data_points`) and the one after a close is tracked
    (`close_trade_datapoints`). The price each fetches is an input; `None` is
    the `None` that `get_price` returns when it fails. A `Failure` is the
    `{"success": False, "error": ...}` dict, by its error text. */
module Summaries {
  import opened Wrappers
  import opened PyText
  import opened Gateway
  import opened Finance
  import Tracker

  datatype OpenSummary = OpenSummary(entry: real, size: real, liquidation: real, isLong: bool)

  datatype Fees = Fees(fundingFee: real, rolloverFee: real, liquidationFee: real)

  datatype ClosePoints =
    | ClosedTrade(tradeId: string, entry: real, exitPrice: real, size: real, isLong: bool,
                  pnl: real, pnlPercentage: real, amountSentToTrader: real, fees: Fees)
    | OpenTrade(tradeId: string, entry: real, exitPrice: real, size: real, liquidation: real, isLong: bool,
                pnl: real, pnlPercentage: real)

  function NoPrice(fromCurrency: string, toCurrency: string): string {
    "Could not fetch current price for " + fromCurrency + "/" + toCurrency
  }

  /** The summary logged after an order is placed: entry at the fetched price,
      size, and the at-open liquidation price. */
  function TradeDataPoints(fromCurrency: string, toCurrency: string, price: Option<real>,
                           collateral: real, leverage: int, isLong: bool): (r: Result<OpenSummary, string>)
    ensures price.None? ==> r == Failure(NoPrice(fromCurrency, toCurrency))
    ensures price.Some? && leverage == 0 ==> r == Failure("division by zero")
    ensures r.Success? <==> price.Some? && leverage != 0
    ensures r.Success? ==> r.value.entry == price.value && r.value.isLong == isLong
                           && r.value.size == collateral * leverage as real
    ensures r.Success? && leverage > 0 && price.value > 0.0 ==>
              (if isLong then r.value.liquidation < r.value.entry else r.value.liquidation > r.value.entry)
    ensures r.Success? ==> r.value.liquidation == LiquidationAtOpen(price.value, leverage, isLong)
  {
    if price.None? then Failure(NoPrice(fromCurrency, toCurrency))
    else if leverage == 0 then Failure("division by zero")
    else
      var p := price.value;
      Success(OpenSummary(p, PositionSize(collateral, leverage as real), LiquidationAtOpen(p, leverage, isLong), isLong))
  }

  /** `x or y or 0` for the reported profit percentages: the first non-zero one. */
  function FirstNonZero(a: Option<real>, b: Option<real>): (r: real)
    ensures r != 0.0 ==> Some(r) == a || Some(r) == b
    ensures a.Some? && a.value != 0.0 ==> r == a.value
    ensures r == 0.0 <==> (a.None? || a.value == 0.0) && (b.None? || b.value == 0.0)
  {
    if a.Some? && a.value != 0.0 then a.value
    else if b.Some? && b.value != 0.0 then b.value
    else 0.0
  }

  /** The summary logged after a close is tracked. A trade reported closed
      (`isOpen` false) takes its profit from the reported percentage and has no
      liquidation price; an open one is valued at `currentPrice` with the
      buffered liquidation estimate. */
  function CloseTradeDatapoints(order: OrderRecord, trade: TradeRecord, currentPrice: Option<real>)
    : (r: Result<ClosePoints, string>)
    ensures !Truthy(trade.fromCurrency) || !Truthy(trade.toCurrency) ==> r == Failure("Missing currency pair information")
    ensures r.Success? ==> (r.value.ClosedTrade? <==> trade.isOpen == Some(false))
    ensures r.Success? ==> r.value.entry == trade.openPrice.GetOr(0.0) && r.value.isLong == trade.isBuy.GetOr(false)
    ensures r.Success? ==> r.value.size == trade.collateral.GetOr(0.0) * trade.leverage.GetOr(0.0)
    ensures r.Success? && r.value.ClosedTrade? ==>
              r.value.pnl * 100.0 == r.value.pnlPercentage * trade.collateral.GetOr(0.0)
              && r.value.exitPrice == trade.closePrice.GetOr(0.0)
              && r.value.pnlPercentage == FirstNonZero(order.profitPercent, trade.profitPercent)
              && r.value.amountSentToTrader == order.amountSentToTrader.GetOr(0.0)
    ensures r.Success? && r.value.OpenTrade? ==>
              currentPrice == Some(r.value.exitPrice)
              && (trade.collateral.GetOr(0.0) > 0.0 ==> r.value.pnlPercentage * trade.collateral.GetOr(0.0) == r.value.pnl * 100.0)
              && (trade.leverage.GetOr(0.0) <= 0.0 ==> r.value.liquidation == r.value.entry)
    ensures r.Success? && r.value.OpenTrade? ==>
              && r.value.entry != 0.0
              && r.value.pnl == PnlOpen(r.value.entry, r.value.exitPrice, r.value.size, r.value.isLong)
              && r.value.liquidation == LiquidationEstimate(r.value.entry, trade.leverage.GetOr(0.0), r.value.isLong)
              && r.value.pnlPercentage == PnlPercentage(r.value.pnl, trade.collateral.GetOr(0.0))
    ensures Truthy(trade.fromCurrency) && Truthy(trade.toCurrency) && trade.isOpen != Some(false) && currentPrice.None? ==>
              r == Failure(NoPrice(trade.fromCurrency.value, trade.toCurrency.value))
    ensures Truthy(trade.fromCurrency) && Truthy(trade.toCurrency) && trade.isOpen != Some(false) && currentPrice.Some?
              && trade.openPrice.GetOr(0.0) == 0.0 ==>
              r == Failure("float division by zero")
    ensures Truthy(trade.fromCurrency) && Truthy(trade.toCurrency) ==>
              (r.Success? <==> trade.isOpen == Some(false) || (currentPrice.Some? && trade.openPrice.GetOr(0.0) != 0.0))
    ensures r.Success? ==> r.value.tradeId == Or(trade.tradeId, order.tradeId).GetOr("None")
    ensures r.Success? && r.value.ClosedTrade? ==>
              r.value.fees == Fees(order.fundingFee.GetOr(0.0), order.rolloverFee.GetOr(0.0), order.liquidationFee.GetOr(0.0))
  {
    var tradeId := Or(trade.tradeId, order.tradeId).GetOr("None");
    var entry := trade.openPrice.GetOr(0.0);
    var closePrice := trade.closePrice.GetOr(0.0);
    var collateral := trade.collateral.GetOr(0.0);
    var leverage := trade.leverage.GetOr(0.0);
    var isLong := trade.isBuy.GetOr(false);
    if !Truthy(trade.fromCurrency) || !Truthy(trade.toCurrency) then
      Failure("Missing currency pair information")
    else if !trade.isOpen.GetOr(true) then
      var percentage := FirstNonZero(order.profitPercent, trade.profitPercent);
      var fees := Fees(order.fundingFee.GetOr(0.0), order.rolloverFee.GetOr(0.0), order.liquidationFee.GetOr(0.0));
      Success(ClosedTrade(tradeId, entry, closePrice, PositionSize(collateral, leverage), isLong,
                          PnlClosed(percentage, collateral), percentage, order.amountSentToTrader.GetOr(0.0), fees))
    else if currentPrice.None? then
      Failure(NoPrice(trade.fromCurrency.value, trade.toCurrency.value))
    else if entry == 0.0 then
      Failure("float division by zero")
    else
      var exit := currentPrice.value;
      var size := PositionSize(collateral, leverage);
      var pnl := PnlOpen(entry, exit, size, isLong);
      Success(OpenTrade(tradeId, entry, exit, size, LiquidationEstimate(entry, leverage, isLong), isLong,
                        pnl, PnlPercentage(pnl, collateral)))
  }

  /** Had the venue reported, for a closed trade, the percentage the open-trade
      path computes at the same exit price, both paths would show the same profit. */
  lemma ClosedAgreesWithOpen(order: OrderRecord, trade: TradeRecord, exit: real)
    requires Truthy(trade.fromCurrency) && Truthy(trade.toCurrency)
    requires trade.openPrice.GetOr(0.0) != 0.0 && trade.collateral.GetOr(0.0) > 0.0
    requires trade.isOpen == Some(true) && trade.closePrice == Some(exit) && trade.profitPercent == None
    requires order.profitPercent
             == Some(CloseTradeDatapoints(order, trade, Some(exit)).value.pnlPercentage)
    ensures var live := CloseTradeDatapoints(order, trade, Some(exit)).value;
            var closed := CloseTradeDatapoints(order, trade.(isOpen := Some(false)), None).value;
            closed.pnl == live.pnl && closed.exitPrice == live.exitPrice
  {
    var live := CloseTradeDatapoints(order, trade, Some(exit)).value;
    var c := trade.collateral.GetOr(0.0);
    PercentageRoundTrip(live.pnl, live.pnlPercentage, c);
  }

  /** For numeric values, the close report and the logged summary read a reported 0 differently:
      the report takes the order's `profitPercent` whenever the key is there,
      while the summary's `or` passes over a 0 to the trade's percentage. */
  lemma ReportedZeroDiffers(order: OrderRecord, trade: TradeRecord)
    requires order.profitPercent == Some(0.0)
    requires trade.profitPercent.Some? && trade.profitPercent.value != 0.0
    ensures Tracker.ReportedPnl(order) == 0.0
    ensures FirstNonZero(order.profitPercent, trade.profitPercent) == trade.profitPercent.value
  {
  }
}
