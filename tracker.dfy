/** The close-outcome classifier of `close_trade`: what the caller is told once
    the close has been submitted, from the order id the submission returned and
    what tracking the order yielded. */
module Tracker {
  import opened Wrappers
  import opened Errors
  import opened Gateway

  datatype OrderStatus = Pending | Processed

  /** The `success_result` dict built from a tracked order. */
  datatype CloseReport = CloseReport(
    success: bool,
    txHash: string,
    orderId: string,
    tradeId: string,
    pnl: real,
    status: OrderStatus,
    cancelled: bool,
    cancelReason: Option<string>,
    error: Option<string>)

  /** The three shapes `close_trade` returns. */
  datatype CloseResult =
    | CloseFailed(failure: ServiceError)
    | CloseReported(report: CloseReport)
    | CloseUntracked(txHash: string, orderId: string, tradeId: string)  // "Order submitted successfully, but tracking failed"

  /** The `success` field of the returned dict. */
  predicate Succeeded(r: CloseResult) {
    match r
    case CloseFailed(_) => false
    case CloseReported(report) => report.success
    case CloseUntracked(_, _, _) => true
  }

  /** `pnl`: the order's `profitPercent` if the key is there, else its
      `amountSentToTrader`, else 0. */
  function ReportedPnl(order: OrderRecord): (r: real)
    ensures order.profitPercent.Some? ==> r == order.profitPercent.value
    ensures order.profitPercent.None? && order.amountSentToTrader.Some? ==> r == order.amountSentToTrader.value
    ensures order.profitPercent.None? && order.amountSentToTrader.None? ==> r == 0.0
  {
    if order.profitPercent.Some? then order.profitPercent.value
    else if order.amountSentToTrader.Some? then order.amountSentToTrader.value
    else 0.0
  }

  /** The report of a tracked order whose trade id is known. */
  function Report(sub: Submission, order: OrderRecord, tradeId: string): (r: CloseReport)
    ensures r.status == Processed <==> order.isPending == Some(false)
    ensures r.cancelled == order.isCancelled.GetOr(false)
    ensures r.success <==> !r.cancelled
    ensures r.cancelled ==> r.cancelReason == Some(order.cancelReason.GetOr("Unknown"))
    ensures r.cancelled ==> r.error == Some("Order cancelled: " + order.cancelReason.GetOr("Unknown"))
    ensures !r.cancelled ==> r.cancelReason == None && r.error == None
    ensures r.txHash == sub.txHash && r.orderId == sub.orderId && r.tradeId == tradeId
    ensures r.pnl == ReportedPnl(order)
  {
    var cancelled := order.isCancelled.GetOr(false);
    var reason := order.cancelReason.GetOr("Unknown");
    CloseReport(
      success := !cancelled,
      txHash := sub.txHash,
      orderId := sub.orderId,
      tradeId := tradeId,
      pnl := ReportedPnl(order),
      status := if !order.isPending.GetOr(true) then Processed else Pending,
      cancelled := cancelled,
      cancelReason := if cancelled then Some(reason) else None,
      error := if cancelled then Some("Order cancelled: " + reason) else None)
  }

  /** The outcome of a submitted close. `pairId` is the id the close was
      submitted under; `tracking` is only consulted when there is an order id. */
  function Classify(sub: Submission, tracking: Result<Tracking, string>, pairId: string): (r: CloseResult)
    ensures sub.orderId == "" ==> r == CloseFailed(OrderIdMissing)
    ensures sub.orderId != "" && tracking.Failure? ==> r == CloseFailed(Raised(tracking.error))
    ensures sub.orderId != "" && tracking == Success(NoOrder) ==> r == CloseUntracked(sub.txHash, sub.orderId, pairId)
    ensures sub.orderId != "" && tracking.Success? && tracking.value.Tracked? ==>
              if tracking.value.order.tradeId.None? then r == CloseFailed(MissingKey("tradeID"))
              else r == CloseReported(Report(sub, tracking.value.order, tracking.value.order.tradeId.value))
  {
    if sub.orderId == "" then CloseFailed(OrderIdMissing)
    else match tracking
      case Failure(message) => CloseFailed(Raised(message))
      case Success(NoOrder) => CloseUntracked(sub.txHash, sub.orderId, pairId)
      case Success(Tracked(order, _)) =>
        if order.tradeId.None? then CloseFailed(MissingKey("tradeID"))
        else CloseReported(Report(sub, order, order.tradeId.value))
  }

  /** A submitted close succeeds exactly when it has an order id, tracking did not
      raise, and the tracked order (if any) names its trade and was not cancelled. */
  lemma SucceededIff(sub: Submission, tracking: Result<Tracking, string>, pairId: string)
    ensures Succeeded(Classify(sub, tracking, pairId)) <==>
            && sub.orderId != ""
            && tracking.Success?
            && (tracking.value.Tracked? ==>
                  tracking.value.order.tradeId.Some? && !tracking.value.order.isCancelled.GetOr(false))
  {
  }

  /** A cancellation by the venue turns a submitted close into a failure that
      carries the venue's reason, or "Unknown". */
  lemma CancelledIsFailure(sub: Submission, order: OrderRecord, trade: TradeRecord, pairId: string)
    requires sub.orderId != "" && order.tradeId.Some? && order.isCancelled == Some(true)
    ensures var r := Classify(sub, Success(Tracked(order, trade)), pairId);
            && r.CloseReported?
            && !Succeeded(r)
            && r.report.cancelReason == Some(order.cancelReason.GetOr("Unknown"))
            && r.report.error == Some("Order cancelled: " + order.cancelReason.GetOr("Unknown"))
  {
  }

  /** Without a usable tracking result the close still counts as done, and the
      trade id reported is the pair id it was submitted under. */
  lemma UntrackedReportsPairId(sub: Submission, pairId: string)
    requires sub.orderId != ""
    ensures Classify(sub, Success(NoOrder), pairId) == CloseUntracked(sub.txHash, sub.orderId, pairId)
  {
  }

  /** A venue cancellation with reason "slippage" is reported as a failure carrying it. */
  lemma SlippageExample(sub: Submission, trade: TradeRecord)
    requires sub.orderId != ""
    ensures var order := OrderRecord(Some("7"), Some(false), Some(true), Some("slippage"), None, None, None, None, None);
            var r := Classify(sub, Success(Tracked(order, trade)), "3");
            && !Succeeded(r)
            && r.report.cancelReason == Some("slippage")
            && r.report.status == Processed
  {
  }
}
