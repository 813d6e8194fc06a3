/** The trade-lifecycle coordinator, `OstiumService`. Its configuration (RPC
    URL, network, wallet address, delegated trader address, whether an SDK
    was built) is fixed when it is constructed and read by every operation.
    Each operation takes the results of the gateway calls it may make as
    inputs and returns, beside its result, the calls it actually issued. */
module Service {
  import opened Wrappers
  import opened PyText
  import opened Errors
  import opened Gateway
  import opened Encoder
  import opened Resolver
  import opened Tracker

  datatype PlaceOrderRequest = PlaceOrderRequest(
    fromCurrency: string,
    toCurrency: string,
    collateral: real,
    leverage: int,
    assetType: int,
    isLong: bool,
    orderType: OrderType,
    takeProfit: Option<real>,
    stopLoss: Option<real>,
    traderAddress: Option<string>,
    limitPrice: Option<real>)

  datatype Placed = Placed(txHash: string, orderId: string, price: real, pair: string)

  datatype CollateralAdded = CollateralAdded(txHash: string, pairId: string, collateral: real)

  datatype CollateralRemoved = CollateralRemoved(txHash: string, tradeId: string, amountRemoved: real)

  datatype NetworkInfo = NetworkInfo(
    network: string,
    rpcUrl: string,
    address: string,
    delegationEnabled: bool,
    traderAddress: Option<string>,
    walletInitialized: bool)

  /** The checks `place_order` makes before anything else, in the source's order. */
  function ValidatePlaceOrder(req: PlaceOrderRequest): (r: Option<ServiceError>)
    ensures r == Some(CurrencyPairRequired) <==> req.fromCurrency == "" || req.toCurrency == ""
    ensures r == Some(CollateralNotPositive) <==>
              req.fromCurrency != "" && req.toCurrency != "" && req.collateral <= 0.0
    ensures r == Some(LeverageNotPositive) <==>
              req.fromCurrency != "" && req.toCurrency != "" && req.collateral > 0.0 && req.leverage <= 0
    ensures r.None? <==> req.fromCurrency != "" && req.toCurrency != "" && req.collateral > 0.0 && req.leverage > 0
  {
    if req.fromCurrency == "" || req.toCurrency == "" then Some(CurrencyPairRequired)
    else if req.collateral <= 0.0 then Some(CollateralNotPositive)
    else if req.leverage <= 0 then Some(LeverageNotPositive)
    else None
  }

  /** The checks `add_collateral` and `remove_collateral` make first: an id, then
      a positive amount. */
  function ValidateAdjustment(id: string, amount: real): (r: Option<ServiceError>)
    ensures r == Some(TradeIdRequired) <==> id == ""
    ensures r == Some(AmountNotPositive) <==> id != "" && amount <= 0.0
    ensures r.None? <==> id != "" && amount > 0.0
  {
    if id == "" then Some(TradeIdRequired)
    else if amount <= 0.0 then Some(AmountNotPositive)
    else None
  }

  /** The price an order is submitted at: the limit price for a limit order that
      has a truthy one, the market price otherwise. */
  function ExecutionPrice(orderType: OrderType, limitPrice: Option<real>, market: real): (r: real)
    ensures orderType == Market || limitPrice.None? || limitPrice == Some(0.0) ==> r == market
    ensures orderType == Limit && limitPrice.Some? && limitPrice.value != 0.0 ==> r == limitPrice.value
  {
    if orderType == Limit && limitPrice.Some? && limitPrice.value != 0.0 then limitPrice.value else market
  }

  /** The encoding step of `close_trade`: `int(...)` of the pair id and of the
      trade index (absent: no conversion), then the clamps; a text that is not
      an integer is the `ValueError` it raises, the pair id's first. */
  function EncodeClose(pairText: string, indexText: Option<string>, percentage: Option<int>): (r: Result<Call, ServiceError>)
    ensures r.Success? <==> ParseInt(pairText).Some? && (indexText.Some? ==> ParseInt(indexText.value).Some?)
    ensures ParseInt(pairText).None? ==> r == Failure(NotAnInteger(pairText))
    ensures r.Success? ==> r.value.CloseTrade? && r.value.pairU16 <= U16_MAX && r.value.indexU8 <= U8_MAX
                           && r.value.percentageU16 <= U16_MAX
    ensures r.Success? ==> r.value.percentageU16 == EncodePercentage(percentage)
    ensures r.Success? ==> r.value.pairU16 == Clamp(ParseInt(pairText).value, U16_MAX)
    ensures r.Success? ==> r.value.indexU8 == (if indexText.Some? then Clamp(ParseInt(indexText.value).value, U8_MAX) else 0)
    ensures ParseInt(pairText).Some? && indexText.Some? && ParseInt(indexText.value).None? ==>
              r == Failure(NotAnInteger(indexText.value))
  {
    var pairNumber := ParseInt(pairText);
    if pairNumber.None? then Failure(NotAnInteger(pairText))
    else if indexText.Some? && ParseInt(indexText.value).None? then Failure(NotAnInteger(indexText.value))
    else
      var indexNumber := if indexText.Some? then ParseInt(indexText.value) else None;
      Success(CloseTrade(EncodePairId(pairNumber), EncodeTradeIndex(indexNumber), EncodePercentage(percentage)))
  }

  /** Ids that are the text of integers (as the subgraph's are) reach the venue
      clamped, never rejected; an absent index becomes 0. */
  lemma EncodeRenderedIds(pairId: int, index: Option<int>, percentage: Option<int>)
    ensures var indexText := if index.Some? then Some(ShowInt(index.value)) else None;
            EncodeClose(ShowInt(pairId), indexText, percentage)
            == Success(CloseTrade(Clamp(pairId, U16_MAX), Clamp(index.GetOr(0), U8_MAX), EncodePercentage(percentage)))
  {
    ParseShowInt(pairId);
    if index.Some? {
      ParseShowInt(index.value);
    }
  }

  class OstiumService {
    const rpcUrl: string
    const isTestnet: bool
    const address: Option<string>        // the wallet's own address, when a private key was given
    const traderAddress: Option<string>  // TRADER_ADDRESS, the configured delegated trader
    const hasSdk: bool

    constructor (rpcUrl: string, isTestnet: bool, address: Option<string>, traderAddress: Option<string>, hasSdk: bool)
      ensures this.rpcUrl == rpcUrl && this.isTestnet == isTestnet && this.address == address
      ensures this.traderAddress == traderAddress && this.hasSdk == hasSdk
    {
      this.rpcUrl := rpcUrl;
      this.isTestnet := isTestnet;
      this.address := address;
      this.traderAddress := traderAddress;
      this.hasSdk := hasSdk;
    }

    /** `OstiumService(private_key)`: the RPC URL must be configured; with a
        private key the wallet address is derived (`account`), the delegated
        trader address is read (`envTraderAddress`) and the SDK is built
        (`sdkError`: the exception that building raised, if any). */
    static method Create(rpcUrl: Option<string>, isTestnet: bool, privateKey: Option<string>,
                         account: Result<string, string>, envTraderAddress: Option<string>, sdkError: Option<string>)
      returns (r: Result<OstiumService, string>)
      ensures !Truthy(rpcUrl) ==> r == Failure("Missing RPC_URL environment variable")
      ensures Truthy(rpcUrl) && !Truthy(privateKey) ==>
                r.Success? && fresh(r.value) && r.value.address.None? && r.value.traderAddress.None? && !r.value.hasSdk
      ensures Truthy(rpcUrl) && Truthy(privateKey) && account.Failure? ==> r == Failure(account.error)
      ensures Truthy(rpcUrl) && Truthy(privateKey) && account.Success? && sdkError.Some? ==> r == Failure(sdkError.value)
      ensures Truthy(rpcUrl) && Truthy(privateKey) && account.Success? && sdkError.None? ==>
                r.Success? && fresh(r.value) && r.value.address == Some(account.value)
                && r.value.traderAddress == envTraderAddress && r.value.hasSdk
      ensures r.Success? ==> r.value.rpcUrl == rpcUrl.value && r.value.isTestnet == isTestnet
    {
      if !Truthy(rpcUrl) {
        return Failure("Missing RPC_URL environment variable");
      }
      if !Truthy(privateKey) {
        var s := new OstiumService(rpcUrl.value, isTestnet, None, None, false);
        return Success(s);
      }
      if account.Failure? {
        return Failure(account.error);
      }
      if sdkError.Some? {
        return Failure(sdkError.value);
      }
      var s := new OstiumService(rpcUrl.value, isTestnet, Some(account.value), envTraderAddress, true);
      r := Success(s);
    }

    /** The "trader" of a new order: the argument, else the configured delegated
        trader; absent when neither is set. */
    function DelegatedTrader(argument: Option<string>): (r: Option<string>)
      ensures r.Some? <==> Truthy(argument) || Truthy(traderAddress)
      ensures Truthy(argument) ==> r == argument
      ensures !Truthy(argument) && Truthy(traderAddress) ==> r == traderAddress
    {
      if Truthy(argument) || Truthy(traderAddress) then Or(argument, traderAddress) else None
    }

    /** The address a stop-loss or take-profit update acts for: the argument,
        else the configured trader, else the wallet's own address. */
    function ActingAddress(argument: Option<string>): (r: Option<string>)
      ensures Truthy(argument) ==> r == argument
      ensures !Truthy(argument) && Truthy(traderAddress) ==> r == traderAddress
      ensures !Truthy(argument) && !Truthy(traderAddress) ==> r == address
    {
      Or(Or(argument, traderAddress), address)
    }

    /** The trade parameters `place_order` submits: the request's own values,
        0 for an absent take-profit or stop-loss, and the delegated trader. */
    function ParamsOf(req: PlaceOrderRequest): (r: TradeParams)
      ensures r.collateral == req.collateral && r.leverage == req.leverage && r.assetType == req.assetType
      ensures r.isLong == req.isLong && r.orderType == req.orderType
      ensures r.takeProfit == (if req.takeProfit.Some? then req.takeProfit.value else 0.0)
      ensures r.stopLoss == (if req.stopLoss.Some? then req.stopLoss.value else 0.0)
      ensures r.trader == DelegatedTrader(req.traderAddress)
    {
      TradeParams(req.collateral, req.leverage, req.assetType, req.isLong, req.orderType,
                  req.takeProfit.GetOr(0.0), req.stopLoss.GetOr(0.0), DelegatedTrader(req.traderAddress))
    }

    /** `place_order`: validate, read the market price, submit at the execution
        price. */
    method PlaceOrder(req: PlaceOrderRequest, price: Result<real, string>, trade: Result<Submission, string>)
      returns (r: Result<Placed, ServiceError>, calls: seq<Call>)
      ensures ValidatePlaceOrder(req).Some? ==> r == Failure(ValidatePlaceOrder(req).value) && calls == []
      ensures ValidatePlaceOrder(req).None? && !hasSdk ==> r == Failure(SdkMissing("price")) && calls == []
      ensures ValidatePlaceOrder(req).None? && hasSdk ==> |calls| >= 1 && calls[0] == GetPrice(req.fromCurrency, req.toCurrency)
      ensures ValidatePlaceOrder(req).None? && hasSdk && price.Failure? ==> r == Failure(Raised(price.error)) && |calls| == 1
      ensures ValidatePlaceOrder(req).None? && hasSdk && price.Success? ==>
                |calls| == 2 && calls[1] == PerformTrade(ParamsOf(req), ExecutionPrice(req.orderType, req.limitPrice, price.value))
      ensures ValidatePlaceOrder(req).None? && hasSdk && price.Success? && trade.Failure? ==> r == Failure(Raised(trade.error))
      ensures r.Success? <==> ValidatePlaceOrder(req).None? && hasSdk && price.Success? && trade.Success?
      ensures r.Success? ==> r.value == Placed(trade.value.txHash, trade.value.orderId, price.value,
                                               req.fromCurrency + "/" + req.toCurrency)
    {
      var invalid := ValidatePlaceOrder(req);
      if invalid.Some? {
        return Failure(invalid.value), [];
      }
      var params := ParamsOf(req);
      if !hasSdk {
        return Failure(SdkMissing("price")), [];
      }
      calls := [GetPrice(req.fromCurrency, req.toCurrency)];
      if price.Failure? {
        return Failure(Raised(price.error)), calls;
      }
      var latestPrice := price.value;
      var executionPrice := ExecutionPrice(req.orderType, req.limitPrice, latestPrice);
      calls := calls + [PerformTrade(params, executionPrice)];
      if trade.Failure? {
        return Failure(Raised(trade.error)), calls;
      }
      r := Success(Placed(trade.value.txHash, trade.value.orderId, latestPrice, req.fromCurrency + "/" + req.toCurrency));
    }

    /** What `get_open_positions()` hands `close_trade`: the trader's open trades,
        or nothing when the SDK is missing or the query raised. */
    function LivePositions(positions: Result<seq<PositionRecord>, string>): (r: seq<PositionRecord>)
      ensures !hasSdk || positions.Failure? ==> r == []
      ensures hasSdk && positions.Success? ==> r == positions.value
    {
      if hasSdk && positions.Success? then positions.value else []
    }

    /** The calls `close_trade` makes before the scan. */
    function FetchCalls(): (r: seq<Call>)
      ensures |r| <= 1 && (r != [] <==> hasSdk)
      ensures forall c :: c in r ==> c == GetOpenTrades(address)
    {
      if hasSdk then [GetOpenTrades(address)] else []
    }

    /** `close_trade`: check the id, find the live position it names, encode and
        submit the close, classify what tracking yields. */
    method CloseTrade(pairId: string, tradeIndex: Option<string>, closePercentage: Option<int>,
                      positions: Result<seq<PositionRecord>, string>,
                      submission: Result<Submission, string>,
                      tracking: Result<Tracking, string>)
      returns (r: CloseResult, calls: seq<Call>)
      ensures pairId == "" ==> r == CloseFailed(TradeIdRequired) && calls == []
      ensures pairId != "" && Resolve(LivePositions(positions), pairId, tradeIndex) == NotFound ==>
                r == CloseFailed(PositionNotFound(pairId)) && calls == FetchCalls()
      ensures pairId != "" && Resolve(LivePositions(positions), pairId, tradeIndex) != NotFound ==>
                var resolution := Resolve(LivePositions(positions), pairId, tradeIndex);
                var submittedPair := if resolution.Found? then resolution.pairId else pairId;
                var submittedIndex := if resolution.Found? then resolution.tradeIndex else tradeIndex;
                var encoded := EncodeClose(submittedPair, submittedIndex, closePercentage);
                && hasSdk
                && (encoded.Failure? ==> r == CloseFailed(encoded.error) && calls == FetchCalls())
                && (encoded.Success? ==> |calls| >= 2 && calls[..2] == FetchCalls() + [encoded.value])
                && (encoded.Success? && submission.Failure? ==> r == CloseFailed(Raised(submission.error)) && |calls| == 2)
                && (encoded.Success? && submission.Success? ==>
                      r == Classify(submission.value, tracking, submittedPair)
                      && calls[2..] == (if submission.value.orderId != "" then [TrackOrder(submission.value.orderId)] else []))
      ensures pairId != "" && (forall j :: 0 <= j < |LivePositions(positions)| ==> Skipped(LivePositions(positions)[j], pairId)) ==>
                r == CloseFailed(PositionNotFound(pairId)) && forall c :: c in calls ==> !c.CloseTrade?
    {
      if pairId == "" {
        return CloseFailed(TradeIdRequired), [];
      }
      NotFoundIffNoMatch(LivePositions(positions), pairId, tradeIndex);
      calls := FetchCalls();
      var live := LivePositions(positions);
      var submittedPair := pairId;
      var submittedIndex := tradeIndex;
      var scan := ScanPositions(live, pairId, tradeIndex);
      match scan {
        case NotFound =>
          return CloseFailed(PositionNotFound(pairId)), calls;
        case Found(actualPairId, actualTradeIndex) =>
          submittedPair := actualPairId;
          submittedIndex := actualTradeIndex;
        case ScanRaised =>
          // "Could not validate position existence": the caller's ids are used
      }
      var encoded := EncodeClose(submittedPair, submittedIndex, closePercentage);
      if encoded.Failure? {
        return CloseFailed(encoded.error), calls;
      }
      calls := calls + [encoded.value];
      if submission.Failure? {
        return CloseFailed(Raised(submission.error)), calls;
      }
      if submission.value.orderId != "" {
        calls := calls + [TrackOrder(submission.value.orderId)];
      }
      r := Classify(submission.value, tracking, submittedPair);
    }

    /** `add_collateral`: the caller's trader address is passed on as given. */
    method AddCollateral(pairId: string, index: string, collateral: real, traderAddress: Option<string>,
                         txHash: Result<string, string>)
      returns (r: Result<CollateralAdded, ServiceError>, calls: seq<Call>)
      ensures ValidateAdjustment(pairId, collateral).Some? ==> r == Failure(ValidateAdjustment(pairId, collateral).value) && calls == []
      ensures ValidateAdjustment(pairId, collateral).None? && !hasSdk ==> r == Failure(SdkMissing("ostium")) && calls == []
      ensures ValidateAdjustment(pairId, collateral).None? && hasSdk ==>
                calls == [Call.AddCollateral(pairId, index, collateral, traderAddress)]
                && r == (if txHash.Success? then Success(CollateralAdded(txHash.value, pairId, collateral))
                         else Failure(Raised(txHash.error)))
    {
      var invalid := ValidateAdjustment(pairId, collateral);
      if invalid.Some? {
        return Failure(invalid.value), [];
      }
      if !hasSdk {
        return Failure(SdkMissing("ostium")), [];
      }
      calls := [Call.AddCollateral(pairId, index, collateral, traderAddress)];
      if txHash.Failure? {
        return Failure(Raised(txHash.error)), calls;
      }
      r := Success(CollateralAdded(txHash.value, pairId, collateral));
    }

    /** `remove_collateral`: no trader address is passed on. */
    method RemoveCollateral(pairId: string, tradeIndex: string, amount: real, txHash: Result<string, string>)
      returns (r: Result<CollateralRemoved, ServiceError>, calls: seq<Call>)
      ensures ValidateAdjustment(pairId, amount).Some? ==> r == Failure(ValidateAdjustment(pairId, amount).value) && calls == []
      ensures ValidateAdjustment(pairId, amount).None? && !hasSdk ==> r == Failure(SdkMissing("ostium")) && calls == []
      ensures ValidateAdjustment(pairId, amount).None? && hasSdk ==>
                calls == [Call.RemoveCollateral(pairId, tradeIndex, amount)]
                && r == (if txHash.Success? then Success(CollateralRemoved(txHash.value, pairId, amount))
                         else Failure(Raised(txHash.error)))
    {
      var invalid := ValidateAdjustment(pairId, amount);
      if invalid.Some? {
        return Failure(invalid.value), [];
      }
      if !hasSdk {
        return Failure(SdkMissing("ostium")), [];
      }
      calls := [Call.RemoveCollateral(pairId, tradeIndex, amount)];
      if txHash.Failure? {
        return Failure(Raised(txHash.error)), calls;
      }
      r := Success(CollateralRemoved(txHash.value, pairId, amount));
    }

    /** `update_stop_loss`: any exception, a missing SDK included, reads as `False`. */
    method UpdateStopLoss(pairId: string, index: string, price: real, traderAddress: Option<string>,
                          updated: Result<bool, string>)
      returns (ok: bool, calls: seq<Call>)
      ensures ok <==> hasSdk && updated == Success(true)
      ensures calls == if hasSdk then [Call.UpdateStopLoss(pairId, index, price, ActingAddress(traderAddress))] else []
    {
      var acting := ActingAddress(traderAddress);
      if !hasSdk {
        return false, [];
      }
      calls := [Call.UpdateStopLoss(pairId, index, price, acting)];
      ok := updated.Success? && updated.value;
    }

    /** `update_take_profit`: as `update_stop_loss`, for the take-profit price. */
    method UpdateTakeProfit(pairId: string, tradeIndex: string, price: real, traderAddress: Option<string>,
                            updated: Result<bool, string>)
      returns (ok: bool, calls: seq<Call>)
      ensures ok <==> hasSdk && updated == Success(true)
      ensures calls == if hasSdk then [Call.UpdateTakeProfit(pairId, tradeIndex, price, ActingAddress(traderAddress))] else []
    {
      var acting := ActingAddress(traderAddress);
      if !hasSdk {
        return false, [];
      }
      calls := [Call.UpdateTakeProfit(pairId, tradeIndex, price, acting)];
      ok := updated.Success? && updated.value;
    }

    /** `get_recent_history`: a non-positive limit becomes 10; any failure yields
        an empty history. */
    method GetRecentHistory<H>(address: Option<string>, limit: int, history: Result<seq<H>, string>)
      returns (r: seq<H>, calls: seq<Call>)
      ensures calls == if hasSdk then [Call.GetRecentHistory(Or(address, this.address), if limit > 0 then limit else 10)] else []
      ensures r == if hasSdk && history.Success? then history.value else []
    {
      var target := Or(address, this.address);
      var effectiveLimit := limit;
      if effectiveLimit <= 0 {
        effectiveLimit := 10;
      }
      if !hasSdk {
        return [], [];
      }
      calls := [Call.GetRecentHistory(target, effectiveLimit)];
      r := if history.Success? then history.value else [];
    }

    /** `get_network_info`. */
    function GetNetworkInfo(): (r: NetworkInfo)
      ensures r.network == (if isTestnet then "testnet" else "mainnet")
      ensures r.address == (if Truthy(address) then address.value else "Not initialized")
      ensures r.rpcUrl == rpcUrl && r.traderAddress == traderAddress
      ensures r.delegationEnabled <==> traderAddress.Some?
      ensures r.walletInitialized <==> address.Some?
      ensures r.address != ""
    {
      NetworkInfo(
        network := if isTestnet then "testnet" else "mainnet",
        rpcUrl := rpcUrl,
        address := if Truthy(address) then address.value else "Not initialized",
        delegationEnabled := traderAddress.Some?,
        traderAddress := traderAddress,
        walletInitialized := address.Some?)
    }
  }
}
