/** The aggregation done by the market routes over what the service returns:
    the supported-currency lists, the market overview and the market status.
    The service results are inputs. */
module Market {
  import opened Wrappers
  import opened PyText
  import Service

  /** A trading pair as the subgraph lists it; `None` is an absent key. */
  datatype PairInfo = PairInfo(fromCurrency: Option<string>, toCurrency: Option<string>)

  datatype Currencies = Currencies(fromCurrencies: seq<string>, toCurrencies: seq<string>, allCurrencies: seq<string>)

  datatype Overview<P> = Overview(totalPairs: nat, totalPrices: nat, latestPrices: seq<P>, availablePairs: seq<string>)

  datatype MarketStatus = MarketStatus(
    marketOpen: bool,
    network: string,
    rpcConnected: bool,
    address: string,
    delegationEnabled: bool)

  function Elements(s: seq<string>): set<string> {
    set x | x in s
  }

  /** The truthy `from` symbols of the pairs. */
  function FromSymbols(pairs: seq<PairInfo>): set<string> {
    set p | p in pairs && Truthy(p.fromCurrency) :: p.fromCurrency.value
  }

  /** The truthy `to` symbols of the pairs. */
  function ToSymbols(pairs: seq<PairInfo>): set<string> {
    set p | p in pairs && Truthy(p.toCurrency) :: p.toCurrency.value
  }

  /** `get_supported_currencies`: two sets filled by one pass over the pairs,
      each returned sorted, and their sorted union. */
  method SupportedCurrencies(pairs: seq<PairInfo>) returns (r: Currencies)
    ensures Ascending(r.fromCurrencies) && Elements(r.fromCurrencies) == FromSymbols(pairs)
    ensures Ascending(r.toCurrencies) && Elements(r.toCurrencies) == ToSymbols(pairs)
    ensures Ascending(r.allCurrencies) && Elements(r.allCurrencies) == FromSymbols(pairs) + ToSymbols(pairs)
  {
    var fromCurrencies: set<string> := {};
    var toCurrencies: set<string> := {};
    var i := 0;
    while i < |pairs|
      invariant 0 <= i <= |pairs|
      invariant fromCurrencies == FromSymbols(pairs[..i])
      invariant toCurrencies == ToSymbols(pairs[..i])
    {
      var pair := pairs[i];
      assert pairs[..i + 1] == pairs[..i] + [pair];
      if Truthy(pair.fromCurrency) {
        fromCurrencies := fromCurrencies + {pair.fromCurrency.value};
      }
      if Truthy(pair.toCurrency) {
        toCurrencies := toCurrencies + {pair.toCurrency.value};
      }
      i := i + 1;
    }
    assert pairs[..i] == pairs;
    var sortedFrom := SortedList(fromCurrencies);
    var sortedTo := SortedList(toCurrencies);
    var sortedAll := SortedList(fromCurrencies + toCurrencies);
    r := Currencies(sortedFrom, sortedTo, sortedAll);
  }

  /** `f"{pair.get('from', '')}/{pair.get('to', '')}"`. */
  function Render(p: PairInfo): (r: string)
    ensures var from := p.fromCurrency.GetOr("");
            |r| == |from| + 1 + |p.toCurrency.GetOr("")|
            && r[..|from|] == from && r[|from|] == '/' && r[|from| + 1..] == p.toCurrency.GetOr("")
  {
    p.fromCurrency.GetOr("") + "/" + p.toCurrency.GetOr("")
  }

  function Min(a: nat, b: nat): nat {
    if a < b then a else b
  }

  /** `get_market_overview`: missing lists count as empty; the first ten prices
      and the first twenty pairs, rendered. */
  function MarketOverview<P>(prices: Option<seq<P>>, pairs: Option<seq<PairInfo>>): (r: Overview<P>)
    ensures r.totalPrices == |prices.GetOr([])| && r.totalPairs == |pairs.GetOr([])|
    ensures |r.latestPrices| == Min(10, r.totalPrices)
    ensures r.latestPrices == prices.GetOr([])[..|r.latestPrices|]
    ensures |r.availablePairs| == Min(20, r.totalPairs)
    ensures forall i :: 0 <= i < |r.availablePairs| ==> r.availablePairs[i] == Render(pairs.GetOr([])[i])
  {
    var priceList := prices.GetOr([]);
    var pairList := pairs.GetOr([]);
    var shown := pairList[..Min(20, |pairList|)];
    Overview(
      totalPairs := |pairList|,
      totalPrices := |priceList|,
      latestPrices := priceList[..Min(10, |priceList|)],
      availablePairs := seq(|shown|, i requires 0 <= i < |shown| => Render(shown[i])))
  }

  /** `get_market_status`: both health fields are the health check. */
  function GetMarketStatus(info: Service.NetworkInfo, isHealthy: bool): (r: MarketStatus)
    ensures r.marketOpen == isHealthy && r.rpcConnected == isHealthy
    ensures r.network == info.network && r.address == info.address && r.delegationEnabled == info.delegationEnabled
  {
    MarketStatus(isHealthy, info.network, isHealthy, info.address, info.delegationEnabled)
  }

  /** Over the service's own network info, the status names a real network
      (never "unknown"), shows an address, and reports delegation exactly when a
      delegated trader is configured. */
  lemma StatusOfService(s: Service.OstiumService, isHealthy: bool)
    ensures var r := GetMarketStatus(s.GetNetworkInfo(), isHealthy);
            && (r.network == "testnet" || r.network == "mainnet")
            && r.address != ""
            && (r.delegationEnabled <==> s.traderAddress.Some?)
  {
  }
}
