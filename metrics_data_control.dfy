/**
 * MetricsDataControl: the client's gate in front of the metrics request. A request goes out
 * only for parameters the client accepts; it sets the loading flag and is pushed onto the
 * request stream. The stream is modelled as the list of requests emitted so far.
 */
module MetricsControl {
  import opened Wrappers
  import opened Numeric
  import opened Types
  import opened Store
  import Api = MetricsApi
  import Allocator = AssetAllocator

  /** The client's parameter check: the server's symbol, period and interval rules and a
      positive total. Unlike the server, it does not ask for a whole number. */
  predicate IsValidParams(params: PortfolioMetricsParams) {
    Api.IsValidSymbols(params.symbols) && Api.IsValidPeriod(params.period) &&
    Api.IsValidInterval(params.interval) && params.totalAssets > 0.0
  }

  /** The client and the server agree on everything but the total: a positive fractional total
      passes the client and fails the server, a whole total of zero or less passes the server
      and fails the client, and a positive whole total passes both. */
  lemma ClientServerGap(symbols: seq<string>, period: string, interval: string, t: int)
    requires Api.IsValidSymbols(symbols) && Api.IsValidPeriod(period) && Api.IsValidInterval(interval)
    ensures t >= 0 ==> IsValidParams(PortfolioMetricsParams(symbols, period, interval, t as real + 0.5)) &&
                       !Allocator.IsValidParams(PortfolioMetricsParams(symbols, period, interval, t as real + 0.5))
    ensures t <= 0 ==> !IsValidParams(PortfolioMetricsParams(symbols, period, interval, t as real)) &&
                       Allocator.IsValidParams(PortfolioMetricsParams(symbols, period, interval, t as real))
    ensures t > 0 ==> IsValidParams(PortfolioMetricsParams(symbols, period, interval, t as real)) &&
                      Allocator.IsValidParams(PortfolioMetricsParams(symbols, period, interval, t as real))
  {
    Api.SameAsServer(symbols, period, interval);
    Allocator.ValidParamsTotal(symbols, period, interval, t);
  }

  class MetricsDataControl {
    const store: StoreControl
    /** The requests pushed onto the trigger, oldest first. */
    var requests: seq<PortfolioMetricsParams>

    constructor(store: StoreControl)
      ensures this.store == store && requests == []
    {
      this.store := store;
      requests := [];
    }

    /** invoke: `params` defaults to the store's parameters. Invalid parameters change nothing;
        valid ones set the loading flag and emit exactly one request carrying them. */
    method Invoke(params: Option<PortfolioMetricsParams>)
      modifies this, store
      ensures var p := if params.Some? then params.value else old(store.params);
              if IsValidParams(p) then
                store.Snapshot() == old(store.Snapshot()).(loading := true) && requests == old(requests) + [p]
              else
                store.Snapshot() == old(store.Snapshot()) && requests == old(requests)
    {
      var p := if params.Some? then params.value else store.GetParams();
      if !IsValidParams(p) {
        return;
      }
      store.SetLoading(true);
      requests := requests + [p];
    }
  }
}
