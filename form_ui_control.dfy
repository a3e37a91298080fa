/**
 * FormUIControl: the request form's fields. Each setter writes the store's parameters back
 * with one field replaced; the validators are the client's request validators and a check
 * that the total is a number of at least 1.
 */
module FormUi {
  import opened Numeric
  import opened Types
  import opened Store
  import Api = MetricsApi
  import MetricsControl

  /** `z.number().min(1)`: a number, not NaN, of at least 1. */
  function IsValidTotalAssets(totalAssets: Float): (ok: bool)
    ensures ok <==> totalAssets.Finite? && totalAssets.value >= 1.0
  {
    match totalAssets
    case NaN => false
    case Finite(t) => t >= 1.0
  }

  /** A total the form accepts passes the positive-total part of the request check; totals in
      (0, 1) pass the request check although the form refuses them. */
  lemma FormTotalPassesRequest(params: PortfolioMetricsParams)
    requires Api.IsValidSymbols(params.symbols) && Api.IsValidPeriod(params.period) && Api.IsValidInterval(params.interval)
    ensures IsValidTotalAssets(Finite(params.totalAssets)) ==> MetricsControl.IsValidParams(params)
    ensures 0.0 < params.totalAssets < 1.0 ==>
              MetricsControl.IsValidParams(params) && !IsValidTotalAssets(Finite(params.totalAssets))
  {
  }

  class FormUIControl {
    const store: StoreControl

    constructor(store: StoreControl)
      ensures this.store == store
    {
      this.store := store;
    }

    function GetPeriod(): (period: string)
      reads store
      ensures period == store.Snapshot().params.period
    {
      store.GetParams().period
    }

    /** setPeriod: the parameters are written back with only the period replaced. */
    method SetPeriod(period: string)
      modifies store
      ensures store.Snapshot() == old(store.Snapshot()).(params := old(store.params).(period := period))
      ensures GetPeriod() == period
    {
      store.SetParams(store.GetParams().(period := period));
    }

    function GetInterval(): (interval: string)
      reads store
      ensures interval == store.Snapshot().params.interval
    {
      store.GetParams().interval
    }

    /** setInterval: only the interval is replaced. */
    method SetInterval(interval: string)
      modifies store
      ensures store.Snapshot() == old(store.Snapshot()).(params := old(store.params).(interval := interval))
      ensures GetInterval() == interval
    {
      store.SetParams(store.GetParams().(interval := interval));
    }

    function GetTotalAssets(): (total: real)
      reads store
      ensures total == store.Snapshot().params.totalAssets
    {
      store.GetParams().totalAssets
    }

    /** setTotalAssets: only the total is replaced. */
    method SetTotalAssets(totalAssets: real)
      modifies store
      ensures store.Snapshot() == old(store.Snapshot()).(params := old(store.params).(totalAssets := totalAssets))
      ensures GetTotalAssets() == totalAssets
    {
      store.SetParams(store.GetParams().(totalAssets := totalAssets));
    }
  }
}
