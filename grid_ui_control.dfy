/**
 * MetricsGridUIControl: the rows of the allocation table, one per weighted asset, each with
 * the asset's weight and the amount allotted to it.
 */
module GridUi {
  import opened Wrappers
  import opened Records
  import opened Store

  /** A table row. The amount is looked up by key and is undefined when the amounts lack it. */
  datatype MetricsRow = MetricsRow(asset: string, weight: real, amount: Option<real>)

  /** toMetricsRows: one row per key of the weights, in key order. */
  function ToMetricsRows(metrics: Metrics): (rows: seq<MetricsRow>)
    ensures |rows| == |Keys(metrics.weights)|
    ensures forall i :: 0 <= i < |rows| ==>
              rows[i].asset == Keys(metrics.weights)[i] && rows[i].weight == metrics.weights[i].1 &&
              rows[i].amount == Get(metrics.amounts, rows[i].asset)
  {
    seq(|metrics.weights|, i requires 0 <= i < |metrics.weights| =>
      MetricsRow(metrics.weights[i].0, metrics.weights[i].1, Get(metrics.amounts, metrics.weights[i].0)))
  }

  /** In a record without repeated keys the entry at a position is the one its key looks up. */
  lemma {:induction false} GetAtIndex<V>(r: Record<V>, i: nat)
    requires DistinctKeys(r) && i < |r|
    ensures Get(r, r[i].0) == Some(r[i].1)
  {
    if i > 0 {
      assert r[0].0 != r[i].0;
      assert DistinctKeys(r[1..]) by {
        forall a, b | 0 <= a < b < |r[1..]| ensures r[1..][a].0 != r[1..][b].0 {
          assert r[1..][a] == r[a + 1] && r[1..][b] == r[b + 1];
        }
      }
      GetAtIndex(r[1..], i - 1);
    }
  }

  /** Each row's weight is the weight its asset looks up, and an asset absent from the amounts
      gets an undefined amount rather than a missing row. */
  lemma RowsLookUp(metrics: Metrics, i: nat)
    requires DistinctKeys(metrics.weights) && i < |metrics.weights|
    ensures var row := ToMetricsRows(metrics)[i];
            Get(metrics.weights, row.asset) == Some(row.weight) &&
            (row.asset !in Keys(metrics.amounts) ==> row.amount.None?)
  {
    GetAtIndex(metrics.weights, i);
    GetDefined(metrics.amounts, metrics.weights[i].0);
  }

  /** The default metrics show an empty table. */
  lemma DefaultRowsEmpty()
    ensures ToMetricsRows(DefaultMetrics) == []
  {
  }

  class MetricsGridUIControl {
    const store: StoreControl

    constructor(store: StoreControl)
      ensures this.store == store
    {
      this.store := store;
    }

    /** rows: `metrics` defaults to the store's metrics. */
    function Rows(metrics: Option<Metrics>): (rows: seq<MetricsRow>)
      reads store
      ensures rows == ToMetricsRows(if metrics.Some? then metrics.value else store.Snapshot().metrics)
    {
      ToMetricsRows(if metrics.Some? then metrics.value else store.GetMetrics())
    }
  }
}
