/**
 * AssetsUIControl: the asset picker. It lists the symbols of the known assets, reads and
 * writes the selected symbols in the store's parameters, and hands the picker one selection
 * listener, created on the first request and returned unchanged afterwards.
 */
module AssetsUi {
  import opened Wrappers
  import opened Types
  import opened Store

  /** `assets.map((asset) => asset.symbol)`. */
  function Symbols(assets: seq<Asset>): (symbols: seq<string>)
    ensures |symbols| == |assets|
    ensures forall i :: 0 <= i < |assets| ==> symbols[i] == assets[i].symbol
  {
    if assets == [] then [] else Symbols(assets[..|assets| - 1]) + [assets[|assets| - 1].symbol]
  }

  /** Listing the symbols of two lists one after the other lists the symbols of both. */
  lemma {:induction false} SymbolsAppend(a: seq<Asset>, b: seq<Asset>)
    ensures Symbols(a + b) == Symbols(a) + Symbols(b)
  {
    if b != [] {
      assert (a + b)[..|a + b| - 1] == a + b[..|b| - 1];
      SymbolsAppend(a, b[..|b| - 1]);
    }
  }

  /** The listener the picker calls with the new selection. */
  class SelectionListener {
    const control: AssetsUIControl

    constructor(control: AssetsUIControl)
      ensures this.control == control
    {
      this.control := control;
    }

    /** The selection replaces the store's selected symbols. */
    method Handle(assets: seq<string>)
      modifies control.store
      ensures control.store.Snapshot() == old(control.store.Snapshot()).(params := old(control.store.params).(symbols := assets))
    {
      control.SetSelectedSymbols(assets);
    }
  }

  class AssetsUIControl {
    const store: StoreControl
    /** The memoised listener, once it has been made. */
    var listener: SelectionListener?

    ghost predicate Valid()
      reads this, listener
    {
      listener != null ==> listener.control == this
    }

    constructor(store: StoreControl)
      ensures this.store == store && listener == null && Valid()
    {
      this.store := store;
      listener := null;
    }

    /** getSymbols: `assets` defaults to the store's asset list. */
    function GetSymbols(assets: Option<seq<Asset>>): (symbols: seq<string>)
      reads store
      ensures symbols == Symbols(if assets.Some? then assets.value else store.Snapshot().assets)
    {
      Symbols(if assets.Some? then assets.value else store.GetAssets())
    }

    /** setSelectedSymbols: only the selected symbols are replaced. */
    method SetSelectedSymbols(symbols: seq<string>)
      modifies store
      ensures store.Snapshot() == old(store.Snapshot()).(params := old(store.params).(symbols := symbols))
      ensures GetSelectedSymbols(None) == symbols
    {
      store.SetParams(store.GetParams().(symbols := symbols));
    }

    /** getSelectedSymbols: `params` defaults to the store's parameters. */
    function GetSelectedSymbols(params: Option<PortfolioMetricsParams>): (symbols: seq<string>)
      reads store
      ensures symbols == (if params.Some? then params.value else store.Snapshot().params).symbols
    {
      (if params.Some? then params.value else store.GetParams()).symbols
    }

    /** getMultiSelectEventListener: the first call makes a listener bound to this control;
        every later call returns that same listener. */
    method GetMultiSelectEventListener() returns (l: SelectionListener)
      requires Valid()
      modifies this
      ensures Valid() && listener == l && l.control == this
      ensures old(listener) != null ==> l == old(listener)
      ensures old(listener) == null ==> fresh(l)
    {
      if listener == null {
        listener := new SelectionListener(this);
      }
      l := listener;
    }
  }
}
