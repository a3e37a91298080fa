/**
 * The cached data controls: each one answers a request from the store when the store already
 * holds the answer and forwards it to the underlying data control otherwise; `cleanData`
 * clears the cached answer so that the next request is forwarded again. A forwarded request
 * is modelled by appending it to the control's list of forwarded requests.
 */
module CachedControls {
  import opened Wrappers
  import opened Store

  /** lodash `isEmpty` on the digest getter's result: undefined and `""` are both empty. */
  predicate DigestMissing(table: Table, symbol: string) {
    var c := SurpapiContent(table, symbol);
    c.None? || c.value == ""
  }

  /** A digest is missing exactly when the symbol has no entry, or its entry has no digest or
      an empty one. */
  lemma DigestMissingIff(table: Table, symbol: string)
    ensures DigestMissing(table, symbol) <==>
            symbol !in table || table[symbol].serpapi.None? || table[symbol].serpapi == Some("")
  {
  }

  /** After the digest of a symbol is cleaned, a request for that symbol is forwarded; a request
      for another symbol is forwarded exactly as before. */
  lemma CleanedDigestForwards(table: Table, symbol: string, other: string)
    ensures DigestMissing(WithSerpapi(table, symbol, ""), symbol)
    ensures other != symbol ==> (DigestMissing(WithSerpapi(table, symbol, ""), other) <==> DigestMissing(table, other))
  {
  }

  /** After cleaning every selected digest, a request for any selected symbol is forwarded. */
  lemma CleanedAllDigestsForward(table: Table, symbols: seq<string>, k: string)
    requires k in symbols
    ensures DigestMissing(ResetSerpapiAll(table, symbols), k)
  {
    ResetSerpapiAllSpec(table, symbols, k);
  }

  /** `isUndefined` on the opinions getter's result. */
  predicate OpinionsMissing(table: Table, symbol: string) {
    Opinions(table, symbol).None?
  }

  /** After the opinions of a symbol are cleaned, a request for it is forwarded, whether or not
      it had an entry; requests for other symbols are forwarded exactly as before. */
  lemma CleanedOpinionsForward(table: Table, symbol: string, other: string)
    ensures OpinionsMissing(WithoutOpinions(table, symbol), symbol)
    ensures other != symbol ==> (OpinionsMissing(WithoutOpinions(table, symbol), other) <==> OpinionsMissing(table, other))
  {
  }

  /** After cleaning every selected symbol's opinions, a request for any of them is forwarded. */
  lemma CleanedAllOpinionsForward(table: Table, symbols: seq<string>, k: string)
    requires k in symbols
    ensures OpinionsMissing(OmitOpinionsAll(table, symbols), k)
  {
    OmitOpinionsAllSpec(table, symbols, k);
  }

  class CachedPapiSurDataControl {
    const store: StoreControl
    var forwarded: seq<Asset>

    constructor(store: StoreControl)
      ensures this.store == store && forwarded == []
    {
      this.store := store;
      forwarded := [];
    }

    /** invoke: forwards exactly when the stored digest is empty; the store is only read. */
    method Invoke(asset: Asset)
      modifies this
      ensures DigestMissing(store.analyzed, asset.symbol) ==> forwarded == old(forwarded) + [asset]
      ensures !DigestMissing(store.analyzed, asset.symbol) ==> forwarded == old(forwarded)
    {
      var papis := store.GetSurpapiContent(asset.symbol);
      if papis.None? || papis.value == "" {
        forwarded := forwarded + [asset];
      }
    }

    /** cleanData: with an asset, its digest becomes `""`; without, every selected symbol's does.
        The control itself is returned. */
    method CleanData(asset: Option<Asset>) returns (self: CachedPapiSurDataControl)
      modifies store
      ensures self == this
      ensures asset.Some? ==>
                store.Snapshot() == old(store.Snapshot()).(analyzed := WithSerpapi(old(store.analyzed), asset.value.symbol, ""))
      ensures asset.None? ==>
                store.Snapshot() == old(store.Snapshot()).(analyzed := ResetSerpapiAll(old(store.analyzed), old(store.params.symbols)))
    {
      if asset.Some? {
        store.ResetSurpapiContent(asset.value.symbol);
      } else {
        store.ResetSurpapiContentAll();
      }
      self := this;
    }
  }

  class CachedPublicOpinionDataControl {
    const store: StoreControl
    var forwarded: seq<Asset>

    constructor(store: StoreControl)
      ensures this.store == store && forwarded == []
    {
      this.store := store;
      forwarded := [];
    }

    /** cleanData: with an asset, only its opinions go; without, every selected symbol's do. */
    method CleanData(asset: Option<Asset>) returns (self: CachedPublicOpinionDataControl)
      modifies store
      ensures self == this
      ensures asset.Some? ==>
                store.Snapshot() == old(store.Snapshot()).(analyzed := WithoutOpinions(old(store.analyzed), asset.value.symbol))
      ensures asset.None? ==>
                store.Snapshot() == old(store.Snapshot()).(analyzed := OmitOpinionsAll(old(store.analyzed), old(store.params.symbols)))
    {
      if asset.Some? {
        store.ResetPublicOpinions(asset.value.symbol);
      } else {
        store.ResetPublicOpinionsAll();
      }
      self := this;
    }

    /** invoke: forwards exactly when no opinions are stored for the symbol. */
    method Invoke(asset: Asset)
      modifies this
      ensures OpinionsMissing(store.analyzed, asset.symbol) ==> forwarded == old(forwarded) + [asset]
      ensures !OpinionsMissing(store.analyzed, asset.symbol) ==> forwarded == old(forwarded)
    {
      var opinions := store.GetPublicOpinions(asset.symbol);
      if opinions.None? {
        forwarded := forwarded + [asset];
      }
    }
  }

  class CachedAssetDataControl {
    const store: StoreControl
    /** How many asset-list requests were forwarded. */
    var forwarded: nat

    constructor(store: StoreControl)
      ensures this.store == store && forwarded == 0
    {
      this.store := store;
      forwarded := 0;
    }

    /** cleanData: the asset list is emptied and the control itself is returned. */
    method CleanData() returns (self: CachedAssetDataControl)
      modifies store
      ensures self == this
      ensures store.Snapshot() == old(store.Snapshot()).(assets := [])
      ensures !store.HasAssets()
    {
      store.ResetAssets();
      self := this;
    }

    /** invoke: does nothing when the store has assets, and forwards when the list is empty. */
    method Invoke()
      modifies this
      ensures |store.assets| > 0 ==> forwarded == old(forwarded)
      ensures store.assets == [] ==> forwarded == old(forwarded) + 1
    {
      if store.HasAssets() {
        return;
      }
      forwarded := forwarded + 1;
    }
  }
}
