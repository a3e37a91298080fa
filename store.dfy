/**
 * StoreControl: the client's state. It holds the metrics of the last analysis, the request
 * parameters, the asset list, a loading flag, the focused tab, the interface language, and a
 * per-symbol table of analysed content (search-result digest, public opinions, and the index
 * of the opinion shown). Every table update copies the table, changes one symbol's entry, and
 * writes the copy back; the updates are stated as functions on the table, and the class
 * methods are proved to perform them and to leave every other slice of state alone.
 */
module Store {
  import opened Wrappers
  import opened Numeric
  import opened Records
  import opened Types
  import opened Language

  /** A Finnhub asset; only the fields the modelled code reads are kept. */
  datatype Asset = Asset(symbol: string, description: string)

  /** A dashboard tab: an asset with the tab's index and label. */
  datatype Tab = Tab(asset: Asset, value: int, caption: string)

  const PortfolioSymbol: string := "PORTFOLIO"

  /** The portfolio tab every dashboard opens on. */
  const PortfolioTab: Tab := Tab(Asset(PortfolioSymbol, "Portfolio Model"), 0, "Portfolio")

  datatype PublicOpinions = PublicOpinions(neutral: string, popular: string, professional: string)

  /** An entry of the analysed-content table. Spreading an absent entry and setting one field
      leaves the others undefined, so each field may be absent. */
  datatype Entry = Entry(serpapi: Option<string>, opiIdx: Option<real>, opinions: Option<PublicOpinions>)

  /** `{}`: what spreading or omitting from an absent entry starts from. */
  const EmptyEntry: Entry := Entry(None, None, None)

  type Table = map<string, Entry>

  /** The metrics the server returned; the return and the risk may be null. */
  datatype Metrics = Metrics(weights: Record<real>, amounts: Record<real>, portfolioReturn: Option<real>,
                             portfolioRisk: Option<real>, sharpe: real)

  const DefaultMetrics: Metrics := Metrics([], [], Some(0.0), Some(0.0), 0.0)

  const DefaultParams: PortfolioMetricsParams := PortfolioMetricsParams([], "1y", "1d", 1000000.0)

  /** Every slice of the store at one moment. */
  datatype State = State(metrics: Metrics, params: PortfolioMetricsParams, assets: seq<Asset>, loading: bool,
                         tab: Tab, analyzed: Table, lang: LanguageE)

  /** The entry a spread `{ ...copied[symbol] }` starts from. */
  function Base(table: Table, symbol: string): (e: Entry)
    ensures symbol in table ==> e == table[symbol]
    ensures symbol !in table ==> e == EmptyEntry
  {
    if symbol in table then table[symbol] else EmptyEntry
  }

  /** getSurpapiContent: `""` for a symbol without an entry, otherwise the entry's digest, which
      is undefined when the entry was created by another setter. */
  function SurpapiContent(table: Table, symbol: string): (c: Option<string>)
    ensures symbol !in table ==> c == Some("")
    ensures c.None? ==> symbol in table && table[symbol].serpapi.None?
  {
    if symbol in table then table[symbol].serpapi else Some("")
  }

  /** getPublicOpinions: undefined for a symbol without an entry. */
  function Opinions(table: Table, symbol: string): (o: Option<PublicOpinions>)
    ensures o.Some? ==> symbol in table && table[symbol].opinions == o
    ensures symbol !in table ==> o.None?
  {
    if symbol in table then table[symbol].opinions else None
  }

  /** getOpiIndex: 0 for a symbol without an entry. */
  function OpiIndex(table: Table, symbol: string): (i: Option<real>)
    ensures symbol !in table ==> i == Some(0.0)
    ensures symbol in table ==> i == table[symbol].opiIdx
  {
    if symbol in table then table[symbol].opiIdx else Some(0.0)
  }

  /** A table that differs from another at most at one symbol. */
  ghost predicate OnlyChanged(before: Table, after: Table, symbol: string) {
    (forall k :: k != symbol ==> (k in after <==> k in before)) &&
    (forall k :: k != symbol && k in before ==> after[k] == before[k])
  }

  /** setSurpapiContent: the symbol's digest is set, its other fields are kept, and no other
      symbol changes. */
  function WithSerpapi(table: Table, symbol: string, content: string): (t: Table)
    ensures symbol in t && t[symbol] == Base(table, symbol).(serpapi := Some(content))
    ensures OnlyChanged(table, t, symbol)
  {
    table[symbol := Base(table, symbol).(serpapi := Some(content))]
  }

  /** setPublicOpinions. */
  function WithOpinions(table: Table, symbol: string, opinions: PublicOpinions): (t: Table)
    ensures symbol in t && t[symbol] == Base(table, symbol).(opinions := Some(opinions))
    ensures OnlyChanged(table, t, symbol)
  {
    table[symbol := Base(table, symbol).(opinions := Some(opinions))]
  }

  /** `copied[symbol] = omit(copied[symbol], ["opinions"])`: the opinions go, and an absent
      symbol gets an empty entry. */
  function OmitOpinions(table: Table, symbol: string): (t: Table)
    ensures symbol in t && t[symbol] == Base(table, symbol).(opinions := None)
    ensures OnlyChanged(table, t, symbol)
  {
    table[symbol := Base(table, symbol).(opinions := None)]
  }

  /** resetPublicOpinions: as OmitOpinions for a symbol with an entry; nothing for one without. */
  function WithoutOpinions(table: Table, symbol: string): (t: Table)
    ensures symbol !in table ==> t == table
    ensures symbol in table ==> symbol in t && t[symbol] == table[symbol].(opinions := None)
    ensures OnlyChanged(table, t, symbol) && t.Keys == table.Keys
  {
    if symbol in table then OmitOpinions(table, symbol) else table
  }

  /** setOpiIndex: a negative or NaN index changes nothing; any other index is stored. */
  function WithOpiIdx(table: Table, symbol: string, index: Float): (t: Table)
    ensures index.NaN? || index.value < 0.0 ==> t == table
    ensures index.Finite? && index.value >= 0.0 ==> symbol in t && t[symbol] == Base(table, symbol).(opiIdx := Some(index.value))
    ensures OnlyChanged(table, t, symbol)
  {
    if index.NaN? || index.value < 0.0 then table
    else table[symbol := Base(table, symbol).(opiIdx := Some(index.value))]
  }

  /** resetSurpapiContentAll's loop: each listed symbol's digest becomes `""`, one by one. */
  function ResetSerpapiAll(table: Table, symbols: seq<string>): Table {
    if symbols == [] then table
    else WithSerpapi(ResetSerpapiAll(table, symbols[..|symbols| - 1]), symbols[|symbols| - 1], "")
  }

  /** resetPublicOpinionsAll's loop: each listed symbol loses its opinions, one by one. */
  function OmitOpinionsAll(table: Table, symbols: seq<string>): Table {
    if symbols == [] then table
    else OmitOpinions(OmitOpinionsAll(table, symbols[..|symbols| - 1]), symbols[|symbols| - 1])
  }

  /** After resetting every listed digest, each listed symbol has an entry whose digest is `""`
      and whose other fields are as before (absent for a new entry), and unlisted symbols are
      untouched. */
  lemma {:induction false} ResetSerpapiAllSpec(table: Table, symbols: seq<string>, k: string)
    ensures var t := ResetSerpapiAll(table, symbols);
            (k in symbols ==> k in t && t[k] == Base(table, k).(serpapi := Some(""))) &&
            (k !in symbols ==> (k in t <==> k in table) && (k in table ==> t[k] == table[k]))
  {
    if symbols != [] {
      var init := symbols[..|symbols| - 1];
      ResetSerpapiAllSpec(table, init, k);
      assert symbols == init + [symbols[|symbols| - 1]];
    }
  }

  /** After omitting every listed symbol's opinions, each listed symbol has an entry without
      opinions whose other fields are as before, and unlisted symbols are untouched. */
  lemma {:induction false} OmitOpinionsAllSpec(table: Table, symbols: seq<string>, k: string)
    ensures var t := OmitOpinionsAll(table, symbols);
            (k in symbols ==> k in t && t[k] == Base(table, k).(opinions := None)) &&
            (k !in symbols ==> (k in t <==> k in table) && (k in table ==> t[k] == table[k]))
  {
    if symbols != [] {
      var init := symbols[..|symbols| - 1];
      OmitOpinionsAllSpec(table, init, k);
      assert symbols == init + [symbols[|symbols| - 1]];
    }
  }

  /** A digest that was set reads back, and reading another symbol is unaffected. */
  lemma SerpapiSetGet(table: Table, symbol: string, content: string, other: string)
    ensures SurpapiContent(WithSerpapi(table, symbol, content), symbol) == Some(content)
    ensures other != symbol ==> SurpapiContent(WithSerpapi(table, symbol, content), other) == SurpapiContent(table, other)
  {
  }

  /** Opinions that were set read back; once reset they read as undefined. */
  lemma OpinionsSetReset(table: Table, symbol: string, opinions: PublicOpinions)
    ensures Opinions(WithOpinions(table, symbol, opinions), symbol) == Some(opinions)
    ensures Opinions(WithoutOpinions(WithOpinions(table, symbol, opinions), symbol), symbol).None?
    ensures Opinions(WithoutOpinions(table, symbol), symbol).None?
  {
  }

  /** Setting an opinion index on a new symbol creates an entry whose digest is undefined: the
      digest getter then gives undefined rather than `""`. */
  lemma OpiIdxLeavesDigestUndefined(table: Table, symbol: string, index: real)
    requires symbol !in table && index >= 0.0
    ensures SurpapiContent(WithOpiIdx(table, symbol, Finite(index)), symbol).None?
    ensures OpiIndex(WithOpiIdx(table, symbol, Finite(index)), symbol) == Some(index)
  {
  }

  /** `assets.find((asset) => asset.symbol === tab.symbol)`: the first asset of the tab's symbol. */
  function FocusedTab(assets: seq<Asset>, tab: Tab): (r: Option<Asset>)
    ensures r.Some? ==> exists i :: 0 <= i < |assets| && assets[i] == r.value &&
                          r.value.symbol == tab.asset.symbol && forall j :: 0 <= j < i ==> assets[j].symbol != tab.asset.symbol
    ensures r.None? ==> forall i :: 0 <= i < |assets| ==> assets[i].symbol != tab.asset.symbol
  {
    if assets == [] then None
    else if assets[0].symbol == tab.asset.symbol then Some(assets[0])
    else
      var r := FocusedTab(assets[1..], tab);
      if r.Some? then
        var i :| 0 <= i < |assets[1..]| && assets[1..][i] == r.value && r.value.symbol == tab.asset.symbol &&
                 forall j :: 0 <= j < i ==> assets[1..][j].symbol != tab.asset.symbol;
        assert assets[i + 1] == r.value;
        r
      else r
  }

  class StoreControl {
    var metrics: Metrics
    var params: PortfolioMetricsParams
    var assets: seq<Asset>
    var loading: bool
    var tab: Tab
    var analyzed: Table
    var lang: LanguageE

    function Snapshot(): State
      reads this
    {
      State(metrics, params, assets, loading, tab, analyzed, lang)
    }

    /** Every slice starts at its default. */
    constructor()
      ensures Snapshot() == State(DefaultMetrics, DefaultParams, [], false, PortfolioTab, map[], English)
    {
      metrics := DefaultMetrics;
      params := DefaultParams;
      assets := [];
      loading := false;
      tab := PortfolioTab;
      analyzed := map[];
      lang := English;
    }

    function GetMetrics(): (m: Metrics)
      reads this
      ensures m == Snapshot().metrics
    {
      metrics
    }

    method SetMetrics(m: Metrics)
      modifies this
      ensures Snapshot() == old(Snapshot()).(metrics := m)
    {
      metrics := m;
    }

    method ResetMetrics()
      modifies this
      ensures Snapshot() == old(Snapshot()).(metrics := DefaultMetrics)
    {
      metrics := DefaultMetrics;
    }

    function GetParams(): (p: PortfolioMetricsParams)
      reads this
      ensures p == Snapshot().params
    {
      params
    }

    method SetParams(p: PortfolioMetricsParams)
      modifies this
      ensures Snapshot() == old(Snapshot()).(params := p)
    {
      params := p;
    }

    method ResetParams()
      modifies this
      ensures Snapshot() == old(Snapshot()).(params := DefaultParams)
    {
      params := DefaultParams;
    }

    function GetAssets(): (a: seq<Asset>)
      reads this
      ensures a == Snapshot().assets
    {
      assets
    }

    /** hasAssets: the asset list is not empty. */
    function HasAssets(): (b: bool)
      reads this
      ensures b <==> |Snapshot().assets| > 0
    {
      assets != []
    }

    method SetAssets(a: seq<Asset>)
      modifies this
      ensures Snapshot() == old(Snapshot()).(assets := a)
    {
      assets := a;
    }

    method ResetAssets()
      modifies this
      ensures Snapshot() == old(Snapshot()).(assets := [])
    {
      assets := [];
    }

    method SetLoading(b: bool)
      modifies this
      ensures Snapshot() == old(Snapshot()).(loading := b)
    {
      loading := b;
    }

    function IsLoading(): (b: bool)
      reads this
      ensures b == Snapshot().loading
    {
      loading
    }

    method ResetLoading()
      modifies this
      ensures Snapshot() == old(Snapshot()).(loading := false)
    {
      loading := false;
    }

    function GetTab(): (t: Tab)
      reads this
      ensures t == Snapshot().tab
    {
      tab
    }

    method SetTab(t: Tab)
      modifies this
      ensures Snapshot() == old(Snapshot()).(tab := t)
    {
      tab := t;
    }

    function GetAnalyzedContents(): (t: Table)
      reads this
      ensures t == Snapshot().analyzed
    {
      analyzed
    }

    method SetAnalyzedContents(t: Table)
      modifies this
      ensures Snapshot() == old(Snapshot()).(analyzed := t)
    {
      analyzed := t;
    }

    function GetSurpapiContent(symbol: string): (c: Option<string>)
      reads this
      ensures c == SurpapiContent(Snapshot().analyzed, symbol)
    {
      SurpapiContent(analyzed, symbol)
    }

    method SetSurpapiContent(symbol: string, content: string)
      modifies this
      ensures Snapshot() == old(Snapshot()).(analyzed := WithSerpapi(old(analyzed), symbol, content))
    {
      var copied := analyzed;
      copied := copied[symbol := Base(copied, symbol).(serpapi := Some(content))];
      analyzed := copied;
    }

    method ResetSurpapiContent(symbol: string)
      modifies this
      ensures Snapshot() == old(Snapshot()).(analyzed := WithSerpapi(old(analyzed), symbol, ""))
    {
      SetSurpapiContent(symbol, "");
    }

    /** resetSurpapiContentAll: the loop over the selected symbols. */
    method ResetSurpapiContentAll()
      modifies this
      ensures Snapshot() == old(Snapshot()).(analyzed := ResetSerpapiAll(old(analyzed), old(params.symbols)))
    {
      var symbols := params.symbols;
      var copied := analyzed;
      var i := 0;
      while i < |symbols|
        invariant 0 <= i <= |symbols|
        invariant copied == ResetSerpapiAll(analyzed, symbols[..i])
      {
        assert symbols[..i + 1][..i] == symbols[..i];
        copied := copied[symbols[i] := Base(copied, symbols[i]).(serpapi := Some(""))];
        i := i + 1;
      }
      assert symbols[..i] == symbols;
      analyzed := copied;
    }

    function GetPublicOpinions(symbol: string): (o: Option<PublicOpinions>)
      reads this
      ensures o == Opinions(Snapshot().analyzed, symbol)
    {
      Opinions(analyzed, symbol)
    }

    method SetPublicOpinions(symbol: string, opinions: PublicOpinions)
      modifies this
      ensures Snapshot() == old(Snapshot()).(analyzed := WithOpinions(old(analyzed), symbol, opinions))
    {
      var copied := analyzed;
      copied := copied[symbol := Base(copied, symbol).(opinions := Some(opinions))];
      analyzed := copied;
    }

    method ResetPublicOpinions(symbol: string)
      modifies this
      ensures Snapshot() == old(Snapshot()).(analyzed := WithoutOpinions(old(analyzed), symbol))
    {
      if symbol in analyzed {
        var copied := analyzed;
        copied := copied[symbol := analyzed[symbol].(opinions := None)];
        analyzed := copied;
      }
    }

    /** resetPublicOpinionsAll: the loop over the selected symbols. */
    method ResetPublicOpinionsAll()
      modifies this
      ensures Snapshot() == old(Snapshot()).(analyzed := OmitOpinionsAll(old(analyzed), old(params.symbols)))
    {
      var symbols := params.symbols;
      var copied := analyzed;
      var i := 0;
      while i < |symbols|
        invariant 0 <= i <= |symbols|
        invariant copied == OmitOpinionsAll(analyzed, symbols[..i])
      {
        assert symbols[..i + 1][..i] == symbols[..i];
        copied := copied[symbols[i] := Base(copied, symbols[i]).(opinions := None)];
        i := i + 1;
      }
      assert symbols[..i] == symbols;
      analyzed := copied;
    }

    /** resetAllAnalyzedContents: the parameters are reset FIRST, so both loops run over the
        default, empty, symbol list and the table is left exactly as it was. */
    method ResetAllAnalyzedContents()
      modifies this
      ensures Snapshot() == old(Snapshot()).(params := DefaultParams)
      ensures analyzed == old(analyzed)
    {
      ResetParams();
      ResetPublicOpinionsAll();
      ResetSurpapiContentAll();
    }

    function GetOpiIndex(symbol: string): (i: Option<real>)
      reads this
      ensures i == OpiIndex(Snapshot().analyzed, symbol)
    {
      OpiIndex(analyzed, symbol)
    }

    method SetOpiIndex(symbol: string, index: Float)
      modifies this
      ensures Snapshot() == old(Snapshot()).(analyzed := WithOpiIdx(old(analyzed), symbol, index))
    {
      var copied := analyzed;
      if index.NaN? || index.value < 0.0 {
        return;
      }
      copied := copied[symbol := Base(copied, symbol).(opiIdx := Some(index.value))];
      analyzed := copied;
    }

    /** getFocusedTab with its default arguments. */
    function GetFocusedTab(): (r: Option<Asset>)
      reads this
      ensures r == FocusedTab(Snapshot().assets, Snapshot().tab)
    {
      FocusedTab(assets, tab)
    }

    function GetLanguage(): (l: LanguageE)
      reads this
      ensures l == Snapshot().lang
    {
      lang
    }

    method SetLanguage(l: LanguageE)
      modifies this
      ensures Snapshot() == old(Snapshot()).(lang := l)
    {
      lang := l;
    }

    method ResetLanguage()
      modifies this
      ensures Snapshot() == old(Snapshot()).(lang := English)
    {
      lang := English;
    }
  }
}
