/** The serverless quote endpoint (api/quote.ts): its own `fetchPrices`
    (majors and HYPE only, with stale-on-failure), a `calculateQuote` that
    derives the source token from the chain id and always quotes into ETH
    at six decimals, and the request handler. */
module ApiQuote {
  import opened Common
  import opened PriceTable
  import opened PriceCache
  import opened CoinGecko
  import opened QuoteMath
  import opened Http

  /** The native token of each supported source chain, by chain id. */
  const CHAIN_TOKEN: map<int, Symbol> := map[
    8453 := ETH, 1 := ETH, 42161 := ETH, 10 := ETH, 137 := MATIC, 56 := BNB,
    43114 := AVAX, 250 := FTM, 25 := CRO, 324 := ETH, 59144 := ETH,
    534352 := ETH, 81457 := ETH, 5000 := MNT, 100 := XDAI, 1101 := ETH,
    7777777 := ETH, 34443 := ETH, 169 := ETH, 999 := HYPE
  ]

  /** The falsy-price fallback lines of this revision. */
  const FALLBACKS: map<Symbol, real> := map[
    ETH := 3500.0, SOL := 180.0, MATIC := 0.5, BNB := 600.0, AVAX := 35.0,
    FTM := 0.5, CRO := 0.1, MNT := 0.8, HYPE := 25.0
  ]

  /** The table returned when the majors request fails and nothing is
      cached. */
  const FALLBACK_TABLE: Table := map[
    ETH := 3500.0, SOL := 180.0, MATIC := 0.5, BNB := 600.0, AVAX := 35.0,
    FTM := 0.5, CRO := 0.1, MNT := 0.8, XDAI := 1.0, HYPE := 25.0
  ]

  /** The ten symbols of every table this revision returns. */
  const SYMBOLS: set<Symbol> := {ETH, SOL, MATIC, BNB, AVAX, FTM, CRO, MNT, XDAI, HYPE}

  /** What the two requests of one refresh produced: the `simple/price`
      body (None when the request failed, was not ok, or its body could not
      be read) and `hyperliquid.usd` (None when that request failed). */
  datatype Feeds = Feeds(majors: Option<SimplePrice>, hype: Option<real>)

  lemma ConstantsListed()
    ensures forall s :: s in FALLBACKS ==> s in SYMBOLS && FALLBACKS[s] != 0.0
    ensures forall s :: s in SYMBOLS <==> s == XDAI || s in FALLBACKS
  {
  }

  /** The fallback table is the fallback lines plus xDAI at 1. */
  lemma FallbackTableIsConstants()
    ensures FALLBACK_TABLE == FALLBACKS[XDAI := 1.0]
  {
  }

  /** A table this revision's readers may rely on: it holds exactly the ten
      symbols, every symbol of the fallback lines is truthy, and xDAI is 1. */
  predicate Complete(t: Table) {
    t.Keys == SYMBOLS && (forall s :: s in FALLBACKS ==> Priced(t, s)) && XDAI in t && t[XDAI] == 1.0
  }

  lemma FallbackTableComplete()
    ensures Complete(FALLBACK_TABLE) && FALLBACK_TABLE.Keys == SYMBOLS
  {
    FallbackTableIsConstants();
    ConstantsListed();
  }

  /** `{ xDAI: 1 }` overwritten by the truthy majors. */
  function AfterMajors(data: SimplePrice): Table {
    map[XDAI := 1.0] + MajorsUpdate(data)
  }

  /** Then overwritten by the truthy HYPE result. */
  function Merge(data: SimplePrice, hype: Option<real>): Table {
    WithHype(AfterMajors(data), hype)
  }

  lemma SymbolsSplit()
    ensures SYMBOLS == {XDAI} + FALLBACKS.Keys
  {
  }

  lemma MajorsOutsideSeed()
    ensures XDAI !in COINGECKO_IDS && HYPE !in COINGECKO_IDS
    ensures CRO !in COINGECKO_IDS && MNT !in COINGECKO_IDS
  {
  }

  lemma MajorsListedSymbols()
    ensures forall s :: s in COINGECKO_IDS ==> s in FALLBACKS && s in SYMBOLS
  {
  }

  /** The merged table holds only xDAI, HYPE and the majors. */
  lemma MergeKeys(data: SimplePrice, hype: Option<real>)
    ensures forall s :: s in Merge(data, hype) ==> s == XDAI || s == HYPE || s in COINGECKO_IDS
  {
    var m0 := AfterMajors(data);
    MajorsUpdateKeys(data);
    WithHypeElsewhere(m0, hype);
  }

  lemma MergeWithin(data: SimplePrice, hype: Option<real>)
    ensures Merge(data, hype).Keys <= SYMBOLS
  {
    MergeKeys(data, hype);
    MajorsListedSymbols();
  }

  lemma MergeSeed(data: SimplePrice, hype: Option<real>)
    ensures var m := Merge(data, hype);
      XDAI in m && m[XDAI] == 1.0 && CRO !in m && MNT !in m
  {
    MajorsOutsideSeed();
    MajorsUpdateKeys(data);
    WithHypeElsewhere(AfterMajors(data), hype);
  }

  lemma MergeHype(data: SimplePrice, hype: Option<real>)
    ensures var m := Merge(data, hype);
      && (Priced(m, HYPE) <==> hype.Some? && hype.value != 0.0)
      && (Priced(m, HYPE) ==> m[HYPE] == hype.value)
  {
    MajorsOutsideSeed();
    MajorsUpdateKeys(data);
  }

  /** The majors land in the table exactly when they are truthy. */
  lemma MajorsFacts(data: SimplePrice)
    ensures var m := AfterMajors(data);
      forall s :: s in COINGECKO_IDS ==>
        (Priced(m, s) <==> Quoted(data, s)) && (Priced(m, s) ==> m[s] == data[COINGECKO_IDS[s]])
  {
    MajorsUpdateKeys(data);
  }

  lemma MergeFetched(data: SimplePrice, hype: Option<real>)
    ensures var m := Merge(data, hype);
      forall s :: s in COINGECKO_IDS ==>
        (Priced(m, s) <==> Quoted(data, s)) && (Priced(m, s) ==> m[s] == data[COINGECKO_IDS[s]])
  {
    MajorsFacts(data);
    MajorsOutsideSeed();
    WithHypeElsewhere(AfterMajors(data), hype);
  }

  /** The price a refreshed table gives each symbol: its truthy fetched
      value, or else its constant. */
  function RefreshedPrice(data: SimplePrice, hype: Option<real>, s: Symbol): real
    requires s in FALLBACKS
  {
    if s in COINGECKO_IDS && Quoted(data, s) then data[COINGECKO_IDS[s]]
    else if s == HYPE && hype.Some? && hype.value != 0.0 then hype.value
    else FALLBACKS[s]
  }

  /** A successful refresh: the merge followed by the fallback lines. It
      holds exactly the ten symbols, xDAI is 1, and each other symbol holds
      its truthy fetched value or its constant; a failed HYPE request only
      leaves HYPE at its constant. */
  function Refresh(data: SimplePrice, hype: Option<real>): (t: Table)
    ensures t.Keys == SYMBOLS
    ensures XDAI in t && t[XDAI] == 1.0
    ensures forall s :: s in FALLBACKS ==> s in t && t[s] == RefreshedPrice(data, hype, s)
  {
    RefreshedKeys(data, hype);
    RefreshedSeed(data, hype);
    RefreshedLines(data, hype);
    Fill(Merge(data, hype), Falsy, FALLBACKS)
  }

  lemma RefreshedKeys(data: SimplePrice, hype: Option<real>)
    ensures Fill(Merge(data, hype), Falsy, FALLBACKS).Keys == SYMBOLS
  {
    FillKeys(Merge(data, hype), Falsy, FALLBACKS);
    MergeWithin(data, hype);
    MergeSeed(data, hype);
    SymbolsSplit();
    KeysBetween(Merge(data, hype).Keys, SYMBOLS, FALLBACKS.Keys, XDAI);
  }

  lemma RefreshedSeed(data: SimplePrice, hype: Option<real>)
    ensures var t := Fill(Merge(data, hype), Falsy, FALLBACKS);
      XDAI in t && t[XDAI] == 1.0
  {
    MergeSeed(data, hype);
    ConstantsListed();
  }

  lemma RefreshedLines(data: SimplePrice, hype: Option<real>)
    ensures var t := Fill(Merge(data, hype), Falsy, FALLBACKS);
      forall s :: s in FALLBACKS ==> s in t && t[s] == RefreshedPrice(data, hype, s)
  {
    MergeSeed(data, hype);
    MergeHype(data, hype);
    MergeFetched(data, hype);
  }

  lemma RefreshComplete(data: SimplePrice, hype: Option<real>)
    ensures Complete(Refresh(data, hype))
  {
    ConstantsListed();
  }

  /** Every cached table is complete. */
  predicate CacheInvariant(cache: Option<Entry>) {
    cache.Some? ==> Complete(cache.value.prices)
  }

  /** `fetchPrices` of this revision: the cached table while it is fresh;
      otherwise a refresh, stored with `doneAt`, when the majors request
      succeeds; when it fails, the cached table however old, or else the
      fallback table, leaving the cache as it was. */
  function FetchPrices(cache: Option<Entry>, now: int, feeds: Feeds, doneAt: int): (r: Served<Table>)
    ensures IsFresh(cache, now) ==> r == Served(cache.value.prices, cache)
    ensures !IsFresh(cache, now) && feeds.majors.Some? ==>
      r.value == Refresh(feeds.majors.value, feeds.hype) && r.cache == Some(Entry(r.value, doneAt))
    ensures !IsFresh(cache, now) && feeds.majors.None? ==> r.cache == cache
    ensures !IsFresh(cache, now) && feeds.majors.None? && cache.Some? ==> r.value == cache.value.prices
    ensures feeds.majors.None? && cache.None? ==> r.value == FALLBACK_TABLE
    ensures CacheInvariant(cache) ==> Complete(r.value) && CacheInvariant(r.cache)
  {
    if IsFresh(cache, now) then Served(cache.value.prices, cache)
    else if feeds.majors.Some? then
      var prices := Refresh(feeds.majors.value, feeds.hype);
      RefreshComplete(feeds.majors.value, feeds.hype);
      Served(prices, Some(Entry(prices, doneAt)))
    else if cache.Some? then Served(cache.value.prices, cache)
    else
      FallbackTableComplete();
      Served(FALLBACK_TABLE, cache)
  }

  /** The cache hit: once a call has refreshed the table, every call made
      less than CACHE_DURATION after the refresh was stored answers with
      the same table and leaves the cache alone, whatever the price
      sources would report by then. */
  lemma CacheServesRefresh(cache: Option<Entry>, now: int, feeds: Feeds, doneAt: int,
                           later: int, laterFeeds: Feeds, laterDoneAt: int)
    requires !IsFresh(cache, now) && feeds.majors.Some?
    requires later < doneAt + CACHE_DURATION
    ensures var first := FetchPrices(cache, now, feeds, doneAt);
      FetchPrices(first.cache, later, laterFeeds, laterDoneAt) == first
  {
  }

  /** The symbol a source chain pays in: its chain-table entry, ETH for a
      chain the table does not list; `chain` is None for NaN. */
  function SourceToken(chain: Option<int>): (sym: Symbol)
    ensures sym in SYMBOLS
    ensures chain.Some? && chain.value in CHAIN_TOKEN ==> sym == CHAIN_TOKEN[chain.value]
    ensures chain.None? || chain.value !in CHAIN_TOKEN ==> sym == ETH
  {
    ChainTokensListed();
    if chain.Some? && chain.value in CHAIN_TOKEN then CHAIN_TOKEN[chain.value] else ETH
  }

  lemma ChainTokensListed()
    ensures forall c :: c in CHAIN_TOKEN ==> CHAIN_TOKEN[c] in SYMBOLS
  {
  }

  /** The quote of this revision for a valid amount against a table whose
      ETH entry is truthy. */
  function QuoteFromTable(amount: Amount, chain: Option<int>, t: Table): (q: Quote)
    requires ValidAmount(amount) && Priced(t, ETH)
    ensures q.inputAmount == amount.text && q.inputToken == Name(SourceToken(chain))
    ensures q.outputToken == "ETH" && q.estimatedTime == "~30 minutes"
    ensures q.slippageBps == 50 && q.feePercent == 0.1
    ensures q.outputAmount.decimals == 6 && q.feeAmount.decimals == 6 && q.slippageAmount.decimals == 6
    ensures q.prices == map[q.inputToken := PriceOr(t, SourceToken(chain), t[ETH])]["ETH" := t[ETH]]
    ensures q.exchangeRate.decimals == 0 <==> SourceToken(chain) == ETH
    ensures SourceToken(chain) == ETH ==> q.exchangeRate == Fixed(1.0, 0)
    ensures SourceToken(chain) != ETH ==> q.exchangeRate == Fixed(PriceOr(t, SourceToken(chain), t[ETH]) / t[ETH], 6)
  {
    var a := amount.parsed.value;
    var source := SourceToken(chain);
    var sp := PriceOr(t, source, t[ETH]);
    var eth := t[ETH];
    var usd := a * sp;
    var d := Deduct(Convert(a, sp, eth));
    Quote(
      amount.text, Name(source), Fixed(usd, 2),
      Fixed(d.net, 6), "ETH", SLIPPAGE_BPS, BRIDGE_FEE_PERCENT,
      Fixed(d.fee, 6), Fixed(d.slippage, 6),
      "~30 minutes",
      if Name(source) == "ETH" then Fixed(1.0, 0) else Fixed(sp / eth, 6),
      map[Name(source) := sp]["ETH" := eth])
  }

  /** The quote is worth 99.4 % of the input in ETH at the prices used:
      output, fee and slippage add up to the ETH equivalent, and slippage is
      five times the fee. */
  lemma QuoteConservesValue(amount: Amount, chain: Option<int>, t: Table)
    requires ValidAmount(amount) && Priced(t, ETH)
    ensures var q := QuoteFromTable(amount, chain, t);
      var a := amount.parsed.value;
      var sp := PriceOr(t, SourceToken(chain), t[ETH]);
      && q.inputUsdValue == Fixed(a * sp, 2)
      && q.outputAmount.value * t[ETH] == a * sp * 0.994
      && q.outputAmount.value + q.feeAmount.value + q.slippageAmount.value == a * sp / t[ETH]
      && q.feeAmount.value * 5.0 == q.slippageAmount.value
  {
  }

  /** `calculateQuote` of this revision: None exactly for an amount that
      parses to NaN or is not positive, without touching the cache. */
  function CalculateQuote(amount: Amount, chain: Option<int>,
                          cache: Option<Entry>, now: int, feeds: Feeds, doneAt: int): (r: Served<Option<Quote>>)
    requires CacheInvariant(cache)
    ensures r.value.None? <==> !ValidAmount(amount)
    ensures r.value.None? ==> r.cache == cache
    ensures CacheInvariant(r.cache)
    ensures r.value.Some? ==>
      var fetched := FetchPrices(cache, now, feeds, doneAt);
      r.cache == fetched.cache && r.value.value == QuoteFromTable(amount, chain, fetched.value)
  {
    if !ValidAmount(amount) then Served(None, cache)
    else
      var fetched := FetchPrices(cache, now, feeds, doneAt);
      ConstantsListed();
      Served(Some(QuoteFromTable(amount, chain, fetched.value)), fetched.cache)
  }

  /** The `chainId` query parameter: missing or empty, or present with
      what `parseInt` made of it (None for NaN). */
  datatype ChainParam = NoChainId | ChainId(parsed: Option<int>)

  /** The source chain of a request: Base (8453) when no chain id is given,
      otherwise the id parsed as an integer. */
  function ChainOf(p: ChainParam): (chain: Option<int>)
    ensures p.NoChainId? ==> chain == Some(8453)
    ensures p.ChainId? ==> chain == p.parsed
  {
    match p
    case NoChainId => Some(8453)
    case ChainId(parsed) => parsed
  }

  /** A request to the endpoint: its method, `amount` (None when missing or
      not a single string) and `chainId`. */
  datatype Request = Request(verb: Method, amount: Option<Amount>, chainId: ChainParam)

  /** The handler: OPTIONS gets an empty 200; a missing or empty amount 400
      "Amount is required"; an amount `calculateQuote` rejects 400 "Invalid
      amount"; anything else the quote. Only the last consults the cache. */
  function Handle(req: Request, cache: Option<Entry>, now: int, feeds: Feeds, doneAt: int): (r: Served<Response<Quote>>)
    requires CacheInvariant(cache)
    ensures req.verb == Options ==> r == Served(Empty, cache)
    ensures req.verb != Options && (req.amount.None? || req.amount.value.text == "") ==>
      r == Served(Error(400, "Amount is required"), cache)
    ensures req.verb != Options && req.amount.Some? && req.amount.value.text != "" && !ValidAmount(req.amount.value) ==>
      r == Served(Error(400, "Invalid amount"), cache)
    ensures r.value.Ok? <==>
      req.verb != Options && req.amount.Some? && req.amount.value.text != "" && ValidAmount(req.amount.value)
    ensures r.value.Ok? ==>
      var served := CalculateQuote(req.amount.value, ChainOf(req.chainId), cache, now, feeds, doneAt);
      r.cache == served.cache && served.value == Some(r.value.body)
    ensures r.value.Ok? && (req.chainId.NoChainId? || req.chainId.parsed.None?) ==> r.value.body.inputToken == "ETH"
    ensures CacheInvariant(r.cache)
  {
    if req.verb == Options then Served(Empty, cache)
    else if req.amount.None? || req.amount.value.text == "" then Served(Error(400, "Amount is required"), cache)
    else
      var served := CalculateQuote(req.amount.value, ChainOf(req.chainId), cache, now, feeds, doneAt);
      match served.value
      case None => Served(Error(400, "Invalid amount"), served.cache)
      case Some(q) => Served(Ok(q), served.cache)
  }
}
