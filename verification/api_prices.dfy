/** The serverless prices endpoint (api/prices.ts): a third `fetchPrices`
    that queries only the majors basket, seeds xDAI, fills every falsy
    symbol from its own constants, and on failure answers with a fixed
    table without looking at the cache. */
module ApiPrices {
  import opened Common
  import opened PriceTable
  import opened PriceCache
  import opened CoinGecko
  import opened Http

  /** The falsy-price fallback lines of this revision. */
  const FALLBACKS: map<Symbol, real> := map[
    ETH := 3500.0, SOL := 180.0, MATIC := 0.5, BNB := 600.0, AVAX := 35.0,
    FTM := 0.5, CRO := 0.1, MNT := 0.8, HYPE := 25.0
  ]

  /** The table returned when the majors request fails. */
  const FALLBACK_TABLE: Table := map[
    ETH := 3500.0, SOL := 180.0, MATIC := 0.5, BNB := 600.0, AVAX := 35.0,
    FTM := 0.5, CRO := 0.1, MNT := 0.8, XDAI := 1.0, HYPE := 25.0
  ]

  /** The ten symbols of every table this revision returns. */
  const SYMBOLS: set<Symbol> := {ETH, SOL, MATIC, BNB, AVAX, FTM, CRO, MNT, XDAI, HYPE}

  lemma ConstantsListed()
    ensures forall s :: s in FALLBACKS ==> s in SYMBOLS && FALLBACKS[s] != 0.0
    ensures forall s :: s in SYMBOLS <==> s == XDAI || s in FALLBACKS
  {
  }

  lemma SymbolsSplit()
    ensures SYMBOLS == {XDAI} + FALLBACKS.Keys
  {
  }

  lemma MajorsListed()
    ensures forall s :: s in COINGECKO_IDS ==> s in FALLBACKS && s in SYMBOLS
    ensures XDAI !in COINGECKO_IDS
  {
  }

  /** The fallback table is the fallback lines plus xDAI at 1. */
  lemma FallbackTableIsConstants()
    ensures FALLBACK_TABLE == FALLBACKS[XDAI := 1.0]
  {
  }

  /** What every answer of this revision satisfies: exactly the ten
      symbols, each of them truthy, and xDAI at 1. */
  predicate Complete(t: Table) {
    t.Keys == SYMBOLS && (forall s :: s in SYMBOLS ==> t[s] != 0.0) && XDAI in t && t[XDAI] == 1.0
  }

  lemma FallbackTableComplete()
    ensures Complete(FALLBACK_TABLE)
  {
    FallbackTableIsConstants();
    ConstantsListed();
  }

  /** `{ xDAI: 1 }` overwritten by the truthy majors. */
  function Seeded(data: SimplePrice): Table {
    map[XDAI := 1.0] + MajorsUpdate(data)
  }

  lemma SeededKeys(data: SimplePrice)
    ensures forall s :: s in Seeded(data) ==> s == XDAI || s in COINGECKO_IDS
    ensures XDAI in Seeded(data) && Seeded(data)[XDAI] == 1.0
  {
    MajorsListed();
    MajorsUpdateKeys(data);
  }

  lemma SeededWithin(data: SimplePrice)
    ensures Seeded(data).Keys <= SYMBOLS
  {
    SeededKeys(data);
    MajorsListed();
  }

  lemma SeededMajors(data: SimplePrice)
    ensures var m := Seeded(data);
      forall s :: s in COINGECKO_IDS ==>
        (Priced(m, s) <==> Quoted(data, s)) && (Priced(m, s) ==> m[s] == data[COINGECKO_IDS[s]])
  {
    MajorsUpdateKeys(data);
  }

  /** The price a refreshed table gives a symbol of the fallback lines: its
      truthy majors value, or else its constant. */
  function RefreshedPrice(data: SimplePrice, s: Symbol): real
    requires s in FALLBACKS
  {
    if Quoted(data, s) then data[COINGECKO_IDS[s]] else FALLBACKS[s]
  }

  /** A successful refresh: the seeded majors followed by the fallback
      lines. */
  function Refresh(data: SimplePrice): (t: Table)
    ensures t.Keys == SYMBOLS
    ensures XDAI in t && t[XDAI] == 1.0
    ensures forall s :: s in FALLBACKS ==> t[s] == RefreshedPrice(data, s)
  {
    RefreshedKeys(data);
    RefreshedLines(data);
    Fill(Seeded(data), Falsy, FALLBACKS)
  }

  lemma RefreshedKeys(data: SimplePrice)
    ensures var t := Fill(Seeded(data), Falsy, FALLBACKS);
      t.Keys == SYMBOLS && XDAI in t && t[XDAI] == 1.0
  {
    FillKeys(Seeded(data), Falsy, FALLBACKS);
    SeededKeys(data);
    SeededWithin(data);
    SymbolsSplit();
    KeysBetween(Seeded(data).Keys, SYMBOLS, FALLBACKS.Keys, XDAI);
  }

  lemma RefreshedLines(data: SimplePrice)
    ensures var t := Fill(Seeded(data), Falsy, FALLBACKS);
      forall s :: s in FALLBACKS ==> s in t && t[s] == RefreshedPrice(data, s)
  {
    SeededKeys(data);
    SeededMajors(data);
  }

  lemma RefreshComplete(data: SimplePrice)
    ensures Complete(Refresh(data))
  {
    var t := Refresh(data);
    SymbolsSplit();
    forall s | s in SYMBOLS
      ensures t[s] != 0.0
    {
      if s != XDAI {
        RefreshedPriceNonZero(data, s);
      }
    }
  }

  lemma RefreshedPriceNonZero(data: SimplePrice, s: Symbol)
    requires s in FALLBACKS
    ensures RefreshedPrice(data, s) != 0.0
  {
    ConstantsListed();
  }

  /** Every cached table is complete: only refreshes are stored. */
  predicate CacheInvariant(cache: Option<Entry>) {
    cache.Some? ==> Complete(cache.value.prices)
  }

  /** `fetchPrices` of this revision. `majors` is the `simple/price` body,
      None when the request failed, was not ok or its body could not be
      read. A fresh cache is answered as is; a successful refresh is stored
      with `doneAt`; a failure gives the fallback table and leaves the cache
      alone, whatever it holds. */
  function FetchPrices(cache: Option<Entry>, now: int, majors: Option<SimplePrice>, doneAt: int): (r: Served<Table>)
    ensures IsFresh(cache, now) ==> r == Served(cache.value.prices, cache)
    ensures !IsFresh(cache, now) && majors.Some? ==>
      r.value == Refresh(majors.value) && r.cache == Some(Entry(r.value, doneAt))
    ensures !IsFresh(cache, now) && majors.None? ==> r == Served(FALLBACK_TABLE, cache)
    ensures CacheInvariant(cache) ==> Complete(r.value) && CacheInvariant(r.cache)
  {
    if IsFresh(cache, now) then Served(cache.value.prices, cache)
    else if majors.Some? then
      var prices := Refresh(majors.value);
      RefreshComplete(majors.value);
      Served(prices, Some(Entry(prices, doneAt)))
    else
      FallbackTableComplete();
      Served(FALLBACK_TABLE, cache)
  }

  /** The cache hit: once a call has refreshed the table, every call made
      less than CACHE_DURATION after the refresh was stored answers with
      the same table and leaves the cache alone, whether or not the price
      source would answer by then. */
  lemma CacheServesRefresh(cache: Option<Entry>, now: int, majors: SimplePrice, doneAt: int,
                           later: int, laterMajors: Option<SimplePrice>, laterDoneAt: int)
    requires !IsFresh(cache, now)
    requires later < doneAt + CACHE_DURATION
    ensures var first := FetchPrices(cache, now, Some(majors), doneAt);
      FetchPrices(first.cache, later, laterMajors, laterDoneAt) == first
  {
  }

  /** Once the cache is stale, a failed refresh answers the same whatever
      the cache holds: the old table is never served. */
  lemma FailureIgnoresCache(c1: Option<Entry>, c2: Option<Entry>, now: int, doneAt: int)
    requires !IsFresh(c1, now) && !IsFresh(c2, now)
    ensures FetchPrices(c1, now, None, doneAt).value == FetchPrices(c2, now, None, doneAt).value
  {
  }

  /** The handler: OPTIONS gets an empty 200; any other request the table
      `fetchPrices` returns, with 200. `fetchPrices` catches its own
      failure, so the 500 branch cannot be taken. */
  function Handle(verb: Method, cache: Option<Entry>, now: int, majors: Option<SimplePrice>, doneAt: int)
    : (r: Served<Response<Table>>)
    requires CacheInvariant(cache)
    ensures verb == Options ==> r == Served(Empty, cache)
    ensures r.value.Status() == 200
    ensures verb != Options ==> r.value.Ok? && Complete(r.value.body) && CacheInvariant(r.cache)
    ensures verb != Options ==>
      var fetched := FetchPrices(cache, now, majors, doneAt);
      r == Served(Ok(fetched.value), fetched.cache)
  {
    if verb == Options then Served(Empty, cache)
    else
      var fetched := FetchPrices(cache, now, majors, doneAt);
      Served(Ok(fetched.value), fetched.cache)
  }
}
