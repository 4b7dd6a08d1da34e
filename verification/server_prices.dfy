/** `fetchPrices` of the Express server (server/routes.ts): CoinGecko majors,
    then Codex prices of the MegaETH tokens, then the separate HYPE query,
    then the fallback pass, cached for ten seconds. */
module ServerPrices {
  import opened Common
  import opened PriceTable
  import opened PriceCache
  import opened CoinGecko

  /** MegaETH token contract addresses queried from Codex. */
  const MEGAETH_TOKENS: map<Symbol, string> := map[
    FLUFFEY := "0xc5808cf8be4e4ce012aa65bf6f60e24a3cc82071",
    MEKA := "0x238214f6026601d5136ed88b5905e909ba06997b",
    KUMA := "0xd34f85ba2a331514666f3040f43d83306c7a85df",
    SIGMA := "0x023bb18826845645b121c5dfb65d23e834158491"
  ]

  const MEGAETH_NETWORK_ID: int := 4326

  /** The falsy-price fallback lines, in source order, and their constants. */
  const FALLBACK_ORDER: seq<Symbol> := [ETH, SOL, MATIC, BNB, AVAX, FTM, CRO, MNT, HYPE]
  const FALLBACKS: map<Symbol, real> := map[
    ETH := 3000.0, SOL := 150.0, MATIC := 0.5, BNB := 600.0, AVAX := 35.0,
    FTM := 0.5, CRO := 0.1, MNT := 0.8, HYPE := 25.0
  ]

  /** The MegaETH-token fallback lines (missing or not positive), in source
      order, and their constants. */
  const TOKEN_ORDER: seq<Symbol> := [FLUFFEY, MEKA, KUMA, SIGMA]
  const TOKEN_FALLBACKS: map<Symbol, real> := map[
    FLUFFEY := 0.0001, MEKA := 0.00002, KUMA := 0.000015, SIGMA := 0.00001
  ]

  /** Every symbol of a refreshed table. */
  const SYMBOLS: set<Symbol> := {
    XDAI, ETH, SOL, MATIC, BNB, AVAX, FTM, CRO, MNT, HYPE, FLUFFEY, MEKA, KUMA, SIGMA
  }

  /** One element of Codex's `getTokenPrices` list; a null element or a
      missing field is None. */
  datatype CodexEntry = CodexEntry(address: Option<string>, priceUsd: Option<real>)

  /** A price entry carries an address equal to `address` up to case. */
  predicate AddressMatches(e: CodexEntry, address: string) {
    e.address.Some? && ToLower(e.address.value) == ToLower(address)
  }

  /** Searching the token price list: the position of the first entry
      whose address equals `address` up to case, or None when no entry
      does. */
  function Find(entries: seq<CodexEntry>, address: string): (r: Option<nat>)
    ensures r.Some? ==> r.value < |entries| && AddressMatches(entries[r.value], address)
    ensures r.Some? ==> forall j :: 0 <= j < r.value ==> !AddressMatches(entries[j], address)
    ensures r.None? <==> forall j :: 0 <= j < |entries| ==> !AddressMatches(entries[j], address)
  {
    if |entries| == 0 then None
    else if AddressMatches(entries[0], address) then Some(0)
    else
      match Find(entries[1..], address)
      case None => None
      case Some(k) => Some(k + 1)
  }

  /** The price Codex contributes for a MegaETH token: the `priceUsd` of the
      first matching entry, when it is truthy. */
  function CodexPrice(entries: seq<CodexEntry>, sym: Symbol): Option<real>
    requires sym in MEGAETH_TOKENS
  {
    match Find(entries, MEGAETH_TOKENS[sym])
    case None => None
    case Some(j) =>
      if entries[j].priceUsd.Some? && entries[j].priceUsd.value != 0.0
      then Some(entries[j].priceUsd.value) else None
  }

  /** The assignments the Codex loop makes. */
  function CodexUpdate(entries: seq<CodexEntry>): Table {
    map s | s in MEGAETH_TOKENS && CodexPrice(entries, s).Some? :: CodexPrice(entries, s).value
  }

  /** What the three adapters produced during one refresh. `majors` is the
      `simple/price` body (None when the request failed or was not ok);
      `codexKey` says whether CODEX_API_KEY is set; `codex` is the
      `getTokenPrices` list (None when the request failed or was not ok;
      a missing list is the empty one); `hype` is `hyperliquid.usd`. */
  datatype Feeds = Feeds(
    majors: Option<SimplePrice>,
    codexKey: bool,
    codex: Option<seq<CodexEntry>>,
    hype: Option<real>)

  /** Codex results take part only with an API key and a successful request. */
  predicate CodexApplies(f: Feeds) {
    f.codexKey && f.codex.Some?
  }

  /** The Codex price a MegaETH token gets during the merge, if any. */
  function CodexFor(f: Feeds, sym: Symbol): Option<real>
    requires sym in MEGAETH_TOKENS
  {
    if CodexApplies(f) then CodexPrice(f.codex.value, sym) else None
  }

  /** The seed `{ xDAI: 1 }` overwritten by the truthy majors. */
  function AfterMajors(f: Feeds): Table {
    var seeded := map[XDAI := 1.0];
    if f.majors.Some? then seeded + MajorsUpdate(f.majors.value) else seeded
  }

  /** Then overwritten by the truthy Codex prices. */
  function AfterCodex(f: Feeds): Table {
    var m := AfterMajors(f);
    if CodexApplies(f) then m + CodexUpdate(f.codex.value) else m
  }

  /** The table after the three adapters: `{ xDAI: 1 }`, overwritten by the
      majors, then by Codex, then by HYPE. */
  function Merge(f: Feeds): Table {
    WithHype(AfterCodex(f), f.hype)
  }

  /** Both fallback passes: first the falsy-price lines, then the MegaETH
      token lines. */
  function FallbackPasses(m: Table): Table {
    Fill(Fill(m, Falsy, FALLBACKS), FalsyOrNonPositive, TOKEN_FALLBACKS)
  }

  /** The price a refreshed table gives a basket symbol: its truthy majors
      value, or else its constant. */
  function BasketPrice(f: Feeds, s: Symbol): real
    requires s in COINGECKO_IDS
  {
    if f.majors.Some? && Quoted(f.majors.value, s) then f.majors.value[COINGECKO_IDS[s]] else FALLBACKS[s]
  }

  /** The price a refreshed table gives a MegaETH token: its Codex price when
      that is positive, or else its constant. */
  function MegaEthPrice(f: Feeds, s: Symbol): real
    requires s in MEGAETH_TOKENS
  {
    var codex := CodexFor(f, s);
    if codex.Some? && codex.value > 0.0 then codex.value else TOKEN_FALLBACKS[s]
  }

  /** The price a refreshed table gives HYPE: the truthy HYPE result, or 25. */
  function HypePrice(f: Feeds): real {
    if f.hype.Some? && f.hype.value != 0.0 then f.hype.value else 25.0
  }

  /** The assignments of the Codex loop are exactly the tokens with a
      truthy Codex price. */
  lemma CodexUpdateKeys(entries: seq<CodexEntry>)
    ensures forall s :: s in CodexUpdate(entries) <==> s in MEGAETH_TOKENS && CodexPrice(entries, s).Some?
    ensures forall s :: s in CodexUpdate(entries) ==> CodexUpdate(entries)[s] == CodexPrice(entries, s).value
  {
  }

  lemma GroupsDisjoint()
    ensures forall s :: s in COINGECKO_IDS ==> s != XDAI && s != HYPE && s !in MEGAETH_TOKENS
    ensures forall s :: s in MEGAETH_TOKENS ==> s != XDAI && s != HYPE
  {
  }

  /** What the majors overwrite leaves behind. */
  lemma AfterMajorsFacts(f: Feeds)
    ensures var m := AfterMajors(f);
      && (forall s :: s in m ==> s == XDAI || s in COINGECKO_IDS)
      && XDAI in m && m[XDAI] == 1.0
      && (forall s :: s in COINGECKO_IDS ==>
            (Priced(m, s) <==> f.majors.Some? && Quoted(f.majors.value, s))
            && (Priced(m, s) ==> m[s] == f.majors.value[COINGECKO_IDS[s]]))
  {
    GroupsDisjoint();
    if f.majors.Some? {
      MajorsUpdateKeys(f.majors.value);
    }
  }

  /** What the majors and Codex overwrites leave behind. */
  lemma AfterCodexFacts(f: Feeds)
    ensures var m := AfterCodex(f);
      && (forall s :: s in m ==> s == XDAI || s in COINGECKO_IDS || s in MEGAETH_TOKENS)
      && XDAI in m && m[XDAI] == 1.0
      && (forall s :: s in COINGECKO_IDS ==>
            (Priced(m, s) <==> f.majors.Some? && Quoted(f.majors.value, s))
            && (Priced(m, s) ==> m[s] == f.majors.value[COINGECKO_IDS[s]]))
      && (forall s :: s in MEGAETH_TOKENS ==>
            (s in m <==> CodexFor(f, s).Some?) && (s in m ==> m[s] == CodexFor(f, s).value))
  {
    AfterMajorsFacts(f);
    GroupsDisjoint();
    if CodexApplies(f) {
      CodexUpdateKeys(f.codex.value);
    }
  }

  /** What the merge leaves in the seed and in the symbols only one adapter
      writes. */
  lemma MergeFixed(f: Feeds)
    ensures var m := Merge(f);
      && (forall s :: s in m ==> s in SYMBOLS)
      && XDAI in m && m[XDAI] == 1.0 && CRO !in m && MNT !in m
      && (Priced(m, HYPE) <==> f.hype.Some? && f.hype.value != 0.0)
      && (Priced(m, HYPE) ==> m[HYPE] == f.hype.value)
  {
    AfterCodexFacts(f);
    GroupsInSymbols();
  }

  /** After the merge a basket symbol holds its truthy majors value, if any,
      and a MegaETH token its Codex price, if any. */
  lemma MergeFetched(f: Feeds)
    ensures var m := Merge(f);
      && (forall s :: s in COINGECKO_IDS ==>
            (Priced(m, s) <==> f.majors.Some? && Quoted(f.majors.value, s))
            && (Priced(m, s) ==> m[s] == f.majors.value[COINGECKO_IDS[s]]))
      && (forall s :: s in MEGAETH_TOKENS ==>
            (s in m <==> CodexFor(f, s).Some?) && (s in m ==> m[s] == CodexFor(f, s).value))
  {
    AfterCodexFacts(f);
    GroupsDisjoint();
    WithHypeElsewhere(AfterCodex(f), f.hype);
  }

  lemma GroupsInSymbols()
    ensures forall s :: s in COINGECKO_IDS ==> s in SYMBOLS
    ensures forall s :: s in MEGAETH_TOKENS ==> s in SYMBOLS
    ensures XDAI in SYMBOLS && CRO !in COINGECKO_IDS && CRO !in MEGAETH_TOKENS
    ensures MNT !in COINGECKO_IDS && MNT !in MEGAETH_TOKENS
  {
  }

  /** The two fallback lists name every symbol of their maps, and nothing
      else. */
  lemma FallbackListsCovered()
    ensures forall s :: s in FALLBACK_ORDER <==> s in FALLBACKS
    ensures forall s :: s in TOKEN_ORDER <==> s in TOKEN_FALLBACKS
  {
  }

  /** The passes, written line by line in any order that lists each
      symbol of its map (the source order among them), are the passes as a
      whole. */
  lemma FallbackPassesLineByLine(m: Table, order: seq<Symbol>, tokenOrder: seq<Symbol>)
    requires forall s :: s in order <==> s in FALLBACKS
    requires forall s :: s in tokenOrder <==> s in TOKEN_FALLBACKS
    ensures FallbackPasses(m)
      == FillLines(FillLines(m, Falsy, order, FALLBACKS), FalsyOrNonPositive, tokenOrder, TOKEN_FALLBACKS)
  {
    FillLinesIsFill(m, Falsy, order, FALLBACKS);
    FillLinesIsFill(Fill(m, Falsy, FALLBACKS), FalsyOrNonPositive, tokenOrder, TOKEN_FALLBACKS);
  }

  /** In particular the two fallback blocks, run statement by statement in
      the order the source writes them, are the passes as a whole. */
  lemma FallbackPassesInSourceOrder(m: Table)
    ensures FallbackPasses(m)
      == FillLines(FillLines(m, Falsy, FALLBACK_ORDER, FALLBACKS), FalsyOrNonPositive, TOKEN_ORDER, TOKEN_FALLBACKS)
  {
    FallbackListsCovered();
    FallbackPassesLineByLine(m, FALLBACK_ORDER, TOKEN_ORDER);
  }

  lemma FallbackListsDisjoint()
    ensures XDAI !in FALLBACKS && XDAI !in TOKEN_FALLBACKS
    ensures forall s :: s in TOKEN_FALLBACKS ==> s !in FALLBACKS
  {
  }

  lemma SymbolsSplit()
    ensures SYMBOLS == {XDAI} + (FALLBACKS.Keys + TOKEN_FALLBACKS.Keys)
  {
  }

  /** What both fallback passes do to each group of symbols. */
  lemma PassesFacts(m: Table)
    ensures var t := FallbackPasses(m);
      && (forall s :: s in t <==> s in m || s in FALLBACKS || s in TOKEN_FALLBACKS)
      && (XDAI in m ==> t[XDAI] == m[XDAI])
      && (forall s :: s in FALLBACKS ==> t[s] == (if Priced(m, s) then m[s] else FALLBACKS[s]))
      && (forall s :: s in TOKEN_FALLBACKS ==> t[s] == (if s in m && m[s] > 0.0 then m[s] else TOKEN_FALLBACKS[s]))
  {
    FallbackListsDisjoint();
  }

  lemma GroupsListed()
    ensures forall s :: s in COINGECKO_IDS ==> s in FALLBACKS
    ensures forall s :: s in MEGAETH_TOKENS <==> s in TOKEN_FALLBACKS
    ensures CRO in FALLBACKS && MNT in FALLBACKS && HYPE in FALLBACKS
    ensures FALLBACKS[CRO] == 0.1 && FALLBACKS[MNT] == 0.8 && FALLBACKS[HYPE] == 25.0
  {
  }

  /** ETH is fetched with the majors and falls back to 3000. */
  lemma EthFallback()
    ensures ETH in COINGECKO_IDS && FALLBACKS[ETH] == 3000.0
  {
  }

  lemma RefreshedKeys(f: Feeds)
    ensures FallbackPasses(Merge(f)).Keys == SYMBOLS
  {
    MergeKeys(f);
    PassesKeysExact(Merge(f));
  }

  /** The passes complete any table within the symbols that holds xDAI to
      exactly the symbols. */
  lemma PassesKeysExact(m: Table)
    requires m.Keys <= SYMBOLS
    requires XDAI in m
    ensures FallbackPasses(m).Keys == SYMBOLS
  {
    FillKeys(m, Falsy, FALLBACKS);
    FillKeys(Fill(m, Falsy, FALLBACKS), FalsyOrNonPositive, TOKEN_FALLBACKS);
    SymbolsSplit();
    KeysBetween(m.Keys, SYMBOLS, FALLBACKS.Keys + TOKEN_FALLBACKS.Keys, XDAI);
  }

  lemma MergeKeys(f: Feeds)
    ensures Merge(f).Keys <= SYMBOLS
    ensures XDAI in Merge(f)
  {
    MergeFixed(f);
  }

  lemma RefreshedFixed(f: Feeds)
    ensures var t := FallbackPasses(Merge(f));
      && XDAI in t && CRO in t && MNT in t && HYPE in t
      && t[XDAI] == 1.0 && t[CRO] == 0.1 && t[MNT] == 0.8 && t[HYPE] == HypePrice(f)
  {
    MergeFixed(f);
    PassesFacts(Merge(f));
    GroupsListed();
  }

  lemma RefreshedBasket(f: Feeds)
    ensures var t := FallbackPasses(Merge(f));
      forall s :: s in COINGECKO_IDS ==> s in t && t[s] == BasketPrice(f, s)
  {
    MergeFetched(f);
    PassesFacts(Merge(f));
    GroupsListed();
  }

  lemma RefreshedTokens(f: Feeds)
    ensures var t := FallbackPasses(Merge(f));
      forall s :: s in MEGAETH_TOKENS ==> s in t && t[s] == MegaEthPrice(f, s)
  {
    MergeFetched(f);
    PassesFacts(Merge(f));
    GroupsListed();
  }

  /** A refreshed table: the merge followed by both fallback passes. It holds
      exactly the fourteen symbols; xDAI is 1, CRO and MNT (fetched by no
      adapter) hold their constants, and every other symbol holds its adapter
      value when that passed the fallback guard and its constant otherwise. */
  function Refresh(f: Feeds): (t: Table)
    ensures t.Keys == SYMBOLS
    ensures XDAI in t && CRO in t && MNT in t && HYPE in t
    ensures t[XDAI] == 1.0 && t[CRO] == 0.1 && t[MNT] == 0.8 && t[HYPE] == HypePrice(f)
    ensures forall s :: s in COINGECKO_IDS ==> s in t && t[s] == BasketPrice(f, s)
    ensures forall s :: s in MEGAETH_TOKENS ==> s in t && t[s] == MegaEthPrice(f, s)
  {
    RefreshedKeys(f);
    RefreshedFixed(f);
    RefreshedBasket(f);
    RefreshedTokens(f);
    FallbackPasses(Merge(f))
  }

  /** The guarantee a refreshed table gives its readers: every symbol of the
      falsy-price fallback list is truthy, every MegaETH token is strictly
      positive, and xDAI is 1. */
  predicate Complete(t: Table) {
    && (forall s :: s in FALLBACKS ==> Priced(t, s))
    && (forall s :: s in TOKEN_FALLBACKS ==> s in t && t[s] > 0.0)
    && XDAI in t && t[XDAI] == 1.0
  }

  lemma ConstantsAcceptable()
    ensures forall s :: s in FALLBACKS ==> Acceptable(Falsy, FALLBACKS[s])
    ensures forall s :: s in TOKEN_FALLBACKS ==> Acceptable(FalsyOrNonPositive, TOKEN_FALLBACKS[s])
  {
  }

  /** Both fallback passes complete any table whose xDAI entry is 1. */
  lemma PassesComplete(m: Table)
    requires XDAI in m && m[XDAI] == 1.0
    ensures Complete(FallbackPasses(m))
  {
    ConstantsAcceptable();
    FallbackListsDisjoint();
    var first := Fill(m, Falsy, FALLBACKS);
    FillEstablishesGuard(m, Falsy, FALLBACKS);
    FillEstablishesGuard(first, FalsyOrNonPositive, TOKEN_FALLBACKS);
  }

  /** Every refreshed table is complete. */
  lemma RefreshComplete(f: Feeds)
    ensures Complete(Refresh(f))
  {
    MergeFixed(f);
    PassesComplete(Merge(f));
  }

  /** The cache only ever holds refreshed tables. */
  predicate CacheInvariant(cache: Option<Entry>) {
    cache.Some? ==> Complete(cache.value.prices)
  }

  /** `fetchPrices`: the cached table while it is fresh at `now`; otherwise a
      refresh from `feeds`, stored with `doneAt`, the clock reading taken
      after the adapters returned. Whatever the feeds, the table returned
      is complete and the cache stays well formed. */
  function FetchPrices(cache: Option<Entry>, now: int, feeds: Feeds, doneAt: int): (r: Served<Table>)
    ensures IsFresh(cache, now) ==> r.value == cache.value.prices && r.cache == cache
    ensures !IsFresh(cache, now) ==> r.cache == Some(Entry(r.value, doneAt)) && r.value == Refresh(feeds)
    ensures CacheInvariant(cache) ==> Complete(r.value) && CacheInvariant(r.cache)
  {
    if IsFresh(cache, now) then Served(cache.value.prices, cache)
    else
      var prices := Refresh(feeds);
      RefreshComplete(feeds);
      Served(prices, Some(Entry(prices, doneAt)))
  }

  /** The cache hit: once a call has refreshed the table, every call made
      less than CACHE_DURATION after the refresh was stored answers with
      the same table and leaves the cache alone, whatever the adapters
      would report by then. */
  lemma CacheServesRefresh(cache: Option<Entry>, now: int, feeds: Feeds, doneAt: int,
                           later: int, laterFeeds: Feeds, laterDoneAt: int)
    requires !IsFresh(cache, now)
    requires later < doneAt + CACHE_DURATION
    ensures var first := FetchPrices(cache, now, feeds, doneAt);
      FetchPrices(first.cache, later, laterFeeds, laterDoneAt) == first
  {
  }
}
