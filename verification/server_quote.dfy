/** `calculateQuote` of the Express server (server/routes.ts): a quote from
    any source symbol to any target symbol by USD equivalence, with 50 bps
    slippage, a 0.1 % fee and an output precision chosen by magnitude. */
module ServerQuote {
  import opened Common
  import opened PriceTable
  import opened PriceCache
  import opened QuoteMath
  import opened ServerPrices

  /** The symbol name a request asks for: the parameter, ETH when it is
      missing or empty, upper-cased. */
  function TokenName(param: Option<string>): (name: string)
    ensures name != "" && NoLowerLetter(name)
    ensures ToLower(name) == ToLower(OrDefault(param, "ETH"))
    ensures param.None? || param.value == "" ==> name == "ETH"
    ensures param.Some? && NoLowerLetter(param.value) && param.value != "" ==> name == param.value
  {
    var name := OrDefault(param, "ETH");
    UpperFixesUpper(name);
    UpperFixesUpper("ETH");
    UpperKeepsLetters(name);
    ToUpper(name)
  }

  /** Normalising a name that is already normalised changes nothing. */
  lemma TokenNameIdempotent(param: Option<string>)
    ensures TokenName(Some(TokenName(param))) == TokenName(param)
  {
  }

  /** The table entry an upper-cased name selects, as written:
      `prices[name]` looks the name up verbatim, so it can reach every key
      except the mixed-case `xDAI`. */
  function LookupAsWritten(name: string): Symbol {
    FromName(name)
  }

  /** The table entry an upper-cased name evidently should select: the
      symbol whose own name upper-cases to it. */
  function Lookup(name: string): (sym: Symbol)
    ensures name != "XDAI" ==> sym == LookupAsWritten(name)
  {
    if name == "XDAI" then XDAI else FromName(name)
  }

  /** The price a quote uses for a symbol: its entry when truthy, the ETH
      entry otherwise. */
  function PriceUsed(t: Table, sym: Symbol): (p: real)
    requires Priced(t, ETH)
    ensures p != 0.0
    ensures Priced(t, sym) ==> p == t[sym]
    ensures !Priced(t, sym) ==> p == t[ETH]
  {
    PriceOr(t, sym, t[ETH])
  }

  /** Output precision: two places above 100 received units, nine
      otherwise. */
  function OutputDecimals(net: real): nat {
    if net > 100.0 then 2 else 9
  }

  /** The prices a quote uses, as written: the source's and the target's,
      each looked up verbatim under its normalised name. */
  function SourcePrice(q: Quote, t: Table): real
    requires Priced(t, ETH)
  {
    PriceUsed(t, LookupAsWritten(q.inputToken))
  }

  function TargetPrice(q: Quote, t: Table): real
    requires Priced(t, ETH)
  {
    PriceUsed(t, LookupAsWritten(q.outputToken))
  }

  /** The quote record for a valid amount, given the normalised names and
      the two prices used. */
  function QuoteAt(amount: Amount, source: string, target: string, sp: real, tp: real, eth: real): Quote
    requires ValidAmount(amount) && tp != 0.0
  {
    var d := Deduct(Convert(amount.parsed.value, sp, tp));
    var places := OutputDecimals(d.net);
    Quote(
      amount.text, source, Fixed(amount.parsed.value * sp, 2),
      Fixed(d.net, places), target, SLIPPAGE_BPS, BRIDGE_FEE_PERCENT,
      Fixed(d.fee, places), Fixed(d.slippage, places),
      "~5 minutes", Fixed(sp / tp, 6),
      map[source := sp][target := tp]["ETH" := eth])
  }

  /** The quote for a valid amount against a table whose ETH entry is
      truthy, with the prices looked up as the server writes it. */
  function QuoteFromTable(amount: Amount, inputParam: Option<string>, targetParam: Option<string>, t: Table): (q: Quote)
    requires ValidAmount(amount) && Priced(t, ETH)
    ensures q.inputAmount == amount.text
    ensures q.inputToken == TokenName(inputParam) && q.outputToken == TokenName(targetParam)
    ensures q.outputAmount.decimals == q.feeAmount.decimals == q.slippageAmount.decimals
    ensures q.outputAmount.decimals == 2 <==> q.outputAmount.value > 100.0
    ensures q.outputAmount.decimals == 2 || q.outputAmount.decimals == 9
    ensures q.slippageBps == 50 && q.feePercent == 0.1 && q.estimatedTime == "~5 minutes"
  {
    var source := TokenName(inputParam);
    var target := TokenName(targetParam);
    QuoteAt(amount, source, target,
      PriceUsed(t, LookupAsWritten(source)), PriceUsed(t, LookupAsWritten(target)), t[ETH])
  }

  /** The quote preserves USD value up to the 0.6 % deduction: the receiver's
      amount is worth 99.4 % of the input at the prices used; output, fee and
      slippage add up to the converted amount, and slippage is five times the
      fee. */
  lemma QuoteConservesValue(amount: Amount, inputParam: Option<string>, targetParam: Option<string>, t: Table)
    requires ValidAmount(amount) && Priced(t, ETH)
    ensures var q := QuoteFromTable(amount, inputParam, targetParam, t);
      var a := amount.parsed.value;
      var sp := SourcePrice(q, t);
      var tp := TargetPrice(q, t);
      && q.inputUsdValue == Fixed(a * sp, 2)
      && q.exchangeRate == Fixed(sp / tp, 6)
      && q.outputAmount.value * tp == a * sp * 0.994
      && q.outputAmount.value + q.feeAmount.value + q.slippageAmount.value == a * sp / tp
      && q.feeAmount.value * 5.0 == q.slippageAmount.value
  {
  }

  /** The `prices` field reports the two prices used and the ETH price,
      keyed by the normalised names. */
  lemma QuoteReportsPrices(amount: Amount, inputParam: Option<string>, targetParam: Option<string>, t: Table)
    requires ValidAmount(amount) && Priced(t, ETH)
    ensures var q := QuoteFromTable(amount, inputParam, targetParam, t);
      && q.prices.Keys == {q.inputToken, q.outputToken, "ETH"}
      && q.prices["ETH"] == t[ETH]
      && q.prices[q.inputToken] == SourcePrice(q, t)
      && q.prices[q.outputToken] == TargetPrice(q, t)
  {
    var q := QuoteFromTable(amount, inputParam, targetParam, t);
    assert LookupAsWritten("ETH") == ETH;
  }

  /** Quoting a symbol into itself converts nothing: the receiver gets 99.4 %
      of the amount at an exchange rate of one. */
  lemma SameTokenKeepsAmount(amount: Amount, inputParam: Option<string>, targetParam: Option<string>, t: Table)
    requires ValidAmount(amount) && Priced(t, ETH)
    requires TokenName(inputParam) == TokenName(targetParam)
    ensures var q := QuoteFromTable(amount, inputParam, targetParam, t);
      q.outputAmount.value == amount.parsed.value * 0.994 && q.exchangeRate == Fixed(1.0, 6)
  {
    QuoteConservesValue(amount, inputParam, targetParam, t);
    var q := QuoteFromTable(amount, inputParam, targetParam, t);
    var p := TargetPrice(q, t);
    assert SourcePrice(q, t) == p;
    assert p / p == 1.0;
  }

  /** Quotes are linear in the amount: `k` times the amount receives `k`
      times the output (the rendered precision may differ). */
  lemma QuoteScales(amount: Amount, scaled: Amount, k: real, inputParam: Option<string>, targetParam: Option<string>, t: Table)
    requires ValidAmount(amount) && Priced(t, ETH) && k > 0.0
    requires scaled.parsed == Some(k * amount.parsed.value)
    ensures ValidAmount(scaled)
    ensures QuoteFromTable(scaled, inputParam, targetParam, t).outputAmount.value
      == k * QuoteFromTable(amount, inputParam, targetParam, t).outputAmount.value
  {
    var q := QuoteFromTable(amount, inputParam, targetParam, t);
    var q' := QuoteFromTable(scaled, inputParam, targetParam, t);
    QuoteConservesValue(amount, inputParam, targetParam, t);
    QuoteConservesValue(scaled, inputParam, targetParam, t);
    var tp := TargetPrice(q, t);
    assert TargetPrice(q', t) == tp;
    assert q'.outputAmount.value * tp == k * (q.outputAmount.value * tp);
  }

  /** Quoting the received amount back to the source symbol against the same
      table returns the original amount less two deductions, 0.994², before
      rendering. */
  lemma RoundTrip(amount: Amount, back: Amount, inputParam: Option<string>, targetParam: Option<string>, t: Table)
    requires ValidAmount(amount) && Priced(t, ETH)
    requires back.parsed == Some(QuoteFromTable(amount, inputParam, targetParam, t).outputAmount.value)
    requires ValidAmount(back)
    ensures var q := QuoteFromTable(amount, inputParam, targetParam, t);
      QuoteFromTable(back, Some(q.outputToken), Some(q.inputToken), t).outputAmount.value
        == amount.parsed.value * 0.994 * 0.994
  {
    var a := amount.parsed.value;
    var q := QuoteFromTable(amount, inputParam, targetParam, t);
    QuoteConservesValue(amount, inputParam, targetParam, t);
    var sp := SourcePrice(q, t);
    var tp := TargetPrice(q, t);
    TokenNameIdempotent(inputParam);
    TokenNameIdempotent(targetParam);
    var r := QuoteFromTable(back, Some(q.outputToken), Some(q.inputToken), t);
    QuoteConservesValue(back, Some(q.outputToken), Some(q.inputToken), t);
    assert SourcePrice(r, t) == tp && TargetPrice(r, t) == sp;
    ScaleBack(a, sp, tp, q.outputAmount.value, r.outputAmount.value);
  }

  /** Two conversions at inverse prices, each keeping 99.4 %. */
  lemma ScaleBack(a: real, sp: real, tp: real, out: real, back: real)
    requires sp != 0.0 && tp != 0.0
    requires out * tp == a * sp * 0.994
    requires back * sp == out * tp * 0.994
    ensures back == a * 0.994 * 0.994
  {
    assert back * sp == (a * 0.994 * 0.994) * sp;
  }

  /** Upper-casing the name of a symbol of the table: only `xDAI` changes. */
  lemma UpperCasedNames(sym: Symbol)
    requires sym in SYMBOLS
    ensures sym != XDAI ==> ToUpper(Name(sym)) == Name(sym) && Name(sym) != "XDAI"
    ensures sym == XDAI ==> ToUpper(Name(sym)) == "XDAI"
  {
    if sym == XDAI {
      assert ToUpper("xDAI")[0] == 'X';
    } else {
      assert NoLowerLetter(Name(sym));
      UpperFixesUpper(Name(sym));
    }
  }

  /** The price the server gives a request, as written. */
  function PriceAsWritten(t: Table, param: Option<string>): real
    requires Priced(t, ETH)
  {
    PriceUsed(t, LookupAsWritten(TokenName(param)))
  }

  /** As written, a request for xDAI, in any spelling, is priced as ETH:
      upper-casing turns it into `XDAI`, which is not a key of a refreshed
      table. */
  lemma XDaiPricedAsEth(param: string, t: Table)
    requires ToUpper(param) == "XDAI"
    requires Priced(t, ETH) && t.Keys == SYMBOLS
    ensures PriceAsWritten(t, Some(param)) == t[ETH]
  {
    assert param != "";
    assert LookupAsWritten(TokenName(Some(param))) == Other("XDAI");
    assert Other("XDAI") !in SYMBOLS;
  }

  /** In a table refreshed while the majors request failed, one xDAI is
      priced at 3000 USD instead of 1. */
  lemma XDaiCounterexample(f: Feeds)
    requires f.majors.None?
    ensures var t := Refresh(f);
      && Priced(t, ETH) && t[ETH] == 3000.0 && t[XDAI] == 1.0
      && PriceAsWritten(t, Some("xDAI")) == 3000.0
  {
    EthFallback();
    var t := Refresh(f);
    assert t[ETH] == BasketPrice(f, ETH);
    XDaiMispriced(t);
  }

  /** The `xDAI` spelling in particular is priced as ETH. */
  lemma XDaiMispriced(t: Table)
    requires Priced(t, ETH) && t.Keys == SYMBOLS
    ensures PriceAsWritten(t, Some("xDAI")) == t[ETH]
  {
    UpperCasedNames(XDAI);
    XDaiPricedAsEth("xDAI", t);
  }

  /** So a quote from xDAI against that table values the deposit three
      thousand times too high. */
  lemma XDaiQuoteCounterexample(f: Feeds, amount: Amount)
    requires f.majors.None? && ValidAmount(amount)
    ensures var t := Refresh(f);
      && Priced(t, ETH)
      && QuoteFromTable(amount, Some("xDAI"), None, t).inputUsdValue == Fixed(amount.parsed.value * 3000.0, 2)
  {
    XDaiCounterexample(f);
    XDaiQuotedAsEth(amount, Refresh(f));
  }

  /** As written, a quote from xDAI values the deposit at the ETH price. */
  lemma XDaiQuotedAsEth(amount: Amount, t: Table)
    requires ValidAmount(amount) && Priced(t, ETH) && t.Keys == SYMBOLS
    ensures QuoteFromTable(amount, Some("xDAI"), None, t).inputUsdValue == Fixed(amount.parsed.value * t[ETH], 2)
  {
    XDaiMispriced(t);
  }

  /** With the corrected lookup, every symbol of the table is reached by
      every spelling of its name, so a request is priced at that symbol's
      own entry whenever it is truthy. */
  lemma LookupFindsEverySpelling(sym: Symbol, param: string, t: Table)
    requires sym in SYMBOLS && Priced(t, ETH)
    requires ToUpper(param) == ToUpper(Name(sym))
    ensures Lookup(TokenName(Some(param))) == sym
    ensures Priced(t, sym) ==> PriceUsed(t, Lookup(TokenName(Some(param)))) == t[sym]
  {
    UpperCasedNames(sym);
    NameRoundTrip(sym, Name(sym));
    assert |param| == |ToUpper(param)|;
  }

  /** The quote as evidently intended: both prices looked up through the
      corrected `Lookup`. */
  function CorrectedQuoteFromTable(amount: Amount, inputParam: Option<string>, targetParam: Option<string>, t: Table): (q: Quote)
    requires ValidAmount(amount) && Priced(t, ETH)
    ensures q.inputToken == TokenName(inputParam) && q.outputToken == TokenName(targetParam)
    ensures q.inputUsdValue == Fixed(amount.parsed.value * PriceUsed(t, Lookup(q.inputToken)), 2)
    ensures q.outputAmount.value * PriceUsed(t, Lookup(q.outputToken))
      == amount.parsed.value * PriceUsed(t, Lookup(q.inputToken)) * 0.994
  {
    var source := TokenName(inputParam);
    var target := TokenName(targetParam);
    QuoteAt(amount, source, target,
      PriceUsed(t, Lookup(source)), PriceUsed(t, Lookup(target)), t[ETH])
  }

  /** The correction changes no quote whose names are not xDAI's. */
  lemma CorrectionOnlyTouchesXDai(amount: Amount, inputParam: Option<string>, targetParam: Option<string>, t: Table)
    requires ValidAmount(amount) && Priced(t, ETH)
    requires TokenName(inputParam) != "XDAI" && TokenName(targetParam) != "XDAI"
    ensures CorrectedQuoteFromTable(amount, inputParam, targetParam, t) == QuoteFromTable(amount, inputParam, targetParam, t)
  {
  }

  /** With the correction, a quote from xDAI in any spelling, against a
      refreshed table, values the deposit at xDAI's own price of 1 USD. */
  lemma CorrectedQuotePricesXDai(amount: Amount, param: string, targetParam: Option<string>, f: Feeds)
    requires ValidAmount(amount) && ToUpper(param) == "XDAI"
    ensures var t := Refresh(f);
      && Priced(t, ETH)
      && CorrectedQuoteFromTable(amount, Some(param), targetParam, t).inputUsdValue == Fixed(amount.parsed.value, 2)
  {
    var t := Refresh(f);
    RefreshComplete(f);
    GroupsListed();
    UpperCasedNames(XDAI);
    LookupFindsEverySpelling(XDAI, param, t);
  }

  /** The request-level `calculateQuote`: None (`null`) exactly for an amount
      that parses to NaN or is not positive, in which case the price cache
      is not consulted; otherwise the quote against `fetchPrices`' table. */
  function CalculateQuote(amount: Amount, inputParam: Option<string>, targetParam: Option<string>,
                          cache: Option<Entry>, now: int, feeds: Feeds, doneAt: int): (r: Served<Option<Quote>>)
    requires CacheInvariant(cache)
    ensures r.value.None? <==> !ValidAmount(amount)
    ensures r.value.None? ==> r.cache == cache
    ensures CacheInvariant(r.cache)
    ensures r.value.Some? ==>
      var fetched := FetchPrices(cache, now, feeds, doneAt);
      r.cache == fetched.cache && r.value.value == QuoteFromTable(amount, inputParam, targetParam, fetched.value)
  {
    if !ValidAmount(amount) then Served(None, cache)
    else
      var fetched := FetchPrices(cache, now, feeds, doneAt);
      GroupsListed();
      Served(Some(QuoteFromTable(amount, inputParam, targetParam, fetched.value)), fetched.cache)
  }
}
