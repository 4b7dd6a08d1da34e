/** How the three revisions of the price table and the quote differ, and
    where they agree. */
module Revisions {
  import opened Common
  import opened PriceTable
  import opened PriceCache
  import opened CoinGecko
  import opened QuoteMath
  import ServerPrices
  import ServerQuote
  import ApiQuote
  import ApiPrices

  /** The two serverless revisions share their fallback lines, their
      fallback table and their symbol set. */
  lemma ServerlessConstantsAgree()
    ensures ApiPrices.FALLBACKS == ApiQuote.FALLBACKS
    ensures ApiPrices.FALLBACK_TABLE == ApiQuote.FALLBACK_TABLE
    ensures ApiPrices.SYMBOLS == ApiQuote.SYMBOLS
  {
  }

  /** The server's fallback lines cover the same nine symbols as the
      serverless ones, and differ exactly in ETH (3000 against 3500) and
      SOL (150 against 180). */
  lemma FallbackConstantsDiffer()
    ensures ServerPrices.FALLBACKS.Keys == ApiQuote.FALLBACKS.Keys
    ensures forall s :: s in ServerPrices.FALLBACKS ==>
      (ServerPrices.FALLBACKS[s] == ApiQuote.FALLBACKS[s] <==> s != ETH && s != SOL)
    ensures ServerPrices.FALLBACKS[ETH] == 3000.0 && ApiQuote.FALLBACKS[ETH] == 3500.0
    ensures ServerPrices.FALLBACKS[SOL] == 150.0 && ApiQuote.FALLBACKS[SOL] == 180.0
  {
  }

  /** A refresh of the prices endpoint is a refresh of the quote endpoint
      whose HYPE request failed. */
  lemma PricesRefreshIsQuoteRefreshWithoutHype(data: SimplePrice)
    ensures ApiPrices.Refresh(data) == ApiQuote.Refresh(data, None)
  {
    ServerlessConstantsAgree();
    var p := ApiPrices.Refresh(data);
    var q := ApiQuote.Refresh(data, None);
    assert forall s :: s in p ==> s == XDAI || s in ApiQuote.FALLBACKS by {
      ApiQuote.ConstantsListed();
    }
    assert forall s :: s in ApiQuote.FALLBACKS ==>
      ApiPrices.RefreshedPrice(data, s) == ApiQuote.RefreshedPrice(data, None, s);
  }

  /** After a failed majors request with a stale entry in the cache, the
      quote endpoint prices with the stale table and keeps it, while the
      prices endpoint answers with its fallback table. */
  lemma StaleOnFailureOnlyInQuote(e: Entry, now: int, hype: Option<real>, doneAt: int)
    requires !IsFresh(Some(e), now)
    ensures ApiQuote.FetchPrices(Some(e), now, ApiQuote.Feeds(None, hype), doneAt) == Served(e.prices, Some(e))
    ensures ApiPrices.FetchPrices(Some(e), now, None, doneAt) == Served(ApiPrices.FALLBACK_TABLE, Some(e))
  {
  }

  /** With an empty cache both serverless revisions answer a failed majors
      request with the same fallback table. */
  lemma ColdFailureAgrees(now: int, hype: Option<real>, doneAt: int)
    ensures ApiQuote.FetchPrices(None, now, ApiQuote.Feeds(None, hype), doneAt).value
      == ApiPrices.FetchPrices(None, now, None, doneAt).value
  {
    ServerlessConstantsAgree();
  }

  /** The server's quote never uses six decimals, the serverless one always
      does. */
  lemma OutputPrecisionDiffers(amount: Amount, inputParam: Option<string>, targetParam: Option<string>,
                               chain: Option<int>, t: Table)
    requires ValidAmount(amount) && Priced(t, ETH)
    ensures ServerQuote.QuoteFromTable(amount, inputParam, targetParam, t).outputAmount.decimals != 6
    ensures ApiQuote.QuoteFromTable(amount, chain, t).outputAmount.decimals == 6
  {
  }

  /** From ETH into ETH the two quote revisions deliver the same amount. */
  lemma EthQuotesAgree(amount: Amount, t: Table)
    requires ValidAmount(amount) && Priced(t, ETH)
    ensures ServerQuote.QuoteFromTable(amount, None, None, t).outputAmount.value
      == ApiQuote.QuoteFromTable(amount, Some(8453), t).outputAmount.value
  {
    ServerQuote.SameTokenKeepsAmount(amount, None, None, t);
    ApiQuote.QuoteConservesValue(amount, Some(8453), t);
  }
}
