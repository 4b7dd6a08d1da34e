/** The quote arithmetic and the quote record, common to both revisions of
    `calculateQuote`. */
module QuoteMath {
  import opened Common

  /** Synthetic slippage, in basis points. */
  const SLIPPAGE_BPS: int := 50

  /** Bridge fee, in percent. */
  const BRIDGE_FEE_PERCENT: real := 0.1

  /** The amount text a request carried and what `parseFloat` made of it
      (None for NaN). */
  datatype Amount = Amount(text: string, parsed: Option<real>)

  /** `calculateQuote` accepts an amount that parses to a positive number. */
  predicate ValidAmount(a: Amount) {
    a.parsed.Some? && a.parsed.value > 0.0
  }

  /** A number rendered with a fixed number of places: the decimal rendering of `value` at `decimals`
      places, kept symbolic. */
  datatype Fixed = Fixed(value: real, decimals: nat)

  /** The slippage and fee taken from a gross output, and what is left. */
  datatype Deduction = Deduction(slippage: real, fee: real, net: real)

  /** Slippage is SLIPPAGE_BPS/10000 of the gross output and the fee is
      BRIDGE_FEE_PERCENT/100 of it; the receiver gets the rest, 99.4 %. */
  function Deduct(gross: real): (d: Deduction)
    ensures d.slippage == gross * 5.0 / 1000.0
    ensures d.fee == gross / 1000.0
    ensures d.net == gross * 994.0 / 1000.0
    ensures d.net + d.slippage + d.fee == gross
    ensures gross > 0.0 ==> 0.0 < d.net < gross
  {
    var slippage := gross * (SLIPPAGE_BPS as real / 10000.0);
    var fee := gross * (BRIDGE_FEE_PERCENT / 100.0);
    Deduction(slippage, fee, gross - slippage - fee)
  }

  /** The amount of the target a source amount is worth, by USD
      equivalence at the two prices. */
  function Convert(amount: real, sourcePrice: real, targetPrice: real): (g: real)
    requires targetPrice != 0.0
    ensures g * targetPrice == amount * sourcePrice
    ensures g == amount * sourcePrice / targetPrice
  {
    var rate := sourcePrice / targetPrice;
    assert rate * targetPrice == sourcePrice;
    amount * rate
  }

  /** The object `calculateQuote` returns. */
  datatype Quote = Quote(
    inputAmount: string,
    inputToken: string,
    inputUsdValue: Fixed,
    outputAmount: Fixed,
    outputToken: string,
    slippageBps: int,
    feePercent: real,
    feeAmount: Fixed,
    slippageAmount: Fixed,
    estimatedTime: string,
    exchangeRate: Fixed,
    prices: map<string, real>)
}
