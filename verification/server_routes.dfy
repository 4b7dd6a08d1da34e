/** The request handlers of the Express server (server/routes.ts) that sit
    around the price table and the quote: `/api/quote`, `/api/prices`,
    `/api/bridge` and the two admin status updates. The transaction store is
    external; a handler's call into it is represented by the record it
    passes and by the store's answer, given as a parameter. */
module ServerRoutes {
  import opened Common
  import opened PriceTable
  import opened PriceCache
  import opened QuoteMath
  import opened Http
  import opened ServerPrices
  import opened ServerQuote

  /** The chain-to-token table the module declares (keys are chain ids,
      with `_FLUFFEY` variants and `solana`). No handler reads it. */
  const CHAIN_TOKEN: map<string, string> := map[
    "8453" := "ETH", "8453_FLUFFEY" := "FLUFFEY",
    "1" := "ETH", "1_FLUFFEY" := "FLUFFEY",
    "42161" := "ETH", "42161_FLUFFEY" := "FLUFFEY",
    "10" := "ETH", "10_FLUFFEY" := "FLUFFEY",
    "137" := "MATIC", "56" := "BNB", "43114" := "AVAX", "250" := "FTM",
    "25" := "CRO", "324" := "ETH", "59144" := "ETH", "534352" := "ETH",
    "81457" := "ETH", "5000" := "MNT", "100" := "xDAI", "1101" := "ETH",
    "7777777" := "ETH", "34443" := "ETH", "169" := "ETH", "999" := "HYPE",
    "solana" := "SOL"
  ]

  /** The set of token names the chain table uses. */
  const CHAIN_TOKEN_NAMES: set<string> :=
    {"ETH", "FLUFFEY", "MATIC", "BNB", "AVAX", "FTM", "CRO", "MNT", "xDAI", "HYPE", "SOL"}

  lemma ChainTokenNames()
    ensures forall k :: k in CHAIN_TOKEN ==> CHAIN_TOKEN[k] in CHAIN_TOKEN_NAMES
  {
  }

  /** Every token the chain table names is a symbol of every refreshed
      table. */
  lemma ChainTokensArePriced(k: string)
    requires k in CHAIN_TOKEN
    ensures FromName(CHAIN_TOKEN[k]) in SYMBOLS
  {
    ChainTokenNames();
  }

  /** The query string of `GET /api/quote`. `amount` is None when it is
      missing or not a single string. */
  datatype QuoteQuery = QuoteQuery(
    amount: Option<Amount>,
    chainId: Option<string>,
    inputToken: Option<string>,
    outputToken: Option<string>)

  /** The amount is missing, empty, or not a single string. */
  predicate AmountMissing(amount: Option<Amount>) {
    amount.None? || amount.value.text == ""
  }

  /** `GET /api/quote`: 400 "Amount is required" for a missing amount, 400
      "Invalid amount" for one `calculateQuote` rejects, otherwise the quote.
      The price cache is consulted only in the last two cases, and then only
      for a valid amount. */
  function QuoteRoute(q: QuoteQuery, cache: Option<Entry>, now: int, feeds: Feeds, doneAt: int): (r: Served<Response<Quote>>)
    requires CacheInvariant(cache)
    ensures AmountMissing(q.amount) ==> r == Served(Error(400, "Amount is required"), cache)
    ensures !AmountMissing(q.amount) && !ValidAmount(q.amount.value) ==> r == Served(Error(400, "Invalid amount"), cache)
    ensures r.value.Ok? <==> !AmountMissing(q.amount) && ValidAmount(q.amount.value)
    ensures r.value.Ok? ==>
      var served := CalculateQuote(q.amount.value, q.inputToken, q.outputToken, cache, now, feeds, doneAt);
      r.cache == served.cache && served.value == Some(r.value.body)
    ensures r.value.Status() == 200 || r.value.Status() == 400
    ensures CacheInvariant(r.cache)
  {
    if AmountMissing(q.amount) then Served(Error(400, "Amount is required"), cache)
    else
      var target := Some(OrDefault(q.outputToken, "ETH"));
      var served := CalculateQuote(q.amount.value, q.inputToken, target, cache, now, feeds, doneAt);
      TargetDefaultNormalises(q.amount.value, q.inputToken, q.outputToken, cache, now, feeds, doneAt);
      match served.value
      case None => Served(Error(400, "Invalid amount"), served.cache)
      case Some(quote) => Served(Ok(quote), served.cache)
  }

  /** The handler's own ETH default for the output token is the one
      `calculateQuote` applies anyway. */
  lemma TargetDefaultNormalises(amount: Amount, inputParam: Option<string>, outputToken: Option<string>,
                                cache: Option<Entry>, now: int, feeds: Feeds, doneAt: int)
    requires CacheInvariant(cache)
    ensures CalculateQuote(amount, inputParam, Some(OrDefault(outputToken, "ETH")), cache, now, feeds, doneAt)
      == CalculateQuote(amount, inputParam, outputToken, cache, now, feeds, doneAt)
  {
    assert TokenName(Some(OrDefault(outputToken, "ETH"))) == TokenName(outputToken);
  }

  /** The chain id of a quote request does not affect the answer: the key
      built from it is passed to `calculateQuote`, which never reads it. */
  lemma QuoteIgnoresChainId(q: QuoteQuery, chainId: Option<string>, cache: Option<Entry>, now: int, feeds: Feeds, doneAt: int)
    requires CacheInvariant(cache)
    ensures QuoteRoute(q.(chainId := chainId), cache, now, feeds, doneAt) == QuoteRoute(q, cache, now, feeds, doneAt)
  {
  }

  /** `GET /api/prices`: always 200 with the table `fetchPrices` returns, a
      complete one. Every adapter catches its own failure, so the 500 branch
      cannot be taken. */
  function PricesRoute(cache: Option<Entry>, now: int, feeds: Feeds, doneAt: int): (r: Served<Response<Table>>)
    requires CacheInvariant(cache)
    ensures r.value.Ok? && r.value.Status() == 200
    ensures Complete(r.value.body) && CacheInvariant(r.cache)
    ensures IsFresh(cache, now) ==> r == Served(Ok(cache.value.prices), cache)
  {
    var fetched := FetchPrices(cache, now, feeds, doneAt);
    Served(Ok(fetched.value), fetched.cache)
  }

  /** The JSON body of `POST /api/bridge`; a missing field is None. */
  datatype BridgeBody = BridgeBody(
    depositor: Option<string>,
    amount: Option<Amount>,
    txHash: Option<string>,
    sourceChainId: Option<int>)

  /** The record `/api/bridge` hands to `storage.createBridgeTransaction`. */
  datatype NewBridgeTransaction = NewBridgeTransaction(
    depositor: string,
    amount: string,
    quotedMegaAmount: Fixed,
    slippageBps: int,
    status: string,
    sourceChainId: int,
    destChainId: int,
    txHash: Option<string>)

  /** The source chain id of a bridge request: the one given, unless it is
      missing or zero (both falsy), in which case Base, 8453. */
  function SourceChain(id: Option<int>): (c: int)
    ensures c != 0
    ensures id.None? || id.value == 0 ==> c == 8453
    ensures id.Some? && id.value != 0 ==> c == id.value
  {
    if id.Some? && id.value != 0 then id.value else 8453
  }

  /** The deposit hash to store: the one given, or null when it is missing
      or empty. */
  function TxHashOrNull(h: Option<string>): (r: Option<string>)
    ensures r.Some? <==> h.Some? && h.value != ""
    ensures r.Some? ==> r == h
  {
    if h.Some? && h.value != "" then h else None
  }

  /** `POST /api/bridge`: 400 when the depositor or the amount is missing
      or empty, 400 "Invalid amount" when the ETH-to-ETH quote rejects the
      amount, otherwise the record to store. */
  function BridgeRoute(b: BridgeBody, cache: Option<Entry>, now: int, feeds: Feeds, doneAt: int)
    : (r: Served<Response<NewBridgeTransaction>>)
    requires CacheInvariant(cache)
    ensures b.depositor.None? || b.depositor.value == "" || AmountMissing(b.amount) ==>
      r == Served(Error(400, "Depositor and amount are required"), cache)
    ensures r.value.Ok? <==>
      b.depositor.Some? && b.depositor.value != "" && !AmountMissing(b.amount) && ValidAmount(b.amount.value)
    ensures b.depositor.Some? && b.depositor.value != "" && !AmountMissing(b.amount) && !ValidAmount(b.amount.value) ==>
      r == Served(Error(400, "Invalid amount"), cache)
    ensures r.value.Error? ==> r.value.status == 400 && r.cache == cache
    ensures r.value.Ok? ==> var t := r.value.body;
      && t.depositor == ToLower(b.depositor.value)
      && t.amount == b.amount.value.text
      && t.slippageBps == 50 && t.status == "pending" && t.destChainId == MEGAETH_NETWORK_ID
      && t.sourceChainId == SourceChain(b.sourceChainId)
      && t.txHash == TxHashOrNull(b.txHash)
      && t.quotedMegaAmount == CalculateQuote(b.amount.value, None, None, cache, now, feeds, doneAt).value.value.outputAmount
    ensures CacheInvariant(r.cache)
  {
    if b.depositor.None? || b.depositor.value == "" || AmountMissing(b.amount) then
      Served(Error(400, "Depositor and amount are required"), cache)
    else
      var chainId := SourceChain(b.sourceChainId);
      var served := CalculateQuote(b.amount.value, None, None, cache, now, feeds, doneAt);
      match served.value
      case None => Served(Error(400, "Invalid amount"), served.cache)
      case Some(quote) =>
        Served(Ok(NewBridgeTransaction(
          ToLower(b.depositor.value), b.amount.value.text, quote.outputAmount,
          SLIPPAGE_BPS, "pending", chainId, 4326, TxHashOrNull(b.txHash))), served.cache)
  }

  /** The amount promised on MegaETH is the deposit less 0.6 %: the bridge
      always quotes ETH into ETH, whatever the source chain. */
  lemma BridgePromisesDepositLessFees(b: BridgeBody, cache: Option<Entry>, now: int, feeds: Feeds, doneAt: int)
    requires CacheInvariant(cache)
    requires BridgeRoute(b, cache, now, feeds, doneAt).value.Ok?
    ensures BridgeRoute(b, cache, now, feeds, doneAt).value.body.quotedMegaAmount.value
      == b.amount.value.parsed.value * 0.994
  {
    var fetched := FetchPrices(cache, now, feeds, doneAt);
    GroupsListed();
    SameTokenKeepsAmount(b.amount.value, None, None, fetched.value);
  }

  /** The status change an admin route asks the store for. `id` is the
      path segment parsed as an integer, None for NaN. */
  datatype StatusUpdate = StatusUpdate(id: Option<int>, status: string, megaTxHash: Option<string>)

  /** The two admin routes: fulfil carries the MegaETH transaction hash from
      the request body, reject carries none. */
  datatype AdminAction = Fulfill(megaTxHash: Option<string>) | Reject

  function StatusRequest(id: Option<int>, action: AdminAction): StatusUpdate {
    match action
    case Fulfill(h) => StatusUpdate(id, "completed", h)
    case Reject => StatusUpdate(id, "rejected", None)
  }

  /** Both admin routes answer with what the store returns, or 404 when it
      returns nothing. */
  function AdminResponse<T>(updated: Option<T>): (r: Response<T>)
    ensures r.Status() == 404 <==> updated.None?
    ensures updated.None? ==> r == Error(404, "Transaction not found")
    ensures updated.Some? <==> r.Ok?
    ensures r.Ok? ==> r.body == updated.value
  {
    match updated
    case None => Error(404, "Transaction not found")
    case Some(t) => Ok(t)
  }

  /** `POST /api/admin/fulfill/:id` and `POST /api/admin/reject/:id`. The
      store is the external `updateBridgeTransactionStatus`, given as a
      function of the update it is asked for. The route asks it to move
      transaction `id` to "completed" (fulfil, with the given hash) or
      "rejected" (reject, without one), and answers 200 with the updated
      record or 404 when the store finds none. */
  function AdminRoute<T>(id: Option<int>, action: AdminAction, store: StatusUpdate -> Option<T>): (r: Response<T>)
    ensures var u := StatusRequest(id, action);
      && u.id == id
      && (u.status == "completed" <==> action.Fulfill?)
      && (u.status == "rejected" <==> action.Reject?)
      && (action.Fulfill? ==> u.megaTxHash == action.megaTxHash)
      && (action.Reject? ==> u.megaTxHash.None?)
      && (r.Status() == 404 <==> store(u).None?)
      && (r.Ok? <==> store(u).Some?)
      && (r.Ok? ==> store(u) == Some(r.body))
    ensures r.Status() == 200 || r == Error(404, "Transaction not found")
  {
    AdminResponse(store(StatusRequest(id, action)))
  }

  /** A transaction the store does not hold is not found by either route,
      whatever hash a fulfil request carries. */
  lemma UnknownTransactionNotFound<T>(id: Option<int>, action: AdminAction, store: StatusUpdate -> Option<T>)
    requires forall u: StatusUpdate :: u.id == id ==> store(u).None?
    ensures AdminRoute(id, action, store) == Error(404, "Transaction not found")
  {
  }

  /** Fulfilling and rejecting address the same record: for a store that
      holds transaction `id` whatever the status asked, both routes succeed
      and the two requests differ only in status and hash. */
  lemma AdminRoutesAgreeOnRecord<T>(id: Option<int>, h: Option<string>, store: StatusUpdate -> Option<T>)
    requires forall u: StatusUpdate :: u.id == id ==> store(u).Some?
    ensures AdminRoute(id, Fulfill(h), store).Ok? && AdminRoute(id, Reject, store).Ok?
    ensures StatusRequest(id, Fulfill(h)).(status := "rejected", megaTxHash := None) == StatusRequest(id, Reject)
  {
  }
}
