/** The CoinGecko adapters shared by all three revisions: the majors basket
    queried through `simple/price`, and the separate `hyperliquid` query. */
module CoinGecko {
  import opened Common
  import opened PriceTable

  /** A CoinGecko coin id: the six of the majors basket, or any other. */
  datatype GeckoId = Ethereum | Solana | MaticNetwork | BinanceCoin | Avalanche2 | Fantom | OtherId(text: string)

  /** The id as it appears in the request and as a key of the response. */
  function IdText(id: GeckoId): string {
    match id
    case Ethereum => "ethereum"
    case Solana => "solana"
    case MaticNetwork => "matic-network"
    case BinanceCoin => "binancecoin"
    case Avalanche2 => "avalanche-2"
    case Fantom => "fantom"
    case OtherId(text) => text
  }

  /** The majors basket: symbol to CoinGecko id. */
  const COINGECKO_IDS: map<Symbol, GeckoId> := map[
    ETH := Ethereum,
    SOL := Solana,
    MATIC := MaticNetwork,
    BNB := BinanceCoin,
    AVAX := Avalanche2,
    FTM := Fantom
  ]

  /** A `simple/price` response body: CoinGecko id to its `usd` field. An id
      whose entry or `usd` field is missing is absent. */
  type SimplePrice = map<GeckoId, real>

  /** The price source reported a truthy USD price for the basket symbol
      `sym`. */
  predicate Quoted(data: SimplePrice, sym: Symbol) {
    sym in COINGECKO_IDS && COINGECKO_IDS[sym] in data && data[COINGECKO_IDS[sym]] != 0.0
  }

  /** The assignments the majors loop makes: each basket symbol whose `usd`
      is truthy gets that value. */
  function MajorsUpdate(data: SimplePrice): Table {
    map s | s in COINGECKO_IDS && Quoted(data, s) :: data[COINGECKO_IDS[s]]
  }

  /** The majors loop assigns exactly the quoted basket symbols, each its
      `usd` value. */
  lemma MajorsUpdateKeys(data: SimplePrice)
    ensures forall s :: s in MajorsUpdate(data) <==> Quoted(data, s)
    ensures forall s :: s in MajorsUpdate(data) ==> MajorsUpdate(data)[s] == data[COINGECKO_IDS[s]]
  {
  }

  /** The separate `hyperliquid` query: `hype` is `hyperliquid.usd`, None when
      the request failed or the field is missing; only a truthy value is
      written. */
  function WithHype(t: Table, hype: Option<real>): Table {
    if hype.Some? && hype.value != 0.0 then t[HYPE := hype.value] else t
  }

  /** The HYPE query touches no other symbol. */
  lemma WithHypeElsewhere(t: Table, hype: Option<real>)
    ensures forall s :: s != HYPE ==> (s in WithHype(t, hype) <==> s in t)
    ensures forall s :: s != HYPE && s in t ==> WithHype(t, hype)[s] == t[s]
  {
  }
}
