/** Price tables (token symbol to USD price) and the two operations every
    revision applies to them: ordered overwriting with adapter results, and
    the per-symbol fallback pass. */
module PriceTable {
  import opened Common

  /** The symbols the code names, and any other key a request may use. A
      table key is the string `Name(sym)`; `xDAI` is the only mixed-case one. */
  datatype Symbol =
    | ETH | SOL | MATIC | BNB | AVAX | FTM | CRO | MNT | XDAI | HYPE
    | FLUFFEY | MEKA | KUMA | SIGMA
    | Other(name: string)

  function Name(sym: Symbol): string {
    match sym
    case ETH => "ETH"
    case SOL => "SOL"
    case MATIC => "MATIC"
    case BNB => "BNB"
    case AVAX => "AVAX"
    case FTM => "FTM"
    case CRO => "CRO"
    case MNT => "MNT"
    case XDAI => "xDAI"
    case HYPE => "HYPE"
    case FLUFFEY => "FLUFFEY"
    case MEKA => "MEKA"
    case KUMA => "KUMA"
    case SIGMA => "SIGMA"
    case Other(name) => name
  }

  /** The symbol a key string denotes. */
  function FromName(name: string): (sym: Symbol)
    ensures Name(sym) == name
    ensures sym.Other? ==> sym.name == name
  {
    if name == "ETH" then ETH
    else if name == "SOL" then SOL
    else if name == "MATIC" then MATIC
    else if name == "BNB" then BNB
    else if name == "AVAX" then AVAX
    else if name == "FTM" then FTM
    else if name == "CRO" then CRO
    else if name == "MNT" then MNT
    else if name == "xDAI" then XDAI
    else if name == "HYPE" then HYPE
    else if name == "FLUFFEY" then FLUFFEY
    else if name == "MEKA" then MEKA
    else if name == "KUMA" then KUMA
    else if name == "SIGMA" then SIGMA
    else Other(name)
  }

  /** A symbol in canonical form: `Other` only for names the code does not
      name. */
  predicate Canonical(sym: Symbol) {
    sym.Other? ==> FromName(sym.name) == sym
  }

  /** Names and symbols are in one-to-one correspondence: every key string
      is the name of exactly one canonical symbol. */
  lemma NameRoundTrip(sym: Symbol, name: string)
    ensures Canonical(FromName(name))
    ensures Canonical(sym) ==> FromName(Name(sym)) == sym
  {
  }

  type Table = map<Symbol, real>

  /** `prices[sym]` is truthy in JavaScript: present and non-zero. Adapter
      values arrive as JSON numbers, so NaN cannot occur. */
  predicate Priced(t: Table, sym: Symbol) {
    sym in t && t[sym] != 0.0
  }

  /** The entry for `sym` when truthy, `fallback` otherwise. */
  function PriceOr(t: Table, sym: Symbol, fallback: real): real {
    if Priced(t, sym) then t[sym] else fallback
  }

  /** The test a fallback line applies before overwriting a symbol: the
      entry is falsy (Falsy), or falsy or not positive
      (FalsyOrNonPositive). */
  datatype Guard = Falsy | FalsyOrNonPositive

  /** The fallback line for `sym` leaves the table alone. */
  predicate Keeps(g: Guard, t: Table, sym: Symbol) {
    match g
    case Falsy => Priced(t, sym)
    case FalsyOrNonPositive => sym in t && t[sym] > 0.0
  }

  /** A constant passes the guard it is installed under. */
  predicate Acceptable(g: Guard, v: real) {
    match g
    case Falsy => v != 0.0
    case FalsyOrNonPositive => v > 0.0
  }

  /** One fallback line. */
  function FillOne(t: Table, g: Guard, sym: Symbol, v: real): Table {
    if Keeps(g, t, sym) then t else t[sym := v]
  }

  /** The fallback lines for the symbols of `order`, run one after
      another as the source writes them. Each listed symbol ends up with its
      own value when that value passes the guard and with its constant
      otherwise; every other entry is untouched. */
  function FillLines(t: Table, g: Guard, order: seq<Symbol>, constants: map<Symbol, real>): (r: Table)
    requires forall s :: s in order ==> s in constants
    ensures forall s :: s in r <==> s in t || s in order
    ensures forall s :: s in order ==> r[s] == (if Keeps(g, t, s) then t[s] else constants[s])
    ensures forall s :: s in t && s !in order ==> r[s] == t[s]
    decreases |order|
  {
    if |order| == 0 then t
    else
      var head := order[0];
      var t' := FillOne(t, g, head, constants[head]);
      FillOneElsewhere(t, g, head, constants[head]);
      assert forall s :: s in order[1..] ==> s in order;
      var r := FillLines(t', g, order[1..], constants);
      assert forall s :: s in order <==> s == head || s in order[1..];
      r
  }

  /** A line touches no other symbol, neither its entry nor its guard. */
  lemma FillOneElsewhere(t: Table, g: Guard, sym: Symbol, v: real)
    ensures sym in FillOne(t, g, sym, v)
    ensures forall s :: s != sym ==> (s in FillOne(t, g, sym, v) <==> s in t)
    ensures forall s :: s != sym && s in t ==> FillOne(t, g, sym, v)[s] == t[s]
    ensures forall s :: s != sym ==> (Keeps(g, FillOne(t, g, sym, v), s) <==> Keeps(g, t, s))
  {
  }

  /** A fallback pass as a whole: every symbol with a constant is checked
      against the guard, independently of the others. */
  function Fill(t: Table, g: Guard, constants: map<Symbol, real>): (r: Table)
    ensures forall s :: s in r <==> s in t || s in constants
    ensures forall s :: s in constants ==> r[s] == (if Keeps(g, t, s) then t[s] else constants[s])
    ensures forall s :: s in t && s !in constants ==> r[s] == t[s]
  {
    map s | s in t.Keys + constants.Keys ::
      if s in constants && !Keeps(g, t, s) then constants[s] else t[s]
  }

  /** A pass adds exactly the symbols of its lines. */
  lemma FillKeys(t: Table, g: Guard, constants: map<Symbol, real>)
    ensures Fill(t, g, constants).Keys == t.Keys + constants.Keys
  {
  }

  /** A set within {x} + `lines` that holds `x`, joined with `lines`, is
      {x} + `lines`. */
  lemma KeysBetween(keys: set<Symbol>, symbols: set<Symbol>, lines: set<Symbol>, x: Symbol)
    requires symbols == {x} + lines
    requires keys <= symbols && x in keys
    ensures keys + lines == symbols
  {
  }

  /** Since each fallback line reads and writes only its own symbol, running
      the lines in order is the same as the pass as a whole, whatever the
      order. */
  lemma FillLinesIsFill(t: Table, g: Guard, order: seq<Symbol>, constants: map<Symbol, real>)
    requires forall s :: s in order <==> s in constants
    ensures FillLines(t, g, order, constants) == Fill(t, g, constants)
  {
    var r := FillLines(t, g, order, constants);
    var q := Fill(t, g, constants);
    assert r.Keys == q.Keys by {
      FillKeys(t, g, constants);
    }
    forall s | s in r
      ensures r[s] == q[s]
    {
      if s in constants {
        assert r[s] == (if Keeps(g, t, s) then t[s] else constants[s]);
      } else {
        assert r[s] == t[s];
      }
    }
  }

  /** After a pass every symbol with a constant passes the guard, provided
      every constant does. */
  lemma FillEstablishesGuard(t: Table, g: Guard, constants: map<Symbol, real>)
    requires forall s :: s in constants ==> Acceptable(g, constants[s])
    ensures forall s :: s in constants ==> Keeps(g, Fill(t, g, constants), s)
  {
  }
}
