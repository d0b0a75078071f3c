/** WOO X listing (src/exchanges/woo.rs): keep the instruments that are not
    stable and are trading, then name the `PERP_…` ones as
    `WOONETWORK:<fields>.P` and the `SPOT_…` ones as `WOONETWORK:<fields>`,
    where `<fields>` is everything after the product prefix with the `_`
    separators dropped (`PERP_BTC_USDT` becomes `WOONETWORK:BTCUSDT.P`). */
module Woo {
  import Seqs
  import opened Text
  import opened Fetch

  /** One entry of the `rows` array of the public info endpoint. */
  datatype Row = Row(symbol: string, isStable: nat, isTrading: nat)

  const ExchangeName: string := "WOONETWORK"

  // ---------------------------------------------------------------------
  // get_symbols
  // ---------------------------------------------------------------------

  predicate Listed(row: Row) {
    row.isStable == 0 && row.isTrading == 1
  }

  function SymbolOf(row: Row): string {
    row.symbol
  }

  /** `get_symbols`: the raw symbols of the listed rows, in input order; a
      payload that could not be decoded gives the empty list. */
  function GetSymbols(fetched: Outcome<seq<Row>>): (r: seq<string>)
    ensures fetched.Failure? ==> r == []
    ensures fetched.Success? ==> |r| == Seqs.Count(Listed, fetched.value)
  {
    match fetched
    case Success(rows) =>
      Seqs.FilterMapCount(Listed, SymbolOf, rows);
      Seqs.FilterMap(Listed, SymbolOf, rows)
    case Failure => []
  }

  /** Every symbol returned belongs to a row that is not stable and is
      trading, and every such row's symbol is returned. */
  lemma GetSymbolsListed(rows: seq<Row>)
    ensures forall s :: s in GetSymbols(Success(rows)) ==>
              exists i :: 0 <= i < |rows| && rows[i].isStable == 0 && rows[i].isTrading == 1
                       && s == rows[i].symbol
    ensures forall i :: 0 <= i < |rows| && rows[i].isStable == 0 && rows[i].isTrading == 1 ==>
              rows[i].symbol in GetSymbols(Success(rows))
  {
    Seqs.FilterMapSound(Listed, SymbolOf, rows);
    Seqs.FilterMapComplete(Listed, SymbolOf, rows);
  }

  /** Each row contributes its symbol exactly when it is not stable and is
      trading, at its own position. */
  lemma RowContribution(before: seq<Row>, row: Row, after: seq<Row>)
    ensures GetSymbols(Success(before + [row] + after))
         == GetSymbols(Success(before))
          + (if row.isStable == 0 && row.isTrading == 1 then [row.symbol] else [])
          + GetSymbols(Success(after))
  {
    Seqs.FilterMapSplice(Listed, SymbolOf, before, row, after);
  }

  // ---------------------------------------------------------------------
  // get_perp and get_spot
  // ---------------------------------------------------------------------

  predicate IsPerp(symbol: string) {
    StartsWith(symbol, "PERP")
  }

  predicate IsSpot(symbol: string) {
    StartsWith(symbol, "SPOT")
  }

  /** `split('_')`, then `parts[1..].join("")`. */
  function Fields(symbol: string): string {
    Concat(Split(symbol, '_')[1..])
  }

  function PerpName(symbol: string): string {
    ExchangeName + ":" + Fields(symbol) + ".P"
  }

  function SpotName(symbol: string): string {
    ExchangeName + ":" + Fields(symbol)
  }

  /** The joined fields are the text after the first `_` with every further
      `_` dropped, and contain no `_`. */
  lemma FieldsAfterPrefix(symbol: string)
    ensures Fields(symbol) == Remove(After(symbol, '_'), '_')
    ensures '_' !in Fields(symbol)
  {
    ConcatSplitTail(symbol, '_');
  }

  /** The perpetual-futures names: one per `PERP…` symbol, in input order. */
  function Perp(symbols: seq<string>): (r: seq<string>)
    ensures |r| == Seqs.Count(IsPerp, symbols)
  {
    Seqs.FilterMapCount(IsPerp, PerpName, symbols);
    Seqs.FilterMap(IsPerp, PerpName, symbols)
  }

  /** Every name comes from a `PERP…` symbol as `WOONETWORK:` followed by the
      text after its first `_` with the other `_` dropped, and every `PERP…`
      symbol is named. */
  lemma PerpSoundComplete(symbols: seq<string>)
    ensures forall t :: t in Perp(symbols) ==>
              exists i :: 0 <= i < |symbols| && StartsWith(symbols[i], "PERP")
                       && t == "WOONETWORK:" + Remove(After(symbols[i], '_'), '_') + ".P"
    ensures forall i :: 0 <= i < |symbols| && StartsWith(symbols[i], "PERP") ==>
              "WOONETWORK:" + Remove(After(symbols[i], '_'), '_') + ".P" in Perp(symbols)
  {
    assert ExchangeName + ":" == "WOONETWORK:";
    forall i | 0 <= i < |symbols| {
      FieldsAfterPrefix(symbols[i]);
    }
    Seqs.FilterMapSound(IsPerp, PerpName, symbols);
    Seqs.FilterMapComplete(IsPerp, PerpName, symbols);
  }

  /** The spot names: one per `SPOT…` symbol, in input order, without suffix. */
  function Spot(symbols: seq<string>): (r: seq<string>)
    ensures |r| == Seqs.Count(IsSpot, symbols)
  {
    Seqs.FilterMapCount(IsSpot, SpotName, symbols);
    Seqs.FilterMap(IsSpot, SpotName, symbols)
  }

  /** Every name comes from a `SPOT…` symbol as `WOONETWORK:` followed by the
      text after its first `_` with the other `_` dropped, and every `SPOT…`
      symbol is named. */
  lemma SpotSoundComplete(symbols: seq<string>)
    ensures forall t :: t in Spot(symbols) ==>
              exists i :: 0 <= i < |symbols| && StartsWith(symbols[i], "SPOT")
                       && t == "WOONETWORK:" + Remove(After(symbols[i], '_'), '_')
    ensures forall i :: 0 <= i < |symbols| && StartsWith(symbols[i], "SPOT") ==>
              "WOONETWORK:" + Remove(After(symbols[i], '_'), '_') in Spot(symbols)
  {
    assert ExchangeName + ":" == "WOONETWORK:";
    forall i | 0 <= i < |symbols| {
      FieldsAfterPrefix(symbols[i]);
    }
    Seqs.FilterMapSound(IsSpot, SpotName, symbols);
    Seqs.FilterMapComplete(IsSpot, SpotName, symbols);
  }

  /** Each symbol contributes its perpetual name exactly when it starts with
      `PERP`, at its own position: the output keeps input order. */
  lemma PerpContribution(before: seq<string>, symbol: string, after: seq<string>)
    ensures Perp(before + [symbol] + after)
         == Perp(before)
          + (if StartsWith(symbol, "PERP")
             then ["WOONETWORK:" + Remove(After(symbol, '_'), '_') + ".P"] else [])
          + Perp(after)
  {
    assert ExchangeName + ":" == "WOONETWORK:";
    FieldsAfterPrefix(symbol);
    Seqs.FilterMapSplice(IsPerp, PerpName, before, symbol, after);
  }

  /** Each symbol contributes its spot name exactly when it starts with
      `SPOT`, at its own position. */
  lemma SpotContribution(before: seq<string>, symbol: string, after: seq<string>)
    ensures Spot(before + [symbol] + after)
         == Spot(before)
          + (if StartsWith(symbol, "SPOT") then ["WOONETWORK:" + Remove(After(symbol, '_'), '_')] else [])
          + Spot(after)
  {
    assert ExchangeName + ":" == "WOONETWORK:";
    FieldsAfterPrefix(symbol);
    Seqs.FilterMapSplice(IsSpot, SpotName, before, symbol, after);
  }

  /** A symbol is never both a perpetual and a spot instrument, so no listed
      symbol is named twice across the two listings. */
  lemma PerpAndSpotExclusive(symbol: string)
    ensures !(IsPerp(symbol) && IsSpot(symbol))
  {
    if IsPerp(symbol) && |symbol| >= 4 {
      assert symbol[0] == symbol[..4][0] == 'P';
    }
  }

  /** A three-field symbol `<product>_<base>_<quote>` yields `<base><quote>`. */
  lemma {:induction false} ThreeFields(product: string, base: string, quote: string)
    requires '_' !in product && '_' !in base && '_' !in quote
    ensures Fields(product + "_" + base + "_" + quote) == base + quote
  {
    var symbol := product + "_" + base + "_" + quote;
    var rest := base + ['_'] + quote;
    assert symbol == product + ['_'] + rest;
    FieldsAfterPrefix(symbol);
    AfterFirst(product, '_', rest);
    RemoveBetween(base, '_', quote);
  }

  /** `PERP_<base>_<quote>` is listed as `WOONETWORK:<base><quote>.P`
      (`PERP_BTC_USDT` as `WOONETWORK:BTCUSDT.P`). */
  lemma PerpThreeFields(base: string, quote: string)
    requires '_' !in base && '_' !in quote
    ensures PerpName("PERP_" + base + "_" + quote) == "WOONETWORK:" + base + quote + ".P"
  {
    assert "PERP_" + base + "_" + quote == "PERP" + "_" + base + "_" + quote;
    ThreeFields("PERP", base, quote);
  }

  /** `SPOT_<base>_<quote>` is listed as `WOONETWORK:<base><quote>`. */
  lemma SpotThreeFields(base: string, quote: string)
    requires '_' !in base && '_' !in quote
    ensures SpotName("SPOT_" + base + "_" + quote) == "WOONETWORK:" + base + quote
  {
    assert "SPOT_" + base + "_" + quote == "SPOT" + "_" + base + "_" + quote;
    ThreeFields("SPOT", base, quote);
  }

  /** `get_perp`: the perpetual names of the listed symbols. */
  function GetPerp(fetched: Outcome<seq<Row>>): (r: seq<string>)
    ensures fetched.Failure? ==> r == []
    ensures fetched.Success? ==> |r| <= Seqs.Count(Listed, fetched.value)
  {
    var symbols := GetSymbols(fetched);
    Seqs.FilterMapCount(IsPerp, PerpName, symbols);
    Perp(symbols)
  }

  /** Every entry of `get_perp` comes from a listed row whose symbol
      starts with `PERP`. */
  lemma GetPerpSound(rows: seq<Row>)
    ensures forall t :: t in GetPerp(Success(rows)) ==>
              exists i :: 0 <= i < |rows| && Listed(rows[i]) && StartsWith(rows[i].symbol, "PERP")
                       && t == "WOONETWORK:" + Remove(After(rows[i].symbol, '_'), '_') + ".P"
  {
    var symbols := GetSymbols(Success(rows));
    GetSymbolsListed(rows);
    PerpSoundComplete(symbols);
    forall t | t in Perp(symbols)
      ensures exists i :: 0 <= i < |rows| && Listed(rows[i]) && StartsWith(rows[i].symbol, "PERP")
                       && t == "WOONETWORK:" + Remove(After(rows[i].symbol, '_'), '_') + ".P"
    {
      var j :| 0 <= j < |symbols| && StartsWith(symbols[j], "PERP")
               && t == "WOONETWORK:" + Remove(After(symbols[j], '_'), '_') + ".P";
      assert symbols[j] in symbols;
    }
  }

  /** `get_spot`: the spot names of the listed symbols. */
  function GetSpot(fetched: Outcome<seq<Row>>): (r: seq<string>)
    ensures fetched.Failure? ==> r == []
    ensures fetched.Success? ==> |r| <= Seqs.Count(Listed, fetched.value)
  {
    var symbols := GetSymbols(fetched);
    Seqs.FilterMapCount(IsSpot, SpotName, symbols);
    Spot(symbols)
  }

  /** Every entry of `get_spot` comes from a listed row whose symbol
      starts with `SPOT`. */
  lemma GetSpotSound(rows: seq<Row>)
    ensures forall t :: t in GetSpot(Success(rows)) ==>
              exists i :: 0 <= i < |rows| && Listed(rows[i]) && StartsWith(rows[i].symbol, "SPOT")
                       && t == "WOONETWORK:" + Remove(After(rows[i].symbol, '_'), '_')
  {
    var symbols := GetSymbols(Success(rows));
    GetSymbolsListed(rows);
    SpotSoundComplete(symbols);
    forall t | t in Spot(symbols)
      ensures exists i :: 0 <= i < |rows| && Listed(rows[i]) && StartsWith(rows[i].symbol, "SPOT")
                       && t == "WOONETWORK:" + Remove(After(rows[i].symbol, '_'), '_')
    {
      var j :| 0 <= j < |symbols| && StartsWith(symbols[j], "SPOT")
               && t == "WOONETWORK:" + Remove(After(symbols[j], '_'), '_');
      assert symbols[j] in symbols;
    }
  }

  /** End to end, each row yields its perpetual name exactly when it is
      listed and its symbol starts with `PERP`, at its own position. */
  lemma PerpRowContribution(before: seq<Row>, row: Row, after: seq<Row>)
    ensures GetPerp(Success(before + [row] + after))
         == GetPerp(Success(before))
          + (if row.isStable == 0 && row.isTrading == 1 && StartsWith(row.symbol, "PERP")
             then ["WOONETWORK:" + Remove(After(row.symbol, '_'), '_') + ".P"] else [])
          + GetPerp(Success(after))
  {
    var a, b := GetSymbols(Success(before)), GetSymbols(Success(after));
    RowContribution(before, row, after);
    if Listed(row) {
      PerpContribution(a, row.symbol, b);
    } else {
      assert GetSymbols(Success(before + [row] + after)) == a + b;
      Seqs.FilterMapAppend(IsPerp, PerpName, a, b);
    }
  }

  /** End to end, each row yields its spot name exactly when it is listed and
      its symbol starts with `SPOT`, at its own position. */
  lemma SpotRowContribution(before: seq<Row>, row: Row, after: seq<Row>)
    ensures GetSpot(Success(before + [row] + after))
         == GetSpot(Success(before))
          + (if row.isStable == 0 && row.isTrading == 1 && StartsWith(row.symbol, "SPOT")
             then ["WOONETWORK:" + Remove(After(row.symbol, '_'), '_')] else [])
          + GetSpot(Success(after))
  {
    var a, b := GetSymbols(Success(before)), GetSymbols(Success(after));
    RowContribution(before, row, after);
    if Listed(row) {
      SpotContribution(a, row.symbol, b);
    } else {
      assert GetSymbols(Success(before + [row] + after)) == a + b;
      Seqs.FilterMapAppend(IsSpot, SpotName, a, b);
    }
  }
}
