/** The superseded Binance spot listing (src/binance.rs, not declared as a
    module by src/main.rs): the same filter and format chain inside `get_spot`,
    with a ten-entry blacklist that does not contain `WBTC`. */
module LegacyBinance {
  import Seqs
  import Binance
  import opened Fetch

  type Symbol = Binance.Symbol

  const Blacklist: seq<string> :=
    ["TUSD", "USDC", "BUSD", "EUR", "GBP", "PAX", "DAI", "AUD", "USDP", "FDUSD"]

  predicate Admitted(row: Symbol) {
    row.status == "TRADING" && row.quoteAsset == "USDT" && row.baseAsset !in Blacklist
  }

  /** The two chained maps: the pair symbol, then `BINANCE:` in front of it. */
  function Format(row: Symbol): string {
    Binance.ExchangeName + ":" + row.symbol
  }

  /** `get_spot`: the admitted rows of a decoded payload, namespaced, in input
      order; an undecodable payload gives the empty list. */
  function GetSpot(fetched: Outcome<seq<Symbol>>): (r: seq<string>)
    ensures fetched.Failure? ==> r == []
    ensures fetched.Success? ==> |r| <= |fetched.value|
    ensures fetched.Success? ==> forall t :: t in r ==>
              exists i :: 0 <= i < |fetched.value| && fetched.value[i].status == "TRADING"
                       && fetched.value[i].quoteAsset == "USDT" && fetched.value[i].baseAsset !in Blacklist
                       && t == "BINANCE:" + fetched.value[i].symbol
    ensures fetched.Success? ==> forall i :: 0 <= i < |fetched.value| && Admitted(fetched.value[i]) ==>
              "BINANCE:" + fetched.value[i].symbol in r
  {
    match fetched
    case Success(rows) =>
      assert Binance.ExchangeName + ":" == "BINANCE:";
      Seqs.FilterMapSound(Admitted, Format, rows);
      Seqs.FilterMapComplete(Admitted, Format, rows);
      Seqs.FilterMap(Admitted, Format, rows)
    case Failure => []
  }

  /** Each row contributes `BINANCE:<symbol>` exactly when it is trading, quoted
      in USDT and not in the ten-entry blacklist, at its own position. */
  lemma RowContribution(before: seq<Symbol>, row: Symbol, after: seq<Symbol>)
    ensures GetSpot(Success(before + [row] + after))
         == GetSpot(Success(before))
          + (if row.status == "TRADING" && row.quoteAsset == "USDT" && row.baseAsset !in Blacklist
             then ["BINANCE:" + row.symbol] else [])
          + GetSpot(Success(after))
  {
    assert Binance.ExchangeName + ":" == "BINANCE:";
    Seqs.FilterMapSplice(Admitted, Format, before, row, after);
  }

  /** The two listings differ only in wrapped bitcoin: a row passes the
      current filter exactly when it passes this one and its base is not `WBTC`. */
  lemma AdmissionDiffersOnlyByWrappedBitcoin(row: Symbol)
    ensures Binance.Admitted(row) <==> Admitted(row) && row.baseAsset != "WBTC"
  {
    assert Binance.Blacklist == Blacklist + ["WBTC"];
  }

  /** The whole effect on a listing: the current pipeline's output is this
      one's output on the same rows with the `WBTC` rows taken out. */
  lemma {:induction false} CurrentIsLegacyWithoutWrappedBitcoin(rows: seq<Symbol>)
    ensures Binance.ProcessData(rows) == GetSpot(Success(WithoutWrappedBitcoin(rows)))
  {
    if rows != [] {
      CurrentIsLegacyWithoutWrappedBitcoin(rows[1..]);
      AdmissionDiffersOnlyByWrappedBitcoin(rows[0]);
      Binance.RowContribution([], rows[0], rows[1..]);
      assert [] + [rows[0]] + rows[1..] == rows;
      var rest := WithoutWrappedBitcoin(rows[1..]);
      if rows[0].baseAsset == "WBTC" {
        assert WithoutWrappedBitcoin(rows) == rest;
      } else {
        assert WithoutWrappedBitcoin(rows) == [] + [rows[0]] + rest;
        RowContribution([], rows[0], rest);
      }
    }
  }

  function WithoutWrappedBitcoin(rows: seq<Symbol>): seq<Symbol> {
    if rows == [] then []
    else (if rows[0].baseAsset == "WBTC" then [] else [rows[0]]) + WithoutWrappedBitcoin(rows[1..])
  }
}
