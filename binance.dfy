/** Binance spot listing (src/exchanges/binance.rs): keep the pairs that are
    trading, quoted in USDT and whose base asset is not blacklisted, and
    namespace the raw pair symbol as `BINANCE:<symbol>`. */
module Binance {
  import Seqs
  import opened Fetch

  /** One entry of the exchange-info `symbols` array. */
  datatype Symbol = Symbol(symbol: string, status: string, quoteAsset: string, baseAsset: string)

  const ExchangeName: string := "BINANCE"

  /** Base assets never listed: fiat, stablecoins and wrapped bitcoin. */
  const Blacklist: seq<string> :=
    ["TUSD", "USDC", "BUSD", "EUR", "GBP", "PAX", "DAI", "AUD", "USDP", "FDUSD", "WBTC"]

  predicate Admitted(row: Symbol) {
    row.status == "TRADING" && row.quoteAsset == "USDT" && row.baseAsset !in Blacklist
  }

  function Format(row: Symbol): string {
    ExchangeName + ":" + row.symbol
  }

  /** `process_data`: the admitted rows, namespaced, in input order. */
  function ProcessData(rows: seq<Symbol>): (r: seq<string>)
    ensures |r| <= |rows|
    ensures forall t :: t in r ==>
              exists i :: 0 <= i < |rows| && rows[i].status == "TRADING" && rows[i].quoteAsset == "USDT"
                       && rows[i].baseAsset !in Blacklist && t == "BINANCE:" + rows[i].symbol
    ensures forall i :: 0 <= i < |rows| && Admitted(rows[i]) ==> "BINANCE:" + rows[i].symbol in r
  {
    assert ExchangeName + ":" == "BINANCE:";
    Seqs.FilterMapSound(Admitted, Format, rows);
    Seqs.FilterMapComplete(Admitted, Format, rows);
    Seqs.FilterMap(Admitted, Format, rows)
  }

  /** Each row contributes `BINANCE:<symbol>` exactly when it is trading, quoted
      in USDT and not blacklisted, and nothing otherwise, at its own position. */
  lemma RowContribution(before: seq<Symbol>, row: Symbol, after: seq<Symbol>)
    ensures ProcessData(before + [row] + after)
         == ProcessData(before)
          + (if row.status == "TRADING" && row.quoteAsset == "USDT" && row.baseAsset !in Blacklist
             then ["BINANCE:" + row.symbol] else [])
          + ProcessData(after)
  {
    assert ExchangeName + ":" == "BINANCE:";
    Seqs.FilterMapSplice(Admitted, Format, before, row, after);
  }

  /** A halted or blacklisted row (here, wrapped bitcoin) adds nothing. */
  lemma WrappedBitcoinDropped(before: seq<Symbol>, row: Symbol, after: seq<Symbol>)
    requires row.baseAsset == "WBTC" || row.status == "HALT"
    ensures ProcessData(before + [row] + after) == ProcessData(before) + ProcessData(after)
  {
    RowContribution(before, row, after);
  }

  /** `get_spot`: an unavailable payload yields the empty list. */
  function GetSpot(fetched: Outcome<seq<Symbol>>): (r: seq<string>)
    ensures fetched.Failure? ==> r == []
    ensures fetched.Success? ==> r == ProcessData(fetched.value)
  {
    match fetched
    case Success(rows) => ProcessData(rows)
    case Failure => []
  }
}
