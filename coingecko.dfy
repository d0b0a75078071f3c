/** CoinGecko top-100 by market cap (src/exchanges/coingecko.rs): drop
    stablecoins and wrapped or staked derivatives, then name each remaining
    coin by its Binance USDT pair, `BINANCE:<SYMBOL>USDT`. */
module CoinGecko {
  import Seqs
  import opened Text
  import opened Fetch

  datatype Coin = Coin(id: string, symbol: string, name: string)

  /** Lower-case symbols of known stablecoins and tokenised fiat or gold. */
  const StablecoinSymbols: seq<string> :=
    ["usdt", "usdc", "busd", "dai", "tusd", "usdp", "usdd", "gusd", "paxg", "eurs", "eurt",
     "gbpt", "xaut", "pyusd", "fdusd", "frax", "lusd", "susd", "usdj", "usdk", "usdx", "ust",
     "usdn"]

  /** Symbol prefixes of wrapped (`wbtc`), staked (`steth`) and exchange-issued (`cbeth`) tokens. */
  const WrappedPrefixes: seq<string> := ["w", "st", "cb"]

  predicate IsStablecoin(coin: Coin) {
    var name := Lower(coin.name);
    Lower(coin.symbol) in StablecoinSymbols
    || Contains(name, "usd") || Contains(name, "dollar") || Contains(name, "stable")
  }

  /** A prefix only marks a derivative when something follows it. */
  predicate HasWrappedPrefix(symbolLower: string) {
    exists p :: p in WrappedPrefixes && StartsWith(symbolLower, p) && |symbolLower| > |p|
  }

  predicate IsWrapped(coin: Coin) {
    StartsWith(Lower(coin.name), "wrapped ") || HasWrappedPrefix(Lower(coin.symbol))
  }

  predicate Admitted(coin: Coin) {
    !IsStablecoin(coin) && !IsWrapped(coin)
  }

  function Format(coin: Coin): string {
    "BINANCE" + ":" + Upper(coin.symbol) + "USDT"
  }

  /** `process_data`: the admitted coins as Binance USDT pairs, in input order. */
  function ProcessData(coins: seq<Coin>): (r: seq<string>)
    ensures |r| <= |coins|
    ensures forall t :: t in r ==>
              exists i :: 0 <= i < |coins| && !IsStablecoin(coins[i]) && !IsWrapped(coins[i])
                       && t == "BINANCE:" + Upper(coins[i].symbol) + "USDT"
    ensures forall i :: 0 <= i < |coins| && Admitted(coins[i]) ==>
              "BINANCE:" + Upper(coins[i].symbol) + "USDT" in r
  {
    assert "BINANCE" + ":" == "BINANCE:";
    Seqs.FilterMapSound(Admitted, Format, coins);
    Seqs.FilterMapComplete(Admitted, Format, coins);
    Seqs.FilterMap(Admitted, Format, coins)
  }

  /** Each coin contributes its pair name exactly when it is neither a
      stablecoin nor wrapped, and nothing otherwise, at its own position. */
  lemma CoinContribution(before: seq<Coin>, coin: Coin, after: seq<Coin>)
    ensures ProcessData(before + [coin] + after)
         == ProcessData(before)
          + (if !IsStablecoin(coin) && !IsWrapped(coin)
             then ["BINANCE:" + Upper(coin.symbol) + "USDT"] else [])
          + ProcessData(after)
  {
    assert "BINANCE" + ":" == "BINANCE:";
    Seqs.FilterMapSplice(Admitted, Format, before, coin, after);
  }

  /** A coin whose name mentions a dollar or stability, or announces a wrapped
      token, adds nothing, whatever its symbol ("USD Coin", "Wrapped Bitcoin"). */
  lemma NameRulesDropCoin(before: seq<Coin>, coin: Coin, after: seq<Coin>)
    requires Contains(Lower(coin.name), "usd") || Contains(Lower(coin.name), "dollar")
          || Contains(Lower(coin.name), "stable") || StartsWith(Lower(coin.name), "wrapped ")
    ensures ProcessData(before + [coin] + after) == ProcessData(before) + ProcessData(after)
  {
    CoinContribution(before, coin, after);
  }

  /** The symbol rules depend on the symbol alone, so the pair name of a listed
      stablecoin or of a prefixed derivative never appears in the output, from
      whichever coin. */
  lemma {:induction false} SymbolRulesExcludePair(coins: seq<Coin>, symbol: string)
    requires Lower(symbol) in StablecoinSymbols || HasWrappedPrefix(Lower(symbol))
    ensures "BINANCE:" + Upper(symbol) + "USDT" !in ProcessData(coins)
  {
    var pair := "BINANCE:" + Upper(symbol) + "USDT";
    if pair in ProcessData(coins) {
      var i :| 0 <= i < |coins| && !IsStablecoin(coins[i]) && !IsWrapped(coins[i])
               && pair == "BINANCE:" + Upper(coins[i].symbol) + "USDT";
      var other := Upper(coins[i].symbol);
      assert |other| == |Upper(symbol)|;
      assert other == pair[8..|pair| - 4] == Upper(symbol);
      LowerOfUpper(symbol);
      LowerOfUpper(coins[i].symbol);
      assert false;
    }
  }

  /** A symbol that is exactly a wrap prefix (`w`, `st`, `cb`) is not taken
      for a derivative: with an unremarkable name the coin is kept. */
  lemma BarePrefixKept(before: seq<Coin>, coin: Coin, after: seq<Coin>)
    requires Lower(coin.symbol) in WrappedPrefixes
    requires !Contains(Lower(coin.name), "usd") && !Contains(Lower(coin.name), "dollar")
          && !Contains(Lower(coin.name), "stable") && !StartsWith(Lower(coin.name), "wrapped ")
    ensures ProcessData(before + [coin] + after)
         == ProcessData(before) + ["BINANCE:" + Upper(coin.symbol) + "USDT"] + ProcessData(after)
  {
    BarePrefixNotFlagged(Lower(coin.symbol));
    CoinContribution(before, coin, after);
  }

  lemma BarePrefixNotFlagged(s: string)
    requires s in WrappedPrefixes
    ensures s !in StablecoinSymbols && !HasWrappedPrefix(s)
  {
    var k :| 0 <= k < |WrappedPrefixes| && WrappedPrefixes[k] == s;
    assert |s| <= 2;
    ShortNotStablecoin(s);
    forall p | p in WrappedPrefixes && |s| > |p|
      ensures !StartsWith(s, p)
    {
      PrefixMismatch(s, p);
    }
  }

  lemma ShortNotStablecoin(s: string)
    requires |s| <= 2
    ensures s !in StablecoinSymbols
  {
    StablecoinSymbolsAreLong();
  }

  lemma PrefixMismatch(s: string, p: string)
    requires s == "w" || s == "st" || s == "cb"
    requires p == "w" || p == "st" || p == "cb"
    requires |s| > |p|
    ensures !StartsWith(s, p)
  {
    assert p == "w" && s[0] != 'w';
  }

  lemma StablecoinSymbolsAreLong()
    ensures forall x :: x in StablecoinSymbols ==> |x| >= 3
  {
  }

  /** `get_top_100`: an unavailable payload gives the empty list. */
  function GetTop100(fetched: Outcome<seq<Coin>>): (r: seq<string>)
    ensures fetched.Failure? ==> r == []
    ensures fetched.Success? ==> r == ProcessData(fetched.value)
  {
    match fetched
    case Success(coins) => ProcessData(coins)
    case Failure => []
  }
}
