# watchlists: the ticker normalisation pipeline, in Dafny

`watchlists` builds trading-view watchlists from several market data sources.
Each source turns the raw records its provider returns into canonical
`NAMESPACE:SYMBOL` names (`BINANCE:BTCUSDT`, `KUCOIN:BTCUSDT`,
`WOONETWORK:BTCUSDT.P`, `NASDAQ:AAPL`). This project models that per-source
normalisation step and proves what each one promises.

- **Binance** (`binance.dfy`) keeps the spot pairs that are trading, quoted in
  USDT and whose base asset is not blacklisted. It names each one
  `BINANCE:<symbol>`.
- **LegacyBinance** (`legacy_binance.dfy`) is the superseded copy in
  `src/binance.rs`. Its blacklist has no `WBTC`. A lemma proves the current
  listing is exactly the legacy listing with the `WBTC` rows taken out.
- **CoinGecko** (`coingecko.dfy`) drops stablecoins and wrapped or staked
  derivatives from the top-100 coins. It names the rest `BINANCE:<SYMBOL>USDT`.
- **KuCoin** (`kucoin.dfy`) sorts the tickers in place by descending volume
  with a stable insertion sort on an `array`. It then splits each symbol on
  `-`, keeps the USDT quotes whose base is not a leveraged token, and names the
  bases `KUCOIN:<BASE>USDT`.
- **Woo** (`woo.dfy`) keeps the rows that are not stable and are trading. It
  names each `PERP_…` symbol `WOONETWORK:<fields>.P` and each `SPOT_…` symbol
  `WOONETWORK:<fields>`.
- **EarningsHub** (`earningshub.dfy`) models the page script that walks the
  calendar links and captures their `symbol=` parameter, keeping the first
  occurrence of each ticker. It also models the Rust mirror of that loop, which
  runs the same expression over the raw page text.
- **Ibkr** (`ibkr.dfy`) walks the brokerage position stream until its end
  marker or the first error. It drops flat positions, renames venue codes to
  market names, and routes stocks and options to their own lists.

Shared pieces:

- `Fetch`: the `Outcome` of a fetch, either `Failure` or `Success(value)`.
- `Text`: ASCII case mapping, `starts_with`/`ends_with`/`contains`, and
  `split`/`join` with their laws.
- `Seqs`: the generic `filter`/`map`/`collect` chain, with its splice,
  soundness, completeness and count laws.

Most pipelines are specified by a *splice* law: the output for
`before + [x] + after` is the output for `before`, then `x`'s own contribution
(or nothing), then the output for `after`. That one equation gives input order,
the exact inclusion rule and the exact output format at once.

## Model

| member | source | states |
|---|---|---|
| Seqs.FilterMapSplice | src/exchanges/binance.rs:48-57 | a filter-then-map chain over `a + [x] + b` is the chain over `a`, then `f(x)` if `x` is kept, then the chain over `b` |
| Seqs.FilterMapAppend | src/exchanges/binance.rs:48-57 | the chain distributes over concatenation |
| Seqs.FilterMapSound | src/exchanges/binance.rs:48-57 | every output is `f` of some kept input element |
| Seqs.FilterMapComplete | src/exchanges/binance.rs:48-57 | every kept input element's image is in the output |
| Seqs.FilterMapCount | src/exchanges/woo.rs:57-64 | the output length is the number of kept elements |
| Seqs.FilterMapAllKept | src/exchanges/earningshub.rs:52-58 | when every element is kept, the output is the elementwise image |
| Text.LowerCaseMapping | src/exchanges/coingecko.rs:48-49 | same length; no capital letter remains; every non-capital is unchanged in place; each capital becomes a letter with the same upper-case form; lower-casing twice is lower-casing once |
| Text.UpperCaseMapping | src/exchanges/coingecko.rs:63 | same length; no small letter remains; every non-small-letter is unchanged in place; each small letter becomes a letter with the same lower-case form; upper-casing twice is upper-casing once |
| Text.LowerOfUpper | src/exchanges/coingecko.rs:48-63 | lower-casing an upper-cased symbol is lower-casing the symbol |
| Text.ContainsAt | src/exchanges/coingecko.rs:52-54 | `contains` holds exactly when the pattern occurs at some index |
| Text.Split | src/exchanges/kucoin.rs:59 | at least one part, no part holds the separator, and two or more parts exactly when the separator occurs |
| Text.JoinSplit | src/exchanges/kucoin.rs:59 | joining the parts of a split with the separator gives back the string |
| Text.ConcatSplit | src/exchanges/woo.rs:60-61 | concatenating the parts of a split is the string with every separator removed |
| Text.ConcatSplitTail | src/exchanges/woo.rs:60-61 | concatenating the parts after the first is the text after the first separator with every separator removed |
| Text.AfterFirst | src/exchanges/woo.rs:60-61 | the text after the first separator does not depend on what precedes it |
| Text.RemoveBetween | src/exchanges/woo.rs:60-61 | removing a separator that occurs once joins the fields on either side |
| Binance.ProcessData | src/exchanges/binance.rs:43-58 | at most one entry per row; every entry is `BINANCE:` plus the symbol of a row that is `TRADING`, quoted in `USDT` and whose base is not among the 11 blacklisted assets; every such row's entry is present |
| Binance.RowContribution | src/exchanges/binance.rs:48-57 | splice law: a row adds `BINANCE:<symbol>` at its own place exactly when it passes all three tests, and adds nothing otherwise |
| Binance.WrappedBitcoinDropped | src/exchanges/binance.rs:106-165 | a `HALT` row or a `WBTC` row adds nothing, wherever it stands |
| Binance.GetSpot | src/exchanges/binance.rs:60-65 | a failed fetch gives the empty list; a decoded payload gives `process_data` of its rows |
| LegacyBinance.GetSpot | src/binance.rs:43-62 | a failed fetch gives the empty list; otherwise the same soundness and completeness as the current listing, over the 10-entry blacklist |
| LegacyBinance.RowContribution | src/binance.rs:49-59 | splice law over the 10-entry blacklist |
| LegacyBinance.AdmissionDiffersOnlyByWrappedBitcoin | src/binance.rs:44-46 | a row passes the current filter exactly when it passes the legacy one and its base is not `WBTC` |
| LegacyBinance.CurrentIsLegacyWithoutWrappedBitcoin | src/binance.rs:43-62 | the current output equals the legacy output on the same rows with the `WBTC` rows removed |
| CoinGecko.ProcessData | src/exchanges/coingecko.rs:36-65 | at most one entry per coin; every entry is `BINANCE:<UPPER>USDT` of a coin that is neither a stablecoin nor wrapped; every such coin's entry is present |
| CoinGecko.CoinContribution | src/exchanges/coingecko.rs:45-64 | splice law: a coin adds its pair name at its own place exactly when it is neither a stablecoin nor wrapped |
| CoinGecko.NameRulesDropCoin | src/exchanges/coingecko.rs:49-56 | a coin whose lower-cased name contains `usd`, `dollar` or `stable`, or starts with `wrapped `, adds nothing |
| CoinGecko.SymbolRulesExcludePair | src/exchanges/coingecko.rs:37-59 | the pair name of a listed stablecoin symbol, or of a symbol strictly longer than a `w`/`st`/`cb` prefix it starts with, never appears in the output, whichever coin carries it |
| CoinGecko.BarePrefixNotFlagged | src/exchanges/coingecko.rs:43-59 | a symbol that is exactly `w`, `st` or `cb` is neither a listed stablecoin nor wrapped |
| CoinGecko.BarePrefixKept | src/exchanges/coingecko.rs:56-59 | such a coin, with an unremarkable name, is kept at its own place |
| CoinGecko.GetTop100 | src/exchanges/coingecko.rs:67-72 | a failed fetch gives the empty list; otherwise `process_data` of the coins |
| KuCoin.InsertAt | src/exchanges/kucoin.rs:55 | one insertion step in place: the first `i + 1` cells become the sorted prefix with the old `a[i]` inserted after every entry of at least its volume, and the cells after `i` are unchanged |
| KuCoin.SortByVolume | src/exchanges/kucoin.rs:55 | the array after sorting is `SortedByVolume` of its old contents |
| KuCoin.InsertionPoint | src/exchanges/kucoin.rs:55 | inserting before the first entry of strictly smaller volume splits the sequence there |
| KuCoin.SortedByVolumeExtend | src/exchanges/kucoin.rs:55 | sorting one more element is inserting it into the sorted prefix |
| KuCoin.InsertMultiset | src/exchanges/kucoin.rs:55 | an insertion adds exactly the inserted ticker |
| KuCoin.InsertNonIncreasing | src/exchanges/kucoin.rs:55 | an insertion keeps the volumes non-increasing |
| KuCoin.InsertWithVolume | src/exchanges/kucoin.rs:55 | among the tickers of any one volume, an insertion appends the new one last |
| KuCoin.WithVolumeAppend | src/exchanges/kucoin.rs:55 | selecting one volume distributes over concatenation |
| KuCoin.SortedByVolumeMultiset | src/exchanges/kucoin.rs:55 | sorting is a permutation |
| KuCoin.SortedByVolumeNonIncreasing | src/exchanges/kucoin.rs:55 | sorted volumes are non-increasing |
| KuCoin.SortedByVolumeStable | src/exchanges/kucoin.rs:55 | tickers of equal volume keep their relative input order |
| KuCoin.SortedByVolumeWellFormed | src/exchanges/kucoin.rs:55-61 | sorting keeps every symbol splittable |
| KuCoin.SurvivorsAppend | src/exchanges/kucoin.rs:57-66 | the split-and-filter step distributes over concatenation |
| KuCoin.TickerContribution | src/exchanges/kucoin.rs:57-66 | splice law: a ticker survives at its own place exactly when its quote is `USDT` and its base is not leveraged |
| KuCoin.SurvivorsSound | src/exchanges/kucoin.rs:64 | every survivor is an input ticker that passes the filter |
| KuCoin.SurvivorsMultiset | src/exchanges/kucoin.rs:57-66 | each admitted ticker survives as many times as it occurs, and nothing else survives |
| KuCoin.SurvivorsNonIncreasing | src/exchanges/kucoin.rs:55-66 | filtering a volume-sorted list keeps it sorted |
| KuCoin.SurvivorsWithVolume | src/exchanges/kucoin.rs:55-66 | filtering commutes with selecting one volume |
| KuCoin.RankedNonIncreasing | src/exchanges/kucoin.rs:52-67 | surviving tickers come out in non-increasing volume order |
| KuCoin.RankedPermutesSurvivors | src/exchanges/kucoin.rs:52-67 | the ranked survivors are a permutation of the admitted input tickers |
| KuCoin.RankedStable | src/exchanges/kucoin.rs:52-67 | ranked survivors of equal volume keep their relative input order |
| KuCoin.ProcessData | src/exchanges/kucoin.rs:52-67 | sorts a copy in place, then returns the bases of the ranked survivors; at most one base per input ticker, each the base of an input ticker quoted in `USDT` whose base is not leveraged |
| KuCoin.GetSpot | src/exchanges/kucoin.rs:69-80 | a failed fetch gives the empty list; otherwise entry `k` is `KUCOIN:` plus the base of the `k`-th ranked survivor plus `USDT` |
| KuCoin.PlainBaseNotLeveraged | src/exchanges/kucoin.rs:53-64 | a base with no `2`, `3` or `D` that does not end in `UP` is not leveraged |
| KuCoin.PatternFlagsBase | src/exchanges/kucoin.rs:53-64 | an occurrence of `3L`, `3S`, `2L`, `2S` or `DOWN` anywhere flags the base |
| KuCoin.OrdinaryBasesKept | src/exchanges/kucoin.rs:131-183 | `SUPER`, `BTC` and `ETH` are not leveraged; `UP` inside a base is not a suffix |
| KuCoin.DirectionalSuffixFlagged | src/exchanges/kucoin.rs:64 | any base ending in `UP` or `DOWN` is leveraged |
| KuCoin.MarkerFlagged | src/exchanges/kucoin.rs:53-64 | any base with a leverage marker inside it is leveraged |
| Woo.GetSymbols | src/exchanges/woo.rs:42-53 | a failed fetch gives the empty list; otherwise one symbol per row that is not stable and is trading |
| Woo.GetSymbolsListed | src/exchanges/woo.rs:45-50 | every symbol comes from a row with `is_stable == 0` and `is_trading == 1`, and every such row's symbol is present |
| Woo.RowContribution | src/exchanges/woo.rs:45-50 | splice law: a row adds its raw symbol at its own place exactly when it is not stable and is trading |
| Woo.FieldsAfterPrefix | src/exchanges/woo.rs:59-62 | joining the split fields after the first gives the text after the first `_` with every `_` removed, and holds no `_` |
| Woo.ThreeFields | src/exchanges/woo.rs:59-62 | `<product>_<base>_<quote>` gives `<base><quote>` |
| Woo.PerpThreeFields | src/exchanges/woo.rs:59-63 | `PERP_<base>_<quote>` is named `WOONETWORK:<base><quote>.P` |
| Woo.SpotThreeFields | src/exchanges/woo.rs:71-75 | `SPOT_<base>_<quote>` is named `WOONETWORK:<base><quote>` |
| Woo.Perp | src/exchanges/woo.rs:57-64 | one name per symbol that starts with `PERP` |
| Woo.PerpSoundComplete | src/exchanges/woo.rs:57-64 | every perpetual name comes from a `PERP…` symbol in the stated format, and every `PERP…` symbol is named |
| Woo.Spot | src/exchanges/woo.rs:69-76 | one name per symbol that starts with `SPOT` |
| Woo.SpotSoundComplete | src/exchanges/woo.rs:69-76 | every spot name comes from a `SPOT…` symbol in the stated format, and every `SPOT…` symbol is named |
| Woo.PerpContribution | src/exchanges/woo.rs:57-64 | splice law for perpetual names: input order is kept |
| Woo.SpotContribution | src/exchanges/woo.rs:69-76 | splice law for spot names: input order is kept |
| Woo.PerpAndSpotExclusive | src/exchanges/woo.rs:58-70 | no symbol is both a perpetual and a spot instrument |
| Woo.GetPerp | src/exchanges/woo.rs:55-65 | a failed fetch gives the empty list; otherwise no more names than listed rows |
| Woo.GetPerpSound | src/exchanges/woo.rs:55-65 | every perpetual name comes from a listed row whose symbol starts with `PERP` |
| Woo.GetSpot | src/exchanges/woo.rs:67-77 | a failed fetch gives the empty list; otherwise no more names than listed rows |
| Woo.GetSpotSound | src/exchanges/woo.rs:67-77 | every spot name comes from a listed row whose symbol starts with `SPOT` |
| Woo.PerpRowContribution | src/exchanges/woo.rs:42-65 | end to end, a row adds its perpetual name at its own place exactly when it is listed and starts with `PERP` |
| Woo.SpotRowContribution | src/exchanges/woo.rs:42-77 | end to end, a row adds its spot name at its own place exactly when it is listed and starts with `SPOT` |
| EarningsHub.Capture | src/exchanges/earningshub.rs:54 | the capture is the longest non-empty run of `[A-Z0-9.-]` right after `?symbol=` or `&symbol=` |
| EarningsHub.Search | src/exchanges/earningshub.rs:54 | the leftmost match at or after the start, or none at all |
| EarningsHub.Match | src/exchanges/earningshub.rs:54 | no match anywhere, or a non-empty capture of symbol characters |
| EarningsHub.MatchAfterPath | src/exchanges/earningshub.rs:52-54 | a link `<path>?symbol=<TICKER>` whose path has no `?` or `&` captures exactly the ticker |
| EarningsHub.LinkCaptured | src/exchanges/earningshub.rs:52-54 | such a link is selected and captured as its ticker |
| EarningsHub.CapturesSoundComplete | src/exchanges/earningshub.rs:52-55 | every capture is a run of symbol characters taken from a selected link, and every selected, matching link contributes its capture |
| EarningsHub.CapturesStep | src/exchanges/earningshub.rs:52-58 | one more link extends the captures by its capture, if it has one |
| EarningsHub.FirstSeenStep | src/exchanges/earningshub.rs:55-58 | one more capture is appended exactly when it has not been seen |
| EarningsHub.FirstSeenElements | src/exchanges/earningshub.rs:55-58 | the deduplicated list holds exactly the captured symbols |
| EarningsHub.FirstSeenDistinct | src/exchanges/earningshub.rs:55-58 | the deduplicated list has no repeats |
| EarningsHub.FirstSeenOrder | src/exchanges/earningshub.rs:104-131 | the deduplicated list is ordered by first occurrence |
| EarningsHub.RepeatDropped | src/exchanges/earningshub.rs:133-160 | `x, y, x, z` with three distinct symbols becomes `x, y, z` |
| EarningsHub.DedupExample | src/exchanges/earningshub.rs:133-160 | four calendar links for `x, y, x, z` on a common path yield `x, y, z` |
| EarningsHub.ExtractTickers | src/exchanges/earningshub.rs:47-77 | a failed evaluation gives the empty list; otherwise the loop yields the first occurrences of the captures, in document order |
| EarningsHub.ExtractFromText | src/exchanges/earningshub.rs:112-124 | the loop over every match in the text yields the first occurrences of the captures |
| EarningsHub.AllMatchesWellFormed | src/exchanges/earningshub.rs:114-117 | every match in the text is a non-empty run of symbol characters captured after an introducer |
| Ibkr.Venue | src/exchanges/ibkr.rs:35-44 | the seven venue codes map to their market names; any other code passes through unchanged |
| Ibkr.Collect | src/exchanges/ibkr.rs:19-65 | at most one entry in total per update |
| Ibkr.PositionContribution | src/exchanges/ibkr.rs:29-55 | a received position adds `<market>:<symbol>` to `stocks` for a non-zero stock, its bare symbol to `options` for a non-zero option, and nothing otherwise, at its own place in arrival order |
| Ibkr.StopsAtTerminator | src/exchanges/ibkr.rs:56-60 | nothing after the end marker or the first error changes the result |
| Ibkr.EntriesSound | src/exchanges/ibkr.rs:29-53 | every entry names a non-zero position of the right type received before the stop |
| Ibkr.ReceivedStep | src/exchanges/ibkr.rs:29-55 | one more position extends each list by its entry, if it has one |
| Ibkr.StopStep | src/exchanges/ibkr.rs:56-60 | a stop leaves the lists collected so far as the result |
| Ibkr.GetTickers | src/exchanges/ibkr.rs:19-65 | the loop returns exactly `Collect` of the updates |

## Left out

- The HTTP fetch and JSON decoding (`fetch_data` and `get_data` in every exchange file) are not modelled. Their result is an `Outcome` input, where `Failure` stands for any transport or decode error.
- Three `get_data` functions panic instead of returning an error: those in `src/exchanges/kucoin.rs`, `src/exchanges/woo.rs` and `src/binance.rs`. The panics are not modelled; their callers' `Err` arm is modelled as written, giving the empty list on `Failure`.
- The headless-browser lifecycle in `get_earnings_week` (launching, navigating, closing) is left out. The input of `EarningsHub.ExtractTickers` is the `href` of every link on the page, in document order; `EarningsHub.Selected` models the script's `a[href*="?symbol="]` selector over them.
- EarningsHub.ExtractTickers: an evaluation error and a result that fails to deserialise both give the empty list, so both are the one `Failure` input.
- The TWS connection and subscription in `src/exchanges/ibkr.rs` are left out. The stream is the finite `updates` sequence, and the stream running dry is the sequence ending.
- KuCoin.ProcessData: requires every symbol to contain `-`. The source indexes `parts[1]` and panics on a symbol without one. The model follows the code.
- KuCoin volumes (`f64`, parsed by `vol_deserializer`) and IBKR quantities (`f64`, compared with `0.0`) are integers here. Only their order and their zero test matter, and NaN is not modelled.
- Case mapping (`to_lowercase`, `to_uppercase`) is ASCII only. Unicode case folding is not modelled.
- The regular expressions (`3L|3S|2L|2S|DOWN` and `[?&]symbol=([A-Z0-9.-]+)`) are modelled as the literal substring tests and the leftmost, greedy scan they denote. No general regular-expression engine is modelled.
- Woo.GetPerp and Woo.GetSpot: the functions themselves state only the failure case and a length bound. Their content is stated by Woo.GetPerpSound, Woo.GetSpotSound, Woo.PerpRowContribution and Woo.SpotRowContribution.
- `src/exchanges/stockanalysis.rs`, `src/utils.rs`, `src/main.rs`, the fixture generators and the test helpers are not part of this model. They are scraping, file I/O and command-line plumbing.
- Logging (`println!`, `eprintln!`) is left out.
