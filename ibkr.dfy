/** Interactive Brokers positions (src/exchanges/ibkr.rs, `get_tickers`): walk
    the stream of position updates until its end marker or the first error,
    skip flat positions, name each stock `<MARKET>:<SYMBOL>` with the broker's
    venue code translated to a market name, and collect option symbols bare. */
module Ibkr {
  import Seqs

  datatype SecurityType = Stock | Option | Other

  datatype Contract = Contract(securityType: SecurityType, symbol: string, exchange: string)

  /** One held position; the quantity is a whole number in the model. */
  datatype Position = Position(contract: Contract, position: int)

  /** One item of the positions subscription. */
  datatype Update = PositionUpdate(held: Position) | PositionEnd | ReceiveError(message: string)

  datatype Tickers = Tickers(stocks: seq<string>, options: seq<string>)

  // ---------------------------------------------------------------------
  // Venue codes
  // ---------------------------------------------------------------------

  /** The broker venue codes that are renamed, with the market each stands for. */
  const VenueNames: map<string, string> :=
    map["SMART" := "NYSE", "ISLAND" := "NASDAQ", "PINK" := "OTC", "IBIS" := "XETR",
        "IBIS2" := "XETR", "BVME" := "MIL", "SBF" := "EURONEXT"]

  /** The market name for a venue code; unknown codes pass through. */
  function Venue(code: string): (market: string)
    ensures code in VenueNames ==> market == VenueNames[code]
    ensures code !in VenueNames ==> market == code
  {
    match code
    case "SMART" => "NYSE"
    case "ISLAND" => "NASDAQ"
    case "PINK" => "OTC"
    case "IBIS" => "XETR"
    case "IBIS2" => "XETR"
    case "BVME" => "MIL"
    case "SBF" => "EURONEXT"
    case _ => code
  }

  // ---------------------------------------------------------------------
  // The positions that count
  // ---------------------------------------------------------------------

  /** The positions received before the end marker or the first error. */
  function Received(updates: seq<Update>): (ps: seq<Position>)
    ensures |ps| <= |updates|
  {
    if updates == [] then []
    else
      match updates[0]
      case PositionUpdate(p) => [p] + Received(updates[1..])
      case PositionEnd => []
      case ReceiveError(_) => []
  }

  predicate LiveStock(p: Position) {
    p.contract.securityType == Stock && p.position != 0
  }

  predicate LiveOption(p: Position) {
    p.contract.securityType == Option && p.position != 0
  }

  function StockEntry(p: Position): string {
    Venue(p.contract.exchange) + ":" + p.contract.symbol
  }

  function OptionEntry(p: Position): string {
    p.contract.symbol
  }

  /** What `get_tickers` returns for a stream of updates. */
  function Collect(updates: seq<Update>): (t: Tickers)
    ensures |t.stocks| + |t.options| <= |updates|
  {
    var ps := Received(updates);
    Seqs.FilterMapCount(LiveStock, StockEntry, ps);
    Seqs.FilterMapCount(LiveOption, OptionEntry, ps);
    CountDisjoint(ps);
    Tickers(Seqs.FilterMap(LiveStock, StockEntry, ps), Seqs.FilterMap(LiveOption, OptionEntry, ps))
  }

  lemma {:induction false} CountDisjoint(ps: seq<Position>)
    ensures Seqs.Count(LiveStock, ps) + Seqs.Count(LiveOption, ps) <= |ps|
  {
    if ps != [] {
      CountDisjoint(ps[1..]);
    }
  }

  lemma {:induction false} ReceivedAppend(a: seq<Update>, b: seq<Update>)
    requires forall j :: 0 <= j < |a| ==> a[j].PositionUpdate?
    ensures Received(a + b) == Received(a) + Received(b)
  {
    if a != [] {
      assert (a + b)[0] == a[0] && a[0].PositionUpdate?;
      assert (a + b)[1..] == a[1..] + b;
      ReceivedAppend(a[1..], b);
      assert Received(a) == [a[0].held] + Received(a[1..]);
      assert Received(a + b) == [a[0].held] + Received(a[1..] + b);
    } else {
      assert a + b == b;
    }
  }

  /** Each stock and option position received adds its entry, or nothing, at
      its own place: an entry is added exactly for a non-zero position, a
      stock goes only to `stocks` as `<market>:<symbol>` and an option only to
      `options` as its bare symbol. */
  lemma PositionContribution(before: seq<Update>, p: Position, after: seq<Update>)
    requires forall j :: 0 <= j < |before| ==> before[j].PositionUpdate?
    ensures Collect(before + [PositionUpdate(p)] + after).stocks
         == Collect(before).stocks
          + (if p.contract.securityType == Stock && p.position != 0
             then [Venue(p.contract.exchange) + ":" + p.contract.symbol] else [])
          + Collect(after).stocks
    ensures Collect(before + [PositionUpdate(p)] + after).options
         == Collect(before).options
          + (if p.contract.securityType == Option && p.position != 0 then [p.contract.symbol] else [])
          + Collect(after).options
  {
    var u := PositionUpdate(p);
    ReceivedAppend(before, [u] + after);
    assert before + [u] + after == before + ([u] + after);
    assert ([u] + after)[1..] == after;
    assert Received(before + [u] + after) == Received(before) + [p] + Received(after);
    Seqs.FilterMapSplice(LiveStock, StockEntry, Received(before), p, Received(after));
    Seqs.FilterMapSplice(LiveOption, OptionEntry, Received(before), p, Received(after));
  }

  /** The end marker or an error ends the walk: nothing after it is looked at. */
  lemma {:induction false} StopsAtTerminator(before: seq<Update>, u: Update, after: seq<Update>)
    requires !u.PositionUpdate?
    ensures Collect(before + [u] + after) == Collect(before)
  {
    if before == [] {
      assert before + [u] + after == [u] + after;
    } else {
      assert (before + [u] + after)[1..] == before[1..] + [u] + after;
      StopsAtTerminator(before[1..], u, after);
    }
  }

  /** Every stock entry names a non-zero stock position received before the
      stop, and every option entry a non-zero option position. */
  lemma EntriesSound(updates: seq<Update>)
    ensures forall s :: s in Collect(updates).stocks ==>
              exists p :: p in Received(updates) && p.contract.securityType == Stock && p.position != 0
                       && s == Venue(p.contract.exchange) + ":" + p.contract.symbol
    ensures forall s :: s in Collect(updates).options ==>
              exists p :: p in Received(updates) && p.contract.securityType == Option && p.position != 0
                       && s == p.contract.symbol
  {
    var ps := Received(updates);
    Seqs.FilterMapSound(LiveStock, StockEntry, ps);
    Seqs.FilterMapSound(LiveOption, OptionEntry, ps);
    forall s | s in Collect(updates).stocks
      ensures exists p :: p in ps && p.contract.securityType == Stock && p.position != 0
                       && s == Venue(p.contract.exchange) + ":" + p.contract.symbol
    {
      var i :| 0 <= i < |ps| && LiveStock(ps[i]) && s == StockEntry(ps[i]);
      assert ps[i] in ps;
    }
    forall s | s in Collect(updates).options
      ensures exists p :: p in ps && p.contract.securityType == Option && p.position != 0
                       && s == p.contract.symbol
    {
      var i :| 0 <= i < |ps| && LiveOption(ps[i]) && s == OptionEntry(ps[i]);
      assert ps[i] in ps;
    }
  }

  /** One more position before any stop extends each list by that
      position's entry, if it has one. */
  lemma ReceivedStep(updates: seq<Update>, k: nat)
    requires k < |updates| && updates[k].PositionUpdate?
    requires forall j :: 0 <= j < k ==> updates[j].PositionUpdate?
    ensures Collect(updates[..k + 1]).stocks
         == Collect(updates[..k]).stocks
          + (if LiveStock(updates[k].held) then [StockEntry(updates[k].held)] else [])
    ensures Collect(updates[..k + 1]).options
         == Collect(updates[..k]).options
          + (if LiveOption(updates[k].held) then [OptionEntry(updates[k].held)] else [])
  {
    var p := updates[k].held;
    assert updates[..k + 1] == updates[..k] + [updates[k]] + [];
    PositionContribution(updates[..k], p, []);
    assert Collect([]).stocks == [] && Collect([]).options == [];
  }

  /** A stop right after the positions seen so far leaves them as the result. */
  lemma StopStep(updates: seq<Update>, k: nat)
    requires k < |updates| && !updates[k].PositionUpdate?
    ensures Collect(updates) == Collect(updates[..k])
  {
    assert updates == updates[..k] + [updates[k]] + updates[k + 1..];
    StopsAtTerminator(updates[..k], updates[k], updates[k + 1..]);
  }

  // ---------------------------------------------------------------------
  // The loop
  // ---------------------------------------------------------------------

  /** `get_tickers`: the subscription loop over `updates`, which stands for
      the items the stream yields before it runs dry. */
  method GetTickers(updates: seq<Update>) returns (tickers: Tickers)
    ensures tickers == Collect(updates)
  {
    var stocks: seq<string> := [];
    var options: seq<string> := [];
    var k := 0;
    while k < |updates|
      invariant k <= |updates|
      invariant forall j :: 0 <= j < k ==> updates[j].PositionUpdate?
      invariant Tickers(stocks, options) == Collect(updates[..k])
    {
      var u := updates[k];
      match u {
        case PositionUpdate(p) =>
          ReceivedStep(updates, k);
          k := k + 1;
          match p.contract.securityType {
            case Stock =>
              if p.position == 0 {
                continue;
              }
              var ticker := p.contract.symbol;
              var exchange := Venue(p.contract.exchange);
              stocks := stocks + [exchange + ":" + ticker];
            case Option =>
              if p.position == 0 {
                continue;
              }
              var ticker := p.contract.symbol;
              options := options + [ticker];
            case Other =>
              continue;
          }
        case PositionEnd =>
          StopStep(updates, k);
          break;
        case ReceiveError(_) =>
          StopStep(updates, k);
          break;
      }
    }
    assert k == |updates| ==> updates[..k] == updates;
    tickers := Tickers(stocks, options);
  }
}
