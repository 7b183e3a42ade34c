/** The SMA crossover strategy of strategy.py: one scan of the symbol universe
    per heartbeat, deciding for each symbol whether to buy, close or do nothing. */
module Strategy {
  import opened Wrappers
  import opened Crossover
  import opened Broker

  const SYMBOLS: seq<string> := ["SPY", "BTC/USD"]
  const SMA_SHORT: nat := 10
  const SMA_LONG: nat := 30
  const POSITION_LIMIT: nat := 5
  const ORDER_SIZE_USD: nat := 100
  /** Bars requested per symbol: enough history for the long SMA. */
  const BAR_LIMIT: nat := SMA_LONG + 5

  /** What the brokerage and the market-data service answer during one scan:
      the positions, then for each symbol of the universe (same order) its
      closing prices, oldest first, or an exception from the bar request. */
  datatype ScanInput = ScanInput(positions: Result<seq<Position>>, bars: seq<Result<seq<real>>>)

  function HeldSymbols(ps: seq<Position>): (r: seq<string>)
    ensures |r| == |ps|
    ensures forall i :: 0 <= i < |ps| ==> r[i] == ps[i].symbol
  {
    seq(|ps|, i requires 0 <= i < |ps| => ps[i].symbol)
  }

  /** A symbol is held exactly when some position of the snapshot is in it. */
  lemma HeldMembership(ps: seq<Position>, s: string)
    ensures s in HeldSymbols(ps) <==> exists p :: p in ps && p.symbol == s
  {
    var r := HeldSymbols(ps);
    if s in r {
      var i :| 0 <= i < |r| && r[i] == s;
      assert ps[i] in ps && ps[i].symbol == s;
    }
    if exists p :: p in ps && p.symbol == s {
      var p :| p in ps && p.symbol == s;
      var i :| 0 <= i < |ps| && ps[i] == p;
      assert r[i] == s;
    }
  }

  function SignalOf(closes: seq<real>): (s: Signal)
  {
    CheckCrossover(closes, SMA_SHORT, SMA_LONG)
  }

  /** The buy request of the strategy: a notional market order, good till canceled. */
  function MarketBuy(symbol: string): (e: Event)
  {
    SubmitMarketOrder(symbol, ORDER_SIZE_USD, BuySide, Gtc)
  }

  /** What the scan does for one symbol once its bars are in, given the
      positions snapshot (held symbols and their number). */
  function SymbolEvents(held: seq<string>, count: nat, symbol: string, closes: seq<real>): (ev: seq<Event>)
  {
    if closes == [] then []
    else match SignalOf(closes)
      case Buy =>
        [PlotCrossover(symbol, Buy)] + (if count >= POSITION_LIMIT || symbol in held then [] else [MarketBuy(symbol)])
      case Sell =>
        [PlotCrossover(symbol, Sell)] + (if symbol !in held then [] else [ClosePosition(symbol)])
      case NoSignal => []
  }

  /** The calls for one symbol: its bar request, then (if the bars arrived)
      its decision. */
  function SymbolStep(held: seq<string>, count: nat, symbol: string, bars: Result<seq<real>>): (ev: seq<Event>)
  {
    [GetBars(symbol, AssetClassOf(symbol), BAR_LIMIT)] +
    match bars
    case Err => []
    case Ok(closes) => SymbolEvents(held, count, symbol, closes)
  }

  /** The calls of the scan over symbols, whose bar answers are bars; an
      exception from a bar request ends the scan. */
  function ScanEvents(held: seq<string>, count: nat, symbols: seq<string>, bars: seq<Result<seq<real>>>): (ev: seq<Event>)
    requires |bars| == |symbols|
  {
    if symbols == [] then []
    else
      SymbolStep(held, count, symbols[0], bars[0]) +
      match bars[0]
      case Err => []
      case Ok(_) => ScanEvents(held, count, symbols[1..], bars[1..])
  }

  /** The calls of one Strategy.run: the positions are read once, then the
      universe is scanned against that snapshot; a failed read ends the run. */
  function RunEvents(symbols: seq<string>, input: ScanInput): (ev: seq<Event>)
    requires |input.bars| == |symbols|
  {
    [GetAllPositions] +
    match input.positions
    case Err => []
    case Ok(ps) => ScanEvents(HeldSymbols(ps), |ps|, symbols, input.bars)
  }

  /** One step of the scan: the calls for symbols[i], then either the end of
      the scan or the rest. */
  lemma ScanUnfold(held: seq<string>, count: nat, symbols: seq<string>, bars: seq<Result<seq<real>>>, i: nat)
    requires |bars| == |symbols| && i < |symbols|
    ensures bars[i].Err? ==>
      ScanEvents(held, count, symbols[i..], bars[i..]) == SymbolStep(held, count, symbols[i], bars[i])
    ensures bars[i].Ok? ==>
      ScanEvents(held, count, symbols[i..], bars[i..]) ==
      SymbolStep(held, count, symbols[i], bars[i]) + ScanEvents(held, count, symbols[i + 1..], bars[i + 1..])
  {
    assert symbols[i..][1..] == symbols[i + 1..];
    assert bars[i..][1..] == bars[i + 1..];
  }

  /** Symbol i is reached by the scan: no bar request before it raised. */
  ghost predicate Reached(bars: seq<Result<seq<real>>>, i: nat)
    requires i <= |bars|
  {
    forall j :: 0 <= j < i ==> bars[j].Ok?
  }

  /** e is a call made while handling symbol i. */
  ghost predicate AtSymbol(held: seq<string>, count: nat, symbols: seq<string>, bars: seq<Result<seq<real>>>, i: nat, e: Event)
    requires |bars| == |symbols| && i < |symbols|
  {
    e == GetBars(symbols[i], AssetClassOf(symbols[i]), BAR_LIMIT) ||
    (bars[i].Ok? && e in SymbolEvents(held, count, symbols[i], bars[i].value))
  }

  lemma ReachedShift(bars: seq<Result<seq<real>>>, i: nat)
    requires 1 <= i <= |bars|
    ensures Reached(bars, i) <==> bars[0].Ok? && Reached(bars[1..], i - 1)
  {
    if bars[0].Ok? && Reached(bars[1..], i - 1) {
      forall j | 1 <= j < i
        ensures bars[j].Ok?
      {
        assert bars[j] == bars[1..][j - 1];
      }
    }
  }

  /** A call appears in a scan exactly when it belongs to a symbol the scan
      reaches. */
  lemma {:induction false} ScanMembership(held: seq<string>, count: nat, symbols: seq<string>, bars: seq<Result<seq<real>>>, e: Event)
    requires |bars| == |symbols|
    ensures e in ScanEvents(held, count, symbols, bars) <==>
            exists i :: 0 <= i < |symbols| && Reached(bars, i) && AtSymbol(held, count, symbols, bars, i, e)
  {
    if symbols != [] {
      var tailS, tailB := symbols[1..], bars[1..];
      ScanMembership(held, count, tailS, tailB, e);
      if e in ScanEvents(held, count, symbols, bars) {
        if AtSymbol(held, count, symbols, bars, 0, e) {
          assert Reached(bars, 0);
        } else {
          assert bars[0].Ok? && e in ScanEvents(held, count, tailS, tailB);
          var k :| 0 <= k < |tailS| && Reached(tailB, k) && AtSymbol(held, count, tailS, tailB, k, e);
          ReachedShift(bars, k + 1);
          assert AtSymbol(held, count, symbols, bars, k + 1, e);
        }
      }
      if exists i :: 0 <= i < |symbols| && Reached(bars, i) && AtSymbol(held, count, symbols, bars, i, e) {
        var i :| 0 <= i < |symbols| && Reached(bars, i) && AtSymbol(held, count, symbols, bars, i, e);
        if i > 0 {
          ReachedShift(bars, i);
          assert AtSymbol(held, count, tailS, tailB, i - 1, e);
        }
      }
    }
  }

  /** The strategy decides to buy symbol i: its bars are reached and golden-
      cross, the snapshot holds fewer than POSITION_LIMIT positions, none in it. */
  ghost predicate BuyDecided(held: seq<string>, count: nat, symbols: seq<string>, bars: seq<Result<seq<real>>>, i: nat)
    requires |bars| == |symbols| && i < |symbols|
  {
    Reached(bars, i) && bars[i].Ok? && SignalOf(bars[i].value) == Buy &&
    count < POSITION_LIMIT && symbols[i] !in held
  }

  /** The strategy decides to close symbol i: its bars are reached and death-
      cross, and the snapshot holds a position in it. */
  ghost predicate CloseDecided(held: seq<string>, count: nat, symbols: seq<string>, bars: seq<Result<seq<real>>>, i: nat)
    requires |bars| == |symbols| && i < |symbols|
  {
    Reached(bars, i) && bars[i].Ok? && SignalOf(bars[i].value) == Sell && symbols[i] in held
  }

  /** The one symbol-level fact behind CloseRequests. */
  lemma SymbolCloses(held: seq<string>, count: nat, symbol: string, closes: seq<real>, e: Event)
    ensures e in SymbolEvents(held, count, symbol, closes) && e.ClosePosition? <==>
            closes != [] && SignalOf(closes) == Sell && symbol in held && e == ClosePosition(symbol)
  {
  }

  /** The one symbol-level fact behind BuyRequests. */
  lemma SymbolBuys(held: seq<string>, count: nat, symbol: string, closes: seq<real>, e: Event)
    ensures e in SymbolEvents(held, count, symbol, closes) && e.SubmitMarketOrder? <==>
            closes != [] && SignalOf(closes) == Buy && count < POSITION_LIMIT && symbol !in held && e == MarketBuy(symbol)
  {
  }

  /** Every market order of a scan is the fixed notional buy of a symbol the
      strategy decided to buy, and every such decision issues one. */
  lemma BuyRequests(held: seq<string>, count: nat, symbols: seq<string>, bars: seq<Result<seq<real>>>, e: Event)
    requires |bars| == |symbols|
    ensures e in ScanEvents(held, count, symbols, bars) && e.SubmitMarketOrder? <==>
            exists i :: 0 <= i < |symbols| && BuyDecided(held, count, symbols, bars, i) && e == MarketBuy(symbols[i])
  {
    ScanMembership(held, count, symbols, bars, e);
    if e in ScanEvents(held, count, symbols, bars) && e.SubmitMarketOrder? {
      var i :| 0 <= i < |symbols| && Reached(bars, i) && AtSymbol(held, count, symbols, bars, i, e);
      SymbolBuys(held, count, symbols[i], bars[i].value, e);
      assert BuyDecided(held, count, symbols, bars, i) && e == MarketBuy(symbols[i]);
    }
    if exists i :: 0 <= i < |symbols| && BuyDecided(held, count, symbols, bars, i) && e == MarketBuy(symbols[i]) {
      var i :| 0 <= i < |symbols| && BuyDecided(held, count, symbols, bars, i) && e == MarketBuy(symbols[i]);
      SymbolBuys(held, count, symbols[i], bars[i].value, e);
      assert AtSymbol(held, count, symbols, bars, i, e);
    }
  }

  /** A position close is requested exactly for the symbols the strategy decided
      to close; nothing is requested for a symbol without a signal. */
  lemma CloseRequests(held: seq<string>, count: nat, symbols: seq<string>, bars: seq<Result<seq<real>>>, e: Event)
    requires |bars| == |symbols|
    ensures e in ScanEvents(held, count, symbols, bars) && e.ClosePosition? <==>
            exists i :: 0 <= i < |symbols| && CloseDecided(held, count, symbols, bars, i) && e == ClosePosition(symbols[i])
  {
    ScanMembership(held, count, symbols, bars, e);
    if e in ScanEvents(held, count, symbols, bars) && e.ClosePosition? {
      var i :| 0 <= i < |symbols| && Reached(bars, i) && AtSymbol(held, count, symbols, bars, i, e);
      SymbolCloses(held, count, symbols[i], bars[i].value, e);
      assert CloseDecided(held, count, symbols, bars, i) && e == ClosePosition(symbols[i]);
    }
    if exists i :: 0 <= i < |symbols| && CloseDecided(held, count, symbols, bars, i) && e == ClosePosition(symbols[i]) {
      var i :| 0 <= i < |symbols| && CloseDecided(held, count, symbols, bars, i) && e == ClosePosition(symbols[i]);
      SymbolCloses(held, count, symbols[i], bars[i].value, e);
      assert AtSymbol(held, count, symbols, bars, i, e);
    }
  }

  lemma SymbolEventsKinds(held: seq<string>, count: nat, symbol: string, closes: seq<real>, e: Event)
    requires e in SymbolEvents(held, count, symbol, closes)
    ensures IsScanEvent(e) && e.symbol == symbol
  {
  }

  /** Strategy.run reads the positions once, first; every later call is the scan's. */
  lemma PositionsReadOnce(symbols: seq<string>, input: ScanInput)
    requires |input.bars| == |symbols|
    ensures RunEvents(symbols, input)[0] == GetAllPositions
    ensures forall e :: e in RunEvents(symbols, input)[1..] ==> IsScanEvent(e)
    ensures Count(RunEvents(symbols, input), GetAllPositions) == 1
  {
    var run := RunEvents(symbols, input);
    var scan := run[1..];
    assert run == [GetAllPositions] + scan;
    if input.positions.Ok? {
      var ps := input.positions.value;
      var held := HeldSymbols(ps);
      forall e | e in scan
        ensures IsScanEvent(e)
      {
        ScanMembership(held, |ps|, symbols, input.bars, e);
        var i :| 0 <= i < |symbols| && Reached(input.bars, i) && AtSymbol(held, |ps|, symbols, input.bars, i, e);
        if e != GetBars(symbols[i], AssetClassOf(symbols[i]), BAR_LIMIT) {
          SymbolEventsKinds(held, |ps|, symbols[i], input.bars[i].value, e);
        }
      }
    }
    assert GetAllPositions !in scan;
    CountConcat([GetAllPositions], scan, GetAllPositions);
  }

  /** Every market order of a run is the fixed-size buy of a scanned symbol. */
  lemma RunOrders(symbols: seq<string>, input: ScanInput, e: Event)
    requires |input.bars| == |symbols|
    requires e in RunEvents(symbols, input) && e.SubmitMarketOrder?
    ensures exists i :: 0 <= i < |symbols| && e == MarketBuy(symbols[i])
  {
    var ps := input.positions.value;
    BuyRequests(HeldSymbols(ps), |ps|, symbols, input.bars, e);
  }

  /** Scanning two groups of symbols one after the other, when no bar request
      of the first group raises, issues the calls of each group in turn: a
      symbol's handling depends on nothing but its bars and the snapshot. */
  lemma {:induction false} ScanSplit(held: seq<string>, count: nat, s1: seq<string>, s2: seq<string>,
                                     b1: seq<Result<seq<real>>>, b2: seq<Result<seq<real>>>)
    requires |b1| == |s1| && |b2| == |s2|
    requires forall j :: 0 <= j < |b1| ==> b1[j].Ok?
    ensures ScanEvents(held, count, s1 + s2, b1 + b2) == ScanEvents(held, count, s1, b1) + ScanEvents(held, count, s2, b2)
  {
    if s1 == [] {
      assert s1 + s2 == s2 && b1 + b2 == b2;
    } else {
      assert (s1 + s2)[1..] == s1[1..] + s2;
      assert (b1 + b2)[1..] == b1[1..] + b2;
      assert b1[0].Ok?;
      ScanSplit(held, count, s1[1..], s2, b1[1..], b2);
    }
  }

  /** When no bar request raises, the order in which two groups of symbols are
      scanned changes the order of the calls but not which calls are made. */
  lemma ScanOrderIndependent(held: seq<string>, count: nat, s1: seq<string>, s2: seq<string>,
                             b1: seq<Result<seq<real>>>, b2: seq<Result<seq<real>>>)
    requires |b1| == |s1| && |b2| == |s2|
    requires forall j :: 0 <= j < |b1| ==> b1[j].Ok?
    requires forall j :: 0 <= j < |b2| ==> b2[j].Ok?
    ensures multiset(ScanEvents(held, count, s1 + s2, b1 + b2)) == multiset(ScanEvents(held, count, s2 + s1, b2 + b1))
  {
    ScanSplit(held, count, s1, s2, b1, b2);
    ScanSplit(held, count, s2, s1, b2, b1);
  }

  /** No position held, SPY golden-crosses, no bars for BTC/USD: exactly one
      market buy, for SPY, of ORDER_SIZE_USD. */
  lemma GoldenCrossBuysOnce(closes: seq<real>)
    requires SignalOf(closes) == Buy
    ensures RunEvents(SYMBOLS, ScanInput(Ok([]), [Ok(closes), Ok([])])) ==
            [GetAllPositions, GetBars("SPY", Equity, 35), PlotCrossover("SPY", Buy),
             SubmitMarketOrder("SPY", 100, BuySide, Gtc), GetBars("BTC/USD", Crypto, 35)]
  {
    var bars := [Ok(closes), Ok([])];
    assert HeldSymbols([]) == [];
    assert SymbolEvents([], 0, "SPY", closes) == [PlotCrossover("SPY", Buy), MarketBuy("SPY")];
    var spy := SymbolStep([], 0, "SPY", bars[0]);
    var btc := SymbolStep([], 0, "BTC/USD", bars[1]);
    assert spy == [GetBars("SPY", Equity, 35), PlotCrossover("SPY", Buy), MarketBuy("SPY")];
    assert btc == [GetBars("BTC/USD", Crypto, 35)];
    TwoSymbolScan([], 0, bars);
  }

  /** A scan of the two-symbol universe with both bar requests answered is
      the calls for the first symbol followed by those for the second. */
  lemma TwoSymbolScan(held: seq<string>, count: nat, bars: seq<Result<seq<real>>>)
    requires |bars| == 2 && bars[0].Ok? && bars[1].Ok?
    ensures ScanEvents(held, count, SYMBOLS, bars) ==
            SymbolStep(held, count, "SPY", bars[0]) + SymbolStep(held, count, "BTC/USD", bars[1])
  {
    ScanUnfold(held, count, SYMBOLS, bars, 0);
    ScanUnfold(held, count, SYMBOLS, bars, 1);
    assert SYMBOLS[2..] == [] && bars[2..] == [];
    assert SYMBOLS[0..] == SYMBOLS && bars[0..] == bars;
  }

  /** The same with five positions already open: the limit is reached and no
      order is requested. */
  lemma LimitReachedNoOrder(closes: seq<real>, others: seq<Position>)
    requires SignalOf(closes) == Buy
    requires |others| == POSITION_LIMIT
    ensures RunEvents(SYMBOLS, ScanInput(Ok(others), [Ok(closes), Ok([])])) ==
            [GetAllPositions, GetBars("SPY", Equity, 35), PlotCrossover("SPY", Buy), GetBars("BTC/USD", Crypto, 35)]
  {
    var bars := [Ok(closes), Ok([])];
    var held := HeldSymbols(others);
    assert SymbolEvents(held, |others|, "SPY", closes) == [PlotCrossover("SPY", Buy)];
    assert SymbolStep(held, |others|, "SPY", bars[0]) == [GetBars("SPY", Equity, 35), PlotCrossover("SPY", Buy)];
    assert SymbolStep(held, |others|, "BTC/USD", bars[1]) == [GetBars("BTC/USD", Crypto, 35)];
    TwoSymbolScan(held, |others|, bars);
  }

  /** The limit is checked against the snapshot taken at the start of the run:
      with POSITION_LIMIT - 1 positions open, two golden crosses issue two buys,
      one more than the limit leaves room for. */
  lemma SnapshotLimitAllowsOvershoot(spy: seq<real>, btc: seq<real>, others: seq<Position>)
    requires SignalOf(spy) == Buy && SignalOf(btc) == Buy
    requires |others| == POSITION_LIMIT - 1
    requires forall p :: p in others ==> p.symbol != "SPY" && p.symbol != "BTC/USD"
    ensures var run := RunEvents(SYMBOLS, ScanInput(Ok(others), [Ok(spy), Ok(btc)]));
            MarketBuy("SPY") in run && MarketBuy("BTC/USD") in run &&
            |others| + 2 > POSITION_LIMIT
  {
    var held := HeldSymbols(others);
    assert "SPY" !in held && "BTC/USD" !in held by {
      forall i | 0 <= i < |held|
        ensures held[i] != "SPY" && held[i] != "BTC/USD"
      {
        assert others[i] in others;
      }
    }
    var bars := [Ok(spy), Ok(btc)];
    var count := |others|;
    assert SymbolEvents(held, count, "SPY", spy) == [PlotCrossover("SPY", Buy), MarketBuy("SPY")];
    assert SymbolEvents(held, count, "BTC/USD", btc) == [PlotCrossover("BTC/USD", Buy), MarketBuy("BTC/USD")];
    var first := SymbolStep(held, count, "SPY", bars[0]);
    var second := SymbolStep(held, count, "BTC/USD", bars[1]);
    assert MarketBuy("SPY") in first && MarketBuy("BTC/USD") in second;
    TwoSymbolScan(held, count, bars);
    assert ScanEvents(held, count, SYMBOLS, bars) == first + second;
  }

  class TradingStrategy {
    const client: Client
    const symbols: seq<string>

    constructor (client: Client)
      ensures this.client == client && symbols == SYMBOLS
    {
      this.client := client;
      symbols := SYMBOLS;
    }

    /** The body of the scan for one symbol whose bars are closes: an empty
        series is skipped; a signal is charted, then acted on or skipped. */
    method Decide(held: seq<string>, count: nat, symbol: string, closes: seq<real>)
      modifies client
      ensures client.events == old(client.events) + SymbolEvents(held, count, symbol, closes)
    {
      if closes == [] {
        return;
      }
      var signal := SignalOf(closes);
      if signal == Buy {
        client.Record(PlotCrossover(symbol, Buy));
        if count >= POSITION_LIMIT {
          return;
        }
        if symbol in held {
          return;
        }
        // whether the brokerage accepts the order or not, the scan goes on
        client.Record(MarketBuy(symbol));
      } else if signal == Sell {
        client.Record(PlotCrossover(symbol, Sell));
        if symbol !in held {
          return;
        }
        // whether the close succeeds or not, the scan goes on
        client.Record(ClosePosition(symbol));
      }
    }

    /** One pass of the scan loop: the bar request, then the decision if the
        bars arrived. Returns true when the request raised. */
    method ScanSymbol(held: seq<string>, count: nat, symbol: string, bars: Result<seq<real>>) returns (raised: bool)
      modifies client
      ensures raised == bars.Err?
      ensures client.events == old(client.events) + SymbolStep(held, count, symbol, bars)
    {
      client.Record(GetBars(symbol, AssetClassOf(symbol), BAR_LIMIT));
      if bars.Err? {
        return true;
      }
      Decide(held, count, symbol, bars.value);
      return false;
    }

    /** Strategy.run. Every exception is absorbed: a failed positions read or bar
        request ends the scan, a rejected buy or close is only logged. */
    method Run(input: ScanInput)
      requires |input.bars| == |symbols|
      modifies client
      ensures client.events == old(client.events) + RunEvents(symbols, input)
    {
      ghost var target := old(client.events) + RunEvents(symbols, input);
      client.Record(GetAllPositions);
      if input.positions.Err? {
        return;
      }
      var positions := input.positions.value;
      var held := HeldSymbols(positions);
      ghost var scan := ScanEvents(held, |positions|, symbols, input.bars);
      assert RunEvents(symbols, input) == [GetAllPositions] + scan;
      AppendAssoc(old(client.events), [GetAllPositions], scan);
      assert client.events + scan == target;
      var i := 0;
      assert symbols[i..] == symbols && input.bars[i..] == input.bars;
      while i < |symbols|
        invariant 0 <= i <= |symbols|
        invariant client.events + ScanEvents(held, |positions|, symbols[i..], input.bars[i..]) == target
      {
        ScanUnfold(held, |positions|, symbols, input.bars, i);
        ghost var before := client.events;
        var raised := ScanSymbol(held, |positions|, symbols[i], input.bars[i]);
        if raised {
          return;
        }
        AppendAssoc(before, SymbolStep(held, |positions|, symbols[i], input.bars[i]),
                    ScanEvents(held, |positions|, symbols[i + 1..], input.bars[i + 1..]));
        i := i + 1;
      }
      assert symbols[i..] == [] && input.bars[i..] == [];
      assert client.events + [] == client.events;
    }
  }
}
