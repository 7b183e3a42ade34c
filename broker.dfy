/** What the core sees of the brokerage, the market-data service, the chart
    sink and the clock: read-only snapshots, and a log of every call it makes. */
module Broker {
  import opened Crossover

  datatype Side = BuySide | SellSide
  datatype TimeInForce = Gtc | Day

  /** Market data comes from a separate client per asset class, chosen by the
      symbol's syntax: a pair such as "BTC/USD" is crypto. */
  datatype AssetClass = Equity | Crypto

  function AssetClassOf(symbol: string): (c: AssetClass)
  {
    if '/' in symbol then Crypto else Equity
  }

  datatype Account = Account(cash: real, portfolioValue: real, lastEquity: real, tradingBlocked: bool)

  datatype Position = Position(symbol: string, qty: real)

  datatype OpenOrder = OpenOrder(symbol: string, side: Side, orderType: string)

  /** The order type the brokerage reports for a trailing stop. */
  const TRAILING_STOP_TYPE: string := "trailing_stop"

  /** The answer to a request whose failure changes the core's control flow. */
  datatype Outcome = Accepted | Rejected

  /** One call made by the core, in the order it is made. */
  datatype Event =
    | GetAccount
    | GetAllPositions
    | GetOrders
    | GetBars(symbol: string, assetClass: AssetClass, limit: nat)
    | SubmitMarketOrder(symbol: string, notional: nat, side: Side, timeInForce: TimeInForce)
    | SubmitTrailingStop(symbol: string, qty: real, side: Side, timeInForce: TimeInForce, trailPercent: real)
    | ClosePosition(symbol: string)
    | CloseAllPositions(cancelOrders: bool)
    | CancelOrders
    | PlotCrossover(symbol: string, signal: Signal)
    | Sleep(seconds: nat)

  /** The trading client shared by the strategy, the risk manager and the main
      loop. Its answers are inputs of each cycle; what it records is every call. */
  class Client {
    var events: seq<Event>

    constructor ()
      ensures events == []
    {
      events := [];
    }

    method Record(e: Event)
      modifies this
      ensures events == old(events) + [e]
    {
      events := events + [e];
    }
  }

  /** Calls only the strategy's scan makes (get_all_positions is shared). */
  predicate IsScanEvent(e: Event)
  {
    e.GetBars? || e.SubmitMarketOrder? || e.ClosePosition? || e.PlotCrossover?
  }

  /** Calls only the risk manager makes (get_all_positions is shared). */
  predicate IsRiskEvent(e: Event)
  {
    e.GetAccount? || e.GetOrders? || e.SubmitTrailingStop? || e.CloseAllPositions?
  }

  /** Regrouping a concatenation of call lists. */
  lemma AppendAssoc(a: seq<Event>, b: seq<Event>, c: seq<Event>)
    ensures a + (b + c) == (a + b) + c
  {
  }

  lemma Regroup(a: seq<Event>, b: seq<Event>, c: seq<Event>, d: seq<Event>)
    ensures a + b + c + d == a + (b + c + d)
  {
  }

  /** Number of sleeps in events. */
  function Sleeps(events: seq<Event>): (n: nat)
  {
    if events == [] then 0 else (if events[0].Sleep? then 1 else 0) + Sleeps(events[1..])
  }

  lemma {:induction false} SleepsConcat(a: seq<Event>, b: seq<Event>)
    ensures Sleeps(a + b) == Sleeps(a) + Sleeps(b)
  {
    if a == [] {
      assert a + b == b;
    } else {
      assert (a + b)[1..] == a[1..] + b;
      SleepsConcat(a[1..], b);
    }
  }

  lemma {:induction false} NoSleeps(events: seq<Event>)
    requires forall e :: e in events ==> !e.Sleep?
    ensures Sleeps(events) == 0
  {
    if events != [] {
      NoSleeps(events[1..]);
    }
  }

  function Count(events: seq<Event>, e: Event): (c: nat)
    ensures c <= |events|
    ensures c == 0 <==> e !in events
  {
    if events == [] then 0 else (if events[0] == e then 1 else 0) + Count(events[1..], e)
  }

  lemma {:induction false} CountConcat(a: seq<Event>, b: seq<Event>, e: Event)
    ensures Count(a + b, e) == Count(a, e) + Count(b, e)
  {
    if a == [] {
      assert a + b == b;
    } else {
      assert (a + b)[1..] == a[1..] + b;
      CountConcat(a[1..], b, e);
    }
  }
}
