/** The risk manager of risk_management.py: a set-once baseline with a drawdown
    halt, and the reconciliation of trailing stops against open positions. */
module Risk {
  import opened Wrappers
  import opened Broker

  const DAILY_DRAWDOWN_LIMIT: real := -0.05
  const TRAILING_STOP_PCT: real := 0.02
  /** The trail as submitted: the SDK takes percentage points. */
  const TRAIL_PERCENT: real := TRAILING_STOP_PCT * 100.0

  /** What a risk check returns: True (keep trading), False (stop the bot), or
      an exception that escapes it. */
  datatype Verdict = Continue | Halt | Raised

  /** The answers the brokerage gives during one RiskManager.run: the account,
      the outcome of the liquidation (if requested), the positions and the
      open orders. */
  datatype RiskInput = RiskInput(account: Result<Account>, closeAll: Outcome,
                                 positions: Result<seq<Position>>, orders: Result<seq<OpenOrder>>)

  /** The state after a risk call, what it returns and the calls it made. */
  datatype Step = Step(baseline: Option<real>, verdict: Verdict, events: seq<Event>)

  /** The portfolio has fallen from the baseline by the limit or more. */
  predicate DrawdownBreached(baseline: real, current: real)
    requires baseline != 0.0
  {
    (current - baseline) / baseline <= DAILY_DRAWDOWN_LIMIT
  }

  /** track_daily_drawdown from baseline: the first successful reading only sets
      the baseline from last_equity; later ones compare portfolio_value with it
      and liquidate everything when the limit is reached. */
  function DrawdownStep(baseline: Option<real>, account: Result<Account>, closeAll: Outcome): (st: Step)
  {
    match account
    case Err => Step(baseline, Raised, [GetAccount])
    case Ok(a) =>
      match baseline
      case None => Step(Some(a.lastEquity), Continue, [GetAccount])
      case Some(b) =>
        if b == 0.0 then Step(baseline, Raised, [GetAccount])
        else if DrawdownBreached(b, a.portfolioValue) then
          Step(baseline, if closeAll == Accepted then Halt else Raised, [GetAccount, CloseAllPositions(true)])
        else Step(baseline, Continue, [GetAccount])
  }

  /** Some open order already protects symbol: a sell-side trailing stop for it. */
  predicate HasTrailingStop(orders: seq<OpenOrder>, symbol: string)
  {
    exists o :: o in orders && o.side == SellSide && o.symbol == symbol && o.orderType == TRAILING_STOP_TYPE
  }

  /** The stop protecting position p: its whole quantity, sell side, good till
      canceled, TRAIL_PERCENT behind the price. */
  function TrailingStopFor(p: Position): (e: Event)
  {
    SubmitTrailingStop(p.symbol, p.qty, SellSide, Gtc, TRAIL_PERCENT)
  }

  /** The stop submission for one position: none when its symbol is
      protected already. */
  function StopFor(p: Position, os: seq<OpenOrder>): (ev: seq<Event>)
  {
    if HasTrailingStop(os, p.symbol) then [] else [TrailingStopFor(p)]
  }

  /** The stop submissions of manage_trailing_stops, in position order. */
  function StopRequests(positions: seq<Position>, orders: seq<OpenOrder>): (ev: seq<Event>)
  {
    if positions == [] then []
    else StopFor(positions[0], orders) + StopRequests(positions[1..], orders)
  }

  /** The calls of manage_trailing_stops: the positions, then the open orders,
      then the stops; a failed read raises and ends it. */
  function ReconcileEvents(positions: Result<seq<Position>>, orders: Result<seq<OpenOrder>>): (ev: seq<Event>)
  {
    [GetAllPositions] +
    match positions
    case Err => []
    case Ok(ps) =>
      [GetOrders] +
      match orders
      case Err => []
      case Ok(os) => StopRequests(ps, os)
  }

  /** RiskManager.run: the drawdown check, then (only if it passed) the stops. */
  function RiskStep(baseline: Option<real>, input: RiskInput): (st: Step)
  {
    var dd := DrawdownStep(baseline, input.account, input.closeAll);
    if dd.verdict != Continue then dd
    else
      Step(dd.baseline, if input.positions.Ok? && input.orders.Ok? then Continue else Raised,
           dd.events + ReconcileEvents(input.positions, input.orders))
  }

  /** The first successful reading sets the baseline to last_equity (not to
      portfolio_value) and continues, without judging drawdown or liquidating. */
  lemma FirstReadingSetsBaseline(input: RiskInput, a: Account)
    requires input.account == Ok(a)
    ensures DrawdownStep(None, input.account, input.closeAll) == Step(Some(a.lastEquity), Continue, [GetAccount])
    ensures RiskStep(None, input).baseline == Some(a.lastEquity)
    ensures CloseAllPositions(true) !in RiskStep(None, input).events
  {
    var dd := DrawdownStep(None, input.account, input.closeAll);
    assert dd.events == [GetAccount];
    var tail := ReconcileEvents(input.positions, input.orders);
    if CloseAllPositions(true) in tail {
      StopRequestKinds(input.positions, input.orders, CloseAllPositions(true));
    }
  }

  lemma StopRequestKinds(positions: Result<seq<Position>>, orders: Result<seq<OpenOrder>>, e: Event)
    requires e in ReconcileEvents(positions, orders)
    ensures e == GetAllPositions || e == GetOrders || e.SubmitTrailingStop?
  {
    if e != GetAllPositions && e != GetOrders {
      StopRequestsExact(positions.value, orders.value, e);
    }
  }

  /** Every call of a risk step is a risk-side call or the position read, and
      every stop it submits protects a position of the snapshot it read. */
  lemma RiskStepKinds(baseline: Option<real>, input: RiskInput, e: Event)
    requires e in RiskStep(baseline, input).events
    ensures IsRiskEvent(e) || e == GetAllPositions
    ensures e.SubmitTrailingStop? ==>
            input.positions.Ok? && exists p :: p in input.positions.value && e == TrailingStopFor(p)
  {
    var dd := DrawdownStep(baseline, input.account, input.closeAll);
    if e !in dd.events {
      StopRequestKinds(input.positions, input.orders, e);
      if e.SubmitTrailingStop? {
        StopRequestsExact(input.positions.value, input.orders.value, e);
        var i :| 0 <= i < |input.positions.value| && !HasTrailingStop(input.orders.value, input.positions.value[i].symbol) &&
                 e == TrailingStopFor(input.positions.value[i]);
        assert input.positions.value[i] in input.positions.value;
      }
    }
  }

  /** Once set, the baseline never changes; while unset, only a successful
      account reading sets it. */
  lemma BaselineSetOnce(baseline: Option<real>, input: RiskInput)
    ensures baseline.Some? ==> RiskStep(baseline, input).baseline == baseline
    ensures baseline.None? ==>
            RiskStep(baseline, input).baseline == (if input.account.Ok? then Some(input.account.value.lastEquity) else None)
  {
  }

  /** With a nonzero baseline, liquidation is requested exactly when the
      portfolio has fallen by the limit or more, and then exactly once; the
      check halts if the liquidation goes through and raises if it fails. */
  lemma HaltIffDrawdown(b: real, input: RiskInput, a: Account)
    requires b != 0.0 && input.account == Ok(a)
    ensures var step := RiskStep(Some(b), input);
            (CloseAllPositions(true) in step.events <==> (a.portfolioValue - b) / b <= -0.05) &&
            Count(step.events, CloseAllPositions(true)) <= 1 &&
            (step.verdict == Halt <==> DrawdownBreached(b, a.portfolioValue) && input.closeAll == Accepted) &&
            (step.verdict == Halt ==> step.events == [GetAccount, CloseAllPositions(true)])
  {
    var step := RiskStep(Some(b), input);
    var dd := DrawdownStep(Some(b), input.account, input.closeAll);
    if dd.verdict == Continue {
      var tail := ReconcileEvents(input.positions, input.orders);
      assert step.events == [GetAccount] + tail;
      if CloseAllPositions(true) in tail {
        StopRequestKinds(input.positions, input.orders, CloseAllPositions(true));
      }
      CountConcat([GetAccount], tail, CloseAllPositions(true));
    }
  }

  /** A breach whose liquidation fails raises out of the check: the liquidation
      call is not guarded, so the exception reaches the caller with the
      baseline unchanged and no stop managed. */
  lemma FailedLiquidationRaises(b: real, input: RiskInput, a: Account)
    requires b != 0.0 && input.account == Ok(a)
    requires DrawdownBreached(b, a.portfolioValue) && input.closeAll == Rejected
    ensures RiskStep(Some(b), input) == Step(Some(b), Raised, [GetAccount, CloseAllPositions(true)])
  {
  }

  /** Without a breach the drawdown check passes: it reads the account, keeps
      the baseline and liquidates nothing. */
  lemma NoBreachContinues(b: real, a: Account, closeAll: Outcome)
    requires b != 0.0 && !DrawdownBreached(b, a.portfolioValue)
    ensures DrawdownStep(Some(b), Ok(a), closeAll) == Step(Some(b), Continue, [GetAccount])
  {
  }

  /** For a positive baseline the limit is a 5% loss, boundary included. */
  lemma DrawdownThreshold(b: real, current: real)
    requires b > 0.0
    ensures DrawdownBreached(b, current) <==> current <= 0.95 * b
  {
    var ratio := (current - b) / b;
    assert ratio * b == current - b;
  }

  /** Baseline 1000: 940 halts, 960 continues, 950 (exactly -5%) halts. */
  lemma DrawdownExamples(cash: real, lastEquity: real, blocked: bool)
    ensures DrawdownStep(Some(1000.0), Ok(Account(cash, 940.0, lastEquity, blocked)), Accepted).verdict == Halt
    ensures DrawdownStep(Some(1000.0), Ok(Account(cash, 960.0, lastEquity, blocked)), Accepted).verdict == Continue
    ensures DrawdownStep(Some(1000.0), Ok(Account(cash, 950.0, lastEquity, blocked)), Accepted).verdict == Halt
  {
    DrawdownThreshold(1000.0, 940.0);
    DrawdownThreshold(1000.0, 960.0);
    DrawdownThreshold(1000.0, 950.0);
  }

  /** The stops are reconciled only after the drawdown check passed: a halting
      or raising check reads no positions and submits no stop. */
  lemma DrawdownBeforeStops(baseline: Option<real>, input: RiskInput)
    ensures var dd := DrawdownStep(baseline, input.account, input.closeAll);
            var step := RiskStep(baseline, input);
            (dd.verdict != Continue ==> step == dd && GetAllPositions !in step.events) &&
            (dd.verdict == Continue ==> step.events == [GetAccount] + ReconcileEvents(input.positions, input.orders))
  {
  }

  /** A stop is submitted exactly for each position that no open order already
      protects, and it is that position's stop. */
  lemma {:induction false} StopRequestsExact(ps: seq<Position>, os: seq<OpenOrder>, e: Event)
    ensures e in StopRequests(ps, os) <==>
            exists i :: 0 <= i < |ps| && !HasTrailingStop(os, ps[i].symbol) && e == TrailingStopFor(ps[i])
  {
    if ps != [] {
      StopRequestsExact(ps[1..], os, e);
      if exists i :: 0 <= i < |ps| && !HasTrailingStop(os, ps[i].symbol) && e == TrailingStopFor(ps[i]) {
        var i :| 0 <= i < |ps| && !HasTrailingStop(os, ps[i].symbol) && e == TrailingStopFor(ps[i]);
        if i > 0 {
          assert ps[1..][i - 1] == ps[i];
        }
      }
      if e in StopRequests(ps[1..], os) {
        var k :| 0 <= k < |ps[1..]| && !HasTrailingStop(os, ps[1..][k].symbol) && e == TrailingStopFor(ps[1..][k]);
        assert ps[k + 1] == ps[1..][k];
      }
    }
  }

  /** Number of submitted stops for symbol. */
  function StopsFor(events: seq<Event>, symbol: string): (n: nat)
  {
    if events == [] then 0
    else (if events[0].SubmitTrailingStop? && events[0].symbol == symbol then 1 else 0) + StopsFor(events[1..], symbol)
  }

  /** Number of positions in symbol. */
  function PositionsIn(ps: seq<Position>, symbol: string): (n: nat)
  {
    if ps == [] then 0 else (if ps[0].symbol == symbol then 1 else 0) + PositionsIn(ps[1..], symbol)
  }

  lemma {:induction false} StopsForConcat(a: seq<Event>, b: seq<Event>, symbol: string)
    ensures StopsFor(a + b, symbol) == StopsFor(a, symbol) + StopsFor(b, symbol)
  {
    if a == [] {
      assert a + b == b;
    } else {
      assert (a + b)[1..] == a[1..] + b;
      StopsForConcat(a[1..], b, symbol);
    }
  }

  /** One stop per unprotected position and none for a protected symbol: the
      stops submitted for a symbol number its positions if no open order
      protects it, and zero otherwise. */
  lemma {:induction false} StopsPerPosition(ps: seq<Position>, os: seq<OpenOrder>, symbol: string)
    ensures StopsFor(StopRequests(ps, os), symbol) == if HasTrailingStop(os, symbol) then 0 else PositionsIn(ps, symbol)
  {
    if ps != [] {
      var head := if HasTrailingStop(os, ps[0].symbol) then [] else [TrailingStopFor(ps[0])];
      StopsForConcat(head, StopRequests(ps[1..], os), symbol);
      StopsPerPosition(ps[1..], os, symbol);
    }
  }

  /** The open orders that the submitted stops become at the brokerage. */
  function PlacedOrders(events: seq<Event>): (r: seq<OpenOrder>)
  {
    if events == [] then []
    else
      (if events[0].SubmitTrailingStop? then [OpenOrder(events[0].symbol, events[0].side, TRAILING_STOP_TYPE)] else []) +
      PlacedOrders(events[1..])
  }

  lemma {:induction false} PlacedOrdersHas(events: seq<Event>, e: Event)
    requires e in events && e.SubmitTrailingStop?
    ensures OpenOrder(e.symbol, e.side, TRAILING_STOP_TYPE) in PlacedOrders(events)
  {
    if events[0] != e {
      PlacedOrdersHas(events[1..], e);
    }
  }

  lemma {:induction false} AllProtectedNoStops(ps: seq<Position>, os: seq<OpenOrder>)
    requires forall i :: 0 <= i < |ps| ==> HasTrailingStop(os, ps[i].symbol)
    ensures StopRequests(ps, os) == []
  {
    if ps != [] {
      AllProtectedNoStops(ps[1..], os);
    }
  }

  /** Reconciling again once the submitted stops are open orders submits
      nothing: the reconciliation is idempotent. */
  lemma ReconcileIdempotent(ps: seq<Position>, os: seq<OpenOrder>)
    ensures StopRequests(ps, os + PlacedOrders(StopRequests(ps, os))) == []
  {
    var stops := StopRequests(ps, os);
    var after := os + PlacedOrders(stops);
    forall i | 0 <= i < |ps|
      ensures HasTrailingStop(after, ps[i].symbol)
    {
      if HasTrailingStop(os, ps[i].symbol) {
        var o :| o in os && o.side == SellSide && o.symbol == ps[i].symbol && o.orderType == TRAILING_STOP_TYPE;
        assert o in after;
      } else {
        StopRequestsExact(ps, os, TrailingStopFor(ps[i]));
        PlacedOrdersHas(stops, TrailingStopFor(ps[i]));
        assert OpenOrder(ps[i].symbol, SellSide, TRAILING_STOP_TYPE) in after;
      }
    }
    AllProtectedNoStops(ps, after);
  }

  /** One step of StopRequests at index i. */
  lemma StopUnfold(ps: seq<Position>, os: seq<OpenOrder>, i: nat)
    requires i < |ps|
    ensures StopRequests(ps[i..], os) == StopFor(ps[i], os) + StopRequests(ps[i + 1..], os)
  {
    assert ps[i..][1..] == ps[i + 1..];
  }

  class RiskManager {
    const client: Client
    var initialPortfolioValue: Option<real>

    constructor (client: Client)
      ensures this.client == client && initialPortfolioValue == None
    {
      this.client := client;
      initialPortfolioValue := None;
    }

    /** track_daily_drawdown. The baseline is assigned only while unset. */
    method TrackDailyDrawdown(account: Result<Account>, closeAll: Outcome) returns (verdict: Verdict)
      modifies this, client
      ensures var step := DrawdownStep(old(initialPortfolioValue), account, closeAll);
              verdict == step.verdict && initialPortfolioValue == step.baseline &&
              client.events == old(client.events) + step.events
      ensures old(initialPortfolioValue).Some? ==> initialPortfolioValue == old(initialPortfolioValue)
    {
      client.Record(GetAccount);
      if account.Err? {
        return Raised;
      }
      var current := account.value.portfolioValue;
      if initialPortfolioValue.None? {
        initialPortfolioValue := Some(account.value.lastEquity);
        return Continue;
      }
      var baseline := initialPortfolioValue.value;
      if baseline == 0.0 {
        // the division below raises ZeroDivisionError
        return Raised;
      }
      var change := (current - baseline) / baseline;
      if change <= DAILY_DRAWDOWN_LIMIT {
        client.Record(CloseAllPositions(true));
        if closeAll == Rejected {
          // not caught here: the failure escapes to the caller
          return Raised;
        }
        return Halt;
      }
      return Continue;
    }

    /** One pass of the stop loop: submit a stop for p unless one protects its
        symbol already. */
    method ProtectPosition(p: Position, os: seq<OpenOrder>)
      modifies client
      ensures client.events == old(client.events) + StopFor(p, os)
    {
      var hasStop := HasTrailingStop(os, p.symbol);
      if !hasStop {
        // whether the brokerage accepts the stop or not, the loop goes on
        client.Record(TrailingStopFor(p));
      }
    }

    /** manage_trailing_stops. Returns false when a read raised. */
    method ManageTrailingStops(positions: Result<seq<Position>>, orders: Result<seq<OpenOrder>>) returns (ok: bool)
      modifies client
      ensures ok == (positions.Ok? && orders.Ok?)
      ensures client.events == old(client.events) + ReconcileEvents(positions, orders)
    {
      ghost var start := client.events;
      ghost var target := start + ReconcileEvents(positions, orders);
      client.Record(GetAllPositions);
      if positions.Err? {
        assert ReconcileEvents(positions, orders) == [GetAllPositions];
        return false;
      }
      client.Record(GetOrders);
      if orders.Err? {
        assert ReconcileEvents(positions, orders) == [GetAllPositions] + [GetOrders];
        return false;
      }
      var ps, os := positions.value, orders.value;
      assert ReconcileEvents(positions, orders) == [GetAllPositions] + [GetOrders] + StopRequests(ps, os);
      Regroup(start, [GetAllPositions], [GetOrders], StopRequests(ps, os));
      var i := 0;
      assert ps[i..] == ps;
      while i < |ps|
        invariant 0 <= i <= |ps|
        invariant client.events + StopRequests(ps[i..], os) == target
      {
        StopUnfold(ps, os, i);
        ghost var before := client.events;
        ProtectPosition(ps[i], os);
        AppendAssoc(before, StopFor(ps[i], os), StopRequests(ps[i + 1..], os));
        i := i + 1;
      }
      assert ps[i..] == [];
      assert client.events + [] == client.events;
      return true;
    }

    /** RiskManager.run. */
    method Run(input: RiskInput) returns (verdict: Verdict)
      modifies this, client
      ensures var step := RiskStep(old(initialPortfolioValue), input);
              verdict == step.verdict && initialPortfolioValue == step.baseline &&
              client.events == old(client.events) + step.events
      ensures old(initialPortfolioValue).Some? ==> initialPortfolioValue == old(initialPortfolioValue)
    {
      ghost var start := client.events;
      ghost var dd := DrawdownStep(initialPortfolioValue, input.account, input.closeAll);
      ghost var step := RiskStep(initialPortfolioValue, input);
      verdict := TrackDailyDrawdown(input.account, input.closeAll);
      if verdict != Continue {
        assert step == dd;
        return;
      }
      ghost var recon := ReconcileEvents(input.positions, input.orders);
      assert step.events == dd.events + recon && step.baseline == dd.baseline;
      var ok := ManageTrailingStops(input.positions, input.orders);
      AppendAssoc(start, dd.events, recon);
      if !ok {
        verdict := Raised;
      }
    }
  }
}
