/** The main loop of bot.py as a state machine: connect, then heartbeats that
    run the risk manager before the strategy, with a backoff after a failed
    cycle, a halt on drawdown and an orderly shutdown on interrupt. */
module Bot {
  import opened Wrappers
  import opened Broker
  import opened Strategy
  import opened Risk

  const RETRY_SECONDS: nat := 30
  const HEARTBEAT_SECONDS: nat := 15

  /** What the loop meets next: a heartbeat answered by the brokerage (risk
      answers first, then the scan's), or a keyboard interrupt. */
  datatype Beat = Cycle(risk: RiskInput, scan: ScanInput) | Interrupt

  datatype StopReason = ConnectFailed | AccountBlocked | DrawdownHalt | Interrupted

  /** Connecting, then Running; Halted is the loop's break on a drawdown; every
      path ends in Terminated. */
  datatype Phase = Connecting | Running | Halted | Terminated(reason: StopReason)

  /** The calls made so far, the phase reached and the risk baseline. */
  datatype Trace = Trace(events: seq<Event>, phase: Phase, baseline: Option<real>)

  /** Every heartbeat's scan answers one bar request per symbol. */
  ghost predicate Fits(symbols: seq<string>, beats: seq<Beat>)
  {
    forall i :: 0 <= i < |beats| && beats[i].Cycle? ==> |beats[i].scan.bars| == |symbols|
  }

  /** One heartbeat: the risk check, then the strategy only if trading may go
      on, then the pause; an exception from the risk check means the retry
      pause instead, and a halt breaks out of the loop. */
  function HeartbeatTrace(symbols: seq<string>, baseline: Option<real>, risk: RiskInput, scan: ScanInput): (t: Trace)
    requires |scan.bars| == |symbols|
  {
    var r := RiskStep(baseline, risk);
    match r.verdict
    case Halt => Trace(r.events, Halted, r.baseline)
    case Raised => Trace(r.events + [Sleep(RETRY_SECONDS)], Running, r.baseline)
    case Continue => Trace(r.events + RunEvents(symbols, scan) + [Sleep(HEARTBEAT_SECONDS)], Running, r.baseline)
  }

  /** The loop over beats from baseline, until a halt or an interrupt; phase
      Running means the loop is still going when the beats run out. */
  function LoopTrace(symbols: seq<string>, baseline: Option<real>, beats: seq<Beat>): (t: Trace)
    requires Fits(symbols, beats)
    decreases |beats|
  {
    if beats == [] then Trace([], Running, baseline)
    else
      match beats[0]
      case Interrupt => Trace([CancelOrders], Terminated(Interrupted), baseline)
      case Cycle(risk, scan) =>
        var h := HeartbeatTrace(symbols, baseline, risk, scan);
        if h.phase == Halted then Trace(h.events, Terminated(DrawdownHalt), h.baseline)
        else
          FitsTail(symbols, beats);
          var rest := LoopTrace(symbols, h.baseline, beats[1..]);
          Trace(h.events + rest.events, rest.phase, rest.baseline)
  }

  /** One step of LoopTrace, stated without its match. */
  lemma LoopUnfold(symbols: seq<string>, baseline: Option<real>, beats: seq<Beat>)
    requires beats != [] && Fits(symbols, beats)
    ensures beats[0].Interrupt? ==>
            LoopTrace(symbols, baseline, beats) == Trace([CancelOrders], Terminated(Interrupted), baseline)
    ensures beats[0].Cycle? ==> Fits(symbols, beats[1..])
    ensures beats[0].Cycle? ==>
            var h := HeartbeatTrace(symbols, baseline, beats[0].risk, beats[0].scan);
            h.phase == Halted ==> LoopTrace(symbols, baseline, beats) == Trace(h.events, Terminated(DrawdownHalt), h.baseline)
    ensures beats[0].Cycle? ==>
            var h := HeartbeatTrace(symbols, baseline, beats[0].risk, beats[0].scan);
            h.phase != Halted ==>
            Fits(symbols, beats[1..]) &&
            var rest := LoopTrace(symbols, h.baseline, beats[1..]);
            LoopTrace(symbols, baseline, beats) == Trace(h.events + rest.events, rest.phase, rest.baseline)
  {
    FitsTail(symbols, beats);
  }

  lemma FitsTail(symbols: seq<string>, beats: seq<Beat>)
    requires beats != [] && Fits(symbols, beats)
    ensures Fits(symbols, beats[1..])
  {
    forall i | 0 <= i < |beats[1..]| && beats[1..][i].Cycle?
      ensures |beats[1..][i].scan.bars| == |symbols|
    {
      assert beats[1..][i] == beats[i + 1];
    }
  }

  /** main: the account check, then (only for a reachable account that may
      trade) the loop with a fresh, unset baseline. */
  function MainTrace(symbols: seq<string>, startup: Result<Account>, beats: seq<Beat>): (t: Trace)
    requires Fits(symbols, beats)
  {
    match startup
    case Err => Trace([GetAccount], Terminated(ConnectFailed), None)
    case Ok(a) =>
      if a.tradingBlocked then Trace([GetAccount], Terminated(AccountBlocked), None)
      else
        var t := LoopTrace(symbols, None, beats);
        Trace([GetAccount] + t.events, t.phase, t.baseline)
  }

  /** The first baseline reading the loop meets: the last_equity of the first
      heartbeat whose account read succeeds, unless an interrupt comes first. */
  function FirstEquity(beats: seq<Beat>): (e: Option<real>)
  {
    if beats == [] then None
    else
      match beats[0]
      case Interrupt => None
      case Cycle(risk, _) =>
        if risk.account.Ok? then Some(risk.account.value.lastEquity) else FirstEquity(beats[1..])
  }

  /** The terms every order of the bot carries: buys of ORDER_SIZE_USD dollars
      good till canceled, and sell-side trailing stops of TRAIL_PERCENT good
      till canceled. */
  predicate FixedTerms(e: Event)
  {
    (e.SubmitMarketOrder? ==> e.notional == ORDER_SIZE_USD && e.side == BuySide && e.timeInForce == Gtc) &&
    (e.SubmitTrailingStop? ==> e.side == SellSide && e.timeInForce == Gtc && e.trailPercent == TRAIL_PERCENT)
  }

  lemma RiskCalls(baseline: Option<real>, risk: RiskInput)
    ensures forall e :: e in RiskStep(baseline, risk).events ==> IsRiskEvent(e) || e == GetAllPositions
  {
    forall e | e in RiskStep(baseline, risk).events
      ensures IsRiskEvent(e) || e == GetAllPositions
    {
      RiskStepKinds(baseline, risk, e);
    }
  }

  lemma ScanCalls(symbols: seq<string>, scan: ScanInput)
    requires |scan.bars| == |symbols|
    ensures forall e :: e in RunEvents(symbols, scan) ==> IsScanEvent(e) || e == GetAllPositions
  {
    var run := RunEvents(symbols, scan);
    PositionsReadOnce(symbols, scan);
    assert run == [run[0]] + run[1..];
  }

  /** No heartbeat cancels orders, and every order a heartbeat places carries
      the fixed terms. */
  lemma HeartbeatEvents(symbols: seq<string>, baseline: Option<real>, risk: RiskInput, scan: ScanInput, e: Event)
    requires |scan.bars| == |symbols|
    requires e in HeartbeatTrace(symbols, baseline, risk, scan).events
    ensures e != CancelOrders && FixedTerms(e)
  {
    var r := RiskStep(baseline, risk);
    if e in r.events {
      RiskStepKinds(baseline, risk, e);
    } else if e in RunEvents(symbols, scan) {
      ScanCalls(symbols, scan);
      if e.SubmitMarketOrder? {
        RunOrders(symbols, scan, e);
      }
    }
  }

  /** In a + b, when a holds no strategy call and b no risk call, no risk
      call follows a strategy call. */
  lemma RiskThenScan(a: seq<Event>, b: seq<Event>)
    requires forall e :: e in a ==> !IsScanEvent(e)
    requires forall e :: e in b ==> !IsRiskEvent(e)
    ensures forall i, j :: 0 <= i < j < |a + b| && IsScanEvent((a + b)[i]) ==> !IsRiskEvent((a + b)[j])
  {
    var ab := a + b;
    forall k | 0 <= k < |a|
      ensures !IsScanEvent(ab[k])
    {
      assert ab[k] == a[k] && a[k] in a;
    }
    forall k | |a| <= k < |ab|
      ensures !IsRiskEvent(ab[k])
    {
      assert ab[k] == b[k - |a|] && b[k - |a|] in b;
    }
  }

  /** Within a heartbeat the risk check completes before anything else: its
      calls are a prefix of the heartbeat's, and no risk call follows a
      strategy call. The strategy does not run at all unless the risk check
      let trading go on: the heartbeat is then the risk check alone, followed
      by the retry pause after an exception. */
  lemma RiskBeforeStrategy(symbols: seq<string>, baseline: Option<real>, risk: RiskInput, scan: ScanInput)
    requires |scan.bars| == |symbols|
    ensures var r := RiskStep(baseline, risk);
            var ev := HeartbeatTrace(symbols, baseline, risk, scan).events;
            |r.events| <= |ev| && ev[..|r.events|] == r.events
    ensures var r := RiskStep(baseline, risk);
            var ev := HeartbeatTrace(symbols, baseline, risk, scan).events;
            r.verdict != Continue ==> ev == r.events || ev == r.events + [Sleep(RETRY_SECONDS)]
    ensures var ev := HeartbeatTrace(symbols, baseline, risk, scan).events;
            forall i, j :: 0 <= i < j < |ev| && IsScanEvent(ev[i]) ==> !IsRiskEvent(ev[j])
    ensures RiskStep(baseline, risk).verdict != Continue ==>
            forall e :: e in HeartbeatTrace(symbols, baseline, risk, scan).events ==> !IsScanEvent(e)
  {
    RiskPrefix(symbols, baseline, risk, scan);
    NoRiskAfterScan(symbols, baseline, risk, scan);
  }

  lemma RiskPrefix(symbols: seq<string>, baseline: Option<real>, risk: RiskInput, scan: ScanInput)
    requires |scan.bars| == |symbols|
    ensures var r := RiskStep(baseline, risk);
            var ev := HeartbeatTrace(symbols, baseline, risk, scan).events;
            |r.events| <= |ev| && ev[..|r.events|] == r.events
    ensures var r := RiskStep(baseline, risk);
            var ev := HeartbeatTrace(symbols, baseline, risk, scan).events;
            r.verdict != Continue ==> ev == r.events || ev == r.events + [Sleep(RETRY_SECONDS)]
  {
    var r := RiskStep(baseline, risk);
    var ev := HeartbeatTrace(symbols, baseline, risk, scan).events;
    HeartbeatUnfold(symbols, baseline, risk, scan);
    if r.verdict == Halt {
      assert ev == r.events + [];
    } else if r.verdict == Raised {
      assert ev == r.events + [Sleep(RETRY_SECONDS)];
    } else {
      assert ev == r.events + (RunEvents(symbols, scan) + [Sleep(HEARTBEAT_SECONDS)]);
    }
  }

  lemma NoRiskAfterScan(symbols: seq<string>, baseline: Option<real>, risk: RiskInput, scan: ScanInput)
    requires |scan.bars| == |symbols|
    ensures var ev := HeartbeatTrace(symbols, baseline, risk, scan).events;
            forall i, j :: 0 <= i < j < |ev| && IsScanEvent(ev[i]) ==> !IsRiskEvent(ev[j])
    ensures RiskStep(baseline, risk).verdict != Continue ==>
            forall e :: e in HeartbeatTrace(symbols, baseline, risk, scan).events ==> !IsScanEvent(e)
  {
    var r := RiskStep(baseline, risk);
    RiskCalls(baseline, risk);
    HeartbeatUnfold(symbols, baseline, risk, scan);
    var tail := if r.verdict == Halt then []
                else if r.verdict == Raised then [] + [Sleep(RETRY_SECONDS)]
                else RunEvents(symbols, scan) + [Sleep(HEARTBEAT_SECONDS)];
    if r.verdict == Continue {
      ScanCalls(symbols, scan);
    }
    assert HeartbeatTrace(symbols, baseline, risk, scan).events == r.events + tail;
    RiskThenScan(r.events, tail);
  }

  /** A risk check reads the account once, first, and never pauses. */
  lemma RiskReadsAccountOnce(baseline: Option<real>, risk: RiskInput)
    ensures var r := RiskStep(baseline, risk);
            r.events != [] && r.events[0] == GetAccount && Count(r.events, GetAccount) == 1 && Sleeps(r.events) == 0
  {
    var r := RiskStep(baseline, risk);
    var dd := DrawdownStep(baseline, risk.account, risk.closeAll);
    RiskCalls(baseline, risk);
    NoSleeps(r.events);
    assert dd.events == [GetAccount] || dd.events == [GetAccount, CloseAllPositions(true)];
    assert Count(dd.events, GetAccount) == 1;
    if r.verdict == dd.verdict && r.events != dd.events {
      var recon := ReconcileEvents(risk.positions, risk.orders);
      assert r.events == dd.events + recon;
      if GetAccount in recon {
        StopRequestKinds(risk.positions, risk.orders, GetAccount);
      }
      CountConcat(dd.events, recon, GetAccount);
    }
  }

  /** A heartbeat halts exactly when the risk check does, having read the
      account and liquidated and nothing more. */
  lemma HeartbeatHalts(symbols: seq<string>, baseline: Option<real>, risk: RiskInput, scan: ScanInput)
    requires |scan.bars| == |symbols|
    ensures var h := HeartbeatTrace(symbols, baseline, risk, scan);
            (h.phase == Halted <==> RiskStep(baseline, risk).verdict == Halt) &&
            (h.phase == Halted ==> h.events == [GetAccount, CloseAllPositions(true)]) &&
            (h.phase != Halted ==> h.phase == Running)
  {
  }

  /** A breach whose liquidation fails does not stop the bot: the heartbeat
      takes the retry pause and the loop goes on with the same baseline. */
  lemma FailedLiquidationRetries(symbols: seq<string>, b: real, risk: RiskInput, scan: ScanInput, a: Account)
    requires |scan.bars| == |symbols|
    requires b != 0.0 && risk.account == Ok(a)
    requires DrawdownBreached(b, a.portfolioValue) && risk.closeAll == Rejected
    ensures HeartbeatTrace(symbols, Some(b), risk, scan) ==
            Trace([GetAccount, CloseAllPositions(true), Sleep(RETRY_SECONDS)], Running, Some(b))
  {
    FailedLiquidationRaises(b, risk, a);
  }

  /** HeartbeatTrace by the risk verdict, stated without its match. */
  lemma HeartbeatUnfold(symbols: seq<string>, baseline: Option<real>, risk: RiskInput, scan: ScanInput)
    requires |scan.bars| == |symbols|
    ensures var r := RiskStep(baseline, risk);
            r.verdict == Halt ==> HeartbeatTrace(symbols, baseline, risk, scan) == Trace(r.events, Halted, r.baseline)
    ensures var r := RiskStep(baseline, risk);
            r.verdict == Raised ==>
            HeartbeatTrace(symbols, baseline, risk, scan) == Trace(r.events + [] + [Sleep(RETRY_SECONDS)], Running, r.baseline)
    ensures var r := RiskStep(baseline, risk);
            r.verdict == Continue ==>
            HeartbeatTrace(symbols, baseline, risk, scan) ==
            Trace(r.events + RunEvents(symbols, scan) + [Sleep(HEARTBEAT_SECONDS)], Running, r.baseline)
  {
    assert RiskStep(baseline, risk).events + [] == RiskStep(baseline, risk).events;
  }

  lemma PauseAfter(r: seq<Event>, mid: seq<Event>, seconds: nat)
    requires r != [] && r[0] == GetAccount && Count(r, GetAccount) == 1 && Sleeps(r) == 0
    requires GetAccount !in mid && Sleeps(mid) == 0
    ensures var ev := r + mid + [Sleep(seconds)];
            ev[0] == GetAccount && Count(ev, GetAccount) == 1 && Sleeps(ev) == 1 && ev[|ev| - 1] == Sleep(seconds)
  {
    SleepsConcat(r, mid);
    SleepsConcat(r + mid, [Sleep(seconds)]);
    CountConcat(r, mid, GetAccount);
    CountConcat(r + mid, [Sleep(seconds)], GetAccount);
  }

  /** A heartbeat that does not halt reads the account exactly once, first,
      and ends in exactly one pause: the retry pause after an exception, the
      regular one otherwise. */
  lemma HeartbeatShape(symbols: seq<string>, baseline: Option<real>, risk: RiskInput, scan: ScanInput)
    requires |scan.bars| == |symbols|
    requires RiskStep(baseline, risk).verdict != Halt
    ensures var h := HeartbeatTrace(symbols, baseline, risk, scan);
            h.phase == Running && h.events[0] == GetAccount && Count(h.events, GetAccount) == 1 &&
            Sleeps(h.events) == 1
    ensures var ev := HeartbeatTrace(symbols, baseline, risk, scan).events;
            RiskStep(baseline, risk).verdict == Raised ==> ev[|ev| - 1] == Sleep(RETRY_SECONDS)
    ensures var ev := HeartbeatTrace(symbols, baseline, risk, scan).events;
            RiskStep(baseline, risk).verdict == Continue ==> ev[|ev| - 1] == Sleep(HEARTBEAT_SECONDS)
  {
    if RiskStep(baseline, risk).verdict == Raised {
      RetryShape(symbols, baseline, risk, scan);
    } else {
      ContinueShape(symbols, baseline, risk, scan);
    }
  }

  lemma RetryShape(symbols: seq<string>, baseline: Option<real>, risk: RiskInput, scan: ScanInput)
    requires |scan.bars| == |symbols|
    requires RiskStep(baseline, risk).verdict == Raised
    ensures var ev := HeartbeatTrace(symbols, baseline, risk, scan).events;
            HeartbeatTrace(symbols, baseline, risk, scan).phase == Running &&
            ev[0] == GetAccount && Count(ev, GetAccount) == 1 && Sleeps(ev) == 1 && ev[|ev| - 1] == Sleep(RETRY_SECONDS)
  {
    var r := RiskStep(baseline, risk);
    RiskReadsAccountOnce(baseline, risk);
    HeartbeatUnfold(symbols, baseline, risk, scan);
    PauseAfter(r.events, [], RETRY_SECONDS);
  }

  lemma ContinueShape(symbols: seq<string>, baseline: Option<real>, risk: RiskInput, scan: ScanInput)
    requires |scan.bars| == |symbols|
    requires RiskStep(baseline, risk).verdict == Continue
    ensures var ev := HeartbeatTrace(symbols, baseline, risk, scan).events;
            HeartbeatTrace(symbols, baseline, risk, scan).phase == Running &&
            ev[0] == GetAccount && Count(ev, GetAccount) == 1 && Sleeps(ev) == 1 && ev[|ev| - 1] == Sleep(HEARTBEAT_SECONDS)
  {
    var r := RiskStep(baseline, risk);
    var run := RunEvents(symbols, scan);
    RiskReadsAccountOnce(baseline, risk);
    HeartbeatUnfold(symbols, baseline, risk, scan);
    RunQuiet(symbols, scan);
    PauseAfter(r.events, run, HEARTBEAT_SECONDS);
  }

  /** A run of the strategy neither reads the account nor pauses. */
  lemma RunQuiet(symbols: seq<string>, scan: ScanInput)
    requires |scan.bars| == |symbols|
    ensures GetAccount !in RunEvents(symbols, scan) && Sleeps(RunEvents(symbols, scan)) == 0
  {
    ScanCalls(symbols, scan);
    NoSleeps(RunEvents(symbols, scan));
  }

  /** How a loop over n heartbeats can end: still running after one pause and
      one account read per heartbeat, or stopped by a drawdown right after the
      liquidation, or stopped by an interrupt right after the one cancellation
      of the run. */
  ghost predicate LoopShape(t: Trace, n: nat)
  {
    (t.phase == Running || t.phase == Terminated(DrawdownHalt) || t.phase == Terminated(Interrupted)) &&
    (t.phase == Running ==> Sleeps(t.events) == n && Count(t.events, GetAccount) == n) &&
    (t.phase == Terminated(DrawdownHalt) ==> t.events != [] && t.events[|t.events| - 1] == CloseAllPositions(true)) &&
    (t.phase == Terminated(Interrupted) ==> t.events != [] && t.events[|t.events| - 1] == CancelOrders) &&
    Count(t.events, CancelOrders) == (if t.phase == Terminated(Interrupted) then 1 else 0)
  }

  /** A heartbeat that pauses once, reads the account once and cancels nothing,
      put in front of the rest of a loop, keeps the loop's shape. */
  lemma GlueBeat(h: seq<Event>, rest: Trace, n: nat)
    requires Sleeps(h) == 1 && Count(h, GetAccount) == 1 && CancelOrders !in h
    requires LoopShape(rest, n)
    ensures LoopShape(Trace(h + rest.events, rest.phase, rest.baseline), n + 1)
  {
    SleepsConcat(h, rest.events);
    CountConcat(h, rest.events, GetAccount);
    CountConcat(h, rest.events, CancelOrders);
    if rest.events != [] {
      assert (h + rest.events)[|h + rest.events| - 1] == rest.events[|rest.events| - 1];
    }
  }

  /** How the loop ends. */
  lemma {:induction false} LoopEnd(symbols: seq<string>, baseline: Option<real>, beats: seq<Beat>)
    requires Fits(symbols, beats)
    ensures LoopShape(LoopTrace(symbols, baseline, beats), |beats|)
    decreases |beats|
  {
    if beats != [] {
      LoopUnfold(symbols, baseline, beats);
      if beats[0].Cycle? {
        var h := HeartbeatTrace(symbols, baseline, beats[0].risk, beats[0].scan);
        HeartbeatHalts(symbols, baseline, beats[0].risk, beats[0].scan);
        if CancelOrders in h.events {
          HeartbeatEvents(symbols, baseline, beats[0].risk, beats[0].scan, CancelOrders);
        }
        if h.phase != Halted {
          HeartbeatShape(symbols, baseline, beats[0].risk, beats[0].scan);
          LoopEnd(symbols, h.baseline, beats[1..]);
          GlueBeat(h.events, LoopTrace(symbols, h.baseline, beats[1..]), |beats[1..]|);
        }
      }
    }
  }

  /** Every order the loop places carries the fixed terms. */
  lemma {:induction false} LoopTerms(symbols: seq<string>, baseline: Option<real>, beats: seq<Beat>, e: Event)
    requires Fits(symbols, beats)
    requires e in LoopTrace(symbols, baseline, beats).events
    ensures FixedTerms(e)
    decreases |beats|
  {
    LoopUnfold(symbols, baseline, beats);
    if beats[0].Cycle? {
      var h := HeartbeatTrace(symbols, baseline, beats[0].risk, beats[0].scan);
      if e in h.events {
        HeartbeatEvents(symbols, baseline, beats[0].risk, beats[0].scan, e);
      } else {
        LoopTerms(symbols, h.baseline, beats[1..], e);
      }
    }
  }

  /** The baseline is taken once, from the first successful account reading,
      and the same risk state carries it through every later heartbeat,
      failed ones included. */
  lemma {:induction false} BaselineFromFirstReading(symbols: seq<string>, baseline: Option<real>, beats: seq<Beat>)
    requires Fits(symbols, beats)
    ensures LoopTrace(symbols, baseline, beats).baseline == if baseline.Some? then baseline else FirstEquity(beats)
    decreases |beats|
  {
    if beats != [] {
      LoopUnfold(symbols, baseline, beats);
      if beats[0].Cycle? {
        var h := HeartbeatTrace(symbols, baseline, beats[0].risk, beats[0].scan);
        BaselineSetOnce(baseline, beats[0].risk);
        if h.phase != Halted {
          BaselineFromFirstReading(symbols, h.baseline, beats[1..]);
        }
      }
    }
  }

  /** main: a failed or blocked account ends the run after the account read
      alone; every other run is the loop's, whose orders all carry the fixed
      terms and whose baseline is the first successful reading. */
  lemma MainOutcome(symbols: seq<string>, startup: Result<Account>, beats: seq<Beat>)
    requires Fits(symbols, beats)
    ensures var t := MainTrace(symbols, startup, beats);
            (t.phase == Terminated(ConnectFailed) <==> startup.Err?) &&
            (t.phase == Terminated(AccountBlocked) <==> startup.Ok? && startup.value.tradingBlocked) &&
            (startup.Err? || startup.value.tradingBlocked ==> t.events == [GetAccount] && t.baseline == None) &&
            (startup.Ok? && !startup.value.tradingBlocked ==> t.baseline == FirstEquity(beats)) &&
            t.events[0] == GetAccount &&
            forall e :: e in t.events ==> FixedTerms(e)
  {
    if startup.Ok? && !startup.value.tradingBlocked {
      var l := LoopTrace(symbols, None, beats);
      LoopEnd(symbols, None, beats);
      BaselineFromFirstReading(symbols, None, beats);
      forall e | e in l.events
        ensures FixedTerms(e)
      {
        LoopTerms(symbols, None, beats, e);
      }
    }
  }

  class Controller {
    const client: Client
    const symbols: seq<string>
    var phase: Phase
    var riskManager: RiskManager?
    var strategy: TradingStrategy?

    /** The strategy and the risk manager exist exactly once the account check
        passed, and share the controller's client. */
    ghost predicate Valid()
      reads this
    {
      (phase == Connecting || phase == Terminated(ConnectFailed) || phase == Terminated(AccountBlocked)
       ==> riskManager == null && strategy == null) &&
      (phase == Running || phase == Halted || phase == Terminated(DrawdownHalt) || phase == Terminated(Interrupted)
       ==> riskManager != null && strategy != null &&
           riskManager.client == client && strategy.client == client && strategy.symbols == symbols)
    }

    constructor ()
      ensures Valid() && fresh(client) && client.events == [] && phase == Connecting && symbols == SYMBOLS
    {
      client := new Client();
      symbols := SYMBOLS;
      phase := Connecting;
      riskManager, strategy := null, null;
    }

    /** The account check before the loop. A failed or blocked account ends
        the run before anything else is created. */
    method Connect(account: Result<Account>)
      requires Valid() && phase == Connecting && symbols == SYMBOLS
      modifies this, client
      ensures Valid()
      ensures client.events == old(client.events) + [GetAccount]
      ensures phase == (match account
                        case Err => Terminated(ConnectFailed)
                        case Ok(a) => if a.tradingBlocked then Terminated(AccountBlocked) else Running)
      ensures phase == Running ==> fresh(riskManager) && fresh(strategy) && riskManager.initialPortfolioValue == None
    {
      client.Record(GetAccount);
      if account.Err? {
        phase := Terminated(ConnectFailed);
        return;
      }
      if account.value.tradingBlocked {
        phase := Terminated(AccountBlocked);
        return;
      }
      strategy := new TradingStrategy(client);
      riskManager := new RiskManager(client);
      phase := Running;
    }

    /** One pass of the loop body. */
    method Heartbeat(risk: RiskInput, scan: ScanInput)
      requires Valid() && phase == Running && |scan.bars| == |symbols|
      modifies this, client, riskManager
      ensures Valid() && riskManager == old(riskManager) && strategy == old(strategy)
      ensures var h := HeartbeatTrace(symbols, old(riskManager.initialPortfolioValue), risk, scan);
              client.events == old(client.events) + h.events && phase == h.phase &&
              riskManager.initialPortfolioValue == h.baseline
    {
      ghost var baseline := riskManager.initialPortfolioValue;
      ghost var r := RiskStep(baseline, risk);
      HeartbeatUnfold(symbols, baseline, risk, scan);
      ghost var start := client.events;
      var verdict := riskManager.Run(risk);
      match verdict
      case Halt =>
        phase := Halted;
      case Raised =>
        client.Record(Sleep(RETRY_SECONDS));
        assert client.events == start + (r.events + [] + [Sleep(RETRY_SECONDS)]);
      case Continue =>
        strategy.Run(scan);
        client.Record(Sleep(HEARTBEAT_SECONDS));
        Regroup(start, r.events, RunEvents(symbols, scan), [Sleep(HEARTBEAT_SECONDS)]);
    }

    /** The interrupt handler: cancel the open orders, then exit with status 0
        whether the cancel succeeded or not. */
    method Shutdown()
      requires Valid() && phase == Running
      modifies this, client
      ensures Valid() && riskManager == old(riskManager) && strategy == old(strategy)
      ensures client.events == old(client.events) + [CancelOrders] && phase == Terminated(Interrupted)
    {
      client.Record(CancelOrders);
      phase := Terminated(Interrupted);
    }

    /** The while loop of main, from a running controller, with the halt
        turned into the end of the run. */
    method Loop(beats: seq<Beat>)
      requires Valid() && phase == Running && Fits(symbols, beats)
      modifies this, client, riskManager
      ensures Valid() && riskManager == old(riskManager) && strategy == old(strategy)
      ensures var t := LoopTrace(symbols, old(riskManager.initialPortfolioValue), beats);
              client.events == old(client.events) + t.events && phase == t.phase &&
              riskManager.initialPortfolioValue == t.baseline
    {
      ghost var total := LoopTrace(symbols, riskManager.initialPortfolioValue, beats);
      var i := 0;
      assert beats[i..] == beats;
      while i < |beats| && phase == Running
        invariant 0 <= i <= |beats|
        invariant Valid() && riskManager == old(riskManager) && strategy == old(strategy)
        invariant Fits(symbols, beats[i..])
        invariant phase == Running || phase == Halted || phase == Terminated(Interrupted)
        invariant phase == Running ==>
                  var rest := LoopTrace(symbols, riskManager.initialPortfolioValue, beats[i..]);
                  old(client.events) + total.events == client.events + rest.events &&
                  rest.phase == total.phase && rest.baseline == total.baseline
        invariant phase != Running ==>
                  client.events == old(client.events) + total.events &&
                  riskManager.initialPortfolioValue == total.baseline &&
                  total.phase == (if phase == Halted then Terminated(DrawdownHalt) else phase)
        decreases |beats| - i
      {
        assert beats[i..][1..] == beats[i + 1..];
        assert beats[i..][0] == beats[i];
        LoopUnfold(symbols, riskManager.initialPortfolioValue, beats[i..]);
        match beats[i] {
          case Interrupt =>
            Shutdown();
          case Cycle(risk, scan) =>
            ghost var before := client.events;
            ghost var h := HeartbeatTrace(symbols, riskManager.initialPortfolioValue, risk, scan);
            Heartbeat(risk, scan);
            if phase == Running {
              AppendAssoc(before, h.events, LoopTrace(symbols, h.baseline, beats[i + 1..]).events);
            }
        }
        i := i + 1;
      }
      if phase == Halted {
        phase := Terminated(DrawdownHalt);
      }
    }

    /** The `main` function of the bot, over the beats the loop meets. */
    method RunBot(startup: Result<Account>, beats: seq<Beat>)
      requires Valid() && phase == Connecting && symbols == SYMBOLS && Fits(symbols, beats)
      modifies this, client
      ensures Valid()
      ensures var t := MainTrace(symbols, startup, beats);
              client.events == old(client.events) + t.events && phase == t.phase &&
              (riskManager != null ==> riskManager.initialPortfolioValue == t.baseline)
    {
      Connect(startup);
      if phase != Running {
        return;
      }
      ghost var t := LoopTrace(symbols, None, beats);
      assert MainTrace(symbols, startup, beats) == Trace([GetAccount] + t.events, t.phase, t.baseline);
      Loop(beats);
      assert old(client.events) + [GetAccount] + t.events == old(client.events) + ([GetAccount] + t.events);
    }
  }
}
