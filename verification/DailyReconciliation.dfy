/** End-of-day reconciliation: the reconciler rebuilds the day's NAV from its own
    trade log. The residual against the ledger is computed exactly. */
module DailyReconciliation {
  import opened Common
  import opened MapSum
  import opened LedgerSpec
  import opened LedgerConservation
  import TwoBooks

  const RECONCILE_TOLERANCE := 0.05

  datatype Trade = Trade(symbol: string, pnl: real, fee: real)

  ghost function PnlSum(ts: seq<Trade>): real {
    if ts == [] then 0.0 else PnlSum(ts[..|ts| - 1]) + ts[|ts| - 1].pnl
  }

  ghost function FeeSum(ts: seq<Trade>): real {
    if ts == [] then 0.0 else FeeSum(ts[..|ts| - 1]) + ts[|ts| - 1].fee
  }

  ghost function Wins(ts: seq<Trade>): nat {
    if ts == [] then 0 else Wins(ts[..|ts| - 1]) + if ts[|ts| - 1].pnl > 0.0 then 1 else 0
  }

  /** One symbol's share of the day's profit. */
  ghost function SymbolPnl(ts: seq<Trade>, symbol: string): real {
    if ts == [] then 0.0
    else SymbolPnl(ts[..|ts| - 1], symbol) + if ts[|ts| - 1].symbol == symbol then ts[|ts| - 1].pnl else 0.0
  }

  /** The profit table, one trade at a time. */
  ghost function Attribution(ts: seq<Trade>): map<string, real> {
    if ts == [] then map[]
    else
      var before, t := Attribution(ts[..|ts| - 1]), ts[|ts| - 1];
      before[t.symbol := (if t.symbol in before then before[t.symbol] else 0.0) + t.pnl]
  }

  /** Wins are the trades that made money. */
  lemma {:induction false} WinsAreProfitable(ts: seq<Trade>)
    ensures Wins(ts) == |set i | 0 <= i < |ts| && ts[i].pnl > 0.0|
  {
    if ts != [] {
      var n := |ts| - 1;
      var init := ts[..n];
      WinsAreProfitable(init);
      var before, after := set i | 0 <= i < n && init[i].pnl > 0.0, set i | 0 <= i < |ts| && ts[i].pnl > 0.0;
      assert forall i :: 0 <= i < n ==> init[i] == ts[i];
      if ts[n].pnl > 0.0 {
        assert after == before + {n};
      } else {
        assert after == before;
      }
    }
  }

  /** The table has a line for exactly the symbols traded, each line is that
      symbol's profit, and the lines add up to the day's profit. */
  lemma {:induction false} AttributionSums(ts: seq<Trade>)
    ensures Total(Attribution(ts)) == PnlSum(ts)
    ensures forall k :: k in Attribution(ts) ==> Attribution(ts)[k] == SymbolPnl(ts, k)
    ensures forall k :: k !in Attribution(ts) ==> SymbolPnl(ts, k) == 0.0
  {
    if ts != [] {
      var before, t := Attribution(ts[..|ts| - 1]), ts[|ts| - 1];
      AttributionSums(ts[..|ts| - 1]);
      TotalUpdate(before, t.symbol, (if t.symbol in before then before[t.symbol] else 0.0) + t.pnl);
    }
  }

  lemma {:induction false} AttributionKeys(ts: seq<Trade>, k: string)
    ensures k in Attribution(ts) <==> exists i :: 0 <= i < |ts| && ts[i].symbol == k
  {
    if ts != [] {
      var init := ts[..|ts| - 1];
      AttributionKeys(init, k);
      if k in Attribution(init) {
        var i :| 0 <= i < |init| && init[i].symbol == k;
        assert ts[i].symbol == k;
      } else if exists i :: 0 <= i < |ts| && ts[i].symbol == k {
        var i :| 0 <= i < |ts| && ts[i].symbol == k;
        assert i < |init| ==> init[i].symbol == k;
      }
    }
  }

  lemma {:induction false} Extend(ts: seq<Trade>, i: nat)
    requires i < |ts|
    ensures ts[..i + 1][..i] == ts[..i] && ts[..i + 1][i] == ts[i]
  {
  }

  /** What the end-of-day figure says minus what the log explains. */
  ghost function Residual(sodNav: real, nav: real, ts: seq<Trade>): real {
    nav - (sodNav + PnlSum(ts) - FeeSum(ts))
  }

  datatype Report = Report(
    expectedNav: real, actualNav: real, navDiff: real, navOk: bool, trades: nat, wins: nat, losses: nat,
    totalPnl: real, totalFees: real, pnlBySymbol: map<string, real>, passed: bool)

  class DailyReconciler {
    var sodNav: real
    var tradeLog: seq<Trade>

    constructor ()
      ensures sodNav == 0.0 && tradeLog == []
    {
      sodNav, tradeLog := 0.0, [];
    }

    method SetSod(nav: real)
      modifies this`sodNav
      ensures sodNav == nav
    {
      sodNav := nav;
    }

    method RecordTrade(symbol: string, pnl: real, fee: real)
      modifies this`tradeLog
      ensures tradeLog == old(tradeLog) + [Trade(symbol, pnl, fee)]
    {
      tradeLog := tradeLog + [Trade(symbol, pnl, fee)];
    }

    method ResetForNewDay(newNav: real)
      modifies this
      ensures tradeLog == [] && sodNav == newNav
    {
      tradeLog := [];
      SetSod(newNav);
    }

    method Totals() returns (pnl: real, fees: real)
      ensures pnl == PnlSum(tradeLog) && fees == FeeSum(tradeLog)
    {
      pnl, fees := 0.0, 0.0;
      for i := 0 to |tradeLog|
        invariant pnl == PnlSum(tradeLog[..i]) && fees == FeeSum(tradeLog[..i])
      {
        Extend(tradeLog, i);
        pnl, fees := pnl + tradeLog[i].pnl, fees + tradeLog[i].fee;
      }
      assert tradeLog[..|tradeLog|] == tradeLog;
    }

    /** Profit per symbol, and how many trades won and lost. */
    method Attribute() returns (bySymbol: map<string, real>, wins: nat, losses: nat)
      ensures bySymbol == Attribution(tradeLog)
      ensures wins == Wins(tradeLog) && wins + losses == |tradeLog|
    {
      bySymbol, wins, losses := map[], 0, 0;
      for i := 0 to |tradeLog|
        invariant bySymbol == Attribution(tradeLog[..i])
        invariant wins == Wins(tradeLog[..i]) && wins + losses == i
      {
        Extend(tradeLog, i);
        var t := tradeLog[i];
        bySymbol := bySymbol[t.symbol := (if t.symbol in bySymbol then bySymbol[t.symbol] else 0.0) + t.pnl];
        if t.pnl > 0.0 {
          wins := wins + 1;
        } else {
          losses := losses + 1;
        }
      }
      assert tradeLog[..|tradeLog|] == tradeLog;
    }

    /** `auditClosed` is the audit log's own count, when there is one. */
    method Run(nav: real, openPositions: nat, auditClosed: Option<nat>, emergencies: nat) returns (r: Report)
      ensures r.actualNav == nav && r.navDiff == Residual(sodNav, nav, tradeLog)
      ensures r.expectedNav + r.navDiff == r.actualNav
      ensures r.navOk <==> Abs(r.navDiff) <= 0.05 * Max(Abs(sodNav), 1.0)
      ensures r.trades == |tradeLog| == r.wins + r.losses && r.wins == Wins(tradeLog)
      ensures r.totalPnl == Total(r.pnlBySymbol) == PnlSum(tradeLog) && r.totalFees == FeeSum(tradeLog)
      ensures forall k :: k in r.pnlBySymbol ==> r.pnlBySymbol[k] == SymbolPnl(tradeLog, k)
      ensures r.passed <==>
        r.navOk && auditClosed.GetOr(|tradeLog|) == |tradeLog| && emergencies == 0 && openPositions == 0
    {
      var warnings := 0;
      var pnl, fees := Totals();
      var expected := sodNav + pnl - fees;
      var diff := nav - expected;
      var diffPct := Abs(diff) / Max(Abs(sodNav), 1.0) * 100.0;
      var navOk := diffPct <= RECONCILE_TOLERANCE * 100.0;
      WithinTolerance(Abs(diff), Max(Abs(sodNav), 1.0));
      if !navOk {
        warnings := warnings + 1;
      }
      if auditClosed.GetOr(|tradeLog|) != |tradeLog| {
        warnings := warnings + 1;
      }
      if emergencies > 0 {
        warnings := warnings + 1;
      }
      var bySymbol, wins, losses := Attribute();
      AttributionSums(tradeLog);
      if openPositions > 0 {
        warnings := warnings + 1;
      }
      r := Report(expected, nav, diff, navOk, |tradeLog|, wins, losses, pnl, fees, bySymbol, warnings == 0);
    }
  }

  lemma {:induction false} WithinTolerance(diff: real, base: real)
    requires base > 0.0
    ensures diff / base * 100.0 <= RECONCILE_TOLERANCE * 100.0 <==> diff <= RECONCILE_TOLERANCE * base
  {
    RatioAbove(diff, base, RECONCILE_TOLERANCE);
    TimesIs(RECONCILE_TOLERANCE, base);
  }

  // ---------------------------------------------------------------- whole days

  // A day is a sequence of ledger operations; the trading side's full closes
  // are also recorded with the reconciler, everything else is not.
  datatype DayEvent =
    | Plain(op: Op)
    | RecordedClose(symbol: string, exitPrice: real, filled: real, fee: real, heldEntry: real)

  function AsOp(e: DayEvent): Op {
    match e
    case Plain(op) => op
    case RecordedClose(sym, exit, filled, fee, _) => Close(sym, exit, filled, fee)
  }

  /** The log entry of a recorded close; a symbol the ledger does not know is
      logged at the trading side's own estimate. */
  function LogEntry(s: Ledger, e: DayEvent): Trade
    requires e.RecordedClose?
  {
    var entry := if e.symbol in s.positions then s.positions[e.symbol].entryPrice else e.heldEntry;
    Trade(e.symbol, Gain(entry, e.exitPrice, e.filled), e.fee)
  }

  /** The log gets exactly the profit that the trading side reports. */
  lemma {:induction false} LogGetsReportedProfit(b: TwoBooks.Books, symbol: string, exitPrice: real, filled: real,
                                                 fee: real)
    requires symbol in b.holdings
    ensures LogEntry(b.ledger, RecordedClose(symbol, exitPrice, filled, fee, b.holdings[symbol].entry))
            == Trade(symbol, TwoBooks.ReportedPnl(b, symbol, exitPrice, filled, fee), fee)
  {
    hide Times;
  }

  ghost function EndOfDay(s: Ledger, day: seq<DayEvent>): Ledger {
    if day == [] then s
    else Step(EndOfDay(s, day[..|day| - 1]), AsOp(day[|day| - 1])).ledger
  }

  ghost function Log(s: Ledger, day: seq<DayEvent>): seq<Trade> {
    if day == [] then []
    else
      var before, e := day[..|day| - 1], day[|day| - 1];
      Log(s, before) + if e.RecordedClose? then [LogEntry(EndOfDay(s, before), e)] else []
  }

  /** Profit an operation realizes, read off its answer. */
  ghost function Realizes(s: Ledger, op: Op): real {
    match Step(s, op).outcome
    case Pnl(Some(gain)) => gain
    case _ => 0.0
  }

  /** Fee an operation charges. */
  ghost function FeeCharged(s: Ledger, op: Op): real {
    match op
    case Open(_, _, _, _, _, fee, _) => if Step(s, op).outcome == Accepted(true) then fee else 0.0
    case Close(_, _, _, fee) => if Step(s, op).outcome == Pnl(None) then 0.0 else fee
    case CloseRatio(_, _, _, fee) => if Step(s, op).outcome == Pnl(None) then 0.0 else fee
    case Fee(fee) => Max(0.0, fee)
    case _ => 0.0
  }

  /** Profit on the ledger but not in the log; negative for a logged close that
      the ledger never saw. */
  ghost function UnrecordedPnl(s: Ledger, e: DayEvent): real {
    if e.Plain? then Realizes(s, e.op)
    else if e.symbol in s.positions then 0.0 else -LogEntry(s, e).pnl
  }

  ghost function UnrecordedFee(s: Ledger, e: DayEvent): real {
    if e.Plain? then FeeCharged(s, e.op)
    else if e.symbol in s.positions then 0.0 else -e.fee
  }

  datatype Leaks = Leaks(pnl: real, fees: real, drift: real)

  /** Everything of a day that the log cannot explain. */
  ghost function DayLeaks(s: Ledger, day: seq<DayEvent>): Leaks {
    if day == [] then Leaks(0.0, 0.0, 0.0)
    else
      var before, e := day[..|day| - 1], day[|day| - 1];
      var now, l := EndOfDay(s, before), DayLeaks(s, before);
      Leaks(l.pnl + UnrecordedPnl(now, e), l.fees + UnrecordedFee(now, e),
            l.drift + Forgiven(now, AsOp(e)) + Jump(now, AsOp(e)))
  }

  lemma {:induction false} StepAccounts(s: Ledger, op: Op)
    ensures Step(s, op).ledger.realizedPnl == s.realizedPnl + Realizes(s, op)
    ensures Step(s, op).ledger.feesPaid == s.feesPaid + FeeCharged(s, op)
  {
  }

  lemma {:induction false} LogAppend(ts: seq<Trade>, t: Trade)
    ensures PnlSum(ts + [t]) == PnlSum(ts) + t.pnl && FeeSum(ts + [t]) == FeeSum(ts) + t.fee
  {
  }

  lemma {:induction false} EventAccounts(s: Ledger, e: DayEvent, ts: seq<Trade>)
    ensures var t := Step(s, AsOp(e)).ledger;
      var ts' := ts + if e.RecordedClose? then [LogEntry(s, e)] else [];
      && t.realizedPnl - PnlSum(ts') == s.realizedPnl - PnlSum(ts) + UnrecordedPnl(s, e)
      && t.feesPaid - FeeSum(ts') == s.feesPaid - FeeSum(ts) + UnrecordedFee(s, e)
  {
    StepAccounts(s, AsOp(e));
    if e.RecordedClose? {
      LogAppend(ts, LogEntry(s, e));
    } else {
      assert ts + [] == ts;
    }
  }

  lemma {:induction false} DayAccounts(s: Ledger, day: seq<DayEvent>)
    ensures var t, l := EndOfDay(s, day), DayLeaks(s, day);
      && t.realizedPnl == s.realizedPnl + PnlSum(Log(s, day)) + l.pnl
      && t.feesPaid == s.feesPaid + FeeSum(Log(s, day)) + l.fees
      && t.Gap() == s.Gap() + l.drift && t.initialCapital == s.initialCapital
  {
    if day != [] {
      var before, e := day[..|day| - 1], day[|day| - 1];
      DayAccounts(s, before);
      EventAccounts(EndOfDay(s, before), e, Log(s, before));
      StepConserves(EndOfDay(s, before), AsOp(e));
    }
  }

  /** For every day: the residual is the change of unrealized profit and of net
      deposits, plus unlogged profit, less unlogged fees, plus whatever clamps
      forgave and adjustments moved. */
  lemma {:induction false} ResidualExplained(s: Ledger, day: seq<DayEvent>)
    ensures var t, l := EndOfDay(s, day), DayLeaks(s, day);
      Residual(s.Nav(), t.Nav(), Log(s, day))
        == (t.unrealizedPnl - s.unrealizedPnl) + (t.netDeposits - s.netDeposits) + l.pnl - l.fees + l.drift
  {
    DayAccounts(s, day);
  }

  // ------------------------------------------------------------- days that close

  /** Events of a day whose only fees and profits come from recorded closes:
      besides these, operations that charge and realize nothing or are refused. */
  ghost predicate Explained(s: Ledger, e: DayEvent) {
    match e
    case RecordedClose(sym, exit, filled, fee, _) =>
      sym in s.positions && ForgivenByClose(s, sym, exit, filled, fee) == 0.0
    case Plain(op) =>
      (match op
       case Reserve(_, _) => true
       case Release(_, _) => true
       case Mark(_) => true
       case Reload(_, _) => true
       case Open(sym, _, _, _, _, fee, _) => fee == 0.0 || sym in s.positions
       case Close(sym, _, _, _) => sym !in s.positions
       case CloseRatio(sym, _, ratio, _) => RatioFill(s, sym, ratio).None?
       case Fee(fee) => fee <= 0.0
       case TakeFunds(amount) => amount > s.AvailableCash()
       case AddFunds(amount) => amount == 0.0
       case Align(_) => false)
  }

  ghost predicate ExplainedDay(s: Ledger, day: seq<DayEvent>) {
    day == [] || (ExplainedDay(s, day[..|day| - 1]) && Explained(EndOfDay(s, day[..|day| - 1]), day[|day| - 1]))
  }

  predicate Flat(s: Ledger) {
    s.positions == map[] && s.unrealizedPnl == 0.0
  }

  lemma {:induction false} ExplainedDayLeaksNothing(s: Ledger, day: seq<DayEvent>)
    requires ExplainedDay(s, day)
    ensures DayLeaks(s, day) == Leaks(0.0, 0.0, 0.0) && EndOfDay(s, day).netDeposits == s.netDeposits
  {
    if day != [] {
      ExplainedDayLeaksNothing(s, day[..|day| - 1]);
    }
  }

  /** A flat-to-flat day without deposits reconciles to the cent if and only if its
      unlogged profit and drift make up for its unlogged fees; the residual is the
      difference. */
  lemma {:induction false} FlatDayReconciles(s: Ledger, day: seq<DayEvent>)
    requires Flat(s) && Flat(EndOfDay(s, day)) && EndOfDay(s, day).netDeposits == s.netDeposits
    ensures var l := DayLeaks(s, day);
      var residual := Residual(s.Nav(), EndOfDay(s, day).Nav(), Log(s, day));
      residual == l.pnl - l.fees + l.drift && (residual == 0.0 <==> l.pnl + l.drift == l.fees)
  {
    ResidualExplained(s, day);
  }

  /** So it does on days whose only fees and profits come from recorded closes. */
  lemma {:induction false} ExplainedDayReconciles(s: Ledger, day: seq<DayEvent>)
    requires Flat(s) && Flat(EndOfDay(s, day)) && ExplainedDay(s, day)
    ensures Residual(s.Nav(), EndOfDay(s, day).Nav(), Log(s, day)) == 0.0
  {
    ExplainedDayLeaksNothing(s, day);
    FlatDayReconciles(s, day);
  }

  /** Staged exits are not logged: one of them leaves its profit less its fee in the
      residual, together with its effect on unrealized profit, which a later close
      takes back. */
  lemma {:induction false} StagedExitLeaks(s: Ledger, symbol: string, exitPrice: real, ratio: real, fee: real)
    requires RatioFill(s, symbol, ratio).Some? && Forgiven(s, CloseRatio(symbol, exitPrice, ratio, fee)) == 0.0
    ensures var day := [Plain(CloseRatio(symbol, exitPrice, ratio, fee))];
      var t := EndOfDay(s, day);
      Residual(s.Nav(), t.Nav(), Log(s, day))
        == (t.unrealizedPnl - s.unrealizedPnl)
           + Gain(s.positions[symbol].entryPrice, exitPrice, RatioFill(s, symbol, ratio).value) - fee
  {
    var day := [Plain(CloseRatio(symbol, exitPrice, ratio, fee))];
    assert day[..0] == [];
    assert EndOfDay(s, []) == s;
    ResidualExplained(s, day);
  }

  // ---------------------------------------------------- a day that does not reconcile

  /** Two units bought at 10: one sold at 15 in a staged exit, the other closed at 12. */
  function StagedDay(symbol: string): seq<DayEvent> {
    [Plain(Open(symbol, "1", 10.0, 2.0, 20.0, 0.0, 0.0)), Plain(CloseRatio(symbol, 15.0, 0.5, 0.0)),
     RecordedClose(symbol, 12.0, 1.0, 0.0, 10.0)]
  }

  /** The ledger after the purchase, the staged exit, and the close. */
  function Stages(cash: real, symbol: string, n: nat): Ledger {
    var p := Position(symbol, "1", 10.0, 2.0, 20.0, 10.0, 0.0, 0.0);
    var s := Fresh(cash, 0.0, 0.95);
    if n == 0 then s
    else if n == 1 then s.(cash := cash - 20.0, marginUsed := 20.0, positions := map[symbol := p])
    else if n == 2 then
      s.(cash := cash - 5.0, marginUsed := 10.0, realizedPnl := 5.0, unrealizedPnl := 5.0,
         positions := map[symbol := p.(qty := 1.0, notional := 10.0, unrealized := 5.0)])
    else s.(cash := cash + 7.0, realizedPnl := 7.0)
  }

  lemma {:induction false} BuyStage(cash: real, symbol: string)
    requires cash > 20.0
    ensures Step(Stages(cash, symbol, 0), Open(symbol, "1", 10.0, 2.0, 20.0, 0.0, 0.0)).ledger
            == Stages(cash, symbol, 1)
  {
    TimesIs(cash, 0.0);
    hide Times;
  }

  lemma {:induction false} ExitStage(cash: real, symbol: string)
    requires cash > 20.0
    ensures Step(Stages(cash, symbol, 1), CloseRatio(symbol, 15.0, 0.5, 0.0))
            == Result(Stages(cash, symbol, 2), Pnl(Some(5.0)))
    ensures Forgiven(Stages(cash, symbol, 1), CloseRatio(symbol, 15.0, 0.5, 0.0)) == 0.0
  {
    var s := Stages(cash, symbol, 1);
    var p := s.positions[symbol];
    TimesIs(2.0, 0.5);
    assert RatioFill(s, symbol, 0.5) == Some(1.0);
    assert Ratio(1.0, 2.0) == 0.5;
    TimesIs(20.0, 0.5);
    TimesIs(5.0, 1.0);
    hide Times, Ratio;
    var end := AfterFill(s.positions, symbol, 15.0, 1.0);
    assert end == Stages(cash, symbol, 2).positions;
    SingleTotal(symbol, 5.0);
    assert Unrealized(end) == map[symbol := 5.0];
  }

  lemma {:induction false} CloseStage(cash: real, symbol: string)
    requires cash > 20.0
    ensures Step(Stages(cash, symbol, 2), Close(symbol, 12.0, 1.0, 0.0))
            == Result(Stages(cash, symbol, 3), Pnl(Some(2.0)))
    ensures Forgiven(Stages(cash, symbol, 2), Close(symbol, 12.0, 1.0, 0.0)) == 0.0
  {
    var s := Stages(cash, symbol, 2);
    assert Ratio(1.0, 1.0) == 1.0;
    TimesIs(10.0, 1.0);
    TimesIs(2.0, 1.0);
    hide Times, Ratio;
    assert AfterFill(s.positions, symbol, 12.0, 1.0) == map[];
    assert Unrealized(map[]) == map[];
  }

  lemma {:induction false} SingleTotal(symbol: string, v: real)
    ensures Total(map[symbol := v]) == v
  {
    TotalRemove(map[symbol := v], symbol);
    assert map[symbol := v] - {symbol} == map[];
  }

  /** A flat-to-flat day with one staged exit at a profit of 5: the reconciler is off by
      exactly that. */
  lemma {:induction false} StagedDayIsOff(cash: real, symbol: string)
    requires cash > 20.0
    ensures var s, day := Fresh(cash, 0.0, 0.95), StagedDay(symbol);
      && Flat(s) && Flat(EndOfDay(s, day))
      && Residual(s.Nav(), EndOfDay(s, day).Nav(), Log(s, day)) == 5.0
  {
    var s, day := Fresh(cash, 0.0, 0.95), StagedDay(symbol);
    BuyStage(cash, symbol);
    ExitStage(cash, symbol);
    CloseStage(cash, symbol);
    hide Step, Forgiven, Jump;
    DayStep(s, [], day[0]);
    DayStep(s, [day[0]], day[1]);
    DayStep(s, [day[0], day[1]], day[2]);
    assert [] + [day[0]] == [day[0]] && [day[0]] + [day[1]] == [day[0], day[1]];
    assert [day[0], day[1]] + [day[2]] == day;
    assert EndOfDay(s, day) == Stages(cash, symbol, 3);
    assert LogEntry(Stages(cash, symbol, 2), day[2]) == Trade(symbol, 2.0, 0.0) by {
      TimesIs(2.0, 1.0);
    }
    assert Log(s, []) == [] && Log(s, day) == [] + [Trade(symbol, 2.0, 0.0)];
    LogAppend([], Trade(symbol, 2.0, 0.0));
  }

  lemma {:induction false} DayStep(s: Ledger, before: seq<DayEvent>, e: DayEvent)
    ensures EndOfDay(s, before + [e]) == Step(EndOfDay(s, before), AsOp(e)).ledger
    ensures Log(s, before + [e])
            == Log(s, before) + if e.RecordedClose? then [LogEntry(EndOfDay(s, before), e)] else []
  {
    assert (before + [e])[..|before|] == before;
  }
}
