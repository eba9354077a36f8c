/** The accounting identity. The engine only logs when it breaks; here the gap
    is computed exactly for every run. */
module LedgerConservation {
  import opened Common
  import opened LedgerSpec

  /** Money a close lets the ledger forget: margin that would go below zero and
      cash that would go below zero are both set to zero. */
  function ForgivenByClose(s: Ledger, symbol: string, exitPrice: real, filled: real, fee: real): real {
    if symbol !in s.positions then 0.0
    else
      var p := s.positions[symbol];
      Max(0.0, p.Share(filled) - s.marginUsed)
      + Max(0.0, -CashAfterClose(s, symbol, exitPrice, filled, fee))
  }

  /** The cash or margin deficit that the clamps of one operation forgive. */
  function Forgiven(s: Ledger, op: Op): real {
    match op
    case Close(sym, exit, filled, fee) => ForgivenByClose(s, sym, exit, filled, fee)
    case CloseRatio(sym, exit, ratio, fee) =>
      (match RatioFill(s, sym, ratio)
       case None => 0.0
       case Some(filled) => ForgivenByClose(s, sym, exit, filled, fee))
    case Fee(fee) => if fee > 0.0 then Max(0.0, fee - s.cash) else 0.0
    case _ => 0.0
  }

  /** The NAV jump of a reconciliation adjustment. */
  function Jump(s: Ledger, op: Op): real {
    if op.Align? then Aligned(s, op.exchangeNav).Nav() - s.Nav() else 0.0
  }

  ghost function TotalForgiven(s: Ledger, ops: seq<Op>): real
    decreases ops
  {
    if ops == [] then 0.0 else Forgiven(s, ops[0]) + TotalForgiven(Step(s, ops[0]).ledger, ops[1..])
  }

  ghost function TotalJumps(s: Ledger, ops: seq<Op>): real
    decreases ops
  {
    if ops == [] then 0.0 else Jump(s, ops[0]) + TotalJumps(Step(s, ops[0]).ledger, ops[1..])
  }

  /** One step moves the gap by exactly what it forgives and what it jumps. */
  lemma {:induction false} StepConserves(s: Ledger, op: Op)
    ensures Forgiven(s, op) >= 0.0
    ensures Step(s, op).ledger.Gap() == s.Gap() + Forgiven(s, op) + Jump(s, op)
    ensures Step(s, op).ledger.initialCapital == s.initialCapital
  {
    hide Times, Ratio;
  }

  lemma {:induction false} RunConserves(s: Ledger, ops: seq<Op>)
    ensures TotalForgiven(s, ops) >= 0.0
    ensures Run(s, ops).Gap() == s.Gap() + TotalForgiven(s, ops) + TotalJumps(s, ops)
    decreases ops
  {
    if ops != [] {
      StepConserves(s, ops[0]);
      RunConserves(Step(s, ops[0]).ledger, ops[1..]);
    }
  }

  lemma {:induction false} NoAdjustmentsNoJumps(s: Ledger, ops: seq<Op>)
    requires forall i :: 0 <= i < |ops| ==> !ops[i].Align?
    ensures TotalJumps(s, ops) == 0.0
    decreases ops
  {
    if ops != [] {
      NoAdjustmentsNoJumps(Step(s, ops[0]).ledger, ops[1..]);
    }
  }

  /** The guards of the clamps in one close. */
  predicate ClampsClose(s: Ledger, symbol: string, exitPrice: real, filled: real, fee: real) {
    symbol in s.positions
    && (s.positions[symbol].Share(filled) > s.marginUsed || CashAfterClose(s, symbol, exitPrice, filled, fee) < 0.0)
  }

  /** A clamp changes an account: more notional is closed than margin is used, a
      close costs more than the cash at hand, or a fee does. */
  predicate Clamps(s: Ledger, op: Op) {
    match op
    case Close(sym, exit, filled, fee) => ClampsClose(s, sym, exit, filled, fee)
    case CloseRatio(sym, exit, ratio, fee) =>
      (match RatioFill(s, sym, ratio)
       case None => false
       case Some(filled) => ClampsClose(s, sym, exit, filled, fee))
    case Fee(fee) => fee > 0.0 && fee > s.cash
    case _ => false
  }

  ghost predicate ClampFires(s: Ledger, ops: seq<Op>)
    decreases ops
  {
    ops != [] && (Clamps(s, ops[0]) || ClampFires(Step(s, ops[0]).ledger, ops[1..]))
  }

  lemma {:induction false} ForgivenIffClamps(s: Ledger, op: Op)
    ensures Forgiven(s, op) > 0.0 <==> Clamps(s, op)
  {
    hide Times, Ratio;
  }

  lemma {:induction false} ForgivenIffClampFires(s: Ledger, ops: seq<Op>)
    ensures TotalForgiven(s, ops) > 0.0 <==> ClampFires(s, ops)
    ensures TotalForgiven(s, ops) >= 0.0
    decreases ops
  {
    if ops != [] {
      hide Forgiven, Clamps, Step;
      StepConserves(s, ops[0]);
      ForgivenIffClamps(s, ops[0]);
      ForgivenIffClampFires(Step(s, ops[0]).ledger, ops[1..]);
    }
  }

  /** The identity does break: a fee above the cash at hand leaves a gap of the
      difference. */
  lemma {:induction false} LargeFeeBreaksIdentity(initial: real, reservePct: real, maxPct: real, fee: real)
    requires fee > initial >= 0.0
    ensures Run(Fresh(initial, reservePct, maxPct), [Fee(fee)]).Gap() == fee - initial > 0.0
  {
    var s, op := Fresh(initial, reservePct, maxPct), Fee(fee);
    StepConserves(s, op);
    assert [op][1..] == [];
    assert Run(s, [op]) == Run(Step(s, op).ledger, []);
  }

  lemma {:induction false} IdentityCanBreak()
    ensures Run(Fresh(100.0, 0.05, 0.95), [Fee(150.0)]).Gap() == 50.0
  {
    hide Run, Fresh;
    LargeFeeBreaksIdentity(100.0, 0.05, 0.95, 150.0);
  }

  /** From a new engine and without reconciliation adjustments, the documented
      identity is exact precisely on the runs where no clamp fires, and the
      engine's own check passes precisely while the forgiven total is within
      its tolerance. */
  lemma {:induction false} IdentityExactIffNoClamp(initial: real, reservePct: real, maxPct: real, ops: seq<Op>)
    requires forall i :: 0 <= i < |ops| ==> !ops[i].Align?
    ensures var start, end := Fresh(initial, reservePct, maxPct), Run(Fresh(initial, reservePct, maxPct), ops);
      && (end.Nav() == initial + end.netDeposits + end.realizedPnl + end.unrealizedPnl - end.feesPaid
          <==> !ClampFires(start, ops))
      && (end.InvariantHolds() <==> TotalForgiven(start, ops) <= 0.01)
  {
    var start := Fresh(initial, reservePct, maxPct);
    RunConserves(start, ops);
    NoAdjustmentsNoJumps(start, ops);
    ForgivenIffClampFires(start, ops);
    InitialCapitalFixed(start, ops);
  }

  /** With adjustments, too, the engine's check passes exactly while what was forgiven and
      what was jumped stay within a cent of each other. */
  lemma {:induction false} CheckPassesExactly(initial: real, reservePct: real, maxPct: real, ops: seq<Op>)
    ensures var start := Fresh(initial, reservePct, maxPct);
      Run(start, ops).InvariantHolds() <==>
        -0.01 <= TotalForgiven(start, ops) + TotalJumps(start, ops) <= 0.01
  {
    RunConserves(Fresh(initial, reservePct, maxPct), ops);
  }

  lemma {:induction false} InitialCapitalFixed(s: Ledger, ops: seq<Op>)
    ensures Run(s, ops).initialCapital == s.initialCapital
    decreases ops
  {
    if ops != [] {
      StepConserves(s, ops[0]);
      InitialCapitalFixed(Step(s, ops[0]).ledger, ops[1..]);
    }
  }
}
