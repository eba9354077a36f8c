/** Fully collateralised runs: every position is opened at notional = entry * qty,
    fills stay within the position and fees within the cash at hand. */
module LedgerSolvency {
  import opened Common
  import opened MapSum
  import opened LedgerSpec
  import opened LedgerConservation

  /** What a caller checks before each operation of such a run. */
  predicate Covered(s: Ledger, op: Op) {
    match op
    case Reserve(_, amount) => amount >= 0.0
    case Open(_, _, entry, qty, notional, _, _) => entry >= 0.0 && qty >= 0.0 && notional == Times(entry, qty)
    case Close(sym, exit, filled, fee) => CoveredFill(s, sym, exit, filled, fee)
    case CloseRatio(sym, exit, ratio, fee) =>
      (match RatioFill(s, sym, ratio)
       case None => true
       case Some(filled) => CoveredFill(s, sym, exit, filled, fee))
    case Mark(prices) => forall k :: k in prices ==> prices[k] >= 0.0
    case Fee(fee) => fee <= s.cash
    case AddFunds(amount) => s.cash + amount >= 0.0
    case Reload(over, _) => over.reservePct.GetOr(0.0) >= 0.0
    case _ => true
  }

  predicate CoveredFill(s: Ledger, symbol: string, exitPrice: real, filled: real, fee: real) {
    symbol in s.positions ==>
      exitPrice >= 0.0 && 0.0 <= filled <= s.positions[symbol].qty && fee <= s.cash + Times(exitPrice, filled)
  }

  ghost predicate CoveredRun(s: Ledger, ops: seq<Op>)
    decreases ops
  {
    ops == [] || (Covered(s, ops[0]) && CoveredRun(Step(s, ops[0]).ledger, ops[1..]))
  }

  /** Margin that the negligible-remainder branch leaves behind when it drops a
      position without returning the remaining notional. */
  function StrandedByFill(ps: Positions, symbol: string, exitPrice: real, filled: real): real {
    if symbol !in ps || ps[symbol].FillRatio(filled) >= 1.0 then 0.0
    else
      var rest := ps[symbol].Reduced(exitPrice, filled);
      if rest.Negligible() then rest.notional else 0.0
  }

  function Stranded(s: Ledger, op: Op): real {
    match op
    case Close(sym, exit, filled, _) => StrandedByFill(s.positions, sym, exit, filled)
    case CloseRatio(sym, exit, ratio, _) =>
      (match RatioFill(s, sym, ratio)
       case None => 0.0
       case Some(filled) => StrandedByFill(s.positions, sym, exit, filled))
    case _ => 0.0
  }

  ghost function TotalStranded(s: Ledger, ops: seq<Op>): real
    decreases ops
  {
    if ops == [] then 0.0 else Stranded(s, ops[0]) + TotalStranded(Step(s, ops[0]).ledger, ops[1..])
  }

  predicate Collateralised(p: Position) {
    p.entryPrice >= 0.0 && p.qty >= 0.0 && p.notional == Times(p.entryPrice, p.qty) && p.unrealized >= -p.notional
  }

  predicate AllCollateralised(ps: Positions) {
    forall k :: k in ps ==> Collateralised(ps[k])
  }

  /** The state of a solvent ledger whose margin includes `dust`. */
  ghost predicate Solvent(s: Ledger, dust: real) {
    && s.cash >= 0.0 && s.reservedMargin >= 0.0 && s.reservePct >= 0.0 && dust >= 0.0
    && AllCollateralised(s.positions)
    && s.unrealizedPnl == Total(Unrealized(s.positions))
    && s.marginUsed == Total(Notionals(s.positions)) + dust
  }

  lemma {:induction false} AssetsOutweighLosses(ps: Positions)
    requires AllCollateralised(ps)
    ensures Total(Notionals(ps)) + Total(Unrealized(ps)) >= 0.0
    ensures forall k :: k in ps ==> 0.0 <= ps[k].notional <= Total(Notionals(ps))
  {
    var n, u := Notionals(ps), Unrealized(ps);
    assert n.Keys == u.Keys;
    forall k | k in n
      ensures n[k] >= 0.0 && n[k] + u[k] >= 0.0
    {
      assert Collateralised(ps[k]);
    }
    TotalPairNonNegative(n, u);
    TotalDominates(n);
    forall k | k in ps
      ensures 0.0 <= ps[k].notional <= Total(n)
    {
      assert n[k] == ps[k].notional;
    }
  }

  /** Owning assets outright, NAV never falls below cash. */
  lemma {:induction false} NavCoversCash(s: Ledger, dust: real)
    requires Solvent(s, dust)
    ensures s.Nav() >= s.cash + dust >= 0.0
    ensures s.AvailableCash() <= s.cash
  {
    AssetsOutweighLosses(s.positions);
    ProductSign(s.Nav(), s.reservePct);
  }

  // ------------------------------------------------------------------ one close

  lemma {:induction false} ProportionalNotional(p: Position, filled: real)
    requires Collateralised(p) && 0.0 <= filled <= p.qty
    ensures p.Share(filled) == Times(p.entryPrice, filled)
    ensures 0.0 <= p.Share(filled) <= p.notional
  {
    TimesMonotone(p.entryPrice, filled, p.qty);
    TimesMonotone(p.entryPrice, 0.0, filled);
    if p.qty > 0.0 {
      Fraction(filled, p.qty);
      SharePart(p.entryPrice, p.qty, filled);
    } else {
      TimesIs(p.entryPrice, 0.0);
      TimesIs(0.0, 1.0);
    }
  }

  lemma {:induction false} SharePart(price: real, qty: real, part: real)
    requires qty > 0.0
    ensures Times(Times(price, qty), Ratio(part, qty)) == Times(price, part)
  {
    var r := Ratio(part, qty);
    assert r * qty == part;
    assert (price * qty) * r == price * (r * qty);
  }

  /** A fill leaves a collateralised remainder worth the rest of the notional. */
  lemma {:induction false} RestIsCollateralised(p: Position, exitPrice: real, filled: real)
    requires Collateralised(p) && 0.0 <= filled <= p.qty && exitPrice >= 0.0
    ensures Collateralised(p.Reduced(exitPrice, filled))
    ensures p.Reduced(exitPrice, filled).notional == Times(p.entryPrice, p.qty - filled) >= 0.0
  {
    ProportionalNotional(p, filled);
    var left := p.qty - filled;
    TimesOfDifference(p.entryPrice, p.qty, filled);
    GainIs(p.entryPrice, exitPrice, left);
    TimesMonotone(exitPrice, 0.0, left);
    TimesMonotone(p.entryPrice, 0.0, left);
    hide Times, Ratio;
    TimesOfZero(exitPrice);
  }

  lemma {:induction false} TimesOfZero(a: real)
    ensures Times(a, 0.0) == 0.0
  {
  }

  lemma {:induction false} TimesStrict(a: real, b: real, c: real)
    requires a >= 0.0
    ensures Times(a, b) > 0.0 && b < c ==> Times(a, b) < Times(a, c)
  {
    if a > 0.0 && b < c {
      ProductOrder(a, b, c);
    } else if a == 0.0 {
      TimesIs(0.0, b);
    }
  }

  lemma {:induction false} TimesOfDifference(a: real, b: real, c: real)
    ensures Times(a, b - c) == Times(a, b) - Times(a, c)
  {
    assert a * (b - c) == a * b - a * c;
  }

  /** A gain is the exit value less the entry value. */
  lemma {:induction false} GainIs(entry: real, exit: real, qty: real)
    ensures Gain(entry, exit, qty) == Times(exit, qty) - Times(entry, qty)
  {
    assert (exit - entry) * qty == exit * qty - entry * qty;
  }

  /** Taking a fill out of the book changes the notional sum by that position alone. */
  lemma {:induction false} FillTotals(ps: Positions, symbol: string, exitPrice: real, filled: real)
    requires symbol in ps
    ensures var end := AfterFill(ps, symbol, exitPrice, filled);
      Total(Notionals(end)) == Total(Notionals(ps)) - ps[symbol].notional
                               + (if symbol in end then end[symbol].notional else 0.0)
  {
    var end := AfterFill(ps, symbol, exitPrice, filled);
    var n := Notionals(ps);
    TotalRemove(n, symbol);
    if symbol in end {
      TotalUpdate(n, symbol, end[symbol].notional);
      assert Notionals(end) == n[symbol := end[symbol].notional];
    } else {
      assert Notionals(end) == n - {symbol};
    }
  }

  /** The closed share is the notional less what stays on the book and less
      what is stranded. */
  lemma {:induction false} ShareClosed(ps: Positions, symbol: string, exitPrice: real, filled: real)
    requires symbol in ps
    ensures var p, end := ps[symbol], AfterFill(ps, symbol, exitPrice, filled);
      p.Share(filled)
        == p.notional - (if symbol in end then end[symbol].notional else 0.0)
           - StrandedByFill(ps, symbol, exitPrice, filled)
  {
    TimesIs(ps[symbol].notional, 1.0);
    hide Times, Ratio;
  }

  lemma {:induction false} BookStaysCollateralised(ps: Positions, symbol: string, exitPrice: real, filled: real)
    requires AllCollateralised(ps) && symbol in ps && exitPrice >= 0.0 && 0.0 <= filled <= ps[symbol].qty
    ensures AllCollateralised(AfterFill(ps, symbol, exitPrice, filled))
    ensures StrandedByFill(ps, symbol, exitPrice, filled) >= 0.0
  {
    RestIsCollateralised(ps[symbol], exitPrice, filled);
    hide Times, Ratio;
  }

  /** A fill of collateralised stock is worth its exit value. */
  lemma {:induction false} ExitValue(p: Position, exitPrice: real, filled: real)
    requires Collateralised(p) && 0.0 <= filled <= p.qty
    ensures p.Share(filled) + Gain(p.entryPrice, exitPrice, filled) == Times(exitPrice, filled)
    ensures 0.0 <= p.Share(filled) <= p.notional
  {
    ProportionalNotional(p, filled);
    GainIs(p.entryPrice, exitPrice, filled);
    hide Times, Ratio;
  }

  lemma {:induction false} NotionalWithinMargin(s: Ledger, dust: real, symbol: string)
    requires Solvent(s, dust) && symbol in s.positions
    ensures s.positions[symbol].notional <= s.marginUsed && Collateralised(s.positions[symbol])
  {
    AssetsOutweighLosses(s.positions);
  }

  lemma {:induction false} CoveredCash(s: Ledger, symbol: string, exitPrice: real, filled: real, fee: real)
    requires symbol in s.positions && CoveredFill(s, symbol, exitPrice, filled, fee)
    requires Collateralised(s.positions[symbol])
    ensures CashAfterClose(s, symbol, exitPrice, filled, fee) == s.cash + Times(exitPrice, filled) - fee >= 0.0
  {
    ExitValue(s.positions[symbol], exitPrice, filled);
    hide Times, Ratio;
  }

  /** A covered fill pays the exit value minus the fee; no clamp is needed. */
  lemma {:induction false} CloseNeedsNoClamp(s: Ledger, dust: real, symbol: string, exitPrice: real, filled: real,
                                             fee: real)
    requires Solvent(s, dust) && symbol in s.positions && CoveredFill(s, symbol, exitPrice, filled, fee)
    ensures s.positions[symbol].Share(filled) <= s.marginUsed
    ensures ForgivenByClose(s, symbol, exitPrice, filled, fee) == 0.0
  {
    NotionalWithinMargin(s, dust, symbol);
    CoveredCash(s, symbol, exitPrice, filled, fee);
    ExitValue(s.positions[symbol], exitPrice, filled);
  }

  /** The bookkeeping of a close, with its amounts as plain numbers. */
  lemma {:induction false} BookedStaysSolvent(s: Ledger, dust: real, share: real, gain: real, fee: real,
                                              ps: Positions, stranded: real)
    requires Solvent(s, dust) && AllCollateralised(ps) && stranded >= 0.0
    requires share <= s.marginUsed
    requires Total(Notionals(ps)) == Total(Notionals(s.positions)) - share - stranded
    ensures Solvent(Booked(s, share, gain, fee, ps), dust + stranded)
  {
  }

  lemma {:induction false} TotalsAfterFill(ps: Positions, symbol: string, exitPrice: real, filled: real)
    requires symbol in ps
    ensures Total(Notionals(AfterFill(ps, symbol, exitPrice, filled)))
            == Total(Notionals(ps)) - ps[symbol].Share(filled)
               - StrandedByFill(ps, symbol, exitPrice, filled)
  {
    FillTotals(ps, symbol, exitPrice, filled);
    ShareClosed(ps, symbol, exitPrice, filled);
  }

  lemma {:induction false} CloseStaysSolvent(s: Ledger, dust: real, symbol: string, exitPrice: real, filled: real,
                                             fee: real)
    requires Solvent(s, dust) && symbol in s.positions && CoveredFill(s, symbol, exitPrice, filled, fee)
    ensures Solvent(ClosePosition(s, symbol, exitPrice, filled, fee).ledger,
                    dust + StrandedByFill(s.positions, symbol, exitPrice, filled))
  {
    var p, ps := s.positions[symbol], s.positions;
    CloseNeedsNoClamp(s, dust, symbol, exitPrice, filled, fee);
    BookStaysCollateralised(ps, symbol, exitPrice, filled);
    TotalsAfterFill(ps, symbol, exitPrice, filled);
    BookedStaysSolvent(s, dust, p.Share(filled), Gain(p.entryPrice, exitPrice, filled), fee,
                       AfterFill(ps, symbol, exitPrice, filled), StrandedByFill(ps, symbol, exitPrice, filled));
  }

  // ------------------------------------------------------- the other operations

  lemma {:induction false} AddToBook(ps: Positions, symbol: string, p: Position)
    requires AllCollateralised(ps) && Collateralised(p) && symbol !in ps
    ensures AllCollateralised(ps[symbol := p])
    ensures Total(Notionals(ps[symbol := p])) == Total(Notionals(ps)) + p.notional
    ensures Total(Unrealized(ps[symbol := p])) == Total(Unrealized(ps)) + p.unrealized
  {
    TotalUpdate(Notionals(ps), symbol, p.notional);
    assert Notionals(ps[symbol := p]) == Notionals(ps)[symbol := p.notional];
    TotalUpdate(Unrealized(ps), symbol, p.unrealized);
    assert Unrealized(ps[symbol := p]) == Unrealized(ps)[symbol := p.unrealized];
  }

  lemma {:induction false} OpenStaysSolvent(s: Ledger, dust: real, op: Op)
    requires Solvent(s, dust) && op.Open? && Covered(s, op)
    ensures Solvent(Step(s, op).ledger, dust)
  {
    NavCoversCash(s, dust);
    var r := Step(s, op);
    if r.outcome.ok {
      AddToBook(s.positions, op.symbol, r.ledger.positions[op.symbol]);
    }
  }

  lemma {:induction false} MarkedIsCollateralised(p: Position, price: real)
    requires Collateralised(p) && price >= 0.0
    ensures Collateralised(p.Marked(price))
  {
    GainIs(p.entryPrice, price, p.qty);
    TimesMonotone(price, 0.0, p.qty);
    hide Times;
    TimesOfZero(price);
  }

  lemma {:induction false} MarkStaysSolvent(s: Ledger, dust: real, prices: map<string, real>)
    requires Solvent(s, dust) && Covered(s, Mark(prices))
    ensures Solvent(UpdateUnrealized(s, prices).ledger, dust)
  {
    var ps := MarkAll(s.positions, prices);
    assert Notionals(ps) == Notionals(s.positions);
    forall k | k in ps
      ensures Collateralised(ps[k])
    {
      assert Collateralised(s.positions[k]);
      if k in prices {
        MarkedIsCollateralised(s.positions[k], prices[k]);
      }
    }
  }

  /** Marking forgets how it got there: ledgers whose positions differ only in
      earlier marks have the same unrealized profit once every symbol is priced. */
  lemma {:induction false} MarkForgetsHistory(s: Ledger, t: Ledger, prices: map<string, real>)
    requires s.positions.Keys == t.positions.Keys <= prices.Keys
    requires forall k :: k in s.positions ==>
      s.positions[k].entryPrice == t.positions[k].entryPrice && s.positions[k].qty == t.positions[k].qty
    ensures UpdateUnrealized(s, prices).ledger.unrealizedPnl == UpdateUnrealized(t, prices).ledger.unrealizedPnl
  {
    var a, b := Unrealized(MarkAll(s.positions, prices)), Unrealized(MarkAll(t.positions, prices));
    assert a.Keys == s.positions.Keys && b.Keys == t.positions.Keys;
    forall k | k in a.Keys
      ensures a[k] == b[k]
    {
      assert k in s.positions && k in t.positions && k in prices;
    }
    assert a == b;
  }

  lemma {:induction false} ReloadStaysSolvent(s: Ledger, dust: real, op: Op)
    requires Solvent(s, dust) && op.Reload? && Covered(s, op)
    ensures Solvent(Step(s, op).ledger, dust)
  {
    var ps := Step(s, op).ledger.positions;
    forall k | k in ps
      ensures ps[k] == s.positions[k].(symbol := k) && Collateralised(ps[k])
    {
      assert Collateralised(s.positions[k]);
    }
    assert Notionals(ps) == Notionals(s.positions);
    assert Unrealized(ps) == Unrealized(s.positions);
  }

  lemma {:induction false} AccountStepStaysSolvent(s: Ledger, dust: real, op: Op)
    requires Solvent(s, dust) && Covered(s, op)
    requires op.Reserve? || op.Release? || op.Fee? || op.AddFunds? || op.TakeFunds? || op.Align?
    ensures Solvent(Step(s, op).ledger, dust)
  {
    NavCoversCash(s, dust);
  }

  /** Every covered operation keeps the ledger solvent and fires no clamp. */
  lemma {:induction false} StepStaysSolvent(s: Ledger, dust: real, op: Op)
    requires Solvent(s, dust) && Covered(s, op)
    ensures Solvent(Step(s, op).ledger, dust + Stranded(s, op))
    ensures Forgiven(s, op) == 0.0
  {
    match op
    case Open(_, _, _, _, _, _, _) => OpenStaysSolvent(s, dust, op);
    case Close(sym, exit, filled, fee) =>
      if sym in s.positions {
        CloseStaysSolvent(s, dust, sym, exit, filled, fee);
        CloseNeedsNoClamp(s, dust, sym, exit, filled, fee);
      }
    case CloseRatio(sym, exit, ratio, fee) =>
      var f := RatioFill(s, sym, ratio);
      if f.Some? {
        CloseStaysSolvent(s, dust, sym, exit, f.value, fee);
        CloseNeedsNoClamp(s, dust, sym, exit, f.value, fee);
      }
    case Mark(prices) => MarkStaysSolvent(s, dust, prices);
    case Reload(_, _) => ReloadStaysSolvent(s, dust, op);
    case _ => AccountStepStaysSolvent(s, dust, op);
  }

  lemma {:induction false} RunStaysSolvent(s: Ledger, dust: real, ops: seq<Op>)
    requires Solvent(s, dust) && CoveredRun(s, ops)
    ensures Solvent(Run(s, ops), dust + TotalStranded(s, ops))
    ensures TotalForgiven(s, ops) == 0.0
    decreases ops
  {
    if ops != [] {
      StepStaysSolvent(s, dust, ops[0]);
      RunStaysSolvent(Step(s, ops[0]).ledger, dust + Stranded(s, ops[0]), ops[1..]);
    }
  }

  /** From a new engine every covered run stays solvent, and is off the documented
      identity by exactly the jumps of its reconciliation adjustments. Cash, NAV over
      cash, and both position sums are what the account names promise; margin also
      holds the stranded dust. */
  lemma CoveredRunsAreSolvent(initial: real, reservePct: real, maxPct: real, ops: seq<Op>)
    requires initial >= 0.0 && reservePct >= 0.0
    requires CoveredRun(Fresh(initial, reservePct, maxPct), ops)
    ensures var start := Fresh(initial, reservePct, maxPct);
      var end, dust := Run(start, ops), TotalStranded(start, ops);
      && end.cash >= 0.0
      && end.Nav() >= end.cash + dust
      && end.unrealizedPnl == Total(Unrealized(end.positions))
      && end.marginUsed == Total(Notionals(end.positions)) + dust
      && end.Nav() == initial + end.netDeposits + end.realizedPnl + end.unrealizedPnl - end.feesPaid
                      + TotalJumps(start, ops)
      && ((forall i :: 0 <= i < |ops| ==> !ops[i].Align?) ==> TotalJumps(start, ops) == 0.0)
  {
    var start := Fresh(initial, reservePct, maxPct);
    if forall i :: 0 <= i < |ops| ==> !ops[i].Align? {
      NoAdjustmentsNoJumps(start, ops);
    }
    assert Notionals(start.positions) == map[] && Unrealized(start.positions) == map[];
    RunStaysSolvent(start, 0.0, ops);
    NavCoversCash(Run(start, ops), 0.0 + TotalStranded(start, ops));
    RunConserves(start, ops);
    InitialCapitalFixed(start, ops);
  }

  lemma {:induction false} FillDustIsBounded(p: Position, exitPrice: real, filled: real)
    requires Collateralised(p) && 0.0 <= filled <= p.qty && exitPrice >= 0.0
    requires p.Reduced(exitPrice, filled).Negligible()
    ensures 0.0 <= p.Reduced(exitPrice, filled).notional
    ensures var left := p.Reduced(exitPrice, filled).notional;
      left > 0.0 ==> left < Max(NOTIONAL_EPSILON, Times(p.entryPrice, QTY_EPSILON))
  {
    RestIsCollateralised(p, exitPrice, filled);
    TimesStrict(p.entryPrice, p.qty - filled, QTY_EPSILON);
    hide Times, Ratio;
  }

  /** Dust is small: below the notional threshold, or below the quantity
      threshold at the entry price. It appears only when a close drops the
      symbol, and no operation hands it back. */
  lemma {:induction false} DustIsBounded(s: Ledger, dust: real, symbol: string, exitPrice: real, filled: real,
                                         fee: real)
    requires Solvent(s, dust) && CoveredFill(s, symbol, exitPrice, filled, fee)
    ensures var stranded := StrandedByFill(s.positions, symbol, exitPrice, filled);
      stranded >= 0.0 && (stranded > 0.0 ==>
        && symbol in s.positions
        && symbol !in ClosePosition(s, symbol, exitPrice, filled, fee).ledger.positions
        && stranded < Max(NOTIONAL_EPSILON, Times(s.positions[symbol].entryPrice, QTY_EPSILON)))
  {
    if symbol in s.positions && s.positions[symbol].Reduced(exitPrice, filled).Negligible() {
      assert Collateralised(s.positions[symbol]);
      FillDustIsBounded(s.positions[symbol], exitPrice, filled);
    }
  }

  /** Dust does arise: one unit held at 1, all but half the quantity threshold filled. */
  lemma {:induction false} DustCanBeStranded(symbol: string)
    ensures var left := 0.5 * QTY_EPSILON;
      var p := Position(symbol, "1", 1.0, 1.0, 1.0, 1.0, 0.0, 0.0);
      var s := Fresh(0.0, 0.0, 0.95).(marginUsed := 1.0, positions := map[symbol := p]);
      var t := ClosePosition(s, symbol, 1.0, 1.0 - left, 0.0).ledger;
      && Solvent(s, 0.0) && CoveredFill(s, symbol, 1.0, 1.0 - left, 0.0)
      && StrandedByFill(s.positions, symbol, 1.0, 1.0 - left) == left
      && t.positions == map[] && t.marginUsed == left
  {
    var filled := 1.0 - 0.5 * QTY_EPSILON;
    var p := Position(symbol, "1", 1.0, 1.0, 1.0, 1.0, 0.0, 0.0);
    var s := Fresh(0.0, 0.0, 0.95).(marginUsed := 1.0, positions := map[symbol := p]);
    TotalUpdate(map[], symbol, 1.0);
    TotalUpdate(map[], symbol, 0.0);
    assert Notionals(s.positions) == map[][symbol := 1.0];
    assert Unrealized(s.positions) == map[][symbol := 0.0];
    TimesIs(1.0, 1.0);
    TimesIs(1.0, filled);
    Fraction(filled, 1.0);
    assert Ratio(filled, 1.0) == filled;
    hide Times, Ratio, Total;
    assert p.Share(filled) == filled;
    assert AfterFill(s.positions, symbol, 1.0, filled) == map[];
  }
}
