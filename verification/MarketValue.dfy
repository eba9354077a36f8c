/** What the ledger says it is worth, against what the positions would fetch. */
module MarketValue {
  import opened Common
  import opened MapSum
  import opened LedgerSpec
  import opened LedgerConservation
  import opened LedgerSolvency

  /** What a position is worth after a tick: its quantity at the new price, or its
      notional and earlier profit when the tick has no price for it. */
  ghost function Worth(ps: Positions, prices: map<string, real>): map<string, real> {
    map k | k in ps :: if k in prices then Times(prices[k], ps[k].qty) else ps[k].notional + ps[k].unrealized
  }

  lemma {:induction false} MarkedWorth(p: Position, price: real)
    requires Collateralised(p)
    ensures p.notional + p.Marked(price).unrealized == Times(price, p.qty)
  {
    GainIs(p.entryPrice, price, p.qty);
    hide Times;
  }

  /** Marking to market: after a tick, NAV is cash and dust plus what every position
      would fetch at its price; a position without a price keeps its earlier mark. */
  lemma {:induction false} NavFollowsMarket(s: Ledger, dust: real, prices: map<string, real>)
    requires Solvent(s, dust)
    ensures UpdateUnrealized(s, prices).ledger.Nav() == s.cash + dust + Total(Worth(s.positions, prices))
  {
    var ps := MarkAll(s.positions, prices);
    var n, u, w := Notionals(s.positions), Unrealized(ps), Worth(s.positions, prices);
    assert n.Keys == s.positions.Keys && u.Keys == s.positions.Keys && w.Keys == s.positions.Keys;
    forall k | k in n
      ensures w[k] == n[k] + u[k]
    {
      assert Collateralised(s.positions[k]);
      if k in prices {
        MarkedWorth(s.positions[k], prices[k]);
      }
    }
    hide Times;
    TotalAdds(n, u, w);
  }

  /** With every symbol priced, NAV moves exactly by the price changes times the
      quantities held. */
  lemma {:induction false} NavMoves(s: Ledger, dust: real, before: map<string, real>, after: map<string, real>)
    requires Solvent(s, dust) && s.positions.Keys <= before.Keys && s.positions.Keys <= after.Keys
    ensures UpdateUnrealized(s, after).ledger.Nav() - UpdateUnrealized(s, before).ledger.Nav()
            == Total(map k | k in s.positions :: Times(after[k] - before[k], s.positions[k].qty))
  {
    NavFollowsMarket(s, dust, before);
    NavFollowsMarket(s, dust, after);
    var ps := s.positions;
    var d := map k | k in ps :: Times(after[k] - before[k], ps[k].qty);
    var a, b := Worth(ps, before), Worth(ps, after);
    assert a.Keys == ps.Keys && b.Keys == ps.Keys && d.Keys == ps.Keys;
    forall k | k in a
      ensures b[k] == a[k] + d[k]
    {
      assert k in ps && k in before && k in after;
      GainIs(before[k], after[k], ps[k].qty);
    }
    hide Times;
    TotalAdds(a, d, b);
  }

  // ----------------------------------------------------------------------- peaks

  function Highest(first: real, prices: seq<real>): real {
    if prices == [] then first else Max(Highest(first, prices[..|prices| - 1]), prices[|prices| - 1])
  }

  /** The position after a sequence of ticks. */
  function MarkedBy(p: Position, prices: seq<real>): Position {
    if prices == [] then p else MarkedBy(p, prices[..|prices| - 1]).Marked(prices[|prices| - 1])
  }

  /** A position keeps its terms under any ticks; its peak is the highest price since
      it was opened, and its profit is the one at the last price. */
  lemma {:induction false} TicksKeepTerms(p: Position, prices: seq<real>)
    ensures var q := MarkedBy(p, prices);
      && q == p.(peakPrice := q.peakPrice, unrealized := q.unrealized)
      && q.peakPrice == Highest(p.peakPrice, prices)
      && (prices != [] && Collateralised(p) ==>
            q.notional + q.unrealized == Times(prices[|prices| - 1], p.qty))
  {
    hide Times;
    if prices != [] {
      TicksKeepTerms(p, prices[..|prices| - 1]);
      if Collateralised(p) {
        GainIs(p.entryPrice, prices[|prices| - 1], p.qty);
      }
    }
  }

  // ------------------------------------------------------------------ round trips

  /** Opening a position and closing all of it leaves, of the whole affair, the price
      difference times the quantity less both fees, and a new position starts with
      its peak at the entry. */
  lemma {:induction false} OpenAndClose(s: Ledger, op: Op, exitPrice: real, fee: real)
    requires op.Open? && Step(s, op).outcome == Accepted(true) && op.qty > 0.0
    requires s.unrealizedPnl == Total(Unrealized(s.positions))
    requires ForgivenByClose(Step(s, op).ledger, op.symbol, exitPrice, op.qty, fee) == 0.0
    ensures var s1 := Step(s, op).ledger;
      var gain := Gain(op.entryPrice, exitPrice, op.qty);
      && s1.positions[op.symbol].peakPrice == op.entryPrice && s1.positions[op.symbol].unrealized == 0.0
      && s1.positions[op.symbol].openedAt == op.now && s1.positions[op.symbol].orderId == op.orderId
      && ClosePosition(s1, op.symbol, exitPrice, op.qty, fee).ledger
         == s.(cash := s.cash + gain - op.fee - fee, realizedPnl := s.realizedPnl + gain,
               feesPaid := s.feesPaid + op.fee + fee)
  {
    var s1 := Step(s, op).ledger;
    var p := s1.positions[op.symbol];
    Fraction(op.qty, op.qty);
    TimesIs(p.notional, 1.0);
    assert p.FillRatio(op.qty) == 1.0;
    hide Times, Ratio;
    assert AfterFill(s1.positions, op.symbol, exitPrice, op.qty) == s.positions;
  }

  /** A ratio close does something exactly for a held symbol with something in it and
      a positive ratio; otherwise nothing changes. */
  lemma {:induction false} RatioCloseActs(s: Ledger, symbol: string, exitPrice: real, ratio: real, fee: real)
    ensures var r := ClosePartial(s, symbol, exitPrice, ratio, fee);
      if symbol in s.positions && s.positions[symbol].qty > 0.0 && ratio > 0.0 then r.outcome.realized.Some?
      else r == Result(s, Pnl(None))
  {
    if symbol in s.positions {
      var qty, share := s.positions[symbol].qty, Clamp01(ratio);
      if qty > 0.0 && share > 0.0 {
        TimesSign(qty, share);
      } else if share > 0.0 {
        ProductOrder(share, qty, 0.0);
        TimesIs(qty, share);
      }
    }
    hide Times, ClosePosition;
  }

  /** A position with no quantity is dropped by any close, its notional leaving margin. */
  lemma {:induction false} EmptyPositionCloses(s: Ledger, symbol: string, exitPrice: real, filled: real, fee: real)
    requires symbol in s.positions && s.positions[symbol].qty <= 0.0
    ensures var t := ClosePosition(s, symbol, exitPrice, filled, fee).ledger;
      t.positions == s.positions - {symbol} && t.marginUsed == Max(0.0, s.marginUsed - s.positions[symbol].notional)
  {
    TimesIs(s.positions[symbol].notional, 1.0);
    hide Times, Ratio;
  }

  // -------------------------------------------------------------------- what flows

  function Deposited(op: Op): real {
    if op.AddFunds? then op.amount else 0.0
  }

  ghost function Withdrawn(s: Ledger, op: Op): real {
    if op.TakeFunds? && Step(s, op).outcome == Accepted(true) then op.amount else 0.0
  }

  ghost function NetFlow(s: Ledger, ops: seq<Op>): real
    decreases ops
  {
    if ops == [] then 0.0
    else Deposited(ops[0]) - Withdrawn(s, ops[0]) + NetFlow(Step(s, ops[0]).ledger, ops[1..])
  }

  /** Over every run net deposits are what was paid in less what was paid out. */
  lemma {:induction false} NetDepositsAreFlows(s: Ledger, ops: seq<Op>)
    ensures Run(s, ops).netDeposits == s.netDeposits + NetFlow(s, ops)
    decreases ops
  {
    if ops != [] {
      NetDepositsAreFlows(Step(s, ops[0]).ledger, ops[1..]);
    }
  }

  /** Requests are granted exactly when they ask for nothing or the reserve share of NAV
      and all orders in flight stay covered; for an opening strictly so. */
  lemma {:induction false} GrantedExactly(s: Ledger, op: Op)
    ensures op.Reserve? || op.TakeFunds? ==>
      (Step(s, op).outcome == Accepted(true) <==>
         op.amount <= 0.0 || s.cash - op.amount >= Times(s.Nav(), s.reservePct) + s.reservedMargin)
    ensures op.Open? ==>
      (Step(s, op).outcome == Accepted(true) <==>
         op.symbol !in s.positions
         && (op.notional + op.fee <= 0.0
             || s.cash - (op.notional + op.fee) > Times(s.Nav(), s.reservePct) + s.reservedMargin))
    ensures Step(s, op).outcome == Accepted(false) ==> Step(s, op).ledger == s
  {
    hide Times;
  }
}
