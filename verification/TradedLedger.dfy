/** What the trading side's actions amount to: which ledger operations they are, what
    staged exits leave, and what ticks and funding mean in money. */
module TradedLedger {
  import opened Common
  import opened MapSum
  import opened LedgerSpec
  import opened LedgerConservation
  import opened LedgerSolvency
  import opened MarketValue
  import opened TwoBooks
  import C = Concentration

  // ------------------------------------------------- trades as ledger operations

  /** The ledger operations of one trade. */
  ghost function LedgerOps(b: Books, t: Trade): seq<Op> {
    match t
    case Entry(sym, oid, size, fill, qty, fee, now) =>
      if size > b.ledger.AvailableCash() then []
      else [Reserve(oid, size), Release(oid, size), Open(sym, oid, fill, qty, size, fee, now)]
    case Part(sym, ratio, exit, filled, fee, _) =>
      if Sells(b, sym, ratio) then [CloseRatio(sym, exit, Ratio(filled, b.holdings[sym].qty), fee)] else []
    case All(sym, exit, filled, fee) => if sym in b.holdings then [Close(sym, exit, filled, fee)] else []
    case Price(sym, price) =>
      if b.holdings == map[] then []
      else [Mark(TickPrices(b.holdings, sym, price))]
    case Fund(rate) => if rate > 0.0 then [LedgerSpec.Fee(Total(Charges(b.holdings, rate)))] else []
  }

  lemma {:induction false} TradeIsLedgerRun(b: Books, t: Trade)
    ensures Apply(b, t).ledger == Run(b.ledger, LedgerOps(b, t))
  {
    hide Times, Ratio, ClosePosition, ClosePartial, UpdateUnrealized, SellQty;
    var ops, s := LedgerOps(b, t), b.ledger;
    if |ops| == 1 {
      assert ops[1..] == [];
      assert Run(s, ops) == Run(Step(s, ops[0]).ledger, []);
    } else if |ops| == 3 {
      var s1 := Step(s, ops[0]).ledger;
      var s2 := Step(s1, ops[1]).ledger;
      assert ops[1..][1..] == [ops[2]] && [ops[2]][1..] == [];
      assert Run(s, ops) == Run(s1, ops[1..]) == Run(s2, [ops[2]]) == Run(Step(s2, ops[2]).ledger, []);
    }
  }

  ghost function LedgerRun(b: Books, ts: seq<Trade>): seq<Op>
    decreases ts
  {
    if ts == [] then [] else LedgerOps(b, ts[0]) + LedgerRun(Apply(b, ts[0]), ts[1..])
  }

  /** Whatever is traded, the ledger goes through a run of its own operations. */
  lemma {:induction false} TradesAreLedgerRuns(b: Books, ts: seq<Trade>)
    ensures RunTrades(b, ts).ledger == Run(b.ledger, LedgerRun(b, ts))
    decreases ts
  {
    hide Apply, LedgerOps, Step;
    if ts != [] {
      TradeIsLedgerRun(b, ts[0]);
      TradesAreLedgerRuns(Apply(b, ts[0]), ts[1..]);
      RunConcat(b.ledger, LedgerOps(b, ts[0]), LedgerRun(Apply(b, ts[0]), ts[1..]));
    }
  }

  lemma {:induction false} TradesNeverAlign(b: Books, ts: seq<Trade>)
    ensures forall i :: 0 <= i < |LedgerRun(b, ts)| ==> !LedgerRun(b, ts)[i].Align?
    decreases ts
  {
    hide Apply;
    if ts != [] {
      TradesNeverAlign(Apply(b, ts[0]), ts[1..]);
      assert forall i :: 0 <= i < |LedgerOps(b, ts[0])| ==> !LedgerOps(b, ts[0])[i].Align?;
    }
  }

  /** So everything known of ledger runs holds of trading: the gap grows by what the
      clamps forgive alone, and covered trading stays solvent with NAV over cash. */
  lemma {:induction false} TradingKeepsLedger(b: Books, ts: seq<Trade>, dust: real)
    ensures RunTrades(b, ts).ledger.Gap()
            == b.ledger.Gap() + TotalForgiven(b.ledger, LedgerRun(b, ts))
    ensures Solvent(b.ledger, dust) && CoveredRun(b.ledger, LedgerRun(b, ts)) ==>
      var left := dust + TotalStranded(b.ledger, LedgerRun(b, ts));
      Solvent(RunTrades(b, ts).ledger, left)
      && RunTrades(b, ts).ledger.Nav() >= RunTrades(b, ts).ledger.cash + left
  {
    hide Solvent, CoveredRun;
    TradesAreLedgerRuns(b, ts);
    RunConserves(b.ledger, LedgerRun(b, ts));
    TradesNeverAlign(b, ts);
    NoAdjustmentsNoJumps(b.ledger, LedgerRun(b, ts));
    if Solvent(b.ledger, dust) && CoveredRun(b.ledger, LedgerRun(b, ts)) {
      RunStaysSolvent(b.ledger, dust, LedgerRun(b, ts));
      NavCoversCash(RunTrades(b, ts).ledger, dust + TotalStranded(b.ledger, LedgerRun(b, ts)));
    }
  }

  // ---------------------------------------------------------------- staged exits

  /** Both books hold `left` units of the symbol, worth `size`. */
  predicate BothHold(b: Books, symbol: string, left: real, size: real) {
    && symbol in b.holdings && symbol in b.ledger.positions
    && b.holdings[symbol].qty == left == b.ledger.positions[symbol].qty
    && b.holdings[symbol].size == size == b.ledger.positions[symbol].notional
  }

  /** More than either threshold. */
  predicate Keepable(qty: real, size: real) {
    qty > QTY_EPSILON && size > NOTIONAL_EPSILON
  }

  lemma {:induction false} ShareLeft(size: real, qty: real, part: real)
    requires qty > 0.0
    ensures size - SizeShare(size, qty, part) == SizeShare(size, qty, qty - part)
  {
    RatioAdds(part, qty - part, qty);
    Fraction(qty, qty);
    var a, b := Ratio(part, qty), Ratio(qty - part, qty);
    assert a + b == 1.0;
    assert size * a + size * b == size * (a + b);
  }

  /** A complete staged exit sells `ratio` of the initial quantity, however much has been
      sold before, and leaves the rest on both books. */
  lemma {:induction false} StagedExitLeaves(b: Books, symbol: string, ratio: real, exitPrice: real, fee: real,
                                            stage: int)
    requires Agree(b) && symbol in b.holdings
    requires var h, sell := b.holdings[symbol], Times(b.holdings[symbol].initialQty, ratio);
      && h.initialQty > 0.0 && h.size > 0.0 && 0.0 < sell < h.qty
      && Keepable(h.qty - sell, SizeShare(h.size, h.qty, h.qty - sell))
    ensures var h, sell := b.holdings[symbol], Times(b.holdings[symbol].initialQty, ratio);
      var left := h.qty - sell;
      var size := SizeShare(h.size, h.qty, left);
      var c := ClosePart(b, symbol, ratio, exitPrice, sell, fee, stage);
      && Agree(c) && BothHold(c, symbol, left, size)
      && c.holdings == b.holdings[symbol := h.(qty := left, size := size, exitStage := stage)]
      && Sells(b, symbol, ratio)
  {
    var h := b.holdings[symbol];
    var sell := Times(h.initialQty, ratio);
    assert SellQty(h, ratio) == sell;
    ShareLeft(h.size, h.qty, sell);
    hide SizeShare, Times, Ratio, SellQty;
    CompleteFillAgreement(b, symbol, ratio, exitPrice, fee, stage);
    AgreeAt(ClosePart(b, symbol, ratio, exitPrice, sell, fee, stage), symbol);
  }

  /** When what is left is no more than the stage asks for, all of it is sold and both
      books drop the symbol. */
  lemma {:induction false} LastStageSellsOut(b: Books, symbol: string, ratio: real, exitPrice: real, fee: real,
                                             stage: int)
    requires Agree(b) && symbol in b.holdings
    requires var h := b.holdings[symbol];
      h.initialQty > 0.0 && h.size > 0.0 && 0.0 < h.qty <= Times(h.initialQty, ratio)
    ensures var c := ClosePart(b, symbol, ratio, exitPrice, b.holdings[symbol].qty, fee, stage);
      Agree(c) && c.holdings == b.holdings - {symbol} && symbol !in c.ledger.positions
  {
    var h := b.holdings[symbol];
    assert SellQty(h, ratio) == h.qty;
    ShareOf(h.size, h.qty, h.qty);
    hide SizeShare, Times, Ratio, SellQty;
    CompleteFillAgreement(b, symbol, ratio, exitPrice, fee, stage);
    var c := ClosePart(b, symbol, ratio, exitPrice, h.qty, fee, stage);
    assert symbol !in c.holdings.Keys;
  }

  /** A staged exit acts exactly when there is something to sell and the stage asks for
      some of it; otherwise nothing at all changes. */
  lemma {:induction false} StagedExitActs(b: Books, symbol: string, ratio: real, exitPrice: real, filled: real,
                                          fee: real, stage: int)
    ensures var acts := symbol in b.holdings && b.holdings[symbol].qty > 0.0 && b.holdings[symbol].size > 0.0
              && Times(if b.holdings[symbol].initialQty == 0.0 then b.holdings[symbol].qty
                       else b.holdings[symbol].initialQty, ratio) > 0.0;
      var c := ClosePart(b, symbol, ratio, exitPrice, filled, fee, stage);
      if acts then InSync(c) && (symbol in c.holdings ==> c.holdings[symbol].exitStage == stage) else c == b
  {
    hide Times, Ratio, SizeShare, ClosePartial;
  }

  /** An entry without an initial quantity sells as if everything were still there. */
  lemma {:induction false} MissingInitialQty(b: Books, symbol: string, ratio: real, exitPrice: real, filled: real,
                                             fee: real, stage: int)
    requires symbol in b.holdings && b.holdings[symbol].initialQty == 0.0
    ensures var h := b.holdings[symbol];
      var whole := b.(holdings := b.holdings[symbol := h.(initialQty := h.qty)]);
      var c, d := ClosePart(b, symbol, ratio, exitPrice, filled, fee, stage),
                  ClosePart(whole, symbol, ratio, exitPrice, filled, fee, stage);
      && c.ledger == d.ledger && c.holdings.Keys == d.holdings.Keys
      && (symbol in c.holdings ==>
            c.holdings[symbol].qty == d.holdings[symbol].qty && c.holdings[symbol].size == d.holdings[symbol].size)
  {
    hide Times, Ratio, SizeShare, ClosePartial;
  }

  datatype Stage = Stage(ratio: real, exitPrice: real, fee: real)

  function RatioSum(stages: seq<Stage>): real {
    if stages == [] then 0.0 else RatioSum(stages[..|stages| - 1]) + stages[|stages| - 1].ratio
  }

  /** The complete staged exits of a position bought as `initialQty`. */
  function AsParts(symbol: string, initialQty: real, stages: seq<Stage>): seq<Trade> {
    if stages == [] then []
    else
      var n := |stages| - 1;
      var last := stages[n];
      AsParts(symbol, initialQty, stages[..n])
      + [Part(symbol, last.ratio, last.exitPrice, Times(initialQty, last.ratio), last.fee, n + 1)]
  }

  /** What is left of the initial quantity after the stages. */
  function LeftAfter(initialQty: real, stages: seq<Stage>): real {
    Times(initialQty, 1.0 - RatioSum(stages))
  }

  lemma {:induction false} ShareChains(size: real, qty: real, a: real, b: real)
    requires qty > 0.0 && a > 0.0
    ensures SizeShare(SizeShare(size, qty, a), a, b) == SizeShare(size, qty, b)
  {
    var u, v, w := Ratio(a, qty), Ratio(b, a), Ratio(b, qty);
    assert u * qty == a && v * a == b && w * qty == b;
    assert (u * v - w) * qty == v * (u * qty) - w * qty == 0.0;
    assert u * v == w;
    assert size * u * v == size * (u * v);
  }

  lemma {:induction false} LeftAfterOneMore(initialQty: real, before: real, ratio: real)
    ensures Times(initialQty, 1.0 - before) - Times(initialQty, ratio) == Times(initialQty, 1.0 - (before + ratio))
  {
    assert initialQty * (1.0 - before) - initialQty * ratio == initialQty * (1.0 - (before + ratio));
  }

  /** Over any stages with ratios r1, r2, ... that leave more than the thresholds, both
      books end with the initial quantity times 1 - (r1 + r2 + ...), at the same size
      per unit as at the start. */
  lemma {:induction false} StagesLeave(b: Books, symbol: string, stages: seq<Stage>)
    requires Agree(b) && symbol in b.holdings
    requires var h := b.holdings[symbol];
      && h.qty == h.initialQty > 0.0 && h.size > 0.0
      && (forall i :: 0 <= i < |stages| ==> Times(h.initialQty, stages[i].ratio) > 0.0)
      && (forall k :: 0 <= k <= |stages| ==>
            var left := LeftAfter(h.initialQty, stages[..k]);
            Keepable(left, SizeShare(h.size, h.qty, left)))
    ensures var h := b.holdings[symbol];
      var left := LeftAfter(h.initialQty, stages);
      var size := SizeShare(h.size, h.qty, left);
      var c := RunTrades(b, AsParts(symbol, h.initialQty, stages));
      && Agree(c) && BothHold(c, symbol, left, size)
      && c.holdings == b.holdings[symbol := h.(qty := left, size := size,
                                               exitStage := if stages == [] then h.exitStage else |stages|)]
  {
    var h := b.holdings[symbol];
    if stages == [] {
      TimesIs(h.initialQty, 1.0);
      ShareOf(h.size, h.qty, h.qty);
      AgreeAt(b, symbol);
      assert b.holdings[symbol := h] == b.holdings;
    } else {
      var n := |stages| - 1;
      var before, last := stages[..n], stages[n];
      assert forall k :: 0 <= k <= n ==> before[..k] == stages[..k];
      assert stages[..|stages|] == stages && stages[..n][..n] == before;
      hide SizeShare, Times, Ratio, Apply, Keepable, Agree, BothHold, RunTrades;
      StagesLeave(b, symbol, before);
      var c := RunTrades(b, AsParts(symbol, h.initialQty, before));
      var left, sell := LeftAfter(h.initialQty, before), Times(h.initialQty, last.ratio);
      LeftAfterOneMore(h.initialQty, RatioSum(before), last.ratio);
      OneMoreStage(c, symbol, h, left, last, n + 1);
      RunAppend(b, AsParts(symbol, h.initialQty, before),
                Part(symbol, last.ratio, last.exitPrice, sell, last.fee, n + 1));
    }
  }

  /** One stage more, from a state that earlier stages have led to. */
  lemma {:induction false} OneMoreStage(c: Books, symbol: string, h: Holding, left: real, last: Stage, stage: int)
    requires h.qty > 0.0 && h.initialQty > 0.0 && Agree(c) && symbol in c.holdings
    requires c.holdings[symbol]
             == h.(qty := left, size := SizeShare(h.size, h.qty, left), exitStage := c.holdings[symbol].exitStage)
    requires var sell := Times(h.initialQty, last.ratio);
      sell > 0.0 && Keepable(left, SizeShare(h.size, h.qty, left))
      && Keepable(left - sell, SizeShare(h.size, h.qty, left - sell))
    ensures var sell := Times(h.initialQty, last.ratio);
      var d := Apply(c, Part(symbol, last.ratio, last.exitPrice, sell, last.fee, stage));
      var size := SizeShare(h.size, h.qty, left - sell);
      && Agree(d) && BothHold(d, symbol, left - sell, size)
      && d.holdings == c.holdings[symbol := h.(qty := left - sell, size := size, exitStage := stage)]
  {
    var sell := Times(h.initialQty, last.ratio);
    KeepableIsPositive(left, SizeShare(h.size, h.qty, left));
    KeepableIsPositive(left - sell, SizeShare(h.size, h.qty, left - sell));
    ShareChains(h.size, h.qty, left, left - sell);
    hide SizeShare, Times, Ratio, Apply, Agree;
    StagedExitLeaves(c, symbol, last.ratio, last.exitPrice, last.fee, stage);
    ApplyPart(c, symbol, last.ratio, last.exitPrice, sell, last.fee, stage);
  }

  lemma {:induction false} KeepableIsPositive(qty: real, size: real)
    requires Keepable(qty, size)
    ensures qty > 0.0 && size > 0.0
  {
  }

  lemma {:induction false} ApplyPart(b: Books, symbol: string, ratio: real, exitPrice: real, filled: real, fee: real,
                                     stage: int)
    ensures Apply(b, Part(symbol, ratio, exitPrice, filled, fee, stage))
            == ClosePart(b, symbol, ratio, exitPrice, filled, fee, stage)
  {
  }

  /** An accepted entry is where such stages start: everything is still there. */
  lemma {:induction false} EntryIsWhole(b: Books, symbol: string, orderId: string, size: real, fillPrice: real,
                                        qty: real, fee: real, now: real)
    requires size <= b.ledger.AvailableCash()
    ensures var c := Enter(b, symbol, orderId, size, fillPrice, qty, fee, now);
      && c.holdings.Keys == b.holdings.Keys + {symbol}
      && c.holdings[symbol].qty == c.holdings[symbol].initialQty == qty && c.holdings[symbol].exitStage == 0
  {
  }

  // ------------------------------------------------------------- ticks and funding

  /** The traded symbol at its price, everything else at what it cost. */
  function ValueAt(holdings: map<string, Holding>, symbol: string, price: real): map<string, real> {
    map k | k in holdings :: if k == symbol then Times(price, holdings[k].qty) else holdings[k].size
  }

  lemma {:induction false} TickWorth(b: Books, symbol: string, price: real)
    requires Agree(b) && AllCollateralised(b.ledger.positions)
    ensures Worth(b.ledger.positions, TickPrices(b.holdings, symbol, price)) == ValueAt(b.holdings, symbol, price)
  {
    hide Times;
    var ps, prices := b.ledger.positions, TickPrices(b.holdings, symbol, price);
    var w, m := Worth(ps, prices), ValueAt(b.holdings, symbol, price);
    assert w.Keys == ps.Keys == b.holdings.Keys == m.Keys;
    forall k | k in b.holdings
      ensures w[k] == m[k]
    {
      AgreeAt(b, k);
      assert k in prices && Collateralised(ps[k]);
    }
  }

  /** After a tick the engine's equity is cash and dust plus that value. */
  lemma {:induction false} TickFollowsMarket(b: Books, symbol: string, price: real, dust: real)
    requires Agree(b) && Solvent(b.ledger, dust) && b.holdings != map[]
    ensures Tick(b, symbol, price).equity == b.ledger.cash + dust + Total(ValueAt(b.holdings, symbol, price))
  {
    NavFollowsMarket(b.ledger, dust, TickPrices(b.holdings, symbol, price));
    TickWorth(b, symbol, price);
    hide Agree, Worth, ValueAt, Total, UpdateUnrealized;
  }

  lemma {:induction false} TotalScales(m: map<string, real>, w: map<string, real>, rate: real)
    requires m.Keys == w.Keys && forall k :: k in m ==> w[k] == Times(m[k], rate)
    ensures Total(w) == Times(Total(m), rate)
    decreases |m|
  {
    TimesIs(0.0, rate);
    hide Times;
    if m == map[] {
      assert w == map[];
    } else {
      var k := Pick(m);
      assert k in w.Keys;
      Smaller(m, k);
      TotalRemove(m, k);
      TotalRemove(w, k);
      TotalScales(m - {k}, w - {k}, rate);
      ScaleAdds(m[k], Total(m - {k}), rate);
    }
  }

  lemma {:induction false} ScaleAdds(a: real, b: real, rate: real)
    ensures Times(a + b, rate) == Times(a, rate) + Times(b, rate)
  {
    assert (a + b) * rate == a * rate + b * rate;
  }

  /** When every holding's charge is above the minimum, funding costs the rate on the
      margin in use, dust excepted. */
  lemma {:induction false} FundingIsRateOnMargin(b: Books, rate: real, dust: real)
    requires Agree(b) && Solvent(b.ledger, dust) && rate > 0.0 && b.holdings != map[]
    requires forall k :: k in b.holdings ==> SwapCost(b.holdings[k].size, rate) > MIN_FUNDING_CHARGE
    ensures var cost := Times(b.ledger.marginUsed - dust, rate);
      && Funding(b, rate).ledger.feesPaid == b.ledger.feesPaid + cost
      && Funding(b, rate).ledger.cash == Max(0.0, b.ledger.cash - cost)
  {
    var n, w := Notionals(b.ledger.positions), Charges(b.holdings, rate);
    assert n.Keys == b.ledger.positions.Keys == b.holdings.Keys == w.Keys;
    forall k | k in n
      ensures w[k] == Times(n[k], rate) > 0.0
    {
      assert k in b.holdings;
    }
    TotalScales(n, w, rate);
    var k :| k in b.holdings;
    TotalDominates(w);
    assert k in w && w[k] <= Total(w);
    hide Times, Total;
  }

  // -------------------------------------------------------------------- exposures

  /** An entry as the concentration check reads it says what the ledger holds: by size,
      or by notional where there is no size. */
  predicate Tells(entry: C.Held, notional: real) {
    || (entry.size == Some(notional) && notional != 0.0)
    || ((entry.size == None || entry.size == Some(0.0)) && entry.notional == Some(notional))
  }

  /** The concentration check sees exactly the margin in use, dust excepted, whichever
      of the two figures its entries carry. */
  lemma {:induction false} ExposureIsMargin(s: Ledger, dust: real, open: map<string, C.Held>)
    requires Solvent(s, dust) && open.Keys == s.positions.Keys
    requires forall k :: k in open ==> Tells(open[k], s.positions[k].notional)
    ensures C.Exposures(open) == Notionals(s.positions)
    ensures Total(C.Exposures(open)) == s.marginUsed - dust
  {
    assert C.Exposures(open).Keys == Notionals(s.positions).Keys;
    assert forall k :: k in open ==> C.Exposures(open)[k] == s.positions[k].notional;
    assert C.Exposures(open) == Notionals(s.positions);
  }
}
