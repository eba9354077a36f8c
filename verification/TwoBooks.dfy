/** The trading side keeps its own book of open positions next to the capital
    ledger. This module says what each trade does to both, and when they agree.
    Order fills are arguments: any price and any filled quantity. */
module TwoBooks {
  import opened Common
  import opened MapSum
  import opened LedgerSpec

  const MIN_FUNDING_CHARGE := 0.001

  // An entry of the trading side's `open_positions`.
  datatype Holding = Holding(entry: real, qty: real, size: real, initialQty: real, exitStage: int)

  datatype Books = Books(ledger: Ledger, holdings: map<string, Holding>, equity: real, freeCapital: real) {
    function Synced(): Books {
      this.(equity := ledger.Nav(), freeCapital := ledger.AvailableCash())
    }
  }

  /** Same symbols, entry prices, quantities and sizes on both sides. */
  ghost predicate Agree(b: Books) {
    && b.holdings.Keys == b.ledger.positions.Keys
    && forall k :: k in b.holdings ==>
      && b.holdings[k].entry == b.ledger.positions[k].entryPrice
      && b.holdings[k].qty == b.ledger.positions[k].qty && b.holdings[k].size == b.ledger.positions[k].notional
  }

  predicate InSync(b: Books) {
    b.equity == b.ledger.Nav() && b.freeCapital == b.ledger.AvailableCash()
  }

  // ----------------------------------------------------------------- operations

  /** Entry: reserve, fill, then release and open. The trading side files its
      holding whether or not the ledger accepts the position. */
  function Enter(b: Books, symbol: string, orderId: string, size: real, fillPrice: real, qty: real,
                 fee: real, now: real): Books
  {
    var reserved := ReserveMargin(b.ledger, size);
    if reserved.outcome == Accepted(false) then b
    else
      var released := ReleaseReservation(reserved.ledger, size).ledger;
      var after := OpenPosition(released, symbol, orderId, fillPrice, qty, size, fee, now).ledger;
      Books(after, b.holdings[symbol := Holding(fillPrice, qty, size, qty, 0)], 0.0, 0.0).Synced()
  }

  /** The quantity a staged exit sells: a ratio of the initial quantity, at most
      what is left. */
  function SellQty(h: Holding, ratio: real): real {
    var initial := if h.initialQty == 0.0 then h.qty else h.initialQty;
    Min(h.qty, Max(0.0, Times(initial, ratio)))
  }

  predicate Sells(b: Books, symbol: string, ratio: real) {
    && symbol in b.holdings
    && b.holdings[symbol].qty > 0.0 && b.holdings[symbol].size > 0.0
    && SellQty(b.holdings[symbol], ratio) > 0.0
  }

  /** The share of a size that goes with a part of its quantity. */
  function SizeShare(size: real, qty: real, part: real): real
    requires qty > 0.0
  {
    Times(size, Ratio(part, qty))
  }

  /** Size is reduced by the quantity ordered, quantity by what was filled. */
  function Sold(h: Holding, sell: real, filled: real, stage: int): Holding
    requires h.qty > 0.0
  {
    h.(qty := Max(0.0, h.qty - filled), size := Max(0.0, h.size - SizeShare(h.size, h.qty, sell)),
       exitStage := stage)
  }

  predicate Dropped(h: Holding) {
    h.qty <= QTY_EPSILON || h.size <= NOTIONAL_EPSILON
  }

  ghost function ClosePart(b: Books, symbol: string, ratio: real, exitPrice: real, filled: real, fee: real,
                           stage: int): Books
  {
    if !Sells(b, symbol, ratio) then b
    else
      var h := b.holdings[symbol];
      var rest := Sold(h, SellQty(h, ratio), filled, stage);
      Books(LedgerSpec.ClosePartial(b.ledger, symbol, exitPrice, Ratio(filled, h.qty), fee).ledger,
            if Dropped(rest) then b.holdings - {symbol} else b.holdings[symbol := rest], 0.0, 0.0).Synced()
  }

  ghost function CloseAll(b: Books, symbol: string, exitPrice: real, filled: real, fee: real): Books {
    if symbol !in b.holdings then b
    else Books(LedgerSpec.ClosePosition(b.ledger, symbol, exitPrice, filled, fee).ledger,
               b.holdings - {symbol}, 0.0, 0.0).Synced()
  }

  /** The profit a full exit reports: the ledger's, or the trading side's own estimate for
      a symbol that the ledger does not know. */
  ghost function ReportedPnl(b: Books, symbol: string, exitPrice: real, filled: real, fee: real): real
    requires symbol in b.holdings
  {
    match LedgerSpec.ClosePosition(b.ledger, symbol, exitPrice, filled, fee).outcome.realized
    case Some(r) => r
    case None => Gain(b.holdings[symbol].entry, exitPrice, filled)
  }

  function TickPrices(holdings: map<string, Holding>, symbol: string, price: real): map<string, real> {
    map k | k in holdings :: if k == symbol then price else holdings[k].entry
  }

  /** A tick marks the traded symbol at its price and every other holding at its
      entry price. */
  ghost function Tick(b: Books, symbol: string, price: real): Books {
    if b.holdings == map[] then b
    else
      var ledger := LedgerSpec.UpdateUnrealized(b.ledger, TickPrices(b.holdings, symbol, price)).ledger;
      b.(ledger := ledger, equity := ledger.Nav())
  }

  function SwapCost(size: real, rate: real): real {
    Times(size, rate)
  }

  function Charges(holdings: map<string, Holding>, rate: real): map<string, real> {
    map k | k in holdings && SwapCost(holdings[k].size, rate) > MIN_FUNDING_CHARGE :: SwapCost(holdings[k].size, rate)
  }

  /** Funding charges every holding above the minimum; the ledger sees the sum. */
  ghost function Funding(b: Books, rate: real): Books {
    if rate <= 0.0 then b
    else b.(ledger := LedgerSpec.RecordFee(b.ledger, Total(Charges(b.holdings, rate))).ledger)
  }

  // ------------------------------------------------------------------ agreement

  /** What the ratio of a fill to a quantity closes: the fill, within 0..qty. */
  lemma {:induction false} PortionOfFill(qty: real, filled: real)
    requires qty > 0.0
    ensures Portion(qty, Ratio(filled, qty)) == Max(0.0, Min(qty, filled))
    ensures Clamp01(Ratio(filled, qty)) <= 0.0 <==> filled <= 0.0
  {
    var r := Ratio(filled, qty);
    assert r * qty == filled;
    RatioAbove(filled, qty, 0.0);
    RatioAbove(filled, qty, 1.0);
    TimesIs(0.0, qty);
    TimesIs(1.0, qty);
    TimesIs(qty, Clamp01(r));
  }

  /** A staged exit closes the filled quantity in the ledger, or all there is, or
      nothing when nothing was filled. */
  lemma {:induction false} LedgerClosesFill(s: Ledger, symbol: string, exitPrice: real, filled: real, fee: real)
    requires symbol in s.positions && s.positions[symbol].qty > 0.0
    ensures var qty := s.positions[symbol].qty;
      LedgerSpec.ClosePartial(s, symbol, exitPrice, Ratio(filled, qty), fee)
      == if filled <= 0.0 then Result(s, Pnl(None))
         else LedgerSpec.ClosePosition(s, symbol, exitPrice, Min(qty, filled), fee)
  {
    PortionOfFill(s.positions[symbol].qty, filled);
    hide Portion, Ratio, Clamp01, ClosePosition;
  }

  lemma {:induction false} AgreeAfterUpdate(b: Books, c: Books, symbol: string)
    requires Agree(b) && symbol in b.holdings
    requires c.holdings - {symbol} == b.holdings - {symbol}
    requires c.ledger.positions - {symbol} == b.ledger.positions - {symbol}
    ensures Agree(c) <==>
      (symbol in c.holdings <==> symbol in c.ledger.positions)
      && (symbol in c.holdings && symbol in c.ledger.positions ==>
            c.holdings[symbol].entry == c.ledger.positions[symbol].entryPrice
            && c.holdings[symbol].qty == c.ledger.positions[symbol].qty
            && c.holdings[symbol].size == c.ledger.positions[symbol].notional)
  {
    var h, p := c.holdings, c.ledger.positions;
    forall k | k != symbol
      ensures k in h <==> k in b.holdings
      ensures k in p <==> k in b.ledger.positions
      ensures k in h ==> h[k] == b.holdings[k]
      ensures k in p ==> p[k] == b.ledger.positions[k]
    {
      assert k in h <==> k in h - {symbol};
      assert k in b.holdings <==> k in b.holdings - {symbol};
      assert k in p <==> k in p - {symbol};
      assert k in b.ledger.positions <==> k in b.ledger.positions - {symbol};
      assert k in h ==> h[k] == (h - {symbol})[k] == (b.holdings - {symbol})[k];
      assert k in p ==> p[k] == (p - {symbol})[k] == (b.ledger.positions - {symbol})[k];
    }
    if Agree(c) {
      assert symbol in h <==> symbol in h.Keys;
    } else if (symbol in h <==> symbol in p) {
      assert h.Keys == p.Keys;
    }
  }

  lemma {:induction false} LedgerOnlyTouches(s: Ledger, symbol: string, exitPrice: real, filled: real, fee: real)
    ensures LedgerSpec.ClosePosition(s, symbol, exitPrice, filled, fee).ledger.positions - {symbol}
            == s.positions - {symbol}
  {
  }

  /** Whether the ledger drops the symbol on a fill. */
  predicate LedgerDrops(p: Position, exitPrice: real, filled: real) {
    p.FillRatio(filled) >= 1.0 || p.Reduced(exitPrice, filled).Negligible()
  }

  /** A full exit keeps the books in agreement exactly when the ledger, too,
      drops the symbol: the trading side always does. */
  lemma {:induction false} CloseAllAgreement(b: Books, symbol: string, exitPrice: real, filled: real, fee: real)
    requires Agree(b) && symbol in b.holdings
    ensures symbol in b.ledger.positions
    ensures Agree(CloseAll(b, symbol, exitPrice, filled, fee))
      <==> LedgerDrops(b.ledger.positions[symbol], exitPrice, filled)
  {
    hide Times, Ratio;
    assert symbol in b.holdings.Keys;
    var c := CloseAll(b, symbol, exitPrice, filled, fee);
    LedgerOnlyTouches(b.ledger, symbol, exitPrice, filled, fee);
    assert c.holdings - {symbol} == b.holdings - {symbol};
    AgreeAfterUpdate(b, c, symbol);
  }

  lemma {:induction false} ShareOf(size: real, qty: real, part: real)
    requires qty > 0.0 && size > 0.0 && 0.0 < part <= qty
    ensures 0.0 < SizeShare(size, qty, part) <= size
    ensures SizeShare(size, qty, part) == size <==> part == qty
  {
    Fraction(part, qty);
    ProductSign(size, part / qty);
    ProductOrder(size, part / qty, 1.0);
  }

  lemma {:induction false} SharesOrdered(size: real, qty: real, a: real, b: real)
    requires qty > 0.0 && size > 0.0 && a < b
    ensures SizeShare(size, qty, a) < SizeShare(size, qty, b)
  {
    var r := Ratio(b, qty);
    assert r * qty == b;
    TimesIs(r, qty);
    RatioAbove(a, qty, r);
    ProductOrder(size, Ratio(a, qty), r);
  }

  lemma {:induction false} SharesDiffer(size: real, qty: real, a: real, b: real)
    requires qty > 0.0 && size > 0.0
    ensures SizeShare(size, qty, a) == SizeShare(size, qty, b) <==> a == b
  {
    if a < b {
      SharesOrdered(size, qty, a, b);
    } else if b < a {
      SharesOrdered(size, qty, b, a);
    }
  }

  lemma {:induction false} LedgerShare(p: Position, filled: real)
    requires p.qty > 0.0
    ensures p.FillRatio(filled) >= 1.0 <==> filled >= p.qty
    ensures 0.0 < filled <= p.qty ==> p.Share(filled) == SizeShare(p.notional, p.qty, filled)
  {
    RatioAbove(filled, p.qty, 1.0);
    TimesIs(1.0, p.qty);
  }

  /** A fill of nothing leaves the ledger alone, but the trading side lowers its
      size by the quantity ordered all the same. */
  lemma {:induction false} EmptyFillDisagrees(b: Books, symbol: string, ratio: real, exitPrice: real, filled: real,
                                              fee: real, stage: int)
    requires Agree(b) && Sells(b, symbol, ratio) && filled <= 0.0
    ensures !Agree(ClosePart(b, symbol, ratio, exitPrice, filled, fee, stage))
  {
    var h := b.holdings[symbol];
    assert symbol in b.holdings.Keys;
    LedgerClosesFill(b.ledger, symbol, exitPrice, filled, fee);
    ShareOf(h.size, h.qty, SellQty(h, ratio));
    hide SizeShare, ClosePartial, Times, Ratio, SellQty;
    var c := ClosePart(b, symbol, ratio, exitPrice, filled, fee, stage);
    assert c.ledger == b.ledger;
    assert symbol in c.ledger.positions.Keys;
    if symbol in c.holdings {
      assert c.holdings[symbol].size < c.ledger.positions[symbol].notional;
    } else {
      assert symbol !in c.holdings.Keys;
    }
  }

  /** A staged exit, whatever the order fills: the books agree afterwards exactly
      when something was filled and both sides drop the symbol, or neither does and
      the fill is exactly the quantity ordered. */
  lemma {:induction false} ClosePartAgreement(b: Books, symbol: string, ratio: real, exitPrice: real, filled: real,
                                              fee: real, stage: int)
    requires Agree(b) && Sells(b, symbol, ratio)
    ensures symbol in b.ledger.positions
    ensures var h := b.holdings[symbol];
      var sell := SellQty(h, ratio);
      var ledgerDrops := LedgerDrops(b.ledger.positions[symbol], exitPrice, filled);
      Agree(ClosePart(b, symbol, ratio, exitPrice, filled, fee, stage))
      <==> (filled > 0.0 && ledgerDrops == Dropped(Sold(h, sell, filled, stage)) && (ledgerDrops || filled == sell))
  {
    assert symbol in b.holdings.Keys;
    if filled <= 0.0 {
      EmptyFillDisagrees(b, symbol, ratio, exitPrice, filled, fee, stage);
    } else {
      FilledPartAgreement(b, symbol, ratio, exitPrice, filled, fee, stage);
    }
  }

  lemma {:induction false} FilledPartAgreement(b: Books, symbol: string, ratio: real, exitPrice: real, filled: real,
                                               fee: real, stage: int)
    requires Agree(b) && Sells(b, symbol, ratio) && filled > 0.0 && symbol in b.ledger.positions
    ensures var h := b.holdings[symbol];
      var sell := SellQty(h, ratio);
      var ledgerDrops := LedgerDrops(b.ledger.positions[symbol], exitPrice, filled);
      Agree(ClosePart(b, symbol, ratio, exitPrice, filled, fee, stage))
      <==> (ledgerDrops == Dropped(Sold(h, sell, filled, stage)) && (ledgerDrops || filled == sell))
  {
    var h, p := b.holdings[symbol], b.ledger.positions[symbol];
    assert symbol in b.holdings.Keys;
    var sell := SellQty(h, ratio);
    var c := ClosePart(b, symbol, ratio, exitPrice, filled, fee, stage);
    LedgerClosesFill(b.ledger, symbol, exitPrice, filled, fee);
    LedgerOnlyTouches(b.ledger, symbol, exitPrice, Min(h.qty, filled), fee);
    LedgerShare(p, filled);
    LedgerShare(p, h.qty);
    ShareOf(h.size, h.qty, sell);
    SharesDiffer(h.size, h.qty, sell, filled);
    hide SizeShare, ClosePartial, Times, Ratio, SellQty;
    assert c.holdings - {symbol} == b.holdings - {symbol};
    AgreeAfterUpdate(b, c, symbol);
  }

  /** A complete staged exit only fails to keep the books together when the
      remainder sits exactly on a threshold, which one side keeps (<) and the
      other drops (<=). */
  predicate OnThreshold(h: Holding, sell: real)
    requires h.qty > 0.0
  {
    var qty, size := h.qty - sell, h.size - SizeShare(h.size, h.qty, sell);
    qty >= QTY_EPSILON && size >= NOTIONAL_EPSILON && (qty == QTY_EPSILON || size == NOTIONAL_EPSILON)
  }

  lemma {:induction false} CompleteFillAgreement(b: Books, symbol: string, ratio: real, exitPrice: real, fee: real,
                                                 stage: int)
    requires Agree(b) && Sells(b, symbol, ratio)
    ensures var h := b.holdings[symbol];
      var sell := SellQty(h, ratio);
      Agree(ClosePart(b, symbol, ratio, exitPrice, sell, fee, stage)) <==> !OnThreshold(h, sell)
  {
    var h := b.holdings[symbol];
    var sell := SellQty(h, ratio);
    ClosePartAgreement(b, symbol, ratio, exitPrice, sell, fee, stage);
    LedgerShare(b.ledger.positions[symbol], sell);
    ShareOf(h.size, h.qty, sell);
    hide SizeShare, ClosePart, Times, Ratio, SellQty, Agree;
    assert b.ledger.positions[symbol].notional == h.size && b.ledger.positions[symbol].qty == h.qty by {
      AgreeAt(b, symbol);
    }
  }

  lemma {:induction false} AgreeAt(b: Books, symbol: string)
    requires Agree(b) && symbol in b.holdings
    ensures symbol in b.ledger.positions
    ensures b.holdings[symbol].entry == b.ledger.positions[symbol].entryPrice
    ensures b.holdings[symbol].qty == b.ledger.positions[symbol].qty
    ensures b.holdings[symbol].size == b.ledger.positions[symbol].notional
  {
    assert symbol in b.holdings.Keys;
  }

  /** Entry keeps the books together exactly when the reservation is refused
      (nothing happens) or the ledger has strictly more than size plus fee. The
      trading side does not look at the ledger's answer. */
  lemma {:induction false} EnterAgreement(b: Books, symbol: string, orderId: string, size: real, fillPrice: real,
                                          qty: real, fee: real, now: real)
    requires Agree(b) && symbol !in b.holdings && b.ledger.reservedMargin >= 0.0 && size > 0.0
    ensures var available := b.ledger.AvailableCash();
      Agree(Enter(b, symbol, orderId, size, fillPrice, qty, fee, now))
      <==> (size > available || size + fee < available || size + fee <= 0.0)
  {
    var c := Enter(b, symbol, orderId, size, fillPrice, qty, fee, now);
    assert symbol !in b.holdings.Keys;
    if size <= b.ledger.AvailableCash() {
      var released := ReleaseReservation(ReserveMargin(b.ledger, size).ledger, size).ledger;
      assert released == b.ledger;
      assert symbol in c.holdings.Keys;
      if symbol in c.ledger.positions {
        assert c.holdings.Keys == c.ledger.positions.Keys;
      } else {
        assert symbol !in c.ledger.positions.Keys;
      }
    }
  }

  lemma {:induction false} TickAndFundingKeepAgreement(b: Books, symbol: string, price: real, rate: real)
    requires Agree(b)
    ensures Agree(Tick(b, symbol, price)) && Agree(Funding(b, rate))
  {
    assert Tick(b, symbol, price).ledger.positions.Keys == b.ledger.positions.Keys;
  }

  // ----------------------------------------------------------------------- runs

  datatype Trade =
    | Entry(symbol: string, orderId: string, size: real, fillPrice: real, qty: real, fee: real, now: real)
    | Part(symbol: string, ratio: real, exitPrice: real, filled: real, fee: real, stage: int)
    | All(symbol: string, exitPrice: real, filled: real, fee: real)
    | Price(symbol: string, price: real)
    | Fund(rate: real)

  ghost function Apply(b: Books, t: Trade): Books {
    match t
    case Entry(sym, oid, size, fill, qty, fee, now) => Enter(b, sym, oid, size, fill, qty, fee, now)
    case Part(sym, ratio, exit, filled, fee, stage) => ClosePart(b, sym, ratio, exit, filled, fee, stage)
    case All(sym, exit, filled, fee) => CloseAll(b, sym, exit, filled, fee)
    case Price(sym, price) => Tick(b, sym, price)
    case Fund(rate) => Funding(b, rate)
  }

  ghost function RunTrades(b: Books, ts: seq<Trade>): Books
    decreases ts
  {
    if ts == [] then b else RunTrades(Apply(b, ts[0]), ts[1..])
  }

  /** Complete fills, entries the ledger can pay for, no remainder exactly on a
      threshold. */
  ghost predicate Complete(b: Books, t: Trade) {
    match t
    case Entry(sym, _, size, _, _, fee, _) =>
      sym !in b.holdings && size > 0.0 && (size > b.ledger.AvailableCash() || size + fee < b.ledger.AvailableCash())
    case Part(sym, ratio, _, filled, _, _) =>
      Sells(b, sym, ratio) ==>
        filled == SellQty(b.holdings[sym], ratio) && !OnThreshold(b.holdings[sym], filled)
    case All(sym, _, filled, _) =>
      sym in b.holdings ==> filled == b.holdings[sym].qty
    case _ => true
  }

  ghost predicate CompleteRun(b: Books, ts: seq<Trade>)
    decreases ts
  {
    ts == [] || (Complete(b, ts[0]) && CompleteRun(Apply(b, ts[0]), ts[1..]))
  }

  lemma {:induction false} WholeQtyDrops(p: Position, exitPrice: real)
    ensures LedgerDrops(p, exitPrice, p.qty)
  {
    if p.qty > 0.0 {
      LedgerShare(p, p.qty);
    }
  }

  lemma {:induction false} CompleteTradeKeepsAgreement(b: Books, t: Trade)
    requires Agree(b) && b.ledger.reservedMargin >= 0.0 && Complete(b, t)
    ensures Agree(Apply(b, t)) && Apply(b, t).ledger.reservedMargin >= 0.0
    ensures t.Entry? || t.Part? || t.All? ==> InSync(Apply(b, t)) || Apply(b, t) == b
  {
    match t
    case Entry(sym, oid, size, fill, qty, fee, now) =>
      EnterAgreement(b, sym, oid, size, fill, qty, fee, now);
    case Part(sym, ratio, exit, filled, fee, stage) =>
      if Sells(b, sym, ratio) {
        CompleteFillAgreement(b, sym, ratio, exit, fee, stage);
      }
    case All(sym, exit, filled, fee) =>
      if sym in b.holdings {
        assert sym in b.holdings.Keys;
        CloseAllAgreement(b, sym, exit, filled, fee);
        WholeQtyDrops(b.ledger.positions[sym], exit);
      }
    case Price(sym, price) => TickAndFundingKeepAgreement(b, sym, price, 0.0);
    case Fund(rate) => TickAndFundingKeepAgreement(b, "", 0.0, rate);
  }

  /** On such runs the two books agree throughout. */
  lemma {:induction false} BooksStayTogether(b: Books, ts: seq<Trade>)
    requires Agree(b) && b.ledger.reservedMargin >= 0.0 && CompleteRun(b, ts)
    ensures Agree(RunTrades(b, ts)) && RunTrades(b, ts).ledger.reservedMargin >= 0.0
    decreases ts
  {
    if ts != [] {
      CompleteTradeKeepsAgreement(b, ts[0]);
      BooksStayTogether(Apply(b, ts[0]), ts[1..]);
    }
  }

  lemma {:induction false} RunAppend(b: Books, ts: seq<Trade>, t: Trade)
    ensures RunTrades(b, ts + [t]) == Apply(RunTrades(b, ts), t)
    ensures CompleteRun(b, ts + [t]) ==> CompleteRun(b, ts) && Complete(RunTrades(b, ts), t)
    decreases ts
  {
    hide Apply, Complete;
    if ts == [] {
      assert ts + [t] == [t] && [t][1..] == [];
      assert RunTrades(b, [t]) == RunTrades(Apply(b, t), []);
    } else {
      assert (ts + [t])[1..] == ts[1..] + [t];
      RunAppend(Apply(b, ts[0]), ts[1..], t);
    }
  }

  /** In every such run, whatever ticks and funding lie between: after each entry and
      exit both figures are in step with the ledger, or the trade did nothing; after
      each tick with something held, equity is. */
  lemma {:induction false} FiguresFollowTrades(b: Books, ts: seq<Trade>, t: Trade)
    requires Agree(b) && b.ledger.reservedMargin >= 0.0 && CompleteRun(b, ts + [t])
    ensures t.Entry? || t.Part? || t.All? ==>
      InSync(RunTrades(b, ts + [t])) || RunTrades(b, ts + [t]) == RunTrades(b, ts)
    ensures t.Price? && RunTrades(b, ts).holdings != map[] ==>
      RunTrades(b, ts + [t]).equity == RunTrades(b, ts + [t]).ledger.Nav()
  {
    RunAppend(b, ts, t);
    BooksStayTogether(b, ts);
    CompleteTradeKeepsAgreement(RunTrades(b, ts), t);
  }

  /** A run of entries and exits alone keeps both figures in step throughout. */
  lemma {:induction false} FiguresStayInStep(b: Books, ts: seq<Trade>)
    requires Agree(b) && b.ledger.reservedMargin >= 0.0 && CompleteRun(b, ts) && InSync(b)
    requires forall i :: 0 <= i < |ts| ==> !ts[i].Price? && !ts[i].Fund?
    ensures InSync(RunTrades(b, ts))
    decreases ts
  {
    if ts != [] {
      CompleteTradeKeepsAgreement(b, ts[0]);
      FiguresStayInStep(Apply(b, ts[0]), ts[1..]);
    }
  }

  /** Funding does not refresh the engine's figures: they stay in step exactly when
      no holding is charged or there is no cash to take. */
  lemma {:induction false} FundingSync(b: Books, rate: real)
    requires InSync(b)
    ensures InSync(Funding(b, rate)) <==>
      || rate <= 0.0
      || b.ledger.cash == 0.0
      || forall k :: k in b.holdings ==> SwapCost(b.holdings[k].size, rate) <= 0.001
  {
    hide SwapCost, Times;
    var charges := Charges(b.holdings, rate);
    TotalDominates(charges);
    if k :| k in b.holdings && SwapCost(b.holdings[k].size, rate) > MIN_FUNDING_CHARGE {
      assert k in charges && charges[k] <= Total(charges);
    } else {
      assert charges == map[];
    }
  }

  /** Two fees in a row are one fee of their sum, clamp included. */
  lemma {:induction false} FeesAdd(s: Ledger, a: real, b: real)
    requires a >= 0.0 && b > 0.0
    ensures RecordFee(RecordFee(s, a).ledger, b) == RecordFee(s, a + b)
  {
  }
  // ------------------------------------------------------ where the two books part

  /** The reservation takes the last of the cash, the opening needs more. */
  lemma {:induction false} EntryCanDiverge()
    ensures var b := Books(Fresh(100.0, 0.0, 0.95), map[], 100.0, 100.0);
      Agree(b) && InSync(b) && !Agree(Enter(b, "BTC", "1", 100.0, 10.0, 10.0, 0.1, 0.0))
  {
    var b := Books(Fresh(100.0, 0.0, 0.95), map[], 100.0, 100.0);
    TimesIs(100.0, 0.0);
    EnterAgreement(b, "BTC", "1", 100.0, 10.0, 10.0, 0.1, 0.0);
  }

  /** One coin of a hundred units bought at one, held on both sides. */
  function Example(qty: real): Books {
    var p := Position("BTC", "1", 1.0, qty, 100.0, 1.0, 0.0, 0.0);
    Books(Fresh(0.0, 0.0, 0.95).(marginUsed := 100.0, positions := map["BTC" := p]),
          map["BTC" := Holding(1.0, qty, 100.0, qty, 0)], 100.0, 0.0)
  }

  lemma {:induction false} ExampleAgrees(qty: real)
    ensures Agree(Example(qty)) && "BTC" in Example(qty).holdings
  {
  }

  lemma {:induction false} HalfOf(qty: real)
    requires qty > 0.0
    ensures Ratio(0.5 * qty, qty) == 0.5 && Times(100.0, 0.5) == 50.0 && Times(qty, 0.5) == 0.5 * qty
  {
    var r := Ratio(0.5 * qty, qty);
    assert r * qty == 0.5 * qty;
    assert (r - 0.5) * qty == 0.0;
  }

  lemma {:induction false} HalfIsKept(qty: real)
    requires qty >= 1.0
    ensures !LedgerDrops(Example(qty).ledger.positions["BTC"], 1.0, 0.5 * qty)
  {
    HalfOf(qty);
    LedgerShare(Example(qty).ledger.positions["BTC"], 0.5 * qty);
  }

  /** A full exit filled by half: the ledger keeps the other half. */
  lemma {:induction false} FullExitCanDiverge(qty: real)
    requires qty >= 1.0
    ensures Agree(Example(qty)) && !Agree(CloseAll(Example(qty), "BTC", 1.0, 0.5 * qty, 0.0))
  {
    ExampleAgrees(qty);
    HalfIsKept(qty);
    CloseAllAgreement(Example(qty), "BTC", 1.0, 0.5 * qty, 0.0);
  }

  /** A staged exit of everything filled by half: the trading side has no size left
      and drops the holding, the ledger keeps half. */
  lemma {:induction false} StagedExitCanDiverge(qty: real)
    requires qty >= 1.0
    ensures Agree(Example(qty)) && !Agree(ClosePart(Example(qty), "BTC", 1.0, 1.0, 0.5 * qty, 0.0, 1))
  {
    var b := Example(qty);
    ExampleAgrees(qty);
    TimesIs(qty, 1.0);
    assert SellQty(b.holdings["BTC"], 1.0) == qty;
    ClosePartAgreement(b, "BTC", 1.0, 1.0, 0.5 * qty, 0.0, 1);
    HalfIsKept(qty);
    ShareOf(100.0, qty, qty);
    hide SizeShare, ClosePart, LedgerDrops, Agree, SellQty, Times;
    assert Dropped(Sold(b.holdings["BTC"], qty, 0.5 * qty, 1));
  }

  /** A complete staged exit that leaves exactly the quantity threshold: the trading
      side drops the holding, the ledger keeps it. */
  lemma {:induction false} ThresholdCanDiverge()
    ensures var b := Example(0.0000000002);
      var sell := SellQty(b.holdings["BTC"], 0.5);
      Agree(b) && sell == 0.0000000001 && !Agree(ClosePart(b, "BTC", 0.5, 1.0, sell, 0.0, 1))
  {
    var b := Example(0.0000000002);
    ExampleAgrees(0.0000000002);
    HalfOf(0.0000000002);
    assert SellQty(b.holdings["BTC"], 0.5) == QTY_EPSILON;
    CompleteFillAgreement(b, "BTC", 0.5, 1.0, 0.0, 1);
  }

  /** One funding charge leaves equity and free capital above the ledger's. */
  lemma {:induction false} FundingCanFallBehind()
    ensures var b := Example(100.0);
      var c := b.(ledger := b.ledger.(cash := 10.0)).Synced();
      InSync(c) && !InSync(Funding(c, 0.0003))
  {
    var b := Example(100.0);
    var c := b.(ledger := b.ledger.(cash := 10.0)).Synced();
    FundingSync(c, 0.0003);
    TimesIs(100.0, 0.0003);
    assert SwapCost(c.holdings["BTC"].size, 0.0003) == 0.03;
  }
}
