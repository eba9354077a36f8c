/** Two backtests of the same long-or-flat strategy: one compounds net trade
    returns, the other moves cash in and out of a position. They agree. */
module Backtest {
  import opened Common

  const MIN_BARS := 35
  const MAX_WINDOW := 150
  const START_CASH := 10000.0

  datatype Signal = Buy | Sell | Hold

  datatype Costs = Costs(fee: real, slip: real)

  /** Fee and slippage below one, fee and slippage not negative. */
  predicate Sane(c: Costs) {
    0.0 <= c.fee < 1.0 && 0.0 <= c.slip < 1.0
  }

  function BuyPrice(px: real, c: Costs): real {
    Times(px, 1.0 + c.slip)
  }

  function SellPrice(px: real, c: Costs): real {
    Times(px, 1.0 - c.slip)
  }

  /** The net return of one trade after a fee on each side. */
  function NetReturn(entry: real, exit: real, c: Costs): real
    requires entry != 0.0
  {
    Times(Times(Ratio(exit, entry), 1.0 - c.fee), 1.0 - c.fee) - 1.0
  }

  function GrossReturn(entry: real, exit: real): real
    requires entry != 0.0
  {
    Ratio(exit - entry, entry)
  }

  function Units(cash: real, price: real, c: Costs): real
    requires price != 0.0
  {
    Times(Ratio(cash, price), 1.0 - c.fee)
  }

  function Proceeds(units: real, price: real, c: Costs): real {
    Times(Times(units, price), 1.0 - c.fee)
  }

  /** The product of 1 + x. */
  ghost function Compounded(nets: seq<real>): real {
    if nets == [] then 1.0 else Times(Compounded(nets[..|nets| - 1]), 1.0 + nets[|nets| - 1])
  }

  predicate Positive(closes: seq<real>) {
    forall i :: 0 <= i < |closes| ==> closes[i] > 0.0
  }

  lemma {:induction false} PricesPositive(px: real, c: Costs)
    requires px > 0.0 && Sane(c)
    ensures BuyPrice(px, c) > 0.0 && SellPrice(px, c) > 0.0
  {
    TimesSign(px, 1.0 + c.slip);
    TimesSign(px, 1.0 - c.slip);
  }

  // -------------------------------------------------------- per-trade returns

  datatype Position = Flat | Long(entry: real)

  datatype Scan = Scan(position: Position, nets: seq<real>)

  function TradeStep(s: Scan, px: real, sig: Signal, c: Costs): Scan
    requires px > 0.0 && Sane(c)
    requires s.position.Long? ==> s.position.entry > 0.0
  {
    PricesPositive(px, c);
    if s.position.Flat? && sig.Buy? then s.(position := Long(BuyPrice(px, c)))
    else if s.position.Long? && sig.Sell? then
      Scan(Flat, s.nets + [NetReturn(s.position.entry, SellPrice(px, c), c)])
    else s
  }

  /** The trades closed in the bars before `n`. */
  function TradesUpTo(closes: seq<real>, sigs: seq<Signal>, c: Costs, n: nat): (s: Scan)
    requires Positive(closes) && Sane(c) && |sigs| == |closes| && n <= |closes|
    ensures s.position.Long? ==> s.position.entry > 0.0
  {
    if n <= MIN_BARS then Scan(Flat, [])
    else
      PricesPositive(closes[n - 1], c);
      TradeStep(TradesUpTo(closes, sigs, c, n - 1), closes[n - 1], sigs[n - 1], c)
  }

  /** All trades, an open one being closed at the last price. */
  function AllTrades(closes: seq<real>, sigs: seq<Signal>, c: Costs): seq<real>
    requires Positive(closes) && Sane(c) && |sigs| == |closes| && closes != []
  {
    var s := TradesUpTo(closes, sigs, c, |closes|);
    if s.position.Flat? then s.nets
    else s.nets + [NetReturn(s.position.entry, SellPrice(closes[|closes| - 1], c), c)]
  }

  method CollectTrades(closes: seq<real>, sigs: seq<Signal>, c: Costs) returns (pnls: seq<real>, buyHold: real)
    requires Positive(closes) && Sane(c) && |sigs| == |closes| > MIN_BARS
    ensures pnls == AllTrades(closes, sigs, c)
    ensures buyHold == Ratio(closes[|closes| - 1], closes[MIN_BARS]) - 1.0
  {
    hide BuyPrice, SellPrice, NetReturn;
    pnls := [];
    var pos, entry := false, 0.0;
    for i := MIN_BARS to |closes|
      invariant TradesUpTo(closes, sigs, c, i) == Scan(if pos then Long(entry) else Flat, pnls)
      invariant pos ==> entry > 0.0
    {
      var px := closes[i];
      PricesPositive(px, c);
      if !pos && sigs[i] == Buy {
        entry := BuyPrice(px, c);
        pos := true;
      } else if pos && sigs[i] == Sell {
        pnls := pnls + [NetReturn(entry, SellPrice(px, c), c)];
        pos := false;
      }
    }
    if pos {
      pnls := pnls + [NetReturn(entry, SellPrice(closes[|closes| - 1], c), c)];
    }
    buyHold := Ratio(closes[|closes| - 1], closes[MIN_BARS]) - 1.0;
  }

  // ------------------------------------------------------------- cash accounts

  datatype Account = Account(cash: real, units: real, entry: real, gross: seq<real>, buys: nat, sells: nat)

  function CashStep(a: Account, px: real, sig: Signal, c: Costs): Account
    requires px > 0.0 && Sane(c)
    requires a.units > 0.0 ==> a.entry > 0.0
  {
    PricesPositive(px, c);
    if a.units == 0.0 && sig.Buy? then
      a.(units := Units(a.cash, BuyPrice(px, c), c), entry := BuyPrice(px, c), cash := 0.0, buys := a.buys + 1)
    else if a.units > 0.0 && sig.Sell? then
      a.(gross := a.gross + [GrossReturn(a.entry, SellPrice(px, c))],
         cash := Proceeds(a.units, SellPrice(px, c), c), units := 0.0, sells := a.sells + 1)
    else a
  }

  function AccountUpTo(closes: seq<real>, sigs: seq<Signal>, c: Costs, n: nat): (a: Account)
    requires Positive(closes) && Sane(c) && |sigs| == |closes| && n <= |closes|
    ensures a.units > 0.0 ==> a.entry > 0.0
  {
    if n <= MIN_BARS then Account(START_CASH, 0.0, 0.0, [], 0, 0)
    else
      PricesPositive(closes[n - 1], c);
      CashStep(AccountUpTo(closes, sigs, c, n - 1), closes[n - 1], sigs[n - 1], c)
  }

  function FinalAccount(closes: seq<real>, sigs: seq<Signal>, c: Costs): Account
    requires Positive(closes) && Sane(c) && |sigs| == |closes| && closes != []
  {
    var a := AccountUpTo(closes, sigs, c, |closes|);
    var xpx := SellPrice(closes[|closes| - 1], c);
    if a.units > 0.0 then
      a.(gross := a.gross + [GrossReturn(a.entry, xpx)], cash := Proceeds(a.units, xpx, c), units := 0.0)
    else a
  }

  method Simulate(closes: seq<real>, sigs: seq<Signal>, c: Costs) returns (a: Account, equity: seq<real>)
    requires Positive(closes) && Sane(c) && |sigs| == |closes| > 0
    ensures a == FinalAccount(closes, sigs, c)
    ensures |equity| == (if |closes| > MIN_BARS then |closes| - MIN_BARS else 0) + 1
    ensures equity[|equity| - 1] == a.cash
    ensures forall k :: 0 <= k < |equity| - 1 ==>
      var b := AccountUpTo(closes, sigs, c, MIN_BARS + k + 1);
      equity[k] == b.cash + Times(b.units, closes[MIN_BARS + k])
  {
    hide Units, Proceeds, GrossReturn, BuyPrice, SellPrice, Times;
    var cash, pos, entry := START_CASH, 0.0, 0.0;
    var buys, sells: nat, pnls: seq<real> := 0, 0, [];
    equity := [];
    var i := MIN_BARS;
    while i < |closes|
      invariant MIN_BARS <= i && (i <= |closes| || i == MIN_BARS)
      invariant i <= |closes| ==> AccountUpTo(closes, sigs, c, i) == Account(cash, pos, entry, pnls, buys, sells)
      invariant i == MIN_BARS ==>
        Account(cash, pos, entry, pnls, buys, sells) == Account(START_CASH, 0.0, 0.0, [], 0, 0)
      invariant |equity| == i - MIN_BARS
      invariant forall k :: 0 <= k < |equity| ==>
        var b := AccountUpTo(closes, sigs, c, MIN_BARS + k + 1);
        equity[k] == b.cash + Times(b.units, closes[MIN_BARS + k])
    {
      var px := closes[i];
      PricesPositive(px, c);
      if pos == 0.0 && sigs[i] == Buy {
        buys := buys + 1;
        var epx := BuyPrice(px, c);
        pos := Units(cash, epx, c);
        entry := epx;
        cash := 0.0;
      } else if pos > 0.0 && sigs[i] == Sell {
        sells := sells + 1;
        var xpx := SellPrice(px, c);
        var proceeds := Proceeds(pos, xpx, c);
        pnls := pnls + [GrossReturn(entry, xpx)];
        cash := proceeds;
        pos := 0.0;
      }
      equity := equity + [cash + Times(pos, px)];
      i := i + 1;
    }
    if pos > 0.0 {
      var xpx := SellPrice(closes[|closes| - 1], c);
      pnls := pnls + [GrossReturn(entry, xpx)];
      cash := Proceeds(pos, xpx, c);
      pos := 0.0;
    }
    a := Account(cash, pos, entry, pnls, buys, sells);
    equity := equity + [cash];
  }

  // --------------------------------------------------------------- equivalence

  lemma {:induction false} RoundTripFactors(cash: real, entry: real, exit: real, k: real)
    requires entry > 0.0
    ensures Times(Times(Times(Ratio(cash, entry), k), exit), k) == Times(cash, Times(Times(Ratio(exit, entry), k), k))
  {
    var u, r := Ratio(cash, entry), Ratio(exit, entry);
    assert u * entry == cash && r * entry == exit;
    assert u * k * exit * k == u * (r * entry) * k * k;
    assert u * (r * entry) * k * k == (u * entry) * (r * k * k);
  }

  /** Buying and selling again multiplies cash by one plus the net return. */
  lemma {:induction false} OneRoundTrip(cash: real, entry: real, exit: real, c: Costs)
    requires entry > 0.0
    ensures Proceeds(Units(cash, entry, c), exit, c) == Times(cash, 1.0 + NetReturn(entry, exit, c))
  {
    RoundTripFactors(cash, entry, exit, 1.0 - c.fee);
    hide Times, Ratio;
  }

  lemma {:induction false} PositiveFactors(cash: real, entry: real, exit: real, c: Costs)
    requires cash > 0.0 && entry > 0.0 && exit > 0.0 && Sane(c)
    ensures Units(cash, entry, c) > 0.0
    ensures 1.0 + NetReturn(entry, exit, c) > 0.0
    ensures Times(cash, 1.0 + NetReturn(entry, exit, c)) > 0.0
  {
    var k := 1.0 - c.fee;
    PositiveQuotient(cash, entry);
    PositiveQuotient(exit, entry);
    TimesSign(Ratio(cash, entry), k);
    TimesSign(Ratio(exit, entry), k);
    TimesSign(Times(Ratio(exit, entry), k), k);
    TimesSign(cash, 1.0 + NetReturn(entry, exit, c));
    hide Times, Ratio;
  }

  /** The gross returns kept by the cash backtest, net of both fees. */
  lemma {:induction false} NetOfGross(entry: real, exit: real, c: Costs)
    requires entry > 0.0
    ensures 1.0 + NetReturn(entry, exit, c)
            == Times(Times(1.0 + GrossReturn(entry, exit), 1.0 - c.fee), 1.0 - c.fee)
  {
    RatioAdds(exit - entry, entry, entry);
    Fraction(entry, entry);
    assert Ratio(entry, entry) == 1.0;
    hide Times, Ratio;
  }

  /** What the two backtests have in common after any number of bars. */
  ghost predicate Matches(s: Scan, a: Account, c: Costs) {
    var grown := Times(START_CASH, Compounded(s.nets));
    && grown > 0.0 && |a.gross| == |s.nets| == a.sells
    && a.buys == a.sells + (if s.position.Long? then 1 else 0)
    && if s.position.Flat? then a.units == 0.0 && a.cash == grown
       else a.cash == 0.0 && a.entry == s.position.entry > 0.0
            && a.units == Units(grown, a.entry, c) > 0.0
  }

  lemma {:induction false} CompoundOne(nets: seq<real>, x: real)
    ensures Times(START_CASH, Compounded(nets + [x])) == Times(Times(START_CASH, Compounded(nets)), 1.0 + x)
  {
    assert (nets + [x])[..|nets|] == nets;
    var p := Compounded(nets);
    assert START_CASH * (p * (1.0 + x)) == (START_CASH * p) * (1.0 + x);
  }

  lemma {:induction false} BuyMatches(s: Scan, a: Account, px: real, c: Costs)
    requires px > 0.0 && Sane(c) && Matches(s, a, c) && s.position.Flat?
    ensures Matches(TradeStep(s, px, Buy, c), CashStep(a, px, Buy, c), c)
  {
    PricesPositive(px, c);
    var grown := Times(START_CASH, Compounded(s.nets));
    PositiveFactors(grown, BuyPrice(px, c), BuyPrice(px, c), c);
    hide Units, Proceeds, NetReturn, GrossReturn, BuyPrice, SellPrice, Times, Compounded;
  }

  lemma {:induction false} SellMatches(s: Scan, a: Account, px: real, c: Costs)
    requires px > 0.0 && Sane(c) && Matches(s, a, c) && s.position.Long?
    ensures Matches(TradeStep(s, px, Sell, c), CashStep(a, px, Sell, c), c)
  {
    PricesPositive(px, c);
    var grown := Times(START_CASH, Compounded(s.nets));
    OneRoundTrip(grown, s.position.entry, SellPrice(px, c), c);
    PositiveFactors(grown, s.position.entry, SellPrice(px, c), c);
    CompoundOne(s.nets, NetReturn(s.position.entry, SellPrice(px, c), c));
    hide Units, Proceeds, NetReturn, GrossReturn, BuyPrice, SellPrice, Times, Compounded;
  }

  lemma {:induction false} StepMatches(s: Scan, a: Account, px: real, sig: Signal, c: Costs)
    requires px > 0.0 && Sane(c) && Matches(s, a, c)
    ensures Matches(TradeStep(s, px, sig, c), CashStep(a, px, sig, c), c)
  {
    hide Units, Proceeds, NetReturn, GrossReturn, BuyPrice, SellPrice, Times, Compounded;
    if s.position.Flat? && sig.Buy? {
      BuyMatches(s, a, px, c);
    } else if s.position.Long? && sig.Sell? {
      SellMatches(s, a, px, c);
    }
  }

  lemma {:induction false} BarsMatch(closes: seq<real>, sigs: seq<Signal>, c: Costs, n: nat)
    requires Positive(closes) && Sane(c) && |sigs| == |closes| && n <= |closes|
    ensures Matches(TradesUpTo(closes, sigs, c, n), AccountUpTo(closes, sigs, c, n), c)
  {
    if n > MIN_BARS {
      BarsMatch(closes, sigs, c, n - 1);
      StepMatches(TradesUpTo(closes, sigs, c, n - 1), AccountUpTo(closes, sigs, c, n - 1),
                  closes[n - 1], sigs[n - 1], c);
    } else {
      assert Times(START_CASH, 1.0) == START_CASH;
    }
  }

  /** For every series of positive prices and every sequence of signals, the cash
      backtest ends with the starting cash compounded over the other backtest's
      trades, and both count the same trades. */
  lemma {:induction false} BacktestsAgree(closes: seq<real>, sigs: seq<Signal>, c: Costs)
    requires Positive(closes) && Sane(c) && |sigs| == |closes| && closes != []
    ensures var a, trades := FinalAccount(closes, sigs, c), AllTrades(closes, sigs, c);
      && a.cash == Times(10000.0, Compounded(trades)) > 0.0
      && |a.gross| == |trades| == a.buys && a.units == 0.0
  {
    var n := |closes|;
    BarsMatch(closes, sigs, c, n);
    var s := TradesUpTo(closes, sigs, c, n);
    PricesPositive(closes[n - 1], c);
    if s.position.Long? {
      hide Units, Proceeds, NetReturn, GrossReturn, BuyPrice, SellPrice, Times;
      var xpx := SellPrice(closes[n - 1], c);
      var grown := Times(START_CASH, Compounded(s.nets));
      OneRoundTrip(grown, s.position.entry, xpx, c);
      PositiveFactors(grown, s.position.entry, xpx, c);
      CompoundOne(s.nets, NetReturn(s.position.entry, xpx, c));
    }
  }

  // ------------------------------------------------------------- what signals mean

  /** The bar at which the position held after `n` bars was bought: the first purchase
      signal since the last sale signal. */
  predicate BoughtAt(sigs: seq<Signal>, n: nat, i: int)
    requires n <= |sigs|
  {
    && 35 <= i < n && sigs[i] == Buy
    && (forall j :: i < j < n ==> sigs[j] != Sell)
    && (forall j :: 35 <= j < i && sigs[j] == Buy ==> exists k :: j < k < i && sigs[k] == Sell)
  }

  /** Read off the signals alone: a position is held exactly when some purchase signal
      has not been followed by a sale signal, and its price is that of the first. */
  lemma {:induction false} HeldExactly(closes: seq<real>, sigs: seq<Signal>, c: Costs, n: nat)
    requires Positive(closes) && Sane(c) && |sigs| == |closes| && n <= |closes|
    ensures var s := TradesUpTo(closes, sigs, c, n);
      && (s.position.Long? <==> exists i :: BoughtAt(sigs, n, i))
      && forall i :: BoughtAt(sigs, n, i) ==> s.position == Long(BuyPrice(closes[i], c))
  {
    hide BuyPrice, SellPrice, NetReturn, Times;
    if n > MIN_BARS {
      HeldExactly(closes, sigs, c, n - 1);
      var before := TradesUpTo(closes, sigs, c, n - 1);
      forall i | BoughtAt(sigs, n, i)
        ensures TradesUpTo(closes, sigs, c, n).position == Long(BuyPrice(closes[i], c))
      {
        if i < n - 1 {
          assert BoughtAt(sigs, n - 1, i);
        } else {
          NotHeldAtPurchase(sigs, n - 1);
        }
      }
      if TradesUpTo(closes, sigs, c, n).position.Long? {
        if before.position.Long? {
          var i :| BoughtAt(sigs, n - 1, i);
          assert BoughtAt(sigs, n, i);
        } else {
          FirstPurchase(sigs, n - 1);
          assert BoughtAt(sigs, n, n - 1);
        }
      }
    }
  }

  /** If every purchase so far has been sold, none is held. */
  lemma {:induction false} NotHeldAtPurchase(sigs: seq<Signal>, n: nat)
    requires n <= |sigs|
    requires forall j :: MIN_BARS <= j < n && sigs[j] == Buy ==> exists k :: j < k < n && sigs[k] == Sell
    ensures !exists i :: BoughtAt(sigs, n, i)
  {
  }

  /** If none is held, every purchase so far has been sold. */
  lemma {:induction false} FirstPurchase(sigs: seq<Signal>, n: nat)
    requires n <= |sigs| && !exists i :: BoughtAt(sigs, n, i)
    ensures forall j :: MIN_BARS <= j < n && sigs[j] == Buy ==> exists k :: j < k < n && sigs[k] == Sell
  {
    forall j | MIN_BARS <= j < n && sigs[j] == Buy
      ensures exists k :: j < k < n && sigs[k] == Sell
    {
      if !exists k :: j < k < n && sigs[k] == Sell {
        var i := EarliestUnsold(sigs, n, j);
      }
    }
  }

  lemma {:induction false} EarliestUnsold(sigs: seq<Signal>, n: nat, j: int) returns (i: int)
    requires n <= |sigs| && MIN_BARS <= j < n && sigs[j] == Buy
    requires forall k :: j < k < n ==> sigs[k] != Sell
    ensures BoughtAt(sigs, n, i)
    decreases j
  {
    if e :| MIN_BARS <= e < j && sigs[e] == Buy && forall k :: e < k < j ==> sigs[k] != Sell {
      i := EarliestUnsold(sigs, n, e);
    } else {
      i := j;
    }
  }

  // ------------------------------------------------------------------------- costs

  const FREE := Costs(0.0, 0.0)

  /** A round trip at an unchanged price costs the slippage and the fee twice. */
  lemma {:induction false} RoundTripCost(px: real, c: Costs)
    requires px > 0.0 && Sane(c)
    ensures BuyPrice(px, c) > 0.0
    ensures var k := 1.0 - c.fee;
      1.0 + NetReturn(BuyPrice(px, c), SellPrice(px, c), c) == Times(Times(Ratio(1.0 - c.slip, 1.0 + c.slip), k), k)
  {
    PricesPositive(px, c);
    var r, q := Ratio(SellPrice(px, c), BuyPrice(px, c)), Ratio(1.0 - c.slip, 1.0 + c.slip);
    assert r * (px * (1.0 + c.slip)) == px * (1.0 - c.slip);
    assert q * (1.0 + c.slip) == 1.0 - c.slip;
    assert (r - q) * (px * (1.0 + c.slip)) == px * (1.0 - c.slip) - px * (q * (1.0 + c.slip)) == 0.0;
    ProductSign(px, 1.0 + c.slip);
    assert r == q;
  }

  lemma {:induction false} QuotientShrinks(entry: real, exit: real, dearer: real, cheaper: real)
    requires 0.0 < entry <= dearer && 0.0 < cheaper <= exit
    ensures 0.0 < Ratio(cheaper, dearer) <= Ratio(exit, entry)
  {
    PositiveQuotient(cheaper, dearer);
    PositiveQuotient(exit, entry);
    var r, q := Ratio(exit, entry), Ratio(cheaper, dearer);
    assert r * entry == exit && q * dearer == cheaper;
    if q > r {
      ProductOrder(q, entry, dearer);
      ProductOrder(entry, r, q);
    }
  }

  lemma {:induction false} FreePrices(px: real)
    requires px > 0.0
    ensures BuyPrice(px, FREE) == px && SellPrice(px, FREE) == px
  {
    TimesIs(px, 1.0);
  }

  lemma {:induction false} SlippedPrices(px: real, c: Costs)
    requires px > 0.0 && Sane(c)
    ensures BuyPrice(px, c) >= px >= SellPrice(px, c) > 0.0
  {
    TimesIs(px, 1.0);
    TimesOrder(px, px, 1.0, 1.0 + c.slip);
    TimesOrder(px, px, 1.0 - c.slip, 1.0);
  }

  /** Costs make every trade worse, or leave it as it is. */
  lemma {:induction false} CostsOnlyHurt(bought: real, sold: real, c: Costs)
    requires bought > 0.0 && sold > 0.0 && Sane(c)
    ensures BuyPrice(bought, c) > 0.0
    ensures 0.0 < 1.0 + NetReturn(BuyPrice(bought, c), SellPrice(sold, c), c)
            <= 1.0 + NetReturn(bought, SellPrice(sold, FREE), FREE) == Ratio(sold, bought)
  {
    SlippedPrices(bought, c);
    SlippedPrices(sold, c);
    FreePrices(sold);
    var k, r, full := 1.0 - c.fee, Ratio(SellPrice(sold, c), BuyPrice(bought, c)), Ratio(sold, bought);
    QuotientShrinks(bought, sold, BuyPrice(bought, c), SellPrice(sold, c));
    TimesOrder(r, full, k, 1.0);
    TimesOrder(Times(r, k), Times(full, 1.0), k, 1.0);
    TimesIs(full, 1.0);
    hide Times, Ratio, BuyPrice, SellPrice;
  }

  /** The same strategy with and without costs: same positions, and never more wealth. */
  ghost predicate Dominated(s: Scan, free: Scan, c: Costs) {
    && |s.nets| == |free.nets| && s.position.Long? == free.position.Long?
    && (s.position.Long? ==> free.position.entry > 0.0 && s.position.entry == BuyPrice(free.position.entry, c))
    && 0.0 < Compounded(s.nets) <= Compounded(free.nets)
  }

  lemma {:induction false} CompoundMonotone(a: seq<real>, b: seq<real>, x: real, y: real)
    requires 0.0 < Compounded(a) <= Compounded(b) && 0.0 < 1.0 + x <= 1.0 + y
    ensures 0.0 < Compounded(a + [x]) <= Compounded(b + [y])
  {
    assert (a + [x])[..|a|] == a && (b + [y])[..|b|] == b;
    TimesOrder(Compounded(a), Compounded(b), 1.0 + x, 1.0 + y);
    hide Times;
  }

  lemma {:induction false} StepDominated(s: Scan, free: Scan, px: real, sig: Signal, c: Costs)
    requires px > 0.0 && Sane(c) && Dominated(s, free, c)
    requires s.position.Long? ==> s.position.entry > 0.0
    ensures Dominated(TradeStep(s, px, sig, c), TradeStep(free, px, sig, FREE), c)
  {
    hide NetReturn, BuyPrice, SellPrice, Times, Ratio, Compounded;
    FreePrices(px);
    if s.position.Long? && sig.Sell? {
      CostsOnlyHurt(free.position.entry, px, c);
      CompoundMonotone(s.nets, free.nets, NetReturn(s.position.entry, SellPrice(px, c), c),
                       NetReturn(free.position.entry, SellPrice(px, FREE), FREE));
    }
  }

  lemma {:induction false} BarsDominated(closes: seq<real>, sigs: seq<Signal>, c: Costs, n: nat)
    requires Positive(closes) && Sane(c) && |sigs| == |closes| && n <= |closes|
    ensures Dominated(TradesUpTo(closes, sigs, c, n), TradesUpTo(closes, sigs, FREE, n), c)
  {
    if n > MIN_BARS {
      hide Dominated, TradeStep;
      BarsDominated(closes, sigs, c, n - 1);
      StepDominated(TradesUpTo(closes, sigs, c, n - 1), TradesUpTo(closes, sigs, FREE, n - 1), closes[n - 1],
                    sigs[n - 1], c);
    }
  }

  /** Fees and slippage never help: with the same prices and signals the final cash is
      at most what it would be without them. */
  lemma {:induction false} CostsNeverHelp(closes: seq<real>, sigs: seq<Signal>, c: Costs)
    requires Positive(closes) && Sane(c) && |sigs| == |closes| && closes != []
    ensures FinalAccount(closes, sigs, c).cash <= FinalAccount(closes, sigs, FREE).cash
  {
    var n := |closes|;
    BacktestsAgree(closes, sigs, c);
    BacktestsAgree(closes, sigs, FREE);
    BarsDominated(closes, sigs, c, n);
    var s, free, px := TradesUpTo(closes, sigs, c, n), TradesUpTo(closes, sigs, FREE, n), closes[n - 1];
    var a, b := AllTrades(closes, sigs, c), AllTrades(closes, sigs, FREE);
    if s.position.Long? {
      CostsOnlyHurt(free.position.entry, px, c);
      CompoundMonotone(s.nets, free.nets, NetReturn(s.position.entry, SellPrice(px, c), c),
                       NetReturn(free.position.entry, SellPrice(px, FREE), FREE));
    }
    hide NetReturn, BuyPrice, SellPrice, Ratio, Compounded, FinalAccount;
    ProductOrder(START_CASH, Compounded(a), Compounded(b));
  }

  // ----------------------------------------------------------------- causality

  datatype Candle = Candle(open: real, high: real, low: real, close: real, volume: real)

  function Closes(candles: seq<Candle>): seq<real> {
    seq(|candles|, i requires 0 <= i < |candles| => candles[i].close)
  }

  /** The window a signal function sees at bar i. */
  function Window(candles: seq<Candle>, i: nat): seq<Candle>
    requires i < |candles|
  {
    candles[if i + 1 >= MAX_WINDOW then i + 1 - MAX_WINDOW else 0..i + 1]
  }

  /** The window is the last candles up to the bar, at most 150 of them. */
  lemma {:induction false} WindowIsLast(candles: seq<Candle>, i: nat)
    requires i < |candles|
    ensures var w := Window(candles, i);
      |w| == (if i + 1 < 150 then i + 1 else 150) && w == candles[i + 1 - |w|..i + 1] && w[|w| - 1] == candles[i]
  {
  }

  function Signals(candles: seq<Candle>, f: seq<Candle> -> Signal): seq<Signal> {
    seq(|candles|, i requires 0 <= i < |candles| => f(Window(candles, i)))
  }

  lemma {:induction false} WindowsAgree(a: seq<Candle>, b: seq<Candle>, n: nat, i: nat)
    requires i < n <= |a| && n <= |b| && a[..n] == b[..n]
    ensures Window(a, i) == Window(b, i) && a[i].close == b[i].close
  {
    assert a[i] == a[..n][i] == b[..n][i] == b[i];
    var lo := if i + 1 >= MAX_WINDOW then i + 1 - MAX_WINDOW else 0;
    assert a[lo..i + 1] == a[..n][lo..i + 1];
    assert b[lo..i + 1] == b[..n][lo..i + 1];
  }

  /** No look-ahead: the trades closed before bar `n` are the same for any two
      histories that agree on their first `n` candles. */
  lemma {:induction false} NoLookAhead(a: seq<Candle>, b: seq<Candle>, f: seq<Candle> -> Signal, c: Costs, n: nat)
    requires n <= |a| && n <= |b| && a[..n] == b[..n]
    requires Positive(Closes(a)) && Positive(Closes(b)) && Sane(c)
    ensures TradesUpTo(Closes(a), Signals(a, f), c, n) == TradesUpTo(Closes(b), Signals(b, f), c, n)
  {
    if n > MIN_BARS {
      assert a[..n - 1] == a[..n][..n - 1] == b[..n][..n - 1] == b[..n - 1];
      NoLookAhead(a, b, f, c, n - 1);
      WindowsAgree(a, b, n, n - 1);
    }
  }
}
