/** Closing a position in several fills. */
module SplitFills {
  import opened Common
  import opened MapSum
  import opened LedgerSpec
  import opened LedgerConservation

  datatype Fill = Fill(price: real, qty: real, fee: real)

  function AsCloses(symbol: string, fills: seq<Fill>): seq<Op> {
    seq(|fills|, i requires 0 <= i < |fills| => Close(symbol, fills[i].price, fills[i].qty, fills[i].fee))
  }

  ghost function Quantity(fills: seq<Fill>): real {
    if fills == [] then 0.0 else fills[0].qty + Quantity(fills[1..])
  }

  ghost function Gains(entry: real, fills: seq<Fill>): real {
    if fills == [] then 0.0 else Gain(entry, fills[0].price, fills[0].qty) + Gains(entry, fills[1..])
  }

  ghost function Fees(fills: seq<Fill>): real {
    if fills == [] then 0.0 else fills[0].fee + Fees(fills[1..])
  }

  /** The fills add up to the position, leave no negligible remainder on the
      way, and trip no clamp. */
  ghost predicate Clean(s: Ledger, symbol: string, fills: seq<Fill>)
    decreases fills
  {
    && fills != [] && symbol in s.positions && s.positions[symbol].qty > 0.0 && fills[0].qty > 0.0
    && var p, f := s.positions[symbol], fills[0];
       && ForgivenByClose(s, symbol, f.price, f.qty, f.fee) == 0.0
       && if |fills| == 1 then f.qty == p.qty
          else
            && f.qty < p.qty && !p.Reduced(f.price, f.qty).Negligible()
            && Clean(ClosePosition(s, symbol, f.price, f.qty, f.fee).ledger, symbol, fills[1..])
  }

  /** The ledger with one position settled at a given gain and total fee. */
  ghost function Settled(s: Ledger, symbol: string, gain: real, fees: real): Ledger
    requires symbol in s.positions
  {
    var p := s.positions[symbol];
    s.(cash := s.cash + p.notional + gain - fees,
       marginUsed := s.marginUsed - p.notional,
       realizedPnl := s.realizedPnl + gain,
       feesPaid := s.feesPaid + fees,
       positions := s.positions - {symbol},
       unrealizedPnl := Total(Unrealized(s.positions - {symbol})))
  }

  lemma {:induction false} FinalFillSettles(s: Ledger, symbol: string, f: Fill)
    requires symbol in s.positions && f.qty == s.positions[symbol].qty > 0.0
    requires ForgivenByClose(s, symbol, f.price, f.qty, f.fee) == 0.0
    ensures ClosePosition(s, symbol, f.price, f.qty, f.fee).ledger
            == Settled(s, symbol, Gain(s.positions[symbol].entryPrice, f.price, f.qty), f.fee)
  {
    var p := s.positions[symbol];
    Fraction(f.qty, p.qty);
    TimesIs(p.notional, 1.0);
    assert p.FillRatio(f.qty) == 1.0;
    hide Times, Ratio;
  }

  /** What one partial fill does: the position keeps its notional per unit, and
      the accounts move by the closed share, the gain and the fee. */
  ghost predicate PartlyFilled(s: Ledger, s1: Ledger, symbol: string, f: Fill) {
    && symbol in s.positions && symbol in s1.positions
    && var p, rest := s.positions[symbol], s1.positions[symbol];
      && s1 == s.(cash := s1.cash, marginUsed := s1.marginUsed, realizedPnl := s1.realizedPnl,
                  feesPaid := s1.feesPaid, unrealizedPnl := s1.unrealizedPnl, positions := s1.positions)
      && s1.positions - {symbol} == s.positions - {symbol}
      && rest == p.(qty := p.qty - f.qty, notional := rest.notional,
                    unrealized := Gain(p.entryPrice, f.price, p.qty - f.qty))
      && Times(rest.notional, p.qty) == Times(p.notional, rest.qty)
      && s1.marginUsed == s.marginUsed - (p.notional - rest.notional)
      && s1.cash == s.cash + (p.notional - rest.notional) + Gain(p.entryPrice, f.price, f.qty) - f.fee
      && s1.realizedPnl == s.realizedPnl + Gain(p.entryPrice, f.price, f.qty)
      && s1.feesPaid == s.feesPaid + f.fee
  }

  lemma {:induction false} ShareOfRest(notional: real, qty: real, part: real)
    requires qty > 0.0
    ensures Times(notional - Times(notional, Ratio(part, qty)), qty) == Times(notional, qty - part)
  {
    var r := Ratio(part, qty);
    assert r * qty == part;
    assert (notional - notional * r) * qty == notional * qty - notional * (r * qty);
    assert notional * (qty - part) == notional * qty - notional * part;
  }

  lemma {:induction false} PartialFillKeepsPosition(s: Ledger, symbol: string, f: Fill)
    requires symbol in s.positions && 0.0 < f.qty < s.positions[symbol].qty
    requires ForgivenByClose(s, symbol, f.price, f.qty, f.fee) == 0.0
    requires !s.positions[symbol].Reduced(f.price, f.qty).Negligible()
    ensures PartlyFilled(s, ClosePosition(s, symbol, f.price, f.qty, f.fee).ledger, symbol, f)
  {
    var p := s.positions[symbol];
    Fraction(f.qty, p.qty);
    ShareOfRest(p.notional, p.qty, f.qty);
    hide Times, Ratio;
    var s1 := ClosePosition(s, symbol, f.price, f.qty, f.fee).ledger;
    assert s1.positions == s.positions[symbol := p.Reduced(f.price, f.qty)];
    assert s1.positions - {symbol} == s.positions - {symbol};
  }

  lemma {:induction false} SettleTheRest(s: Ledger, s1: Ledger, symbol: string, f: Fill, gain: real, fees: real)
    requires PartlyFilled(s, s1, symbol, f)
    ensures Settled(s1, symbol, gain, fees)
            == Settled(s, symbol, Gain(s.positions[symbol].entryPrice, f.price, f.qty) + gain, f.fee + fees)
  {
  }

  lemma {:induction false} SplitRun(s: Ledger, symbol: string, fills: seq<Fill>)
    requires fills != []
    ensures var f := fills[0];
      Run(s, AsCloses(symbol, fills))
        == Run(ClosePosition(s, symbol, f.price, f.qty, f.fee).ledger, AsCloses(symbol, fills[1..]))
  {
    var ops := AsCloses(symbol, fills);
    assert ops[0] == Close(symbol, fills[0].price, fills[0].qty, fills[0].fee);
    assert ops[1..] == AsCloses(symbol, fills[1..]);
  }

  /** The ledger between the first fill and the rest. */
  lemma {:induction false} AfterFirstFill(s: Ledger, symbol: string, fills: seq<Fill>) returns (s1: Ledger)
    requires Clean(s, symbol, fills) && |fills| > 1
    ensures PartlyFilled(s, s1, symbol, fills[0]) && Clean(s1, symbol, fills[1..])
    ensures Run(s, AsCloses(symbol, fills)) == Run(s1, AsCloses(symbol, fills[1..]))
  {
    var f := fills[0];
    s1 := ClosePosition(s, symbol, f.price, f.qty, f.fee).ledger;
    SplitRun(s, symbol, fills);
    PartialFillKeepsPosition(s, symbol, f);
  }

  lemma {:induction false} OneFillSettles(s: Ledger, symbol: string, fills: seq<Fill>)
    requires Clean(s, symbol, fills) && |fills| == 1
    ensures Run(s, AsCloses(symbol, fills))
            == Settled(s, symbol, Gain(s.positions[symbol].entryPrice, fills[0].price, fills[0].qty), fills[0].fee)
    ensures Run(s, AsCloses(symbol, fills)).cash >= 0.0 && Run(s, AsCloses(symbol, fills)).marginUsed >= 0.0
    ensures fills[0].qty == s.positions[symbol].qty > 0.0
  {
    hide Times, Ratio;
    SplitRun(s, symbol, fills);
    assert AsCloses(symbol, fills[1..]) == [];
    FinalFillSettles(s, symbol, fills[0]);
  }

  lemma {:induction false} SumsOfOne(entry: real, fills: seq<Fill>)
    requires fills != []
    ensures var f := fills[0];
      && Quantity(fills) == f.qty + Quantity(fills[1..])
      && Gains(entry, fills) == Gain(entry, f.price, f.qty) + Gains(entry, fills[1..])
      && Fees(fills) == f.fee + Fees(fills[1..])
    ensures |fills| == 1 ==> Quantity(fills[1..]) == Gains(entry, fills[1..]) == Fees(fills[1..]) == 0.0
  {
  }

  /** Any clean sequence of fills settles the position at its notional plus the
      sum of the fills' gains minus their fees, and touches nothing else. */
  lemma {:induction false} FillsSettle(s: Ledger, symbol: string, fills: seq<Fill>)
    requires Clean(s, symbol, fills)
    ensures Run(s, AsCloses(symbol, fills))
            == Settled(s, symbol, Gains(s.positions[symbol].entryPrice, fills), Fees(fills))
    ensures Quantity(fills) == s.positions[symbol].qty > 0.0
    ensures Run(s, AsCloses(symbol, fills)).cash >= 0.0 && Run(s, AsCloses(symbol, fills)).marginUsed >= 0.0
    decreases fills
  {
    SumsOfOne(s.positions[symbol].entryPrice, fills);
    if |fills| == 1 {
      OneFillSettles(s, symbol, fills);
    } else {
      var s1 := AfterFirstFill(s, symbol, fills);
      FillsSettle(s1, symbol, fills[1..]);
      SettleTheRest(s, s1, symbol, fills[0],
                    Gains(s1.positions[symbol].entryPrice, fills[1..]), Fees(fills[1..]));
    }
  }

  predicate AllAt(fills: seq<Fill>, price: real) {
    forall i :: 0 <= i < |fills| ==> fills[i].price == price
  }

  lemma {:induction false} GainsAtOnePrice(entry: real, price: real, fills: seq<Fill>)
    requires AllAt(fills, price)
    ensures Gains(entry, fills) == Gain(entry, price, Quantity(fills))
  {
    if fills != [] {
      GainsAtOnePrice(entry, price, fills[1..]);
      assert fills[0].price == price;
      GainAdds(entry, price, fills[0].qty, Quantity(fills[1..]));
    } else {
      GainAdds(entry, price, 0.0, 0.0);
    }
  }

  lemma {:induction false} GainAdds(entry: real, price: real, a: real, b: real)
    ensures Gain(entry, price, a + b) == Gain(entry, price, a) + Gain(entry, price, b)
  {
    assert (price - entry) * (a + b) == (price - entry) * a + (price - entry) * b;
  }

  lemma {:induction false} WholeFillSettles(s: Ledger, symbol: string, f: Fill)
    requires symbol in s.positions && f.qty == s.positions[symbol].qty > 0.0
    requires var t := Settled(s, symbol, Gain(s.positions[symbol].entryPrice, f.price, f.qty), f.fee);
      t.cash >= 0.0 && t.marginUsed >= 0.0
    ensures ClosePosition(s, symbol, f.price, f.qty, f.fee).ledger
            == Settled(s, symbol, Gain(s.positions[symbol].entryPrice, f.price, f.qty), f.fee)
  {
    var p := s.positions[symbol];
    Fraction(f.qty, p.qty);
    TimesIs(p.notional, 1.0);
    assert p.FillRatio(f.qty) == 1.0;
    hide Times, Ratio;
  }

  /** At one price, splitting the close changes nothing: the ledger ends in the
      very state of a single full fill with the same total fee. */
  lemma {:induction false} SplitEqualsSingleFill(s: Ledger, symbol: string, price: real, fills: seq<Fill>)
    requires Clean(s, symbol, fills)
    requires AllAt(fills, price)
    ensures Run(s, AsCloses(symbol, fills))
            == ClosePosition(s, symbol, price, s.positions[symbol].qty, Fees(fills)).ledger
  {
    FillsSettle(s, symbol, fills);
    GainsAtOnePrice(s.positions[symbol].entryPrice, price, fills);
    WholeFillSettles(s, symbol, Fill(price, s.positions[symbol].qty, Fees(fills)));
  }

  // ----------------------------------------------------------------- on the way

  lemma {:induction false} RateChains(n0: real, q0: real, n1: real, q1: real, n2: real, q2: real)
    requires q1 > 0.0 && Times(n1, q0) == Times(n0, q1) && Times(n2, q1) == Times(n1, q2)
    ensures Times(n2, q0) == Times(n0, q2)
  {
    assert n2 * q0 * q1 == (n2 * q1) * q0 == (n1 * q2) * q0 == (n1 * q0) * q2 == n0 * q2 * q1;
    assert (n2 * q0 - n0 * q2) * q1 == 0.0;
  }

  /** What holds of the position after the first `k` fills of a clean sequence. */
  ghost predicate OnTheWay(s: Ledger, symbol: string, fills: seq<Fill>, k: nat)
    requires k <= |fills| && symbol in s.positions
  {
    var p, t := s.positions[symbol], Run(s, AsCloses(symbol, fills[..k]));
    && symbol in t.positions
    && var rest := t.positions[symbol];
      && rest.entryPrice == p.entryPrice && rest.qty == p.qty - Quantity(fills[..k]) > 0.0
      && Times(rest.notional, p.qty) == Times(p.notional, rest.qty)
  }

  /** Notional per unit is the same after every fill of a clean sequence but the last. */
  lemma {:induction false} RateIsConstant(s: Ledger, symbol: string, fills: seq<Fill>, k: nat)
    requires Clean(s, symbol, fills) && k < |fills|
    ensures OnTheWay(s, symbol, fills, k)
    decreases k
  {
    hide Times, Ratio;
    if k == 0 {
      assert fills[..0] == [] && AsCloses(symbol, []) == [];
    } else {
      var f := fills[0];
      var s1 := ClosePosition(s, symbol, f.price, f.qty, f.fee).ledger;
      PartialFillKeepsPosition(s, symbol, f);
      RateIsConstant(s1, symbol, fills[1..], k - 1);
      assert fills[..k][0] == f && fills[..k][1..] == fills[1..][..k - 1];
      SplitRun(s, symbol, fills[..k]);
      var p, p1 := s.positions[symbol], s1.positions[symbol];
      var p2 := Run(s, AsCloses(symbol, fills[..k])).positions[symbol];
      RateChains(p.notional, p.qty, p1.notional, p1.qty, p2.notional, p2.qty);
    }
  }

  // -------------------------------------------------------------- closing by ratio

  datatype Slice = Slice(price: real, ratio: real, fee: real)

  function AsRatioCloses(symbol: string, slices: seq<Slice>): seq<Op> {
    seq(|slices|, i requires 0 <= i < |slices| => CloseRatio(symbol, slices[i].price, slices[i].ratio, slices[i].fee))
  }

  /** The fills that a sequence of ratio closes comes to; empty ones fill nothing. */
  ghost function SliceFills(s: Ledger, symbol: string, slices: seq<Slice>): seq<Fill>
    decreases slices
  {
    if slices == [] then []
    else
      var c := slices[0];
      var s1 := ClosePartial(s, symbol, c.price, c.ratio, c.fee).ledger;
      match RatioFill(s, symbol, c.ratio)
      case None => SliceFills(s1, symbol, slices[1..])
      case Some(qty) => [Fill(c.price, qty, c.fee)] + SliceFills(s1, symbol, slices[1..])
  }

  /** Closing by ratios is closing by those fills. */
  lemma {:induction false} RatiosAreFills(s: Ledger, symbol: string, slices: seq<Slice>)
    ensures Run(s, AsRatioCloses(symbol, slices)) == Run(s, AsCloses(symbol, SliceFills(s, symbol, slices)))
    decreases slices
  {
    hide ClosePosition, RatioFill, Times, Ratio;
    if slices == [] {
      assert AsRatioCloses(symbol, slices) == [] == AsCloses(symbol, []);
    } else {
      var c, ops := slices[0], AsRatioCloses(symbol, slices);
      var s1 := ClosePartial(s, symbol, c.price, c.ratio, c.fee).ledger;
      assert ops[0] == CloseRatio(symbol, c.price, c.ratio, c.fee);
      assert ops[1..] == AsRatioCloses(symbol, slices[1..]);
      RatiosAreFills(s1, symbol, slices[1..]);
      var fills, rest := SliceFills(s, symbol, slices), SliceFills(s1, symbol, slices[1..]);
      if RatioFill(s, symbol, c.ratio).Some? {
        assert fills[1..] == rest;
        SplitRun(s, symbol, fills);
      }
    }
  }

  /** So any ratio closes that come to a clean sequence of fills settle the position
      at its notional plus the gains less the fees; at one price they end in the very
      ledger of one close of everything. */
  lemma {:induction false} RatioClosesSettle(s: Ledger, symbol: string, slices: seq<Slice>)
    requires Clean(s, symbol, SliceFills(s, symbol, slices))
    ensures var fills := SliceFills(s, symbol, slices);
      Run(s, AsRatioCloses(symbol, slices))
      == Settled(s, symbol, Gains(s.positions[symbol].entryPrice, fills), Fees(fills))
  {
    RatiosAreFills(s, symbol, slices);
    FillsSettle(s, symbol, SliceFills(s, symbol, slices));
  }

  lemma {:induction false} SliceFillsAtPrice(s: Ledger, symbol: string, slices: seq<Slice>, price: real)
    requires forall i :: 0 <= i < |slices| ==> slices[i].price == price
    ensures AllAt(SliceFills(s, symbol, slices), price)
    decreases slices
  {
    if slices != [] {
      var c := slices[0];
      assert c.price == price;
      var s1 := ClosePartial(s, symbol, c.price, c.ratio, c.fee).ledger;
      SliceFillsAtPrice(s1, symbol, slices[1..], price);
      hide ClosePartial, RatioFill;
    }
  }

  lemma {:induction false} RatiosEqualOneClose(s: Ledger, symbol: string, price: real, slices: seq<Slice>)
    requires Clean(s, symbol, SliceFills(s, symbol, slices))
    requires forall i :: 0 <= i < |slices| ==> slices[i].price == price
    ensures Run(s, AsRatioCloses(symbol, slices))
            == ClosePartial(s, symbol, price, 1.0, Fees(SliceFills(s, symbol, slices))).ledger
  {
    var fills, qty := SliceFills(s, symbol, slices), s.positions[symbol].qty;
    RatiosAreFills(s, symbol, slices);
    SliceFillsAtPrice(s, symbol, slices, price);
    SplitEqualsSingleFill(s, symbol, price, fills);
    TimesIs(qty, 1.0);
    hide Times, ClosePosition;
    assert RatioFill(s, symbol, 1.0) == Some(qty);
  }
}
