/** The trading side as it runs, over a live capital engine. */
module TradeExecution {
  import opened Common
  import opened MapSum
  import L = LedgerSpec
  import opened TwoBooks
  import opened CapitalEngines

  class Engine {
    const capital: CapitalEngine
    var openPositions: map<string, Holding>
    var equity: real
    var freeCapital: real

    function State(): Books
      reads this, capital, capital.positions.Values
    {
      Books(capital.State(), openPositions, equity, freeCapital)
    }

    constructor (capital: CapitalEngine)
      ensures this.capital == capital && openPositions == map[]
      ensures equity == capital.Nav() && freeCapital == capital.AvailableCash()
    {
      this.capital := capital;
      openPositions := map[];
      equity, freeCapital := capital.Nav(), capital.AvailableCash();
    }

    method RefreshFigures()
      modifies this`equity, this`freeCapital
      ensures State() == old(State()).Synced()
    {
      equity := capital.Nav();
      freeCapital := capital.AvailableCash();
    }

    method Enter(symbol: string, orderId: string, size: real, fillPrice: real, qty: real, fee: real, now: real)
      requires capital.Valid()
      modifies this, capital
      ensures capital.Valid() && fresh(capital.positions.Values - old(capital.positions.Values))
      ensures State() == TwoBooks.Enter(old(State()), symbol, orderId, size, fillPrice, qty, fee, now)
    {
      var reserved := capital.ReserveMargin(size);
      if !reserved {
        return;
      }
      openPositions := openPositions[symbol := Holding(fillPrice, qty, size, qty, 0)];
      capital.ReleaseReservation(size);
      var _ := capital.OpenPosition(symbol, orderId, fillPrice, qty, size, fee, now);
      RefreshFigures();
    }

    /** A staged exit; `filled` and `exitPrice` come back from the order. */
    method ClosePartial(symbol: string, ratio: real, exitPrice: real, filled: real, fee: real, newStage: int)
      requires capital.Valid()
      modifies this, capital, capital.positions.Values
      ensures capital.Valid() && capital.positions.Values <= old(capital.positions.Values)
      ensures State() == ClosePart(old(State()), symbol, ratio, exitPrice, filled, fee, newStage)
    {
      hide SizeShare, Ratio, L.ClosePartial;
      if symbol !in openPositions {
        return;
      }
      var pos := openPositions[symbol];
      if pos.qty <= 0.0 || pos.size <= 0.0 {
        return;
      }
      var initialQty := if pos.initialQty == 0.0 then pos.qty else pos.initialQty;
      var sellQty := Min(pos.qty, Max(0.0, Times(initialQty, ratio)));
      assert sellQty == SellQty(pos, ratio);
      if sellQty <= 0.0 {
        return;
      }
      var sellSize := SizeShare(pos.size, pos.qty, sellQty);
      var _ := capital.ClosePartial(symbol, exitPrice, Ratio(filled, pos.qty), fee);
      var rest := pos.(qty := Max(0.0, pos.qty - filled), size := Max(0.0, pos.size - sellSize), exitStage := newStage);
      assert rest == Sold(pos, sellQty, filled, newStage);
      if rest.qty <= L.QTY_EPSILON || rest.size <= L.NOTIONAL_EPSILON {
        openPositions := openPositions - {symbol};
      } else {
        openPositions := openPositions[symbol := rest];
      }
      RefreshFigures();
    }

    method Close(symbol: string, exitPrice: real, filled: real, fee: real) returns (pnl: Option<real>)
      requires capital.Valid()
      modifies this, capital, capital.positions.Values
      ensures capital.Valid() && capital.positions.Values <= old(capital.positions.Values)
      ensures State() == CloseAll(old(State()), symbol, exitPrice, filled, fee)
      ensures symbol in old(openPositions) ==>
        pnl == Some(ReportedPnl(old(State()), symbol, exitPrice, filled, fee))
    {
      if symbol !in openPositions {
        return None;
      }
      var pos := openPositions[symbol];
      openPositions := openPositions - {symbol};
      var realized := capital.ClosePosition(symbol, exitPrice, filled, fee);
      var fallback := (exitPrice - pos.entry) * filled;
      assert fallback == L.Gain(pos.entry, exitPrice, filled);
      pnl := Some(realized.GetOr(fallback));
      RefreshFigures();
    }

    method TickUpdateUnrealized(symbol: string, price: real)
      requires capital.Valid()
      modifies this`equity, capital, capital.positions.Values
      ensures capital.Valid() && capital.positions == old(capital.positions)
      ensures State() == Tick(old(State()), symbol, price)
    {
      if openPositions == map[] {
        return;
      }
      var prices := map k | k in openPositions :: if k == symbol then price else openPositions[k].entry;
      assert prices == TickPrices(openPositions, symbol, price);
      capital.UpdateUnrealized(prices);
      equity := capital.Nav();
    }

    /** Charges holding by holding; the order does not matter. */
    method ApplyFundingRate(rate: real)
      requires capital.Valid()
      modifies capital`cash, capital`feesPaid
      ensures capital.Valid()
      ensures State() == Funding(old(State()), rate)
    {
      if rate <= 0.0 {
        return;
      }
      ghost var s0, charges := capital.State(), Charges(openPositions, rate);
      ghost var done: set<string>, total := {}, 0.0;
      var rest := openPositions.Keys;
      assert Restrict(charges, done) == map[];
      while rest != {}
        invariant rest !! done && rest + done == openPositions.Keys
        invariant capital.Valid()
        invariant total == Total(Restrict(charges, done)) >= 0.0
        invariant capital.State() == L.RecordFee(s0, total).ledger
      {
        var s :| s in rest;
        var swapCost := openPositions[s].size * rate;
        assert swapCost == SwapCost(openPositions[s].size, rate);
        AddCharge(charges, done, s);
        if swapCost > MIN_FUNDING_CHARGE {
          FeesAdd(s0, total, swapCost);
          capital.RecordFee(swapCost);
          total := total + swapCost;
        }
        rest, done := rest - {s}, done + {s};
      }
      assert done == openPositions.Keys;
      assert Restrict(charges, done) == charges;
    }

    lemma {:induction false} AddCharge(charges: map<string, real>, done: set<string>, s: string)
      requires s !in done
      ensures Total(Restrict(charges, done + {s}))
              == Total(Restrict(charges, done)) + (if s in charges then charges[s] else 0.0)
    {
      if s in charges {
        RestrictStep(charges, done + {s}, s);
        assert (done + {s}) - {s} == done;
      } else {
        assert Restrict(charges, done + {s}) == Restrict(charges, done);
      }
    }
  }
}
