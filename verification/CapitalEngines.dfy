/** The capital engine as it runs: an object whose accounts and position records
    are updated in place, each method proved against `LedgerSpec`. */
module CapitalEngines {
  import opened Common
  import opened MapSum
  import L = LedgerSpec

  class PositionLedger {
    const symbol: string
    const orderId: string
    const entryPrice: real
    const openedAt: real
    var qty: real
    var notional: real
    var peakPrice: real
    var unrealized: real

    constructor (p: L.Position)
      ensures Value() == p
    {
      symbol, orderId, entryPrice, openedAt := p.symbol, p.orderId, p.entryPrice, p.openedAt;
      qty, notional, peakPrice, unrealized := p.qty, p.notional, p.peakPrice, p.unrealized;
    }

    function Value(): L.Position
      reads this
    {
      L.Position(symbol, orderId, entryPrice, qty, notional, peakPrice, unrealized, openedAt)
    }

    method UpdateUnrealized(currentPrice: real) returns (delta: real)
      modifies this
      ensures Value() == old(Value()).Marked(currentPrice)
      ensures delta == unrealized - old(unrealized)
    {
      var newUnrealized := (currentPrice - entryPrice) * qty;
      delta := newUnrealized - unrealized;
      unrealized := newUnrealized;
      if currentPrice > peakPrice {
        peakPrice := currentPrice;
      }
    }

    /** A partial close of this record; returns the change of unrealized profit. */
    method Reduce(exitPrice: real, filledQty: real, partialNotional: real) returns (delta: real)
      modifies this
      ensures Value() == old(Value()).Less(exitPrice, filledQty, partialNotional)
      ensures delta == unrealized - old(unrealized)
    {
      qty := qty - filledQty;
      notional := notional - partialNotional;
      var oldUnrealized := unrealized;
      unrealized := (exitPrice - entryPrice) * qty;
      delta := unrealized - oldUnrealized;
    }
  }

  class CapitalEngine {
    var initialCapital: real
    var cash: real
    var marginUsed: real
    var reservedMargin: real
    var unrealizedPnl: real
    var realizedPnl: real
    var feesPaid: real
    var netDeposits: real
    var reservePct: real
    var maxPositionPct: real
    var positions: map<string, PositionLedger>

    /** No two symbols share a position record. */
    ghost predicate Valid()
      reads this`positions
    {
      forall a, b :: a in positions && b in positions && a != b ==> positions[a] != positions[b]
    }

    function Book(): L.Positions
      reads this`positions, positions.Values
    {
      map s | s in positions :: positions[s].Value()
    }

    function State(): L.Ledger
      reads this, positions.Values
    {
      L.Ledger(initialCapital, cash, marginUsed, reservedMargin, unrealizedPnl, realizedPnl,
               feesPaid, netDeposits, reservePct, maxPositionPct, Book())
    }

    constructor (initialCapital: real, reservePct: real, maxPositionPct: real)
      ensures Valid() && positions == map[]
      ensures State() == L.Fresh(initialCapital, reservePct, maxPositionPct)
    {
      this.initialCapital, this.reservePct, this.maxPositionPct := initialCapital, reservePct, maxPositionPct;
      cash, marginUsed, reservedMargin := initialCapital, 0.0, 0.0;
      unrealizedPnl, realizedPnl, feesPaid, netDeposits := 0.0, 0.0, 0.0, 0.0;
      positions := map[];
    }

    function Nav(): (nav: real)
      reads this, positions.Values
      ensures nav == State().Nav()
    {
      cash + marginUsed + unrealizedPnl
    }

    function AvailableCash(): (available: real)
      reads this, positions.Values
      ensures available == State().AvailableCash()
    {
      var reserve := Nav() * reservePct;
      Max(0.0, cash - reserve - reservedMargin)
    }

    method ReserveMargin(notional: real) returns (ok: bool)
      requires Valid()
      modifies this`reservedMargin
      ensures Valid()
      ensures L.Result(State(), L.Accepted(ok)) == L.ReserveMargin(old(State()), notional)
    {
      if notional > AvailableCash() {
        return false;
      }
      reservedMargin := reservedMargin + notional;
      return true;
    }

    method ReleaseReservation(notional: real)
      requires Valid()
      modifies this`reservedMargin
      ensures Valid()
      ensures State() == L.ReleaseReservation(old(State()), notional).ledger
    {
      reservedMargin := Max(0.0, reservedMargin - notional);
    }

    method OpenPosition(symbol: string, orderId: string, entryPrice: real, qty: real, notional: real,
                        fee: real, now: real) returns (ok: bool)
      requires Valid()
      modifies this
      ensures Valid() && fresh(positions.Values - old(positions.Values))
      ensures L.Result(State(), L.Accepted(ok))
              == L.OpenPosition(old(State()), symbol, orderId, entryPrice, qty, notional, fee, now)
    {
      hide Times;
      var totalCost := notional + fee;
      if totalCost >= AvailableCash() && totalCost > 0.0 {
        return false;
      }
      if symbol in positions {
        return false;
      }
      cash := cash - totalCost;
      marginUsed := marginUsed + notional;
      feesPaid := feesPaid + fee;
      AddPosition(L.Position(symbol, orderId, entryPrice, qty, notional, entryPrice, 0.0, now));
      return true;
    }

    /** Files a new record under its symbol. */
    method AddPosition(p: L.Position)
      requires Valid() && p.symbol !in positions
      modifies this`positions
      ensures Valid() && fresh(positions.Values - old(positions.Values))
      ensures Book() == old(Book())[p.symbol := p]
    {
      var pos := new PositionLedger(p);
      positions := positions[p.symbol := pos];
    }

    /** The sum of the open positions' unrealized profit, as a loop. */
    method SumUnrealized(ghost book: L.Positions) returns (total: real)
      requires book == Book()
      ensures total == Total(L.Unrealized(book))
    {
      total := 0.0;
      var rest := positions.Keys;
      ghost var all := L.Unrealized(book);
      assert Restrict(all, rest) == all;
      while rest != {}
        invariant rest <= positions.Keys
        invariant total + Total(Restrict(all, rest)) == Total(all)
      {
        var s :| s in rest;
        total := total + positions[s].unrealized;
        RestrictStep(all, rest, s);
        rest := rest - {s};
      }
      assert Restrict(all, rest) == map[];
    }

    /** Changing one record changes one entry of the book. */
    twostate lemma OneEntryChanged(symbol: string)
      requires old(Valid()) && symbol in positions && positions == old(positions)
      requires forall s :: s in positions && s != symbol ==> unchanged(positions[s])
      ensures Book() == old(Book())[symbol := positions[symbol].Value()]
    {
    }

    method DropPosition(symbol: string)
      requires Valid() && symbol in positions
      modifies this`positions, this`unrealizedPnl
      ensures Valid() && positions.Values <= old(positions.Values)
      ensures Book() == old(Book()) - {symbol}
    {
      unrealizedPnl := unrealizedPnl - positions[symbol].unrealized;
      positions := positions - {symbol};
    }

    /** The position side of a close: drop the record or reduce it in place. */
    method ReducePosition(symbol: string, exitPrice: real, filledQty: real, fillRatio: real, partialNotional: real,
                          ghost book: L.Positions)
      requires Valid() && symbol in positions
      requires book == L.Trimmed(Book(), symbol, fillRatio,
                                 positions[symbol].Value().Less(exitPrice, filledQty, partialNotional))
      modifies this`positions, this`unrealizedPnl, positions[symbol]
      ensures Valid() && positions.Values <= old(positions.Values)
      ensures Book() == book
    {
      var pos := positions[symbol];
      if fillRatio >= 1.0 {
        DropPosition(symbol);
      } else {
        var delta := pos.Reduce(exitPrice, filledQty, partialNotional);
        unrealizedPnl := unrealizedPnl + delta;
        OneEntryChanged(symbol);
        if pos.qty < L.QTY_EPSILON || pos.notional < L.NOTIONAL_EPSILON {
          DropPosition(symbol);
        }
      }
    }

    method MoveAccounts(partialNotional: real, realized: real, fee: real)
      modifies this`marginUsed, this`realizedPnl, this`cash, this`feesPaid
      ensures marginUsed == Max(0.0, old(marginUsed) - partialNotional)
      ensures realizedPnl == old(realizedPnl) + realized && feesPaid == old(feesPaid) + fee
      ensures cash == old(cash) + (partialNotional + realized - fee)
    {
      var cashReturn := partialNotional + realized - fee;
      marginUsed := Max(0.0, marginUsed - partialNotional);
      realizedPnl := realizedPnl + realized;
      cash := cash + cashReturn;
      feesPaid := feesPaid + fee;
    }

    /** The account side of a close, given its amounts. */
    method BookClose(symbol: string, exitPrice: real, filledQty: real, fillRatio: real, partialNotional: real,
                     realized: real, fee: real, ghost book: L.Positions)
      requires Valid() && symbol in positions
      requires book == L.Trimmed(Book(), symbol, fillRatio,
                                 positions[symbol].Value().Less(exitPrice, filledQty, partialNotional))
      modifies this, positions[symbol]
      ensures Valid() && positions.Values <= old(positions.Values)
      ensures State() == L.Booked(old(State()), partialNotional, realized, fee, book)
    {
      MoveAccounts(partialNotional, realized, fee);
      ReducePosition(symbol, exitPrice, filledQty, fillRatio, partialNotional, book);
      FinishClose(book);
    }

    method FinishClose(ghost book: L.Positions)
      requires book == Book()
      modifies this`cash, this`unrealizedPnl
      ensures cash == Max(0.0, old(cash)) && unrealizedPnl == Total(L.Unrealized(book))
    {
      if cash < 0.0 {
        cash := 0.0;
      }
      unrealizedPnl := SumUnrealized(book);
    }

    method ClosePosition(symbol: string, exitPrice: real, filledQty: real, fee: real) returns (pnl: Option<real>)
      requires Valid()
      modifies this, positions.Values
      ensures Valid() && positions.Values <= old(positions.Values)
      ensures L.Result(State(), L.Pnl(pnl)) == L.ClosePosition(old(State()), symbol, exitPrice, filledQty, fee)
    {
      if symbol !in positions {
        return None;
      }
      var pos := positions[symbol];
      var fillRatio := if pos.qty > 0.0 then Min(1.0, filledQty / pos.qty) else 1.0;
      var partialNotional := pos.notional * fillRatio;
      var realized := (exitPrice - pos.entryPrice) * filledQty;
      ghost var was := pos.Value();
      assert fillRatio == was.FillRatio(filledQty) && partialNotional == was.Share(filledQty);
      assert realized == L.Gain(pos.entryPrice, exitPrice, filledQty);
      ghost var book := L.AfterFill(Book(), symbol, exitPrice, filledQty);
      assert Book()[symbol] == was;
      BookClose(symbol, exitPrice, filledQty, fillRatio, partialNotional, realized, fee, book);
      return Some(realized);
    }

    method ClosePartial(symbol: string, exitPrice: real, ratio: real, fee: real) returns (pnl: Option<real>)
      requires Valid()
      modifies this, positions.Values
      ensures Valid() && positions.Values <= old(positions.Values)
      ensures L.Result(State(), L.Pnl(pnl)) == L.ClosePartial(old(State()), symbol, exitPrice, ratio, fee)
    {
      if symbol !in positions {
        return None;
      }
      var r := Clamp01(ratio);
      if r <= 0.0 {
        return None;
      }
      var filledQty := positions[symbol].qty * r;
      if filledQty <= 0.0 {
        return None;
      }
      assert filledQty == L.Portion(State().positions[symbol].qty, ratio);
      assert L.RatioFill(State(), symbol, ratio) == Some(filledQty);
      pnl := ClosePosition(symbol, exitPrice, filledQty, fee);
    }

    method MarkOne(pos: PositionLedger, symbol: string, prices: map<string, real>)
      modifies pos
      ensures pos.Value()
              == if symbol in prices then old(pos.Value()).Marked(prices[symbol]) else old(pos.Value())
    {
      if symbol in prices {
        var _ := pos.UpdateUnrealized(prices[symbol]);
      }
    }

    /** The book with only some of its positions marked. */
    static ghost function MarkSome(ps: L.Positions, prices: map<string, real>, done: set<string>): L.Positions {
      map s | s in ps :: if s in done && s in prices then ps[s].Marked(prices[s]) else ps[s]
    }

    static lemma {:induction false} MarkNext(ps: L.Positions, prices: map<string, real>, done: set<string>, s: string)
      requires s in ps
      ensures MarkSome(ps, prices, done + {s})
              == MarkSome(ps, prices, done)[s := if s in prices then ps[s].Marked(prices[s]) else ps[s]]
      ensures s !in done ==> MarkSome(ps, prices, done)[s] == ps[s]
    {
    }

    method MarkPositions(prices: map<string, real>)
      requires Valid()
      modifies positions.Values
      ensures Book() == L.MarkAll(old(Book()), prices)
    {
      ghost var was := Book();
      var rest, done: set<string> := positions.Keys, {};
      assert MarkSome(was, prices, {}) == was;
      hide MarkSome;
      while rest != {}
        invariant rest !! done && rest + done == positions.Keys
        invariant Book() == MarkSome(was, prices, done)
      {
        var s :| s in rest;
        MarkNext(was, prices, done, s);
        assert positions[s].Value() == Book()[s];
        label before:
        MarkOne(positions[s], s, prices);
        OneEntryChanged@before(s);
        rest, done := rest - {s}, done + {s};
      }
      assert done == was.Keys;
      AllMarked(was, prices);
    }

    static lemma {:induction false} AllMarked(ps: L.Positions, prices: map<string, real>)
      ensures MarkSome(ps, prices, ps.Keys) == L.MarkAll(ps, prices)
    {
    }

    method UpdateUnrealized(prices: map<string, real>)
      requires Valid()
      modifies this`unrealizedPnl, positions.Values
      ensures Valid() && positions == old(positions)
      ensures State() == L.UpdateUnrealized(old(State()), prices).ledger
    {
      ghost var marked := L.MarkAll(Book(), prices);
      MarkPositions(prices);
      unrealizedPnl := SumUnrealized(marked);
    }

    method RecordFee(fee: real)
      requires Valid()
      modifies this`cash, this`feesPaid
      ensures Valid()
      ensures State() == L.RecordFee(old(State()), fee).ledger
    {
      if fee <= 0.0 {
        return;
      }
      cash := cash - fee;
      feesPaid := feesPaid + fee;
      cash := Max(0.0, cash);
    }

    method Deposit(amount: real)
      requires Valid()
      modifies this`cash, this`netDeposits
      ensures Valid()
      ensures State() == L.Deposit(old(State()), amount).ledger
    {
      cash := cash + amount;
      netDeposits := netDeposits + amount;
    }

    method Withdrawal(amount: real) returns (ok: bool)
      requires Valid()
      modifies this`cash, this`netDeposits
      ensures Valid()
      ensures L.Result(State(), L.Accepted(ok)) == L.Withdrawal(old(State()), amount)
    {
      if amount > AvailableCash() {
        return false;
      }
      cash := cash - amount;
      netDeposits := netDeposits - amount;
      return true;
    }

    method CheckInvariant() returns (ok: bool)
      ensures ok <==> State().InvariantHolds()
    {
      var expected := initialCapital + netDeposits + realizedPnl + unrealizedPnl - feesPaid;
      ok := Abs(Nav() - expected) <= L.INVARIANT_TOLERANCE;
    }

    method ToDict() returns (d: L.Saved)
      ensures d == L.ToDict(State())
    {
      var saved := map s | s in positions :: L.SavePosition(positions[s].Value());
      d := L.Saved(initialCapital, Some(cash), Some(marginUsed), Some(reservedMargin), Some(unrealizedPnl),
                   Some(realizedPnl), Some(feesPaid), Some(netDeposits), Some(reservePct), Some(maxPositionPct), saved);
    }

    constructor FromDict(d: L.Saved, over: L.Overrides, now: real)
      ensures Valid() && fresh(positions.Values)
      ensures State() == L.FromDict(d, over, now)
    {
      initialCapital := d.initialCapital;
      reservePct := over.reservePct.GetOr(d.reservePct.GetOr(0.05));
      maxPositionPct := over.maxPositionPct.GetOr(d.maxPositionPct.GetOr(0.95));
      cash := d.cash.GetOr(d.initialCapital);
      marginUsed := d.marginUsed.GetOr(0.0);
      reservedMargin := d.reservedMargin.GetOr(0.0);
      unrealizedPnl := d.unrealizedPnl.GetOr(0.0);
      realizedPnl := d.realizedPnl.GetOr(0.0);
      feesPaid := d.feesPaid.GetOr(0.0);
      netDeposits := d.netDeposits.GetOr(0.0);
      positions := map[];
      new;
      LoadPositions(d.positions, now);
    }

    /** Files a new record for every saved position. */
    method LoadPositions(saved: map<string, L.SavedPosition>, now: real)
      requires positions == map[]
      modifies this`positions
      ensures Valid() && fresh(positions.Values)
      ensures Book() == map s | s in saved :: L.LoadPosition(s, saved[s], now)
    {
      hide L.LoadPosition;
      var rest := saved.Keys;
      while rest != {}
        invariant rest <= saved.Keys && Valid() && fresh(positions.Values)
        invariant positions.Keys == saved.Keys - rest
        invariant forall s :: s in positions ==> positions[s].Value() == L.LoadPosition(s, saved[s], now)
      {
        var s :| s in rest;
        var pos := new PositionLedger(L.LoadPosition(s, saved[s], now));
        ghost var before := positions.Values;
        positions := positions[s := pos];
        assert positions.Values <= before + {pos};
        rest := rest - {s};
      }
    }
  }
}
