/** The capital ledger as a value: its accounts, its positions, and what each
    operation of the capital engine does to them. Times, prices and exchange
    readings are arguments; money is `real`, so there is no rounding. */
module LedgerSpec {
  import opened Common
  import opened MapSum

  const INVARIANT_TOLERANCE := 0.01
  const QTY_EPSILON := 0.0000000001
  const NOTIONAL_EPSILON := 0.00000001

  /** The profit of `qty` units bought at `entry` and sold at `exit`. */
  function Gain(entry: real, exit: real, qty: real): real {
    Times(exit - entry, qty)
  }

  datatype Position = Position(
    symbol: string, orderId: string, entryPrice: real, qty: real, notional: real,
    peakPrice: real, unrealized: real, openedAt: real)
  {
    /** The position after a tick at `price`. */
    function Marked(price: real): Position {
      this.(unrealized := Gain(entryPrice, price, qty),
            peakPrice := if price > peakPrice then price else peakPrice)
    }

    /** The share of the position that a fill of `filled` closes. */
    function FillRatio(filled: real): real {
      if qty > 0.0 then Min(1.0, Ratio(filled, qty)) else 1.0
    }

    /** The notional that a fill closes. */
    function Share(filled: real): real {
      Times(notional, FillRatio(filled))
    }

    /** What a partial fill leaves; the remainder is marked at the exit price. */
    function Reduced(exitPrice: real, filled: real): Position {
      Less(exitPrice, filled, Share(filled))
    }

    function Less(exitPrice: real, filled: real, share: real): Position {
      this.(qty := qty - filled,
            notional := notional - share,
            unrealized := Gain(entryPrice, exitPrice, qty - filled))
    }

    /** Too small to keep. */
    predicate Negligible() {
      qty < QTY_EPSILON || notional < NOTIONAL_EPSILON
    }
  }

  type Positions = map<string, Position>

  ghost function Unrealized(ps: Positions): map<string, real> {
    map s | s in ps :: ps[s].unrealized
  }

  ghost function Notionals(ps: Positions): map<string, real> {
    map s | s in ps :: ps[s].notional
  }

  datatype Ledger = Ledger(
    initialCapital: real, cash: real, marginUsed: real, reservedMargin: real,
    unrealizedPnl: real, realizedPnl: real, feesPaid: real, netDeposits: real,
    reservePct: real, maxPositionPct: real, positions: Positions)
  {
    function Nav(): real {
      cash + marginUsed + unrealizedPnl
    }

    /** Cash not promised to the reserve or to orders in flight; may be negative. */
    function Headroom(): real {
      cash - Times(Nav(), reservePct) - reservedMargin
    }

    function AvailableCash(): real {
      Max(0.0, Headroom())
    }

    /** How far NAV is from what the other accounts explain. */
    function Gap(): real {
      Nav() - (initialCapital + netDeposits + realizedPnl + unrealizedPnl - feesPaid)
    }

    predicate InvariantHolds() {
      Abs(Gap()) <= INVARIANT_TOLERANCE
    }
  }

  function Fresh(initialCapital: real, reservePct: real, maxPositionPct: real): Ledger {
    Ledger(initialCapital, initialCapital, 0.0, 0.0, 0.0, 0.0, 0.0, 0.0, reservePct, maxPositionPct, map[])
  }

  // What an operation hands back to its caller.
  datatype Outcome = Done | Accepted(ok: bool) | Pnl(realized: Option<real>)

  datatype Result = Result(ledger: Ledger, outcome: Outcome)

  // ---------------------------------------------------------------- operations

  function ReserveMargin(s: Ledger, notional: real): Result {
    if notional > s.AvailableCash() then Result(s, Accepted(false))
    else Result(s.(reservedMargin := s.reservedMargin + notional), Accepted(true))
  }

  function ReleaseReservation(s: Ledger, notional: real): Result {
    Result(s.(reservedMargin := Max(0.0, s.reservedMargin - notional)), Done)
  }

  function OpenPosition(s: Ledger, symbol: string, orderId: string, entryPrice: real,
                        qty: real, notional: real, fee: real, now: real): Result
  {
    var cost := notional + fee;
    if (cost >= s.AvailableCash() && cost > 0.0) || symbol in s.positions then
      Result(s, Accepted(false))
    else
      var p := Position(symbol, orderId, entryPrice, qty, notional, entryPrice, 0.0, now);
      Result(s.(cash := s.cash - cost,
                marginUsed := s.marginUsed + notional,
                feesPaid := s.feesPaid + fee,
                positions := s.positions[symbol := p]),
             Accepted(true))
  }

  /** The book of positions after a fill: a full close or a negligible remainder
      removes the entry. */
  function Trimmed(ps: Positions, symbol: string, ratio: real, rest: Position): Positions {
    if ratio >= 1.0 || rest.Negligible() then ps - {symbol} else ps[symbol := rest]
  }

  function AfterFill(ps: Positions, symbol: string, exitPrice: real, filled: real): Positions
    requires symbol in ps
  {
    Trimmed(ps, symbol, ps[symbol].FillRatio(filled), ps[symbol].Reduced(exitPrice, filled))
  }

  /** What a fill pays in before the clamp at zero. */
  function CashAfterClose(s: Ledger, symbol: string, exitPrice: real, filled: real, fee: real): real
    requires symbol in s.positions
  {
    var p := s.positions[symbol];
    s.cash + (p.Share(filled) + Gain(p.entryPrice, exitPrice, filled) - fee)
  }

  /** Books a close: `share` of notional leaves margin, `gain` is realized, and
      the positions become `ps`. Neither margin nor cash goes below zero. */
  ghost function Booked(s: Ledger, share: real, gain: real, fee: real, ps: Positions): Ledger {
    s.(marginUsed := Max(0.0, s.marginUsed - share),
       realizedPnl := s.realizedPnl + gain,
       cash := Max(0.0, s.cash + (share + gain - fee)),
       feesPaid := s.feesPaid + fee,
       positions := ps,
       unrealizedPnl := Total(Unrealized(ps)))
  }

  ghost function ClosePosition(s: Ledger, symbol: string, exitPrice: real, filled: real, fee: real): Result
  {
    if symbol !in s.positions then Result(s, Pnl(None))
    else
      var p := s.positions[symbol];
      Result(Booked(s, p.Share(filled), Gain(p.entryPrice, exitPrice, filled), fee,
                    AfterFill(s.positions, symbol, exitPrice, filled)),
             Pnl(Some(Gain(p.entryPrice, exitPrice, filled))))
  }

  function Portion(qty: real, ratio: real): real {
    Times(qty, Clamp01(ratio))
  }

  /** The quantity a ratio close asks for; `None` when nothing is closed. */
  function RatioFill(s: Ledger, symbol: string, ratio: real): Option<real> {
    if symbol !in s.positions then None
    else
      var filled := Portion(s.positions[symbol].qty, ratio);
      if Clamp01(ratio) <= 0.0 || filled <= 0.0 then None else Some(filled)
  }

  ghost function ClosePartial(s: Ledger, symbol: string, exitPrice: real, ratio: real, fee: real): Result
  {
    match RatioFill(s, symbol, ratio)
    case None => Result(s, Pnl(None))
    case Some(filled) => ClosePosition(s, symbol, exitPrice, filled, fee)
  }

  function MarkAll(ps: Positions, prices: map<string, real>): Positions {
    map s | s in ps :: if s in prices then ps[s].Marked(prices[s]) else ps[s]
  }

  ghost function UpdateUnrealized(s: Ledger, prices: map<string, real>): Result {
    var ps := MarkAll(s.positions, prices);
    Result(s.(positions := ps, unrealizedPnl := Total(Unrealized(ps))), Done)
  }

  function RecordFee(s: Ledger, fee: real): Result {
    if fee <= 0.0 then Result(s, Done)
    else Result(s.(cash := Max(0.0, s.cash - fee), feesPaid := s.feesPaid + fee), Done)
  }

  function Deposit(s: Ledger, amount: real): Result {
    Result(s.(cash := s.cash + amount, netDeposits := s.netDeposits + amount), Done)
  }

  function Withdrawal(s: Ledger, amount: real): Result {
    if amount > s.AvailableCash() then Result(s, Accepted(false))
    else Result(s.(cash := s.cash - amount, netDeposits := s.netDeposits - amount), Accepted(true))
  }

  /** The reconciliation engine's overwrite of cash towards an exchange NAV. */
  function Aligned(s: Ledger, exchangeNav: real): Ledger {
    s.(cash := Max(0.0, exchangeNav - s.marginUsed - s.unrealizedPnl))
  }

  // -------------------------------------------------------------- save and load

  datatype SavedPosition = SavedPosition(
    orderId: Option<string>, entryPrice: real, qty: real, notional: real,
    peakPrice: Option<real>, unrealized: Option<real>, openedAt: Option<real>)

  // A state file; fields that older files may lack are optional.
  datatype Saved = Saved(
    initialCapital: real, cash: Option<real>, marginUsed: Option<real>, reservedMargin: Option<real>,
    unrealizedPnl: Option<real>, realizedPnl: Option<real>, feesPaid: Option<real>, netDeposits: Option<real>,
    reservePct: Option<real>, maxPositionPct: Option<real>, positions: map<string, SavedPosition>)

  function SavePosition(p: Position): SavedPosition {
    SavedPosition(Some(p.orderId), p.entryPrice, p.qty, p.notional,
                  Some(p.peakPrice), Some(p.unrealized), Some(p.openedAt))
  }

  function LoadPosition(symbol: string, d: SavedPosition, now: real): Position {
    Position(symbol, d.orderId.GetOr(""), d.entryPrice, d.qty, d.notional,
             d.peakPrice.GetOr(d.entryPrice), d.unrealized.GetOr(0.0), d.openedAt.GetOr(now))
  }

  function ToDict(s: Ledger): Saved {
    Saved(s.initialCapital, Some(s.cash), Some(s.marginUsed), Some(s.reservedMargin),
          Some(s.unrealizedPnl), Some(s.realizedPnl), Some(s.feesPaid), Some(s.netDeposits),
          Some(s.reservePct), Some(s.maxPositionPct),
          map sym | sym in s.positions :: SavePosition(s.positions[sym]))
  }

  // Values a loader passes explicitly win over the file's.
  datatype Overrides = Overrides(reservePct: Option<real>, maxPositionPct: Option<real>)

  function FromDict(d: Saved, over: Overrides, now: real): Ledger {
    Ledger(d.initialCapital, d.cash.GetOr(d.initialCapital), d.marginUsed.GetOr(0.0),
           d.reservedMargin.GetOr(0.0), d.unrealizedPnl.GetOr(0.0), d.realizedPnl.GetOr(0.0),
           d.feesPaid.GetOr(0.0), d.netDeposits.GetOr(0.0),
           over.reservePct.GetOr(d.reservePct.GetOr(0.05)),
           over.maxPositionPct.GetOr(d.maxPositionPct.GetOr(0.95)),
           map sym | sym in d.positions :: LoadPosition(sym, d.positions[sym], now))
  }

  // ----------------------------------------------------------------------- runs

  datatype Op =
    | Reserve(reservation: string, amount: real)
    | Release(reservation: string, amount: real)
    | Open(symbol: string, orderId: string, entryPrice: real, qty: real, notional: real, fee: real, now: real)
    | Close(symbol: string, exitPrice: real, filled: real, fee: real)
    | CloseRatio(symbol: string, exitPrice: real, ratio: real, fee: real)
    | Mark(prices: map<string, real>)
    | Fee(fee: real)
    | AddFunds(amount: real)
    | TakeFunds(amount: real)
    | Reload(over: Overrides, now: real)
    | Align(exchangeNav: real)

  ghost function Step(s: Ledger, op: Op): Result {
    match op
    case Reserve(_, amount) => ReserveMargin(s, amount)
    case Release(_, amount) => ReleaseReservation(s, amount)
    case Open(sym, oid, entry, qty, notional, fee, now) => OpenPosition(s, sym, oid, entry, qty, notional, fee, now)
    case Close(sym, exit, filled, fee) => ClosePosition(s, sym, exit, filled, fee)
    case CloseRatio(sym, exit, ratio, fee) => ClosePartial(s, sym, exit, ratio, fee)
    case Mark(prices) => UpdateUnrealized(s, prices)
    case Fee(fee) => RecordFee(s, fee)
    case AddFunds(amount) => Deposit(s, amount)
    case TakeFunds(amount) => Withdrawal(s, amount)
    case Reload(over, now) => Result(FromDict(ToDict(s), over, now), Done)
    case Align(exchangeNav) => Result(Aligned(s, exchangeNav), Done)
  }

  ghost function Run(s: Ledger, ops: seq<Op>): Ledger
    decreases ops
  {
    if ops == [] then s else Run(Step(s, ops[0]).ledger, ops[1..])
  }

  lemma {:induction false} RunConcat(s: Ledger, a: seq<Op>, b: seq<Op>)
    ensures Run(s, a + b) == Run(Run(s, a), b)
    decreases a
  {
    if a == [] {
      assert a + b == b;
    } else {
      assert (a + b)[1..] == a[1..] + b;
      RunConcat(Step(s, a[0]).ledger, a[1..], b);
    }
  }
}
