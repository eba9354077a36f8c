/** No money is promised twice: the reserve and the orders in flight stay
    covered by cash, and the in-flight total is the sum of open reservations. */
module LedgerSpending {
  import opened Common
  import opened MapSum
  import opened LedgerSpec

  /** How headroom moves with cash, NAV and the orders in flight. */
  lemma {:induction false} HeadroomChange(s: Ledger, t: Ledger)
    requires t.reservePct == s.reservePct
    ensures t.Headroom() - s.Headroom()
            == (t.cash - s.cash) - (t.Nav() - s.Nav()) * s.reservePct - (t.reservedMargin - s.reservedMargin)
    ensures t.Nav() < s.Nav() ==> (t.Nav() - s.Nav()) * s.reservePct == -((s.Nav() - t.Nav()) * s.reservePct)
  {
    assert (t.Nav() - s.Nav()) * s.reservePct == t.Nav() * s.reservePct - s.Nav() * s.reservePct;
  }

  /** A granted reservation, opening or withdrawal leaves the reserve and all
      in-flight orders covered. */
  lemma {:induction false} GrantsLeaveHeadroom(s: Ledger, op: Op)
    requires 0.0 <= s.reservePct <= 1.0
    requires Step(s, op).outcome == Accepted(true)
    ensures op.Reserve? && op.amount > 0.0 ==>
      Step(s, op).ledger.Headroom() == s.Headroom() - op.amount >= 0.0
    ensures op.TakeFunds? && op.amount > 0.0 ==>
      Step(s, op).ledger.Headroom() >= s.Headroom() - op.amount >= 0.0
    ensures op.Open? && op.notional + op.fee > 0.0 && op.fee >= 0.0 ==>
      Step(s, op).ledger.Headroom() >= s.Headroom() - (op.notional + op.fee) > 0.0
  {
    var t := Step(s, op).ledger;
    HeadroomChange(s, t);
    if op.Open? && op.fee >= 0.0 {
      ProductSign(op.fee, s.reservePct);
      assert t.Nav() - s.Nav() == -op.fee;
    } else if op.TakeFunds? && op.amount > 0.0 {
      ProductSign(op.amount, s.reservePct);
      assert t.Nav() - s.Nav() == -op.amount;
    } else if op.Reserve? {
      assert t.Nav() - s.Nav() == 0.0;
    }
  }

  /** The operations around an order that may not eat into the headroom. */
  predicate Prudent(op: Op) {
    match op
    case Reserve(_, amount) => amount >= 0.0
    case Release(_, amount) => amount >= 0.0
    case Open(_, _, _, _, _, fee, _) => fee >= 0.0
    case AddFunds(amount) => amount >= 0.0
    case TakeFunds(_) => true
    case _ => false
  }

  lemma {:induction false} ScaledDown(share: real, amount: real)
    requires 0.0 <= share <= 1.0
    ensures share * amount <= Max(0.0, amount)
    ensures amount >= 0.0 ==> share * amount >= 0.0
  {
    if amount >= 0.0 {
      ProductOrder(amount, share, 1.0);
      ProductSign(share, amount);
    } else {
      ProductSign(share, -amount);
      assert share * amount == -(share * (-amount));
    }
  }

  lemma {:induction false} PrudentStepKeepsHeadroom(s: Ledger, op: Op)
    requires 0.0 <= s.reservePct <= 1.0 && s.reservedMargin >= 0.0 && s.Headroom() >= 0.0
    requires Prudent(op)
    ensures var t := Step(s, op).ledger;
      t.reservePct == s.reservePct && t.reservedMargin >= 0.0 && t.Headroom() >= 0.0
  {
    var t := Step(s, op).ledger;
    HeadroomChange(s, t);
    var k := 1.0 - s.reservePct;
    match op
    case Open(_, _, _, _, notional, fee, _) =>
      if t != s {
        ProductSign(fee, s.reservePct);
        assert t.Nav() - s.Nav() == -fee;
      }
    case AddFunds(amount) =>
      ScaledDown(k, amount);
      assert t.Nav() - s.Nav() == amount;
      assert amount * s.reservePct == amount - k * amount;
    case TakeFunds(amount) =>
      if t != s {
        ScaledDown(k, amount);
        assert t.Nav() - s.Nav() == -amount;
        assert amount * s.reservePct == amount - k * amount;
      }
    case Reserve(_, _) =>
    case Release(_, _) =>
  }

  /** Over any sequence of them, headroom stays non-negative: cash covers
      reserve_pct of NAV plus everything in flight. */
  lemma {:induction false} NoDoubleSpending(s: Ledger, ops: seq<Op>)
    requires 0.0 <= s.reservePct <= 1.0 && s.reservedMargin >= 0.0 && s.Headroom() >= 0.0
    requires forall i :: 0 <= i < |ops| ==> Prudent(ops[i])
    ensures Run(s, ops).Headroom() >= 0.0
    decreases ops
  {
    if ops != [] {
      PrudentStepKeepsHeadroom(s, ops[0]);
      NoDoubleSpending(Step(s, ops[0]).ledger, ops[1..]);
    }
  }

  // -------------------------------------------------------- matched reservations

  /** A reservation uses a new id; a release names an open one and its amount. */
  predicate Matched(outstanding: map<string, real>, op: Op) {
    match op
    case Reserve(id, amount) => id !in outstanding && amount >= 0.0
    case Release(id, amount) => id in outstanding && outstanding[id] == amount
    case _ => true
  }

  ghost function Book(s: Ledger, outstanding: map<string, real>, op: Op): map<string, real> {
    match op
    case Reserve(id, amount) => if Step(s, op).outcome == Accepted(true) then outstanding[id := amount] else outstanding
    case Release(id, _) => outstanding - {id}
    case _ => outstanding
  }

  ghost predicate MatchedRun(s: Ledger, outstanding: map<string, real>, ops: seq<Op>)
    decreases ops
  {
    ops == [] || (Matched(outstanding, ops[0])
                  && MatchedRun(Step(s, ops[0]).ledger, Book(s, outstanding, ops[0]), ops[1..]))
  }

  ghost function FinalBook(s: Ledger, outstanding: map<string, real>, ops: seq<Op>): map<string, real>
    decreases ops
  {
    if ops == [] then outstanding
    else FinalBook(Step(s, ops[0]).ledger, Book(s, outstanding, ops[0]), ops[1..])
  }

  /** With matched releases, whatever else happens in between, the in-flight
      account is the sum of the reservations still open. */
  lemma {:induction false} ReservedIsOutstanding(s: Ledger, outstanding: map<string, real>, ops: seq<Op>)
    requires s.reservedMargin == Total(outstanding)
    requires forall k :: k in outstanding ==> outstanding[k] >= 0.0
    requires MatchedRun(s, outstanding, ops)
    ensures Run(s, ops).reservedMargin == Total(FinalBook(s, outstanding, ops))
    decreases ops
  {
    if ops != [] {
      var op := ops[0];
      if op.Reserve? {
        TotalUpdate(outstanding, op.reservation, op.amount);
      } else if op.Release? {
        TotalRemove(outstanding, op.reservation);
        TotalDominates(outstanding);
      }
      ReservedIsOutstanding(Step(s, op).ledger, Book(s, outstanding, op), ops[1..]);
    }
  }
}
