/** Saving and loading. */
module Reload {
  import opened Common
  import opened LedgerSpec

  /** Each position is filed under its own symbol. */
  predicate KeyedBySymbol(s: Ledger) {
    forall k :: k in s.positions ==> s.positions[k].symbol == k
  }

  const NO_OVERRIDES := Overrides(None, None)

  /** Loading what was saved gives back the ledger, exactly when every position
      is filed under its own symbol: the file does not keep the symbol field. */
  lemma {:induction false} RoundTrip(s: Ledger, now: real)
    ensures FromDict(ToDict(s), NO_OVERRIDES, now) == s <==> KeyedBySymbol(s)
  {
    var t := FromDict(ToDict(s), NO_OVERRIDES, now);
    assert forall k :: k in s.positions ==> t.positions[k] == s.positions[k].(symbol := k);
    if KeyedBySymbol(s) {
      assert t.positions == s.positions;
    }
  }

  /** The start-up path passes its own percentages; nothing else changes. */
  lemma {:induction false} LoadWithOverrides(s: Ledger, over: Overrides, now: real)
    requires KeyedBySymbol(s)
    ensures FromDict(ToDict(s), over, now)
            == s.(reservePct := over.reservePct.GetOr(s.reservePct),
                  maxPositionPct := over.maxPositionPct.GetOr(s.maxPositionPct))
  {
    RoundTrip(s, now);
  }

  lemma {:induction false} StepKeepsKeys(s: Ledger, op: Op)
    requires KeyedBySymbol(s)
    ensures KeyedBySymbol(Step(s, op).ledger)
  {
  }

  lemma {:induction false} RunKeepsKeys(s: Ledger, ops: seq<Op>)
    requires KeyedBySymbol(s)
    ensures KeyedBySymbol(Run(s, ops))
    decreases ops
  {
    if ops != [] {
      StepKeepsKeys(s, ops[0]);
      RunKeepsKeys(Step(s, ops[0]).ledger, ops[1..]);
    }
  }

  /** A reload that passes no percentages, or the ledger's own. */
  predicate PlainReload(s: Ledger, op: Op) {
    op.Reload? && op.over.reservePct.GetOr(s.reservePct) == s.reservePct
    && op.over.maxPositionPct.GetOr(s.maxPositionPct) == s.maxPositionPct
  }

  ghost function WithoutReloads(s: Ledger, ops: seq<Op>): seq<Op>
    decreases ops
  {
    if ops == [] then []
    else (if PlainReload(s, ops[0]) then [] else [ops[0]]) + WithoutReloads(Step(s, ops[0]).ledger, ops[1..])
  }

  /** What the callers of the other operations see. */
  ghost function Observed(s: Ledger, ops: seq<Op>): seq<Outcome>
    decreases ops
  {
    if ops == [] then []
    else
      var r := Step(s, ops[0]);
      (if PlainReload(s, ops[0]) then [] else [r.outcome]) + Observed(r.ledger, ops[1..])
  }

  /** Restarts are invisible: saving and loading at any points of a run, the
      percentages unchanged, changes neither what any other operation returns nor the
      final ledger. */
  lemma {:induction false} RestartsAreInvisible(s: Ledger, ops: seq<Op>)
    requires KeyedBySymbol(s)
    ensures Observed(s, ops) == Observed(s, WithoutReloads(s, ops))
    ensures Run(s, ops) == Run(s, WithoutReloads(s, ops))
    decreases ops
  {
    if ops != [] {
      var op, s1 := ops[0], Step(s, ops[0]).ledger;
      var rest := WithoutReloads(s1, ops[1..]);
      StepKeepsKeys(s, op);
      RestartsAreInvisible(s1, ops[1..]);
      if PlainReload(s, op) {
        LoadWithOverrides(s, op.over, op.now);
        assert WithoutReloads(s, ops) == rest;
      } else {
        assert WithoutReloads(s, ops) == [op] + rest;
        assert ([op] + rest)[1..] == rest;
      }
    }
  }

  /** A file from before net deposits were saved loads with the identity broken
      by exactly that amount. */
  lemma {:induction false} LegacyFileShiftsGap(s: Ledger, now: real)
    ensures FromDict(ToDict(s).(netDeposits := None), NO_OVERRIDES, now).Gap() == s.Gap() + s.netDeposits
  {
  }

  /** A file with nothing but the initial capital loads as a new engine with a reserve
      of 5 percent; an entry with nothing but the required fields loads as a position
      opened now. */
  lemma {:induction false} BareFileLoads(initial: real, saved: map<string, SavedPosition>, now: real)
    requires forall k :: k in saved ==>
      saved[k].orderId.None? && saved[k].peakPrice.None? && saved[k].unrealized.None? && saved[k].openedAt.None?
    ensures var bare := Saved(initial, None, None, None, None, None, None, None, None, None, saved);
      var t := FromDict(bare, NO_OVERRIDES, now);
      && t == Fresh(initial, 0.05, 0.95).(positions := t.positions) && t.positions.Keys == saved.Keys
      && forall k :: k in saved ==>
        var d := saved[k];
        var held := OpenPosition(Fresh(d.notional + 1.0, 0.0, 0.95), k, "", d.entryPrice, d.qty, d.notional, 0.0, now);
        held.outcome == Accepted(true) && t.positions[k] == held.ledger.positions[k]
  {
    forall k | k in saved
      ensures Times(saved[k].notional + 1.0, 0.0) == 0.0
    {
      TimesIs(saved[k].notional + 1.0, 0.0);
    }
    hide Times;
  }
}
