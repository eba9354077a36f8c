/** Reconciliation against the exchange: compare NAVs and overwrite local cash. */
module ExchangeReconciliation {
  import opened Common
  import opened LedgerSpec
  import opened LedgerConservation
  import opened CapitalEngines

  // How far apart the two NAVs are, relative to the local one.
  function Deviation(localNav: real, exchangeNav: real): real {
    Ratio(Abs(exchangeNav - localNav), Max(Abs(localNav), 1.0))
  }

  datatype Limits = Limits(tolerance: real, hardBlock: real)

  datatype Check = Check(navOk: bool, hardBlocked: bool)

  function Compare(l: Limits, s: Ledger, exchangeNav: real, startup: bool): Check {
    var d := Deviation(s.Nav(), exchangeNav);
    Check(d <= l.tolerance, d > l.hardBlock && startup)
  }

  /** The ledger after a check. */
  function AfterCheck(l: Limits, s: Ledger, exchangeNav: real, startup: bool): Ledger {
    var c := Compare(l, s, exchangeNav, startup);
    if !c.navOk && !c.hardBlocked then Aligned(s, exchangeNav) else s
  }

  class ReconciliationEngine {
    const capital: CapitalEngine
    const limits: Limits

    constructor (capital: CapitalEngine, limits: Limits)
      ensures this.capital == capital && this.limits == limits
    {
      this.capital, this.limits := capital, limits;
    }

    method CompareNav(exchangeNav: real, startup: bool) returns (c: Check)
      ensures c == Compare(limits, capital.State(), exchangeNav, startup)
    {
      var localNav := capital.Nav();
      var diffPct := Abs(exchangeNav - localNav) / Max(Abs(localNav), 1.0);
      c := Check(diffPct <= limits.tolerance, diffPct > limits.hardBlock && startup);
    }

    method ApplyAdjustment(exchangeNav: real)
      modifies capital`cash
      ensures capital.State() == Aligned(old(capital.State()), exchangeNav)
    {
      capital.cash := Max(0.0, exchangeNav - capital.marginUsed - capital.unrealizedPnl);
    }

    method StartupHandshake(exchangeNav: real) returns (c: Check)
      modifies capital`cash
      ensures c == Compare(limits, old(capital.State()), exchangeNav, true)
      ensures capital.State() == AfterCheck(limits, old(capital.State()), exchangeNav, true)
    {
      c := CompareNav(exchangeNav, true);
      if !c.navOk && !c.hardBlocked {
        ApplyAdjustment(exchangeNav);
      }
    }

    method PeriodicCheck(exchangeNav: real) returns (c: Check)
      modifies capital`cash
      ensures c == Compare(limits, old(capital.State()), exchangeNav, false)
      ensures capital.State() == AfterCheck(limits, old(capital.State()), exchangeNav, false)
    {
      c := CompareNav(exchangeNav, false);
      if !c.navOk {
        ApplyAdjustment(exchangeNav);
      }
    }
  }

  /** Alignment reaches the exchange's NAV exactly when that NAV covers what the
      open positions are worth; otherwise NAV stops at that worth. */
  lemma {:induction false} AlignmentReach(s: Ledger, exchangeNav: real)
    ensures Aligned(s, exchangeNav).Nav() == Max(exchangeNav, s.marginUsed + s.unrealizedPnl)
    ensures Aligned(s, exchangeNav).Nav() == exchangeNav <==> exchangeNav >= s.marginUsed + s.unrealizedPnl
    ensures Aligned(Aligned(s, exchangeNav), exchangeNav) == Aligned(s, exchangeNav)
  {
  }

  /** Repeating a check with the same reading: the second run finds nothing to do
      whenever the exchange NAV covers the open positions, and in every case it
      leaves the ledger as the first run did. */
  lemma {:induction false} SecondCheck(l: Limits, s: Ledger, exchangeNav: real)
    requires l.tolerance >= 0.0
    ensures var t := AfterCheck(l, s, exchangeNav, false);
      && AfterCheck(l, t, exchangeNav, false) == t
      && (exchangeNav >= s.marginUsed + s.unrealizedPnl ==> Compare(l, t, exchangeNav, false).navOk)
      && (!Compare(l, s, exchangeNav, false).navOk && exchangeNav < s.marginUsed + s.unrealizedPnl ==>
            (Compare(l, t, exchangeNav, false).navOk
             <==> Deviation(s.marginUsed + s.unrealizedPnl, exchangeNav) <= l.tolerance))
  {
    AlignmentReach(s, exchangeNav);
    RatioAdds(0.0, 0.0, Max(Abs(exchangeNav), 1.0));
    hide Ratio;
  }

  // A deviation above a limit is a distance above the limit's share of NAV.
  lemma {:induction false} DeviationIs(localNav: real, exchangeNav: real, limit: real)
    ensures Deviation(localNav, exchangeNav) > limit
      <==> Abs(exchangeNav - localNav) > Times(limit, Max(Abs(localNav), 1.0))
  {
    RatioAbove(Abs(exchangeNav - localNav), Max(Abs(localNav), 1.0), limit);
  }

  /** When a check leaves the ledger alone, in money: the readings are close enough, the
      start is blocked, or cash is where the adjustment would put it. */
  lemma {:induction false} UntouchedExactly(l: Limits, s: Ledger, exchangeNav: real, startup: bool)
    ensures var base, apart := Max(Abs(s.Nav()), 1.0), Abs(exchangeNav - s.Nav());
      AfterCheck(l, s, exchangeNav, startup) == s <==>
        || apart <= Times(l.tolerance, base)
        || (startup && apart > Times(l.hardBlock, base))
        || s.cash == Max(0.0, exchangeNav - (s.marginUsed + s.unrealizedPnl))
  {
    DeviationIs(s.Nav(), exchangeNav, l.tolerance);
    DeviationIs(s.Nav(), exchangeNav, l.hardBlock);
    hide Ratio, Times, Deviation;
  }

  /** What the hard block is for: a start-up check never moves NAV by more than the
      hard-block share of it. */
  lemma {:induction false} StartupMoveIsBounded(l: Limits, s: Ledger, exchangeNav: real)
    requires s.cash >= 0.0
    ensures var t := AfterCheck(l, s, exchangeNav, true);
      t == s || Abs(t.Nav() - s.Nav()) <= Times(l.hardBlock, Max(Abs(s.Nav()), 1.0))
  {
    AlignmentReach(s, exchangeNav);
    DeviationIs(s.Nav(), exchangeNav, l.hardBlock);
    hide Ratio, Times, Deviation;
  }

  /** A periodic check has no such bound: for every amount there is a reading by
      which it moves NAV further, and which a start-up check would have refused. */
  lemma {:induction false} PeriodicMoveIsUnbounded(l: Limits, s: Ledger, amount: real) returns (exchangeNav: real)
    requires s.cash >= 0.0
    ensures AfterCheck(l, s, exchangeNav, false).Nav() - s.Nav() > amount
    ensures Compare(l, s, exchangeNav, true).hardBlocked && AfterCheck(l, s, exchangeNav, true) == s
  {
    var base := Max(Abs(s.Nav()), 1.0);
    var step := Max(Max(0.0, amount), Max(Times(l.tolerance, base), Times(l.hardBlock, base))) + 1.0;
    exchangeNav := s.Nav() + step;
    AlignmentReach(s, exchangeNav);
    DeviationIs(s.Nav(), exchangeNav, l.tolerance);
    DeviationIs(s.Nav(), exchangeNav, l.hardBlock);
    hide Ratio, Times, Deviation;
  }

  // ------------------------------------------------------------- runs of checks

  datatype Reading = Reading(nav: real, startup: bool)

  function AfterChecks(l: Limits, s: Ledger, rs: seq<Reading>): Ledger {
    if rs == [] then s
    else
      var last := rs[|rs| - 1];
      AfterCheck(l, AfterChecks(l, s, rs[..|rs| - 1]), last.nav, last.startup)
  }

  /** Start-up readings that are all off by more than the hard-block limit. */
  predicate AllFarOff(l: Limits, localNav: real, rs: seq<Reading>) {
    forall i :: 0 <= i < |rs| ==> rs[i].startup && Deviation(localNav, rs[i].nav) > l.hardBlock
  }

  /** Whatever the readings, checks move cash alone, never below zero, and all the
      NAV they move goes into the gap of the accounting identity. Starting again does
      not lift a hard block. */
  lemma {:induction false} ChecksMoveTheGap(l: Limits, s: Ledger, rs: seq<Reading>)
    ensures var t := AfterChecks(l, s, rs);
      && t == s.(cash := t.cash) && t.Gap() - s.Gap() == t.Nav() - s.Nav()
      && (s.cash >= 0.0 ==> t.cash >= 0.0)
      && (AllFarOff(l, s.Nav(), rs) ==> t == s)
  {
    hide Ratio, Deviation;
    if rs != [] {
      ChecksMoveTheGap(l, s, rs[..|rs| - 1]);
    }
  }

  /** The price of an adjustment: it breaks the accounting identity by exactly
      the NAV it moves, which no later operation repairs. */
  lemma {:induction false} AdjustmentsStayInTheGap(s: Ledger, exchangeNav: real, later: seq<Op>)
    requires s.Gap() == 0.0
    requires forall i :: 0 <= i < |later| ==> !later[i].Align?
    requires !ClampFires(Aligned(s, exchangeNav), later)
    ensures Run(Aligned(s, exchangeNav), later).Gap()
            == Max(exchangeNav, s.marginUsed + s.unrealizedPnl) - s.Nav()
  {
    var t := Aligned(s, exchangeNav);
    AlignmentReach(s, exchangeNav);
    RunConserves(t, later);
    NoAdjustmentsNoJumps(t, later);
    ForgivenIffClampFires(t, later);
  }
}
