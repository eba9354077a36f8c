/** The risk manager's emergency latch, loss accumulators and running peak. Clock
    readings, the VaR verdict and the optional shared risk view are arguments. */
module RiskLatch {
  import opened Common

  const DAY := 86400.0
  const WEEK := 604800.0
  const PNL_HISTORY := 500
  const VOL_HISTORY := 200
  const VOL_MIN_HISTORY := 10
  const VOL_SPIKE := 2.0

  datatype Config = Config(maxDaily: real, maxWeekly: real, maxDrawdown: real, maxExposure: real,
                           exposureLatches: bool)

  // The shared risk view when one is attached: its own verdicts and NAV.
  datatype View = View(daily: bool, weekly: bool, drawdown: bool, nav: real)

  // A loss accumulator and the start of its period.
  datatype Meter = Meter(loss: real, start: real)

  datatype Risk = Risk(
    initialCapital: real, emergency: bool, reason: Option<string>, deny: Option<string>,
    day: Meter, week: Meter, peak: real, pnls: seq<real>, vols: seq<real>,
    viewPnls: Option<seq<real>>)

  function Fresh(initialCapital: real, now: real): Risk {
    Risk(initialCapital, false, None, None, Meter(0.0, now), Meter(0.0, now), initialCapital, [], [], None)
  }

  // ----------------------------------------------------------------- operations

  function Trip(s: Risk, code: string): Risk {
    if s.emergency then s else s.(emergency := true, reason := Some(code))
  }

  function ResetEmergency(s: Risk): Risk {
    s.(emergency := false, reason := None)
  }

  predicate Due(m: Meter, period: real, now: real) {
    now - m.start >= period
  }

  function Rolled(m: Meter, period: real, now: real): Meter {
    if Due(m, period, now) then Meter(0.0, now) else m
  }

  function MaybeReset(s: Risk, now: real): Risk {
    s.(day := Rolled(s.day, DAY, now), week := Rolled(s.week, WEEK, now))
  }

  function Charged(m: Meter, pnl: real): Meter {
    if pnl < 0.0 then m.(loss := m.loss - pnl) else m
  }

  /** A history with one more record, its last `PNL_HISTORY` entries. */
  function Kept(history: seq<real>, pnl: real): seq<real> {
    LastOf(history + [pnl], PNL_HISTORY)
  }

  function AttachView(s: Risk, history: seq<real>): Risk {
    s.(viewPnls := Some(history))
  }

  function RecordPnl(s: Risk, now: real, pnl: real): Risk {
    var t := MaybeReset(s, now);
    t.(day := Charged(t.day, pnl), week := Charged(t.week, pnl), pnls := Kept(t.pnls, pnl),
       viewPnls := match t.viewPnls case None => None case Some(h) => Some(Kept(h, pnl)))
  }

  function UpdatePeak(s: Risk, equity: real): Risk {
    if equity > s.peak then s.(peak := equity) else s
  }

  function LastOf(xs: seq<real>, n: nat): seq<real> {
    if |xs| > n then xs[|xs| - n..] else xs
  }

  function VolSum(vols: seq<real>): real {
    if vols == [] then 0.0 else VolSum(vols[..|vols| - 1]) + vols[|vols| - 1]
  }

  predicate Spikes(vols: seq<real>, vol: real) {
    |vols| >= VOL_MIN_HISTORY
    && var avg := Ratio(VolSum(vols), |vols| as real); avg > 0.0 && vol > avg * VOL_SPIKE
  }

  // The state after a group of checks and the reason to refuse, if any.
  datatype Outcome = Outcome(risk: Risk, deny: Option<string>)

  function Refuse(s: Risk, code: string): Outcome {
    Outcome(Trip(s, code), Some(code))
  }

  /** What the volatility-scaled daily limit is measured against. */
  function LossBase(s: Risk, equity: real): real {
    if equity > 0.0 then equity else s.initialCapital
  }

  /** Twice the volatility, within two to five percent. */
  function DynamicLimit(vol: real): real {
    Max(0.02, Min(0.05, vol * 2.0))
  }

  /** Daily, weekly and drawdown limits on the manager's own figures. */
  function LossChecks(s: Risk, c: Config, equity: real, vol: real): Outcome
    requires s.initialCapital > 0.0
  {
    if vol > 0.0 && Ratio(s.day.loss, LossBase(s, equity)) >= DynamicLimit(vol) then Refuse(s, "dynamic_daily_loss")
    else if vol <= 0.0 && Ratio(s.day.loss, s.initialCapital) >= c.maxDaily then Refuse(s, "static_daily_loss")
    else if Ratio(s.week.loss, s.initialCapital) >= c.maxWeekly then Refuse(s, "weekly_loss")
    else
      var t := UpdatePeak(s, equity);
      if t.peak > 0.0 && Ratio(t.peak - equity, t.peak) >= c.maxDrawdown then Refuse(t, "max_drawdown")
      else Outcome(t, None)
  }

  function ViewChecks(s: Risk, v: View): Outcome {
    if v.daily then Refuse(s, "dynamic_daily_loss")
    else if v.weekly then Refuse(s, "weekly_loss")
    else if v.drawdown then Refuse(s, "max_drawdown")
    else Outcome(s, None)
  }

  function ExposureChecks(s: Risk, c: Config, base: real, exposure: real, vol: real): Outcome {
    if base > 0.0 && Ratio(exposure, base) > c.maxExposure then
      Outcome(if c.exposureLatches then Trip(s, "max_exposure") else s, Some("max_exposure"))
    else if vol > 0.0 then
      var t := s.(vols := LastOf(s.vols + [vol], VOL_HISTORY));
      Outcome(t, if Spikes(t.vols, vol) then Some("volatility_spike") else None)
    else Outcome(s, None)
  }

  // What one check is asked about.
  datatype Query = Query(now: real, equity: real, exposure: real, vol: real, view: Option<View>,
                         varBreach: Option<string>)

  function LatchedReason(s: Risk): string {
    if s.reason.Some? && s.reason.value != "" then s.reason.value else "emergency_latched"
  }

  function Examine(s: Risk, c: Config, q: Query): Outcome {
    if s.emergency then Outcome(s, Some(LatchedReason(s)))
    else
      var t := MaybeReset(s.(deny := None), q.now);
      if t.initialCapital <= 0.0 then Outcome(t, Some("invalid_capital"))
      else
        var losses := if q.view.Some? then ViewChecks(t, q.view.value) else LossChecks(t, c, q.equity, q.vol);
        if losses.deny.Some? then losses
        else if q.varBreach.Some? then Refuse(losses.risk, q.varBreach.value)
        else ExposureChecks(losses.risk, c, if q.view.Some? then q.view.value.nav else q.equity, q.exposure, q.vol)
  }

  /** A whole check: the state remembers the refusal. */
  function CheckRisk(s: Risk, c: Config, q: Query): Risk {
    var o := Examine(s, c, q);
    o.risk.(deny := o.deny)
  }

  predicate Accepts(s: Risk, c: Config, q: Query) {
    Examine(s, c, q).deny.None?
  }

  class RiskManager {
    const config: Config
    const initialCapital: real
    var emergencyStop: bool
    var emergencyReason: Option<string>
    var lastRiskDeny: Option<string>
    var dailyLoss: real
    var weeklyLoss: real
    var peakEquity: real
    var dayStart: real
    var weekStart: real
    var pnlHistory: seq<real>
    var volHistory: seq<real>
    var viewHistory: Option<seq<real>>   // the attached view's own profit history

    function State(): Risk
      reads this
    {
      Risk(initialCapital, emergencyStop, emergencyReason, lastRiskDeny, Meter(dailyLoss, dayStart),
           Meter(weeklyLoss, weekStart), peakEquity, pnlHistory, volHistory, viewHistory)
    }

    constructor (config: Config, initialCapital: real, now: real)
      ensures State() == Fresh(initialCapital, now) && this.config == config
    {
      this.config, this.initialCapital := config, initialCapital;
      emergencyStop, emergencyReason, lastRiskDeny := false, None, None;
      dailyLoss, weeklyLoss, peakEquity := 0.0, 0.0, initialCapital;
      dayStart, weekStart, pnlHistory, volHistory, viewHistory := now, now, [], [], None;
    }

    method TriggerEmergency(code: string)
      modifies this`emergencyStop, this`emergencyReason
      ensures State() == Trip(old(State()), code)
    {
      if !emergencyStop {
        emergencyStop := true;
        emergencyReason := Some(code);
      }
    }

    method ResetEmergencyStop()
      modifies this`emergencyStop, this`emergencyReason
      ensures State() == ResetEmergency(old(State()))
    {
      emergencyStop, emergencyReason := false, None;
    }

    method MaybeResetMeters(now: real)
      modifies this`dailyLoss, this`dayStart, this`weeklyLoss, this`weekStart
      ensures State() == MaybeReset(old(State()), now)
    {
      if now - dayStart >= DAY {
        dailyLoss, dayStart := 0.0, now;
      }
      if now - weekStart >= WEEK {
        weeklyLoss, weekStart := 0.0, now;
      }
    }

    method RecordPnlAt(now: real, pnl: real)
      modifies this
      ensures State() == RecordPnl(old(State()), now, pnl)
    {
      MaybeResetMeters(now);
      pnlHistory := pnlHistory + [pnl];
      if |pnlHistory| > PNL_HISTORY {
        pnlHistory := pnlHistory[|pnlHistory| - PNL_HISTORY..];
      }
      if pnl < 0.0 {
        var loss := -pnl;
        dailyLoss := dailyLoss + loss;
        weeklyLoss := weeklyLoss + loss;
      }
      if viewHistory.Some? {
        var history := viewHistory.value + [pnl];
        if |history| > PNL_HISTORY {
          history := history[|history| - PNL_HISTORY..];
        }
        viewHistory := Some(history);
      }
    }

    method SetOntology(history: seq<real>)
      modifies this`viewHistory
      ensures State() == AttachView(old(State()), history)
    {
      viewHistory := Some(history);
    }

    method UpdatePeakEquity(currentEquity: real)
      modifies this`peakEquity
      ensures State() == UpdatePeak(old(State()), currentEquity)
    {
      if currentEquity > peakEquity {
        peakEquity := currentEquity;
      }
    }

    method CheckLosses(equity: real, vol: real) returns (deny: Option<string>)
      requires initialCapital > 0.0
      modifies this`emergencyStop, this`emergencyReason, this`peakEquity
      ensures Outcome(State(), deny) == LossChecks(old(State()), config, equity, vol)
    {
      if vol > 0.0 {
        var dynamicLimit := Max(0.02, Min(0.05, vol * 2.0));
        var base := if equity > 0.0 then equity else initialCapital;
        if Ratio(dailyLoss, base) >= dynamicLimit {
          TriggerEmergency("dynamic_daily_loss");
          return Some("dynamic_daily_loss");
        }
      } else {
        if Ratio(dailyLoss, initialCapital) >= config.maxDaily {
          TriggerEmergency("static_daily_loss");
          return Some("static_daily_loss");
        }
      }
      if Ratio(weeklyLoss, initialCapital) >= config.maxWeekly {
        TriggerEmergency("weekly_loss");
        return Some("weekly_loss");
      }
      UpdatePeakEquity(equity);
      if peakEquity > 0.0 {
        if Ratio(peakEquity - equity, peakEquity) >= config.maxDrawdown {
          TriggerEmergency("max_drawdown");
          return Some("max_drawdown");
        }
      }
      return None;
    }

    method CheckView(v: View) returns (deny: Option<string>)
      modifies this`emergencyStop, this`emergencyReason
      ensures Outcome(State(), deny) == ViewChecks(old(State()), v)
    {
      if v.daily {
        TriggerEmergency("dynamic_daily_loss");
        return Some("dynamic_daily_loss");
      }
      if v.weekly {
        TriggerEmergency("weekly_loss");
        return Some("weekly_loss");
      }
      if v.drawdown {
        TriggerEmergency("max_drawdown");
        return Some("max_drawdown");
      }
      return None;
    }

    method CheckExposureAndVol(base: real, exposure: real, vol: real) returns (deny: Option<string>)
      modifies this`emergencyStop, this`emergencyReason, this`volHistory
      ensures Outcome(State(), deny) == ExposureChecks(old(State()), config, base, exposure, vol)
    {
      if base > 0.0 && Ratio(exposure, base) > config.maxExposure {
        if config.exposureLatches {
          TriggerEmergency("max_exposure");
        }
        return Some("max_exposure");
      }
      if vol > 0.0 {
        volHistory := volHistory + [vol];
        if |volHistory| > VOL_HISTORY {
          volHistory := volHistory[|volHistory| - VOL_HISTORY..];
        }
        if Spikes(volHistory, vol) {
          return Some("volatility_spike");
        }
      }
      return None;
    }

    method Check(q: Query) returns (ok: bool)
      modifies this
      ensures State() == CheckRisk(old(State()), config, q)
      ensures ok <==> Accepts(old(State()), config, q)
    {
      hide LossChecks, ViewChecks, ExposureChecks, Spikes, Ratio, Due;
      lastRiskDeny := None;
      if emergencyStop {
        lastRiskDeny := Some(LatchedReason(State()));
        return false;
      }
      MaybeResetMeters(q.now);
      if initialCapital <= 0.0 {
        lastRiskDeny := Some("invalid_capital");
        return false;
      }
      var deny;
      match q.view {
        case Some(v) => deny := CheckView(v);
        case None => deny := CheckLosses(q.equity, q.vol);
      }
      if deny.None? {
        if q.varBreach.Some? {
          TriggerEmergency(q.varBreach.value);
          deny := q.varBreach;
        } else {
          deny := CheckExposureAndVol(if q.view.Some? then q.view.value.nav else q.equity, q.exposure, q.vol);
        }
      }
      lastRiskDeny := deny;
      return deny.None?;
    }
  }

  // ----------------------------------------------------------------------- runs

  datatype Event =
    | Pnl(now: real, pnl: real)
    | Asked(q: Query)
    | Tripped(code: string)
    | Reset
    | Peak(equity: real)
    | Attached(history: seq<real>)

  function Step(s: Risk, c: Config, e: Event): Risk {
    match e
    case Pnl(now, pnl) => RecordPnl(s, now, pnl)
    case Asked(q) => CheckRisk(s, c, q)
    case Tripped(code) => Trip(s, code)
    case Reset => ResetEmergency(s)
    case Peak(equity) => UpdatePeak(s, equity)
    case Attached(history) => AttachView(s, history)
  }

  function Run(s: Risk, c: Config, es: seq<Event>): Risk {
    if es == [] then s else Step(Run(s, c, es[..|es| - 1]), c, es[|es| - 1])
  }

  /** Once tripped, every check is refused with the same reason until a reset,
      and the reason does not change. */
  lemma {:induction false} LatchHolds(s: Risk, c: Config, es: seq<Event>)
    requires s.emergency && forall i :: 0 <= i < |es| ==> !es[i].Reset?
    ensures Run(s, c, es).emergency && Run(s, c, es).reason == s.reason
    ensures forall i :: 0 <= i < |es| && es[i].Asked? ==>
      !Accepts(Run(s, c, es[..i]), c, es[i].q)
      && Step(Run(s, c, es[..i]), c, es[i]).deny == Some(LatchedReason(s))
  {
    if es != [] {
      var init := es[..|es| - 1];
      LatchHolds(s, c, init);
      forall i | 0 <= i < |es| && es[i].Asked?
        ensures !Accepts(Run(s, c, es[..i]), c, es[i].q)
        ensures Step(Run(s, c, es[..i]), c, es[i]).deny == Some(LatchedReason(s))
      {
        if i < |init| {
          assert init[i] == es[i] && init[..i] == es[..i];
        }
      }
    }
  }

  /** Refusals that do not latch: a full book, a volatility spike, no capital. */
  predicate Latching(c: Config, code: string) {
    code != "invalid_capital" && code != "volatility_spike" && (code == "max_exposure" ==> c.exposureLatches)
  }

  /** The VaR verdict is one of its own three codes. */
  predicate GoodQuery(q: Query) {
    q.varBreach.Some? ==> q.varBreach.value in {"var_99_breach", "cvar_975_breach", "stressed_var_breach"}
  }

  /** The code an event trips an open latch with. */
  function TripCode(s: Risk, c: Config, e: Event): Option<string> {
    match e
    case Tripped(code) => Some(code)
    case Asked(q) =>
      var deny := Examine(s, c, q).deny;
      if deny.Some? && Latching(c, deny.value) then deny else None
    case _ => None
  }

  /** The first code since the last reset. */
  function FirstCode(s: Risk, c: Config, es: seq<Event>): Option<string> {
    if es == [] then None
    else
      var before, e := es[..|es| - 1], es[|es| - 1];
      if e.Reset? then None
      else if FirstCode(s, c, before).Some? then FirstCode(s, c, before)
      else TripCode(Run(s, c, before), c, e)
  }

  /** What a group of checks does to an open latch. */
  predicate Trips(s: Risk, c: Config, o: Outcome) {
    var code := if o.deny.Some? && Latching(c, o.deny.value) then o.deny else None;
    o.risk.emergency == code.Some? && o.risk.reason == if code.Some? then code else s.reason
  }

  lemma {:induction false} GroupsTrip(s: Risk, c: Config, v: View, equity: real, base: real, exposure: real, vol: real)
    requires !s.emergency
    ensures Trips(s, c, ViewChecks(s, v)) && Trips(s, c, ExposureChecks(s, c, base, exposure, vol))
    ensures s.initialCapital > 0.0 ==> Trips(s, c, LossChecks(s, c, equity, vol))
  {
    hide Ratio, Spikes, Max, Min, LastOf;
  }

  lemma {:induction false} CheckTrips(s: Risk, c: Config, q: Query)
    requires !s.emergency && GoodQuery(q)
    ensures var t := CheckRisk(s, c, q);
      t.emergency == TripCode(s, c, Asked(q)).Some?
      && (t.emergency ==> t.reason == TripCode(s, c, Asked(q))) && (!t.emergency ==> t.reason == s.reason)
  {
    hide LossChecks, ViewChecks, ExposureChecks, Due;
    var t := MaybeReset(s.(deny := None), q.now);
    if t.initialCapital > 0.0 {
      var view := q.view.GetOr(View(false, false, false, 0.0));
      GroupsTrip(t, c, view, q.equity, 0.0, 0.0, q.vol);
      var losses := if q.view.Some? then ViewChecks(t, view) else LossChecks(t, c, q.equity, q.vol);
      if losses.deny.None? {
        var base := if q.view.Some? then q.view.value.nav else q.equity;
        GroupsTrip(losses.risk, c, view, q.equity, base, q.exposure, q.vol);
      }
    }
  }

  /** On every run the latch is set exactly when something tripped it since the
      last reset, and its reason is the first code since then. */
  lemma {:induction false} ReasonIsFirstCode(initial: real, start: real, c: Config, es: seq<Event>)
    requires forall i :: 0 <= i < |es| && es[i].Asked? ==> GoodQuery(es[i].q)
    ensures var s := Fresh(initial, start);
      var t := Run(s, c, es);
      t.reason == FirstCode(s, c, es) && t.emergency == t.reason.Some?
  {
    if es != [] {
      var before, e := es[..|es| - 1], es[|es| - 1];
      var s := Fresh(initial, start);
      ReasonIsFirstCode(initial, start, c, before);
      var m := Run(s, c, before);
      if e.Asked? && !m.emergency {
        CheckTrips(m, c, e.q);
      }
      hide LossChecks, ViewChecks, ExposureChecks;
    }
  }

  // --------------------------------------------------------------- accumulators

  function MeterOf(s: Risk, weekly: bool): Meter {
    if weekly then s.week else s.day
  }

  function Period(weekly: bool): real {
    if weekly then WEEK else DAY
  }

  function LossIn(e: Event): real {
    if e.Pnl? && e.pnl < 0.0 then -e.pnl else 0.0
  }

  /** An event whose clock reading starts a new period. A latched check does not
      look at the clock. */
  predicate Resets(s: Risk, e: Event, weekly: bool) {
    match e
    case Pnl(now, _) => Due(MeterOf(s, weekly), Period(weekly), now)
    case Asked(q) => !s.emergency && Due(MeterOf(s, weekly), Period(weekly), q.now)
    case _ => false
  }

  /** The index of the event that started the current period. */
  function PeriodStart(s: Risk, c: Config, es: seq<Event>, weekly: bool): nat {
    if es == [] then 0
    else
      var before := es[..|es| - 1];
      if Resets(Run(s, c, before), es[|es| - 1], weekly) then |es| - 1 else PeriodStart(s, c, before, weekly)
  }

  function LossesFrom(es: seq<Event>, start: nat): real {
    if |es| <= start then 0.0 else LossesFrom(es[..|es| - 1], start) + LossIn(es[|es| - 1])
  }

  lemma {:induction false} PeriodStartInRange(s: Risk, c: Config, es: seq<Event>, weekly: bool)
    ensures PeriodStart(s, c, es, weekly) <= |es|
  {
    if es != [] {
      PeriodStartInRange(s, c, es[..|es| - 1], weekly);
    }
  }

  lemma {:induction false} ChecksLeaveMeters(s: Risk, c: Config, q: Query)
    ensures var t := CheckRisk(s, c, q);
      if s.emergency then t.day == s.day && t.week == s.week
      else t.day == Rolled(s.day, DAY, q.now) && t.week == Rolled(s.week, WEEK, q.now)
  {
    hide Ratio, Spikes, Max, Min;
  }

  lemma {:induction false} MeterStep(s: Risk, c: Config, e: Event, weekly: bool)
    ensures MeterOf(Step(s, c, e), weekly).loss
            == (if Resets(s, e, weekly) then 0.0 else MeterOf(s, weekly).loss) + LossIn(e)
    ensures !Resets(s, e, weekly) ==> MeterOf(Step(s, c, e), weekly).start == MeterOf(s, weekly).start
    ensures Resets(s, e, weekly) ==>
      MeterOf(Step(s, c, e), weekly).start == if e.Pnl? then e.now else e.q.now
  {
    if e.Asked? {
      ChecksLeaveMeters(s, c, e.q);
    }
    hide CheckRisk;
  }

  /** The daily and the weekly figure are exactly the losses recorded since their
      own last reset. */
  lemma {:induction false} MetersAreLossesSinceReset(initial: real, start: real, c: Config, es: seq<Event>,
                                                     weekly: bool)
    ensures var s := Fresh(initial, start);
      MeterOf(Run(s, c, es), weekly).loss == LossesFrom(es, PeriodStart(s, c, es, weekly))
  {
    if es != [] {
      var s, before, e := Fresh(initial, start), es[..|es| - 1], es[|es| - 1];
      MetersAreLossesSinceReset(initial, start, c, before, weekly);
      MeterStep(Run(s, c, before), c, e, weekly);
      PeriodStartInRange(s, c, before, weekly);
      if Resets(Run(s, c, before), e, weekly) {
        assert LossesFrom(before, |es| - 1) == 0.0;
      }
    }
  }

  /** Every loss counted was recorded less than one period after the current
      period began. */
  lemma {:induction false} CountedLossesAreRecent(s: Risk, c: Config, es: seq<Event>, weekly: bool, i: nat)
    requires PeriodStart(s, c, es, weekly) <= i < |es| && es[i].Pnl?
    ensures es[i].now - MeterOf(Run(s, c, es), weekly).start < if weekly then 604800.0 else 86400.0
  {
    var before, e := es[..|es| - 1], es[|es| - 1];
    MeterStep(Run(s, c, before), c, e, weekly);
    if i < |es| - 1 {
      assert before[i] == es[i];
      CountedLossesAreRecent(s, c, before, weekly, i);
    }
  }

  // ------------------------------------------------------------ drawdown and peak

  /** Without the shared view, an accepted check means: not latched, all losses
      below their limits, and equity within the drawdown limit of the peak. */
  lemma {:induction false} AcceptedIsWithinLimits(s: Risk, c: Config, q: Query)
    requires q.view.None? && Accepts(s, c, q)
    ensures var t := CheckRisk(s, c, q);
      && !s.emergency && !t.emergency && s.initialCapital > 0.0
      && t.peak == Max(s.peak, q.equity)
      && (t.peak > 0.0 ==> Ratio(t.peak - q.equity, t.peak) < c.maxDrawdown)
      && Ratio(t.week.loss, s.initialCapital) < c.maxWeekly
      && (q.vol > 0.0 ==>
            Ratio(t.day.loss, if q.equity > 0.0 then q.equity else s.initialCapital) < DynamicLimit(q.vol))
      && (q.vol <= 0.0 ==> Ratio(t.day.loss, s.initialCapital) < c.maxDaily)
      && (q.equity > 0.0 ==> Ratio(q.exposure, q.equity) <= c.maxExposure)
      && q.varBreach.None?
  {
    hide Ratio, Spikes;
  }

  /** Without the shared view a check is accepted exactly under these conditions,
      all of which can be read off before it. */
  lemma {:induction false} AcceptsExactly(s: Risk, c: Config, q: Query)
    requires q.view.None?
    ensures var day, week := Rolled(s.day, DAY, q.now).loss, Rolled(s.week, WEEK, q.now).loss;
      var peak := Max(s.peak, q.equity);
      Accepts(s, c, q) <==>
        && !s.emergency && s.initialCapital > 0.0
        && (if q.vol > 0.0
            then Ratio(day, if q.equity > 0.0 then q.equity else s.initialCapital) < DynamicLimit(q.vol)
            else Ratio(day, s.initialCapital) < c.maxDaily)
        && Ratio(week, s.initialCapital) < c.maxWeekly
        && (peak > 0.0 ==> Ratio(peak - q.equity, peak) < c.maxDrawdown)
        && q.varBreach.None?
        && (q.equity > 0.0 ==> Ratio(q.exposure, q.equity) <= c.maxExposure)
        && (q.vol > 0.0 ==> !Spikes(LastOf(s.vols + [q.vol], VOL_HISTORY), q.vol))
  {
    hide Ratio, Spikes, Due, LastOf;
  }

  /** With the shared view, likewise; all figures are then the view's. */
  lemma {:induction false} AcceptsExactlyWithView(s: Risk, c: Config, q: Query)
    requires q.view.Some?
    ensures var v := q.view.value;
      Accepts(s, c, q) <==>
        && !s.emergency && s.initialCapital > 0.0
        && !v.daily && !v.weekly && !v.drawdown
        && q.varBreach.None?
        && (v.nav > 0.0 ==> Ratio(q.exposure, v.nav) <= c.maxExposure)
        && (q.vol > 0.0 ==> !Spikes(LastOf(s.vols + [q.vol], VOL_HISTORY), q.vol))
  {
    hide Ratio, Spikes, Due, LastOf;
  }

  /** An unlatched manager refuses with the code of the first check that fails. */
  lemma {:induction false} RefusalCodes(s: Risk, c: Config, q: Query)
    requires !s.emergency && s.initialCapital > 0.0
    ensures var deny := CheckRisk(s, c, q).deny;
      var peak := Max(s.peak, q.equity);
      var base := if q.equity > 0.0 then q.equity else s.initialCapital;
      var daily := if q.view.Some? then q.view.value.daily
                   else q.vol > 0.0 && Ratio(Rolled(s.day, DAY, q.now).loss, base) >= DynamicLimit(q.vol);
      var still := q.view.None? && q.vol <= 0.0
                   && Ratio(Rolled(s.day, DAY, q.now).loss, s.initialCapital) >= c.maxDaily;
      var weekly := if q.view.Some? then q.view.value.weekly
                    else Ratio(Rolled(s.week, WEEK, q.now).loss, s.initialCapital) >= c.maxWeekly;
      var fallen := if q.view.Some? then q.view.value.drawdown
                    else peak > 0.0 && Ratio(peak - q.equity, peak) >= c.maxDrawdown;
      && (deny == Some("dynamic_daily_loss") <== daily)
      && (deny == Some("static_daily_loss") <== still)
      && (deny == Some("weekly_loss") <== weekly && !daily && !still)
      && (deny == Some("max_drawdown") <== fallen && !weekly && !daily && !still)
      && (deny == q.varBreach <== q.varBreach.Some? && !fallen && !weekly && !daily && !still)
      && (q.varBreach.None? && !fallen && !weekly && !daily && !still ==>
            var nav := if q.view.Some? then q.view.value.nav else q.equity;
            if nav > 0.0 && Ratio(q.exposure, nav) > c.maxExposure then deny == Some("max_exposure")
            else if q.vol > 0.0 && Spikes(LastOf(s.vols + [q.vol], VOL_HISTORY), q.vol) then
              deny == Some("volatility_spike")
            else deny == None)
  {
    hide Ratio, Spikes, Due, LastOf, DynamicLimit;
  }

  lemma {:induction false} OtherRefusals(s: Risk, c: Config, q: Query)
    ensures var deny := CheckRisk(s, c, q).deny;
      && (s.emergency ==> deny == Some(if s.reason.GetOr("") == "" then "emergency_latched" else s.reason.value))
      && (!s.emergency && s.initialCapital <= 0.0 ==> deny == Some("invalid_capital"))
  {
    hide Ratio, Spikes, Due, LastOf;
  }

  /** The volatility-scaled limit is twice the volatility between two and five percent. */
  lemma {:induction false} DynamicLimitRange(vol: real)
    ensures 0.02 <= DynamicLimit(vol) <= 0.05
    ensures 0.01 <= vol <= 0.025 ==> DynamicLimit(vol) == vol + vol
    ensures vol <= 0.01 ==> DynamicLimit(vol) == 0.02
    ensures vol >= 0.025 ==> DynamicLimit(vol) == 0.05
  {
  }

  /** A spike is more than twice the average of at least ten volatilities. */
  lemma {:induction false} SpikeExactly(vols: seq<real>, vol: real)
    ensures Spikes(vols, vol) <==>
      |vols| >= 10 && VolSum(vols) > 0.0 && Times(vol, |vols| as real) > 2.0 * VolSum(vols)
  {
    if |vols| >= 10 {
      var n, sum := |vols| as real, VolSum(vols);
      var avg := Ratio(sum, n);
      assert avg * n == sum;
      RatioAbove(sum, n, 0.0);
      TimesIs(0.0, n);
      TimesIs(vol, n);
      if vol > 2.0 * avg {
        ProductOrder(n, 2.0 * avg, vol);
      } else {
        ProductOrder(n, vol, 2.0 * avg);
      }
      assert n * (2.0 * avg) == 2.0 * sum;
      hide VolSum, Times, Ratio;
    }
  }

  lemma {:induction false} SumAppend(vols: seq<real>, vol: real)
    ensures VolSum(vols + [vol]) == VolSum(vols) + vol && VolSum([]) == 0.0
  {
    assert (vols + [vol])[..|vols|] == vols;
  }

  lemma {:induction false} LastOfIsSuffix(xs: seq<real>, n: nat)
    ensures var r := LastOf(xs, n);
      |r| == (if |xs| < n then |xs| else n) && r == xs[|xs| - |r|..]
  {
  }

  /** A volatility enters the history exactly when the check reaches it: it is accepted
      or refused as a spike. */
  lemma {:induction false} VolatilityIsKept(s: Risk, c: Config, q: Query)
    ensures var t := CheckRisk(s, c, q);
      t.vols == if q.vol > 0.0 && (t.deny.None? || t.deny == Some("volatility_spike")) && !s.emergency
                   && q.varBreach.None?
                then LastOf(s.vols + [q.vol], 200) else s.vols
  {
    hide Ratio, Spikes, Due, LastOf;
  }

  /** Equities the peak has taken note of. */
  predicate Noted(s: Risk, c: Config, es: seq<Event>, i: nat, equity: real)
    requires i < |es|
  {
    es[i] == Peak(equity)
    || (es[i].Asked? && es[i].q.view.None? && es[i].q.equity == equity && Accepts(Run(s, c, es[..i]), c, es[i].q))
  }

  lemma {:induction false} PeakNeverFalls(s: Risk, c: Config, e: Event)
    ensures Step(s, c, e).peak >= s.peak
    ensures Step(s, c, e).initialCapital == s.initialCapital
  {
    hide Ratio, Spikes;
  }

  lemma {:induction false} PeakCovers(s: Risk, c: Config, es: seq<Event>, i: nat, equity: real)
    requires i < |es| && Noted(s, c, es, i, equity)
    ensures Run(s, c, es).peak >= equity
  {
    var before, e := es[..|es| - 1], es[|es| - 1];
    if i < |es| - 1 {
      assert before[i] == es[i] && before[..i] == es[..i];
      PeakCovers(s, c, before, i, equity);
      PeakNeverFalls(Run(s, c, before), c, e);
    } else if e.Asked? {
      AcceptedIsWithinLimits(Run(s, c, before), c, e.q);
    }
    hide CheckRisk, Examine;
  }

  function EquityIn(e: Event): Option<real> {
    match e
    case Peak(equity) => Some(equity)
    case Asked(q) => Some(q.equity)
    case _ => None
  }

  lemma {:induction false} PeakStep(s: Risk, c: Config, e: Event)
    ensures var p := Step(s, c, e).peak;
      p == s.peak || EquityIn(e) == Some(p)
  {
    hide Ratio, Spikes, Due, LastOf;
  }

  /** The peak is attained: it is the initial capital or the equity of some event. */
  lemma {:induction false} PeakIsAttained(initial: real, start: real, c: Config, es: seq<Event>)
    ensures var peak := Run(Fresh(initial, start), c, es).peak;
      peak == initial || exists i :: 0 <= i < |es| && EquityIn(es[i]) == Some(peak)
  {
    hide Step;
    if es != [] {
      var before, e := es[..|es| - 1], es[|es| - 1];
      var m := Run(Fresh(initial, start), c, before);
      PeakIsAttained(initial, start, c, before);
      PeakStep(m, c, e);
      if m.peak != initial {
        var i :| 0 <= i < |before| && EquityIn(before[i]) == Some(m.peak);
        assert es[i] == before[i];
      }
      assert EquityIn(es[|es| - 1]) == EquityIn(e);
    }
  }

  /** The profits and losses recorded, in order. */
  function Recorded(es: seq<Event>): seq<real> {
    if es == [] then []
    else
      var e := es[|es| - 1];
      Recorded(es[..|es| - 1]) + if e.Pnl? then [e.pnl] else []
  }

  lemma {:induction false} LastOfLast(xs: seq<real>, x: real, n: nat)
    requires n > 0
    ensures LastOf(LastOf(xs, n) + [x], n) == LastOf(xs + [x], n)
  {
  }

  lemma {:induction false} ChecksLeaveHistory(s: Risk, c: Config, q: Query)
    ensures CheckRisk(s, c, q).pnls == s.pnls && CheckRisk(s, c, q).viewPnls == s.viewPnls
  {
    hide Ratio, Spikes, Due, LastOf;
  }

  /** The history that feeds the value at risk holds the last 500 records. */
  lemma {:induction false} HistoryIsRecent(initial: real, start: real, c: Config, es: seq<Event>)
    ensures Run(Fresh(initial, start), c, es).pnls == LastOf(Recorded(es), 500)
  {
    hide LastOf, CheckRisk, Due;
    if es != [] {
      var before, e := es[..|es| - 1], es[|es| - 1];
      HistoryIsRecent(initial, start, c, before);
      if e.Pnl? {
        LastOfLast(Recorded(before), e.pnl, PNL_HISTORY);
      } else {
        assert Recorded(es) == Recorded(before);
        if e.Asked? {
          ChecksLeaveHistory(Run(Fresh(initial, start), c, before), c, e.q);
        }
      }
    } else {
      EmptyHistory();
    }
  }

  /** Once the attached view has the manager's own history, the two stay equal. */
  lemma {:induction false} HistoriesStayEqual(s: Risk, c: Config, es: seq<Event>)
    requires s.viewPnls == Some(s.pnls)
    requires forall i :: 0 <= i < |es| ==> !es[i].Attached?
    ensures Run(s, c, es).viewPnls == Some(Run(s, c, es).pnls)
  {
    hide LastOf, CheckRisk, Due;
    if es != [] {
      var before, e := es[..|es| - 1], es[|es| - 1];
      HistoriesStayEqual(s, c, before);
      if e.Asked? {
        ChecksLeaveHistory(Run(s, c, before), c, e.q);
      }
    }
  }

  lemma {:induction false} EmptyHistory()
    ensures LastOf([], PNL_HISTORY) == []
  {
  }

  /** Over a run: an accepted equity lies within the drawdown limit of a peak
      that is at least every equity accepted or reported before it. */
  lemma {:induction false} AcceptedNearRunningPeak(s: Risk, c: Config, es: seq<Event>, i: nat, equity: real,
                                                   q: Query)
    requires i < |es| && Noted(s, c, es, i, equity)
    requires q.view.None? && Accepts(Run(s, c, es), c, q)
    ensures var peak := CheckRisk(Run(s, c, es), c, q).peak;
      peak >= equity && peak >= q.equity && (peak > 0.0 ==> Ratio(peak - q.equity, peak) < c.maxDrawdown)
  {
    PeakCovers(s, c, es, i, equity);
    AcceptedIsWithinLimits(Run(s, c, es), c, q);
    hide CheckRisk, Examine;
  }
}
