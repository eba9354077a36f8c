/** Concentration limits per coin, per sector and in total. */
module Concentration {
  import opened Common
  import opened MapSum

  // An open position as the check reads it.
  datatype Held = Held(size: Option<real>, notional: Option<real>) {
    /** Size when it is there and not zero, otherwise notional. */
    function Exposure(): real {
      if size.GetOr(0.0) != 0.0 then size.GetOr(0.0) else notional.GetOr(0.0)
    }
  }

  datatype Limits = Limits(sectors: map<string, string>, maxSector: real, maxSingle: real, maxTotal: real) {
    function Sector(symbol: string): string {
      if symbol in sectors then sectors[symbol] else "OTHER"
    }
  }

  datatype Verdict = Allowed | TotalLimit | CoinLimit | SectorLimit

  ghost function InSector(l: Limits, exposures: map<string, real>, sector: string): map<string, real> {
    map s | s in exposures && l.Sector(s) == sector :: exposures[s]
  }

  function Of(exposures: map<string, real>, symbol: string): real {
    if symbol in exposures then exposures[symbol] else 0.0
  }

  ghost function Judge(l: Limits, exposures: map<string, real>, symbol: string, notional: real, nav: real): Verdict {
    if nav <= 0.0 then Allowed
    else if Ratio(Total(exposures) + notional, nav) > l.maxTotal then TotalLimit
    else if Ratio(Of(exposures, symbol) + notional, nav) > l.maxSingle then CoinLimit
    else if Ratio(Total(InSector(l, exposures, l.Sector(symbol))) + notional, nav) > l.maxSector then SectorLimit
    else Allowed
  }

  function Exposures(open: map<string, Held>): map<string, real> {
    map s | s in open :: open[s].Exposure()
  }

  lemma {:induction false} SectorStep(l: Limits, m: map<string, real>, keys: set<string>, sector: string, s: string)
    requires s in m && s in keys
    ensures Total(Restrict(InSector(l, m, sector), keys))
            == Total(Restrict(InSector(l, m, sector), keys - {s})) + (if l.Sector(s) == sector then m[s] else 0.0)
  {
    var part := InSector(l, m, sector);
    if s in part {
      RestrictStep(part, keys, s);
    } else {
      assert Restrict(part, keys) == Restrict(part, keys - {s});
    }
  }

  /** The sums of the check, as loops over the open positions. */
  method Sums(l: Limits, exposures: map<string, real>, sector: string) returns (total: real, inSector: real)
    ensures total == Total(exposures) && inSector == Total(InSector(l, exposures, sector))
  {
    total, inSector := 0.0, 0.0;
    var rest := exposures.Keys;
    ghost var part := InSector(l, exposures, sector);
    assert Restrict(exposures, rest) == exposures && Restrict(part, rest) == part;
    while rest != {}
      invariant rest <= exposures.Keys
      invariant total + Total(Restrict(exposures, rest)) == Total(exposures)
      invariant inSector + Total(Restrict(part, rest)) == Total(part)
    {
      var s :| s in rest;
      RestrictStep(exposures, rest, s);
      SectorStep(l, exposures, rest, sector, s);
      total := total + exposures[s];
      if l.Sector(s) == sector {
        inSector := inSector + exposures[s];
      }
      rest := rest - {s};
    }
    assert Restrict(exposures, rest) == map[] && Restrict(part, rest) == map[];
  }

  method CheckConcentration(l: Limits, symbol: string, notional: real, nav: real, open: map<string, Held>)
    returns (v: Verdict)
    ensures v == Judge(l, Exposures(open), symbol, notional, nav)
  {
    if nav <= 0.0 {
      return Allowed;
    }
    var current := map s | s in open :: open[s].Exposure();
    assert current == Exposures(open);
    var total, inSector := Sums(l, current, l.Sector(symbol));
    if (total + notional) / nav > l.maxTotal {
      return TotalLimit;
    }
    if (Of(current, symbol) + notional) / nav > l.maxSingle {
      return CoinLimit;
    }
    if (inSector + notional) / nav > l.maxSector {
      return SectorLimit;
    }
    return Allowed;
  }

  // ---------------------------------------------------------------- monitoring

  ghost function SectorTable(l: Limits, exposures: map<string, real>): map<string, real> {
    map c | c in (set s | s in exposures :: l.Sector(s)) :: Total(InSector(l, exposures, c))
  }

  /** The monitoring table, before display scaling. */
  method SectorBreakdown(l: Limits, open: map<string, Held>) returns (table: map<string, real>)
    ensures table == SectorTable(l, Exposures(open))
  {
    table := map[];
    ghost var m := Exposures(open);
    var rest, done: set<string> := open.Keys, {};
    while rest != {}
      invariant rest + done == open.Keys && rest !! done
      invariant table == SectorTable(l, Restrict(m, done))
    {
      var s :| s in rest;
      var c := l.Sector(s);
      AddToTable(l, m, done, s);
      table := table[c := (if c in table then table[c] else 0.0) + open[s].Exposure()];
      rest, done := rest - {s}, done + {s};
    }
    assert Restrict(m, done) == m;
  }

  lemma {:induction false} TableEntry(l: Limits, m: map<string, real>, done: set<string>, s: string, c: string)
    requires s in m && s !in done
    ensures Total(InSector(l, Restrict(m, done + {s}), c))
            == Total(InSector(l, Restrict(m, done), c)) + (if l.Sector(s) == c then m[s] else 0.0)
  {
    var a, b := Restrict(m, done), Restrict(m, done + {s});
    assert b == a[s := m[s]];
    var part := InSector(l, a, c);
    if l.Sector(s) == c {
      TotalUpdate(part, s, m[s]);
      assert InSector(l, b, c) == part[s := m[s]];
    } else {
      assert InSector(l, b, c) == part;
    }
  }

  lemma {:induction false} AddToTable(l: Limits, m: map<string, real>, done: set<string>, s: string)
    requires s in m && s !in done
    ensures var before, after := SectorTable(l, Restrict(m, done)), SectorTable(l, Restrict(m, done + {s}));
      var c := l.Sector(s);
      after == before[c := (if c in before then before[c] else 0.0) + m[s]]
  {
    hide Total;
    var a, b, c := Restrict(m, done), Restrict(m, done + {s}), l.Sector(s);
    var before, after := SectorTable(l, a), SectorTable(l, b);
    assert b.Keys == a.Keys + {s};
    assert after.Keys == before.Keys + {c};
    forall d | d in after
      ensures after[d] == if d == c then (if c in before then before[c] else 0.0) + m[s] else before[d]
    {
      TableEntry(l, m, done, s, d);
      if d == c && c !in before {
        EmptySector(l, a, c);
      }
    }
  }

  lemma {:induction false} EmptySector(l: Limits, m: map<string, real>, c: string)
    requires c !in SectorTable(l, m)
    ensures Total(InSector(l, m, c)) == 0.0
  {
  }

  // ----------------------------------------------------------------- whole runs

  // Exposure changes at a fixed NAV: accepted or refused additions, and reductions.
  datatype Move = Add(symbol: string, notional: real) | Reduce(symbol: string, left: real)

  ghost function Apply(l: Limits, nav: real, m: map<string, real>, mv: Move): map<string, real> {
    match mv
    case Add(s, n) => if Judge(l, m, s, n, nav) == Allowed then m[s := Of(m, s) + n] else m
    case Reduce(s, left) => if left == 0.0 then m - {s} else m[s := left]
  }

  predicate Sensible(m: map<string, real>, mv: Move) {
    match mv
    case Add(_, n) => n >= 0.0
    case Reduce(s, left) => s in m && 0.0 <= left <= m[s]
  }

  ghost predicate SensibleRun(l: Limits, nav: real, m: map<string, real>, mvs: seq<Move>)
    decreases mvs
  {
    mvs == [] || (Sensible(m, mvs[0]) && SensibleRun(l, nav, Apply(l, nav, m, mvs[0]), mvs[1..]))
  }

  ghost function Run(l: Limits, nav: real, m: map<string, real>, mvs: seq<Move>): map<string, real>
    decreases mvs
  {
    if mvs == [] then m else Run(l, nav, Apply(l, nav, m, mvs[0]), mvs[1..])
  }

  /** Every limit holds. */
  ghost predicate Within(l: Limits, nav: real, m: map<string, real>) {
    && Total(m) <= Times(l.maxTotal, nav)
    && (forall s :: s in m ==> 0.0 <= m[s] <= Times(l.maxSingle, nav))
    && forall c :: Total(InSector(l, m, c)) <= Times(l.maxSector, nav)
  }

  lemma {:induction false} SectorAfter(l: Limits, m: map<string, real>, s: string, v: real, c: string)
    ensures Total(InSector(l, m[s := v], c))
            == Total(InSector(l, m, c)) + (if l.Sector(s) == c then v - Of(m, s) else 0.0)
    ensures Total(InSector(l, m - {s}, c))
            == Total(InSector(l, m, c)) - (if l.Sector(s) == c then Of(m, s) else 0.0)
  {
    var part := InSector(l, m, c);
    if l.Sector(s) == c {
      TotalUpdate(part, s, v);
      assert InSector(l, m[s := v], c) == part[s := v];
      assert InSector(l, m - {s}, c) == part - {s};
      if s in m {
        TotalRemove(part, s);
      } else {
        assert part - {s} == part;
      }
    } else {
      assert InSector(l, m[s := v], c) == part && InSector(l, m - {s}, c) == part;
    }
  }

  lemma {:induction false} AddStaysWithin(l: Limits, nav: real, m: map<string, real>, s: string, n: real)
    requires nav > 0.0 && n >= 0.0 && Within(l, nav, m)
    ensures Within(l, nav, Apply(l, nav, m, Add(s, n)))
  {
    hide Ratio, Times, Total;
    if Judge(l, m, s, n, nav) == Allowed {
      var sum := Of(m, s) + n;
      RatioAbove(Total(m) + n, nav, l.maxTotal);
      RatioAbove(sum, nav, l.maxSingle);
      RatioAbove(Total(InSector(l, m, l.Sector(s))) + n, nav, l.maxSector);
      TotalUpdate(m, s, sum);
      var after := m[s := sum];
      forall c
        ensures Total(InSector(l, after, c)) <= Times(l.maxSector, nav)
      {
        SectorAfter(l, m, s, sum, c);
      }
    }
  }

  lemma {:induction false} ReduceStaysWithin(l: Limits, nav: real, m: map<string, real>, s: string, left: real)
    requires Within(l, nav, m) && s in m && 0.0 <= left <= m[s]
    ensures Within(l, nav, Apply(l, nav, m, Reduce(s, left)))
  {
    TotalUpdate(m, s, left);
    TotalRemove(m, s);
    hide Times;
    var after := Apply(l, nav, m, Reduce(s, left));
    forall c
      ensures Total(InSector(l, after, c)) <= Times(l.maxSector, nav)
    {
      SectorAfter(l, m, s, left, c);
    }
  }

  lemma {:induction false} RunStaysWithin(l: Limits, nav: real, m: map<string, real>, mvs: seq<Move>)
    requires nav > 0.0 && Within(l, nav, m) && SensibleRun(l, nav, m, mvs)
    ensures Within(l, nav, Run(l, nav, m, mvs))
    decreases mvs
  {
    if mvs != [] {
      match mvs[0] {
        case Add(s, n) => AddStaysWithin(l, nav, m, s, n);
        case Reduce(s, left) => ReduceStaysWithin(l, nav, m, s, left);
      }
      RunStaysWithin(l, nav, Apply(l, nav, m, mvs[0]), mvs[1..]);
    }
  }

  /** Starting empty at a fixed positive NAV, accepted additions and reductions
      never break a limit. */
  lemma {:induction false} LimitsHoldForever(l: Limits, nav: real, mvs: seq<Move>)
    requires nav > 0.0 && l.maxTotal >= 0.0 && l.maxSingle >= 0.0 && l.maxSector >= 0.0
    requires SensibleRun(l, nav, map[], mvs)
    ensures Within(l, nav, Run(l, nav, map[], mvs))
  {
    forall c
      ensures Total(InSector(l, map[], c)) <= Times(l.maxSector, nav)
    {
      assert InSector(l, map[], c) == map[];
      TimesMonotone(l.maxSector, 0.0, nav);
    }
    TimesMonotone(l.maxTotal, 0.0, nav);
    RunStaysWithin(l, nav, map[], mvs);
  }

  /** The check is exact: from within the limits it allows an addition precisely
      when the result is within them too, and at NAV zero or below it allows all. */
  lemma {:induction false} CheckIsExact(l: Limits, nav: real, m: map<string, real>, s: string, n: real)
    requires n >= 0.0 && Within(l, nav, m)
    ensures Judge(l, m, s, n, nav) == Allowed <==> nav <= 0.0 || Within(l, nav, m[s := Of(m, s) + n])
  {
    hide Ratio, Times, Total;
    if nav > 0.0 {
      AddStaysWithin(l, nav, m, s, n);
      var sum := Of(m, s) + n;
      var after := m[s := sum];
      RatioAbove(Total(m) + n, nav, l.maxTotal);
      RatioAbove(sum, nav, l.maxSingle);
      RatioAbove(Total(InSector(l, m, l.Sector(s))) + n, nav, l.maxSector);
      TotalUpdate(m, s, sum);
      SectorAfter(l, m, s, sum, l.Sector(s));
      assert after[s] == sum;
    }
  }

  /** A refusal names the first limit, in the order total, coin, sector, that the
      addition would break. */
  lemma {:induction false} VerdictNamesLimit(l: Limits, m: map<string, real>, s: string, n: real, nav: real)
    requires nav > 0.0
    ensures var v := Judge(l, m, s, n, nav);
      var total := Total(m) + n > Times(l.maxTotal, nav);
      var coin := Of(m, s) + n > Times(l.maxSingle, nav);
      var sector := Total(InSector(l, m, l.Sector(s))) + n > Times(l.maxSector, nav);
      && (v == TotalLimit <==> total) && (v == CoinLimit <==> coin && !total)
      && (v == SectorLimit <==> sector && !coin && !total)
  {
    RatioAbove(Total(m) + n, nav, l.maxTotal);
    RatioAbove(Of(m, s) + n, nav, l.maxSingle);
    RatioAbove(Total(InSector(l, m, l.Sector(s))) + n, nav, l.maxSector);
    hide Ratio, Times, Total;
  }

  /** Coins the sector map does not know share one sector limit. */
  lemma {:induction false} UnknownCoinsShareALimit(l: Limits, nav: real, m: map<string, real>, a: string, b: string)
    requires Within(l, nav, m) && a in m && b in m && a != b && a !in l.sectors && b !in l.sectors
    ensures m[a] + m[b] <= Times(l.maxSector, nav)
  {
    hide Times;
    var part := InSector(l, m, l.Sector(a));
    assert a in part && b in part;
    TotalRemove(part, a);
    TotalDominates(part - {a});
    assert (part - {a})[b] == m[b];
  }

  /** The monitoring table accounts for every exposure once: its lines add up to the
      total. */
  lemma {:induction false} TableAddsUp(l: Limits, m: map<string, real>)
    ensures Total(SectorTable(l, m)) == Total(m)
    decreases |m|
  {
    hide Total, SectorTable;
    if m == map[] {
      EmptyTable(l);
    } else {
      var s :| s in m;
      var rest := m - {s};
      Smaller(m, s);
      TableAddsUp(l, rest);
      OneMoreLine(l, m, s);
      TotalRemove(m, s);
      var before, c := SectorTable(l, rest), l.Sector(s);
      TotalUpdate(before, c, (if c in before then before[c] else 0.0) + m[s]);
    }
  }

  lemma {:induction false} EmptyTable(l: Limits)
    ensures SectorTable(l, map[]) == map[] && Total(map[]) == 0.0
  {
  }

  lemma {:induction false} OneMoreLine(l: Limits, m: map<string, real>, s: string)
    requires s in m
    ensures var before, c := SectorTable(l, m - {s}), l.Sector(s);
      SectorTable(l, m) == before[c := (if c in before then before[c] else 0.0) + m[s]]
  {
    var done := m.Keys - {s};
    assert Restrict(m, done) == m - {s} && Restrict(m, done + {s}) == m;
    AddToTable(l, m, done, s);
  }

  /** At NAV zero or below the check allows additions that no positive limit would:
      any exposure at all is then out of bounds. */
  lemma {:induction false} NoNavNoLimit(l: Limits, nav: real, m: map<string, real>, s: string, n: real)
    requires nav <= 0.0 && n > 0.0 && l.maxSingle >= 0.0 && Of(m, s) >= 0.0
    ensures Judge(l, m, s, n, nav) == Allowed && !Within(l, nav, m[s := Of(m, s) + n])
  {
    var after := m[s := Of(m, s) + n];
    TimesMonotone(l.maxSingle, nav, 0.0);
    TimesIs(l.maxSingle, 0.0);
    hide Times, Total;
    assert s in after && after[s] > Times(l.maxSingle, nav);
  }

  // -------------------------------------------------------- Herfindahl-Hirschman

  ghost function Weights(m: map<string, real>, nav: real): map<string, real>
    requires nav > 0.0
  {
    map s | s in m :: Ratio(m[s], nav)
  }

  ghost function Squares(w: map<string, real>): map<string, real> {
    map s | s in w :: Times(w[s], w[s])
  }

  /** The score before display rounding. */
  ghost function Score(m: map<string, real>, nav: real): real {
    if m == map[] || nav <= 0.0 then 0.0 else Total(Squares(Weights(m, nav)))
  }

  method ConcentrationScore(open: map<string, Held>, nav: real) returns (score: real)
    ensures score == Score(Exposures(open), nav)
  {
    hide Ratio, Times;
    if open == map[] || nav <= 0.0 {
      assert open == map[] ==> Exposures(open) == map[];
      return 0.0;
    }
    ghost var all := Squares(Weights(Exposures(open), nav));
    score := 0.0;
    var rest := open.Keys;
    assert Restrict(all, rest) == all;
    while rest != {}
      invariant rest <= open.Keys
      invariant score + Total(Restrict(all, rest)) == Total(all)
    {
      var s :| s in rest;
      var w := Ratio(open[s].Exposure(), nav);
      assert w == Weights(Exposures(open), nav)[s];
      RestrictStep(all, rest, s);
      assert all[s] == Times(w, w);
      score := score + Times(w, w);
      rest := rest - {s};
    }
    assert Restrict(all, rest) == map[];
    assert exists s :: s in open;
    var s :| s in open;
    assert s in Exposures(open);
  }

  /** The score is made of one square per position: each adds the square of its share of
      NAV, and no position scores nothing. */
  lemma {:induction false} ScoreAdds(m: map<string, real>, nav: real, s: string, v: real)
    requires nav > 0.0 && s !in m
    ensures Score(map[], nav) == 0.0
    ensures Score(m[s := v], nav) == Score(m, nav) + Times(Ratio(v, nav), Ratio(v, nav))
  {
    hide Times, Ratio;
    var sq := Squares(Weights(m, nav));
    TotalUpdate(sq, s, Times(Ratio(v, nav), Ratio(v, nav)));
    assert Squares(Weights(m[s := v], nav)) == sq[s := Times(Ratio(v, nav), Ratio(v, nav))];
    assert m == map[] ==> sq == map[];
  }

  lemma {:induction false} WeightsAddUp(m: map<string, real>, nav: real)
    requires nav > 0.0
    ensures Total(Weights(m, nav)) == Ratio(Total(m), nav)
    decreases |m|
  {
    hide Ratio;
    RatioAdds(0.0, 0.0, nav);
    if m == map[] {
      assert Weights(m, nav) == map[];
    } else {
      var k :| k in m;
      Smaller(m, k);
      TotalRemove(m, k);
      TotalRemove(Weights(m, nav), k);
      assert Weights(m, nav) - {k} == Weights(m - {k}, nav);
      WeightsAddUp(m - {k}, nav);
      RatioAdds(m[k], Total(m - {k}), nav);
    }
  }

  lemma {:induction false} OneSquare(w: real, cap: real, rest: real)
    requires 0.0 <= w <= cap
    ensures Times(w, w) + Times(cap, rest) <= Times(cap, w + rest)
  {
    ProductOrder(w, w, cap);
    assert cap * (w + rest) == w * cap + cap * rest;
  }

  lemma {:induction false} SquaresBounded(w: map<string, real>, cap: real)
    requires forall s :: s in w ==> 0.0 <= w[s] <= cap
    ensures Total(Squares(w)) <= Times(cap, Total(w))
    decreases |w|
  {
    if w == map[] {
      assert Squares(w) == map[];
    } else {
      hide Times;
      var k :| k in w;
      Smaller(w, k);
      TotalRemove(w, k);
      TotalRemove(Squares(w), k);
      assert Squares(w) - {k} == Squares(w - {k});
      SquaresBounded(w - {k}, cap);
      OneSquare(w[k], cap, Total(w - {k}));
    }
  }

  lemma {:induction false} WeightsWithin(l: Limits, nav: real, m: map<string, real>)
    requires nav > 0.0 && Within(l, nav, m)
    ensures forall s :: s in Weights(m, nav) ==> 0.0 <= Weights(m, nav)[s] <= l.maxSingle
    ensures Total(Weights(m, nav)) <= l.maxTotal
  {
    hide Ratio, Times, Total;
    forall s | s in Weights(m, nav)
      ensures 0.0 <= Ratio(m[s], nav) <= l.maxSingle
    {
      RatioAbove(m[s], nav, l.maxSingle);
      NonNegativeRatio(m[s], nav);
    }
    WeightsAddUp(m, nav);
    RatioAbove(Total(m), nav, l.maxTotal);
  }

  lemma {:induction false} NonNegativeRatio(part: real, nav: real)
    requires part >= 0.0 && nav > 0.0
    ensures Ratio(part, nav) >= 0.0
  {
    RatioAbove(part, nav, 0.0);
  }

  /** Within the limits the score never exceeds max_single * max_total. */
  lemma {:induction false} ScoreBounded(l: Limits, nav: real, m: map<string, real>)
    requires nav > 0.0 && l.maxSingle >= 0.0 && l.maxTotal >= 0.0 && Within(l, nav, m)
    ensures Score(m, nav) <= Times(l.maxSingle, l.maxTotal)
  {
    hide Ratio, Times, Total;
    TimesMonotone(l.maxSingle, l.maxTotal, l.maxTotal);
    if m != map[] {
      WeightsWithin(l, nav, m);
      SquaresBounded(Weights(m, nav), l.maxSingle);
      TimesMonotone(l.maxSingle, Total(Weights(m, nav)), l.maxTotal);
    }
  }
}
