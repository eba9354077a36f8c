/** Multi-timeframe voting, and the final decision that consumes it. */
module TimeframeConsensus {
  import opened Common

  datatype Vote = Buy | Sell | Hold | Unknown

  // One timeframe's entry, its signal word already normalised.
  datatype Frame = Frame(tf: string, vote: Vote, confidence: Option<real>, score: Option<real>)

  const WEIGHTS: map<string, real> := map[
    "1m" := 0.70, "3m" := 0.75, "5m" := 0.80, "15m" := 0.90, "30m" := 0.95, "1h" := 1.05,
    "2h" := 1.10, "4h" := 1.20, "6h" := 1.25, "12h" := 1.30, "1d" := 1.40]

  /** Banker's rounding to the nearest integer. */
  function Round(x: real): int {
    var f := x.Floor;
    var rest := x - f as real;
    if rest < 0.5 then f else if rest > 0.5 then f + 1 else if f % 2 == 0 then f else f + 1
  }

  function Clamp100(x: real): int {
    var r := Round(x);
    if r < 0 then 0 else if r > 100 then 100 else r
  }

  function BaseWeight(tf: string): real {
    if tf in WEIGHTS then WEIGHTS[tf] else 0.90
  }

  /** A score of 0 to 100 scales a vote from half to full weight. */
  function ScoreFactor(f: Frame): real {
    match f.score
    case None => 1.0
    case Some(score) => 0.50 + 0.50 * Clamp01(score / 100.0)
  }

  function ConfidenceFactor(f: Frame): real {
    match f.confidence
    case None => 1.0
    case Some(c) => 0.60 + 0.40 * Clamp01(c)
  }

  function Weight(f: Frame): real {
    Times(Times(BaseWeight(f.tf), ScoreFactor(f)), ConfidenceFactor(f))
  }

  lemma {:induction false} WeightPositive(f: Frame)
    ensures Weight(f) > 0.0
  {
    assert ScoreFactor(f) >= 0.5 && ConfidenceFactor(f) >= 0.6 && BaseWeight(f.tf) >= 0.70;
    TimesSign(BaseWeight(f.tf), ScoreFactor(f));
    TimesSign(Times(BaseWeight(f.tf), ScoreFactor(f)), ConfidenceFactor(f));
    hide Times, ScoreFactor, ConfidenceFactor, BaseWeight;
  }

  /** Signed contribution of a frame. */
  function Contribution(f: Frame): real {
    match f.vote
    case Buy => Weight(f)
    case Sell => -Weight(f)
    case _ => 0.0
  }

  // Accumulators of the vote loop.
  datatype Tally = Tally(total: real, signed: real, buy: real, sell: real)

  function Count(frames: seq<Frame>): Tally {
    if frames == [] then Tally(0.0, 0.0, 0.0, 0.0)
    else
      var t, f := Count(frames[..|frames| - 1]), frames[|frames| - 1];
      Tally(t.total + Weight(f), t.signed + Contribution(f),
            t.buy + (if f.vote.Buy? then Weight(f) else 0.0), t.sell + (if f.vote.Sell? then Weight(f) else 0.0))
  }

  datatype Timing = EnterNow | WaitConfirm | WaitPullback | Avoid | NoTiming
  datatype Permission = Halt | Block | Allow

  datatype Consensus = Consensus(
    score: int, dominant: string, conflict: bool, timing: Timing, permission: Permission,
    alpha: int, risk: int, confidence: real, dataHealth: real, seen: nat)

  const NO_FRAMES := Consensus(0, "unknown", true, NoTiming, Allow, 0, Clamp100(100.0 * (1.0 - 0.45)), 0.40, 0.45, 0)

  function Score(t: Tally): int {
    var total := if t.total <= 0.0 then 1.0 else t.total;
    Clamp100(100.0 * Ratio(Abs(t.signed), total))
  }

  function MinorityRatio(t: Tally): real {
    if t.buy + t.sell <= 0.0 then 1.0 else Ratio(Min(t.buy, t.sell), t.buy + t.sell)
  }

  function Conflict(t: Tally): bool {
    t.buy + t.sell <= 0.0 || MinorityRatio(t) >= 0.35 || Score(t) < 35
  }

  function EntryTiming(score: int, conflict: bool): Timing {
    if conflict && score < 50 then WaitConfirm
    else if score >= 75 && !conflict then EnterNow
    else if score >= 55 && !conflict then WaitPullback
    else if conflict && score >= 60 then Avoid
    else NoTiming
  }

  function DataHealth(seen: nat, minority: real): real {
    Clamp01(0.55 + 0.35 * Clamp01((seen as real - 1.0) / 5.0) - 0.10 * minority)
  }

  function Confidence(health: real, score: int, conflict: bool): real {
    var c := Clamp01(0.20 + 0.55 * health + 0.25 * (score as real / 100.0));
    if conflict then Min(c, 0.80) else c
  }

  /** The result for a non-empty set of frames. */
  function Conclude(t: Tally, dominant: string, seen: nat): Consensus {
    var score, minority, conflict := Score(t), MinorityRatio(t), Conflict(t);
    var health := DataHealth(seen, minority);
    var confidence := Confidence(health, score, conflict);
    Consensus(score, dominant, conflict, EntryTiming(score, conflict),
              if health < 0.35 then Block
              else if conflict && score < 30 && confidence >= 0.55 then Block else Allow,
              Clamp100(Times(score as real, Clamp01(health))),
              Clamp100(100.0 * minority * 0.85 + 100.0 * (1.0 - health) * 0.50),
              confidence, health, seen)
  }

  /** The frame with the largest contribution in absolute value, the first of them. */
  predicate Dominant(frames: seq<Frame>, i: int) {
    && 0 <= i < |frames|
    && (forall j :: 0 <= j < |frames| ==> Abs(Contribution(frames[j])) <= Abs(Contribution(frames[i])))
    && (forall j :: 0 <= j < i ==> Abs(Contribution(frames[j])) < Abs(Contribution(frames[i])))
  }

  /** Looking at one more frame. */
  lemma {:induction false} DominantNext(frames: seq<Frame>, i: nat, d: int)
    requires i < |frames| && (i > 0 ==> Dominant(frames[..i], d))
    ensures i > 0 && Abs(Contribution(frames[i])) <= Abs(Contribution(frames[d])) ==> Dominant(frames[..i + 1], d)
    ensures i == 0 || Abs(Contribution(frames[i])) > Abs(Contribution(frames[d])) ==> Dominant(frames[..i + 1], i)
  {
    hide Contribution;
    assert forall j :: 0 <= j < i ==> frames[..i + 1][j] == frames[..i][j];
  }

  method InferMtfConsensus(frames: seq<Frame>) returns (r: Consensus, ghost dominant: int)
    ensures frames == [] ==> r == NO_FRAMES
    ensures frames != [] ==> Dominant(frames, dominant)
                             && r == Conclude(Count(frames), frames[dominant].tf, |frames|)
  {
    dominant := -1;
    if frames == [] {
      return NO_FRAMES, -1;
    }
    hide Weight, Dominant, Conclude;
    var total, signed, buy, sell := 0.0, 0.0, 0.0, 0.0;
    var domTf, domAbs := "unknown", -1.0;
    for i := 0 to |frames|
      invariant Count(frames[..i]) == Tally(total, signed, buy, sell)
      invariant i == 0 ==> domAbs == -1.0
      invariant i > 0 ==> Dominant(frames[..i], dominant) && 0 <= dominant < |frames|
                          && domTf == frames[dominant].tf && domAbs == Abs(Contribution(frames[dominant]))
    {
      var f := frames[i];
      assert frames[..i + 1][..i] == frames[..i];
      DominantNext(frames, i, dominant);
      var w := Weight(f);
      total := total + w;
      var contrib := 0.0;
      match f.vote {
        case Buy =>
          contrib := w;
          buy := buy + w;
        case Sell =>
          contrib := -w;
          sell := sell + w;
        case Hold =>
        case Unknown =>
      }
      assert contrib == Contribution(f);
      signed := signed + contrib;
      if Abs(contrib) > domAbs {
        domAbs := Abs(contrib);
        domTf := f.tf;
        dominant := i;
      }
    }
    assert frames[..|frames|] == frames;
    r := Conclude(Tally(total, signed, buy, sell), domTf, |frames|);
  }

  // ---------------------------------------------------------------- vote algebra

  predicate Sound(t: Tally) {
    t.signed == t.buy - t.sell && t.buy >= 0.0 && t.sell >= 0.0 && t.total >= t.buy + t.sell && t.total > 0.0
  }

  lemma {:induction false} CountIsSound(frames: seq<Frame>)
    ensures var t := Count(frames);
      t.signed == t.buy - t.sell && t.buy >= 0.0 && t.sell >= 0.0 && t.total >= t.buy + t.sell
    ensures frames != [] ==> Sound(Count(frames))
  {
    if frames != [] {
      CountIsSound(frames[..|frames| - 1]);
      WeightPositive(frames[|frames| - 1]);
      hide Weight;
    }
  }

  /** Rounding is to the nearest integer, and to the even one of two. */
  lemma {:induction false} RoundIsNearest(x: real)
    ensures -0.5 <= Round(x) as real - x <= 0.5
    ensures Round(x) as real - x == 0.5 || Round(x) as real - x == -0.5 ==> Round(x) % 2 == 0
  {
  }

  lemma {:induction false} RoundMonotone(x: real, n: int)
    ensures x <= n as real ==> Round(x) <= n
    ensures x >= n as real ==> Round(x) >= n
  {
  }

  /** A minority of 35% or more leaves a score of at most 30. */
  lemma {:induction false} StrongMinorityScoresLow(t: Tally)
    requires Sound(t) && t.buy + t.sell > 0.0 && MinorityRatio(t) >= 0.35
    ensures Score(t) <= 30
  {
    hide Ratio;
    var dir, low := t.buy + t.sell, Min(t.buy, t.sell);
    RatioAbove(low, dir, 0.35);
    hide Times, Round;
    TimesIs(0.35, dir);
    TimesIs(0.3, t.total);
    assert Abs(t.signed) == dir - 2.0 * low <= 0.3 * t.total;
    RatioAbove(Abs(t.signed), t.total, 0.3);
    RoundMonotone(100.0 * Ratio(Abs(t.signed), t.total), 30);
  }

  lemma {:induction false} NoDirectionScoresZero(t: Tally)
    requires Sound(t) && t.buy + t.sell <= 0.0
    ensures Score(t) == 0
  {
    hide Ratio;
    RatioAdds(0.0, 0.0, t.total);
    RoundMonotone(0.0, 0);
  }

  /** For every set of frames, conflict is nothing but a score below 35. */
  lemma {:induction false} ConflictIsLowScore(frames: seq<Frame>)
    requires frames != []
    ensures Conflict(Count(frames)) <==> Score(Count(frames)) < 35
  {
    CountIsSound(frames);
    var t := Count(frames);
    if t.buy + t.sell <= 0.0 {
      NoDirectionScoresZero(t);
    } else if MinorityRatio(t) >= 0.35 {
      StrongMinorityScoresLow(t);
    }
  }

  lemma {:induction false} MinorityIsAShare(t: Tally)
    requires Sound(t)
    ensures 0.0 <= MinorityRatio(t) <= 1.0
  {
    hide Ratio, Times;
    var dir := t.buy + t.sell;
    if dir > 0.0 {
      TimesIs(0.0, dir);
      TimesIs(1.0, dir);
      RatioAbove(Min(t.buy, t.sell), dir, 1.0);
      RatioAbove(Min(t.buy, t.sell), dir, 0.0);
    }
  }

  /** What follows for every result: the "avoid" timing is never given, data
      health lies between 0.45 and 0.90 so the low-health block never applies,
      and a block means a score below 30 at a confidence of 0.55 or more. */
  lemma {:induction false} ConsensusFacts(frames: seq<Frame>, dominant: string)
    requires frames != []
    ensures var r := Conclude(Count(frames), dominant, |frames|);
      && (r.conflict <==> r.score < 35)
      && r.timing != Avoid
      && 0.45 <= r.dataHealth <= 0.90
      && (r.permission == Block <==> r.score < 30 && r.confidence >= 0.55)
      && r.permission != Halt
  {
    hide Count, Score, MinorityRatio, Conflict, DataHealth, Confidence, Clamp100;
    CountIsSound(frames);
    ConflictIsLowScore(frames);
    MinorityIsAShare(Count(frames));
    HealthRange(|frames|, MinorityRatio(Count(frames)));
  }

  lemma {:induction false} HealthRange(seen: nat, minority: real)
    requires 0.0 <= minority <= 1.0
    ensures 0.45 <= DataHealth(seen, minority) <= 0.90
  {
    var coverage := Clamp01((seen as real - 1.0) / 5.0);
    assert 0.45 <= 0.55 + 0.35 * coverage - 0.10 * minority <= 0.90;
  }

  /** The weights of all frames, whatever they vote. */
  function WeightOf(frames: seq<Frame>): real {
    if frames == [] then 0.0 else WeightOf(frames[..|frames| - 1]) + Weight(frames[|frames| - 1])
  }

  lemma {:induction false} WeightOfAppend(frames: seq<Frame>, f: Frame)
    ensures WeightOf(frames + [f]) == WeightOf(frames) + Weight(f)
  {
    assert (frames + [f])[..|frames|] == frames;
  }

  /** The frames that vote for one side. */
  function Siding(frames: seq<Frame>, side: Vote): seq<Frame> {
    if frames == [] then []
    else
      var before, f := Siding(frames[..|frames| - 1], side), frames[|frames| - 1];
      if f.vote == side then before + [f] else before
  }

  /** What the loop adds up: every frame weighs, and each side has its own voters. */
  lemma {:induction false} CountExactly(frames: seq<Frame>)
    ensures var t := Count(frames);
      && t.total == WeightOf(frames)
      && t.buy == WeightOf(Siding(frames, Buy)) && t.sell == WeightOf(Siding(frames, Sell))
      && t.signed == t.buy - t.sell
  {
    hide Weight;
    if frames != [] {
      var init, f := frames[..|frames| - 1], frames[|frames| - 1];
      CountExactly(init);
      WeightOfAppend(Siding(init, Buy), f);
      WeightOfAppend(Siding(init, Sell), f);
    }
  }

  /** The share of the smaller side among the votes for either side. */
  function SmallerSide(t: Tally): real {
    if t.buy + t.sell <= 0.0 then 1.0 else Ratio(Min(t.buy, t.sell), t.buy + t.sell)
  }

  /** The score is the net share of the weights, up to rounding. */
  lemma {:induction false} ScoreIsNetShare(frames: seq<Frame>, dominant: string)
    requires frames != []
    ensures var r, t := Conclude(Count(frames), dominant, |frames|), Count(frames);
      && t.total > 0.0 && -0.5 <= r.score as real - 100.0 * Ratio(Abs(t.buy - t.sell), t.total) <= 0.5
      && r.seen == |frames| && r.dominant == dominant
  {
    hide Conclude, Count, Ratio, Score, Weight;
    CountIsSound(frames);
    ScoreIsNear(Count(frames));
    ResultFields(Count(frames), dominant, |frames|);
  }

  lemma {:induction false} ResultFields(t: Tally, dominant: string, seen: nat)
    ensures var r, health := Conclude(t, dominant, seen), DataHealth(seen, MinorityRatio(t));
      && r.score == Score(t) && r.dataHealth == health && r.dominant == dominant && r.seen == seen
      && r.alpha == Clamp100(Times(r.score as real, Clamp01(health)))
      && r.risk == Clamp100(100.0 * MinorityRatio(t) * 0.85 + 100.0 * (1.0 - health) * 0.50)
  {
    hide Ratio, Times, Score, Conflict, MinorityRatio, DataHealth, Confidence, Clamp100, Clamp01, EntryTiming;
  }

  /** Data health and confidence; the caps on them never bind. */
  lemma {:induction false} HealthExactly(frames: seq<Frame>, dominant: string)
    requires frames != []
    ensures var r := Conclude(Count(frames), dominant, |frames|);
      && r.dataHealth == 0.55 + 0.07 * (if |frames| < 6 then |frames| as real - 1.0 else 5.0)
                         - 0.10 * SmallerSide(Count(frames))
      && r.confidence == 0.20 + 0.55 * r.dataHealth + 0.0025 * r.score as real
  {
    var t := Count(frames);
    CountIsSound(frames);
    ConflictIsLowScore(frames);
    MinorityIsAShare(t);
    ScoreIsNear(t);
    assert MinorityRatio(t) == SmallerSide(t);
    hide Count, Ratio, Score, Conflict, MinorityRatio, SmallerSide, DataHealth, Confidence, Clamp100, EntryTiming;
    HealthRange(|frames|, MinorityRatio(t));
    HealthIs(|frames|, MinorityRatio(t));
    ConfidenceIs(DataHealth(|frames|, MinorityRatio(t)), Score(t), Conflict(t));
  }

  /** Alpha is the score scaled by data health, and risk grows with the smaller side and
      with poor health, both up to rounding. */
  lemma {:induction false} AlphaAndRisk(frames: seq<Frame>, dominant: string)
    requires frames != []
    ensures var r := Conclude(Count(frames), dominant, |frames|);
      var risk := 85.0 * SmallerSide(Count(frames)) + 50.0 * (1.0 - r.dataHealth);
      && -0.5 <= r.alpha as real - Times(r.score as real, r.dataHealth) <= 0.5
      && -0.5 <= r.risk as real - Min(100.0, risk) <= 0.5
  {
    hide Conclude, Count, Weight, Times, Score, DataHealth, Clamp100, Clamp01, Ratio;
    var t := Count(frames);
    CountIsSound(frames);
    MinorityIsAShare(t);
    ScoreIsNear(t);
    assert MinorityRatio(t) == SmallerSide(t);
    hide MinorityRatio, SmallerSide;
    ResultFields(t, dominant, |frames|);
    var minority, health := MinorityRatio(t), DataHealth(|frames|, MinorityRatio(t));
    HealthRange(|frames|, minority);
    AlphaIsNear(Score(t), health);
    RiskIsNear(minority, health);
  }

  lemma {:induction false} HealthIs(seen: nat, minority: real)
    requires 0.0 <= minority <= 1.0 && seen > 0
    ensures DataHealth(seen, minority) == 0.55 + 0.07 * (if seen < 6 then seen as real - 1.0 else 5.0) - 0.10 * minority
  {
    var coverage := Clamp01((seen as real - 1.0) / 5.0);
    assert 5.0 * coverage == if seen < 6 then seen as real - 1.0 else 5.0;
  }

  lemma {:induction false} ConfidenceIs(health: real, score: int, conflict: bool)
    requires 0.45 <= health <= 0.90 && 0 <= score <= 100 && (conflict <==> score < 35)
    ensures Confidence(health, score, conflict) == 0.20 + 0.55 * health + 0.0025 * score as real
  {
  }

  lemma {:induction false} RiskIsNear(minority: real, health: real)
    requires 0.0 <= minority <= 1.0 && health <= 0.90
    ensures var risk := 85.0 * minority + 50.0 * (1.0 - health);
      -0.5 <= Clamp100(100.0 * minority * 0.85 + 100.0 * (1.0 - health) * 0.50) as real - Min(100.0, risk) <= 0.5
  {
    var risk := 100.0 * minority * 0.85 + 100.0 * (1.0 - health) * 0.50;
    assert risk == 85.0 * minority + 50.0 * (1.0 - health);
    RoundIsNearest(risk);
    RoundMonotone(risk, 0);
    RoundMonotone(risk, 100);
    hide Round;
  }

  lemma {:induction false} ScoreIsNear(t: Tally)
    requires Sound(t)
    ensures -0.5 <= Score(t) as real - 100.0 * Ratio(Abs(t.buy - t.sell), t.total) <= 0.5 && 0 <= Score(t) <= 100
  {
    var share := Ratio(Abs(t.signed), t.total);
    Fraction(Abs(t.signed), t.total);
    RoundIsNearest(100.0 * share);
    RoundMonotone(100.0 * share, 0);
    RoundMonotone(100.0 * share, 100);
    hide Round, Ratio;
  }

  lemma {:induction false} AlphaIsNear(score: int, health: real)
    requires 0 <= score <= 100 && 0.0 <= health <= 1.0
    ensures -0.5 <= Clamp100(Times(score as real, Clamp01(health))) as real - Times(score as real, health) <= 0.5
  {
    var x := Times(score as real, health);
    TimesMonotone(score as real, 0.0, health);
    TimesMonotone(score as real, health, 1.0);
    TimesIs(score as real, 0.0);
    TimesIs(score as real, 1.0);
    RoundIsNearest(x);
    RoundMonotone(x, 0);
    RoundMonotone(x, 100);
    hide Round, Times;
  }

  /** The entry timing follows from the score alone. */
  lemma {:induction false} TimingExactly(frames: seq<Frame>, dominant: string)
    requires frames != []
    ensures var r := Conclude(Count(frames), dominant, |frames|);
      && (r.timing == EnterNow <==> r.score >= 75)
      && (r.timing == WaitPullback <==> 55 <= r.score < 75)
      && (r.timing == WaitConfirm <==> r.score < 35)
      && (r.timing == NoTiming <==> 35 <= r.score < 55)
  {
    hide Count, Score, Conflict, MinorityRatio, DataHealth, Confidence, Clamp100;
    ConflictIsLowScore(frames);
  }

  /** A vote weighs its timeframe's weight at most, all of it without score and
      confidence, and at least 30 percent of it. */
  lemma {:induction false} WeightRange(f: Frame)
    ensures 0.30 * BaseWeight(f.tf) <= Weight(f) <= BaseWeight(f.tf)
    ensures f.score.None? && f.confidence.None? ==> Weight(f) == BaseWeight(f.tf)
  {
    var b, s, c := BaseWeight(f.tf), ScoreFactor(f), ConfidenceFactor(f);
    assert 0.5 <= s <= 1.0 && 0.6 <= c <= 1.0 && b > 0.0;
    assert f.score.None? ==> s == 1.0;
    assert f.confidence.None? ==> c == 1.0;
    ScaleWithin(b, s, 0.5);
    ScaleWithin(Times(b, s), c, 0.6);
    hide Times, ScoreFactor, ConfidenceFactor, BaseWeight;
  }

  lemma {:induction false} ScaleWithin(b: real, s: real, low: real)
    requires b > 0.0 && 0.0 < low <= s <= 1.0
    ensures 0.0 < low * b <= Times(b, s) <= b
    ensures s == 1.0 ==> Times(b, s) == b
  {
    TimesOrder(b, b, low, s);
    TimesOrder(b, b, s, 1.0);
    TimesIs(b, low);
    TimesIs(b, 1.0);
  }

  /** More score and more confidence weigh more. */
  lemma {:induction false} WeightGrows(f: Frame, g: Frame)
    requires f.tf == g.tf && f.score.Some? && g.score.Some? && f.confidence.Some? && g.confidence.Some?
    requires 0.0 <= f.score.value <= g.score.value <= 100.0 && 0.0 <= f.confidence.value <= g.confidence.value <= 1.0
    ensures Weight(f) <= Weight(g)
    ensures f.score.value < g.score.value || f.confidence.value < g.confidence.value ==> Weight(f) < Weight(g)
  {
    var b := BaseWeight(f.tf);
    assert b >= 0.70;
    assert 0.5 <= ScoreFactor(f) <= ScoreFactor(g) && 0.6 <= ConfidenceFactor(f) <= ConfidenceFactor(g);
    assert f.score.value < g.score.value ==> ScoreFactor(f) < ScoreFactor(g);
    assert f.confidence.value < g.confidence.value ==> ConfidenceFactor(f) < ConfidenceFactor(g);
    hide Times, ScoreFactor, ConfidenceFactor, BaseWeight;
    TimesOrder(b, b, ScoreFactor(f), ScoreFactor(g));
    TimesOrder(Times(b, ScoreFactor(f)), Times(b, ScoreFactor(g)), ConfidenceFactor(f), ConfidenceFactor(g));
  }

  /** All frames on one side: full score, no conflict, enter now. */
  lemma {:induction false} UnanimousVote(frames: seq<Frame>, dominant: string, side: Vote)
    requires frames != [] && (side.Buy? || side.Sell?)
    requires forall i :: 0 <= i < |frames| ==> frames[i].vote == side
    ensures var t := Count(frames);
      && t.total == t.buy + t.sell && Abs(t.signed) == t.total && (if side.Buy? then t.sell == 0.0 else t.buy == 0.0)
    ensures var r := Conclude(Count(frames), dominant, |frames|);
      r.score == 100 && !r.conflict && r.timing == EnterNow && r.permission == Allow
  {
    var t := Count(frames);
    UnanimousCount(frames, side);
    CountIsSound(frames);
    Fraction(t.total, t.total);
    assert Score(t) == 100 by {
      assert Ratio(Abs(t.signed), t.total) == 1.0;
      RoundMonotone(100.0, 100);
    }
    ConflictIsLowScore(frames);
    TimingExactly(frames, dominant);
    ConsensusFacts(frames, dominant);
    hide Count, Score, Conflict, EntryTiming;
  }

  lemma {:induction false} UnanimousCount(frames: seq<Frame>, side: Vote)
    requires side.Buy? || side.Sell?
    requires forall i :: 0 <= i < |frames| ==> frames[i].vote == side
    ensures var t := Count(frames);
      if side.Buy? then t.sell == 0.0 && t.signed == t.buy == t.total
      else t.buy == 0.0 && -t.signed == t.sell == t.total
  {
    hide Weight;
    if frames != [] {
      UnanimousCount(frames[..|frames| - 1], side);
    }
  }

  // -------------------------------------------------------------- final decision

  datatype Action = Enter | Wait | Hedge | Exit | HaltAll

  function Rank(p: Permission): int {
    match p
    case Halt => 2
    case Block => 1
    case Allow => 0
  }

  /** The worst of the permissions, `Allow` when there is none. */
  function Worst(ps: seq<Permission>): Permission {
    if ps == [] then Allow
    else
      var best, p := Worst(ps[..|ps| - 1]), ps[|ps| - 1];
      if Rank(p) > Rank(best) then p else best
  }

  method CombineTradePermission(ps: seq<Permission>) returns (best: Permission)
    ensures best == Worst(ps)
  {
    best := Allow;
    for i := 0 to |ps|
      invariant best == Worst(ps[..i])
    {
      assert ps[..i + 1][..i] == ps[..i];
      if Rank(ps[i]) > Rank(best) {
        best := ps[i];
      }
    }
    assert ps[..|ps|] == ps;
  }

  lemma {:induction false} WorstIsWorst(ps: seq<Permission>)
    ensures forall i :: 0 <= i < |ps| ==> Rank(ps[i]) <= Rank(Worst(ps))
    ensures Worst(ps) == Allow || Worst(ps) in ps
  {
    if ps != [] {
      WorstIsWorst(ps[..|ps| - 1]);
    }
  }

  // The figures the decision reads; scores are 0 to 100.
  datatype Inputs = Inputs(
    permissions: seq<Permission>, doNotTrade: bool, cooldownSeconds: int,
    risk: int, manipulation: int, exitUrgency: int, freshness: int, alpha: int, confidence: real,
    consensusTrades: bool, consensusAlpha: int, stopWiden: bool, avoidLatency: bool, latencyRisk: int,
    mtf: Option<Consensus>)

  function MtfScore(x: Inputs): int {
    match x.mtf
    case Some(r) => r.score
    case None => if x.consensusAlpha > 55 then x.consensusAlpha else 55
  }

  function MtfConflict(x: Inputs): bool {
    x.mtf.Some? && x.mtf.value.conflict
  }

  function MtfAvoid(x: Inputs): bool {
    x.mtf.Some? && x.mtf.value.timing == Avoid
  }

  function RiskGate(x: Inputs): int {
    var gate := Clamp100(Max(0.0, 100.0 - 0.40 * x.risk as real));
    if MtfConflict(x) then Clamp100(gate as real * 0.68) else gate
  }

  function RiskOk(x: Inputs): bool {
    && x.risk <= 70
    && (x.stopWiden ==> x.risk <= 62)
    && (x.avoidLatency && x.latencyRisk >= 75 ==> x.risk <= 62)
  }

  function Decide(x: Inputs): Action {
    var permission := Worst(x.permissions);
    if permission == Halt then HaltAll
    else if permission == Block || x.doNotTrade then
      if x.risk >= 85 || x.manipulation >= 85 then Hedge
      else if x.exitUrgency >= 80 && x.freshness <= 25 then Exit else Wait
    else if x.cooldownSeconds > 0 then Wait
    else if x.exitUrgency >= 85 && x.freshness <= 25 then Exit
    else if x.risk >= 80 || x.manipulation >= 80 then Hedge
    else
      var okMtf := !MtfConflict(x) && MtfScore(x) >= 55 && !MtfAvoid(x);
      var okFresh := x.freshness >= 45;
      var okAlpha := x.alpha >= 45 || x.consensusTrades;
      var okConf := x.confidence >= 0.55;
      var okGate := RiskGate(x) >= 50;
      if okMtf && okFresh && okAlpha && okConf && RiskOk(x) && okGate then Enter else Wait
  }

  /** The consensus came out of the vote. */
  ghost predicate FromVote(r: Consensus) {
    r == NO_FRAMES || exists frames, dominant :: frames != [] && r == Conclude(Count(frames), dominant, |frames|)
  }

  lemma {:induction false} VoteFacts(r: Consensus)
    requires FromVote(r)
    ensures (r.conflict <==> r.score < 35) && r.timing != Avoid
  {
    if r != NO_FRAMES {
      var frames: seq<Frame>, dominant :| frames != [] && r == Conclude(Count(frames), dominant, |frames|);
      ConsensusFacts(frames, dominant);
    }
  }

  lemma {:induction false} GateIsRedundant(x: Inputs)
    requires x.risk <= 70 && !MtfConflict(x)
    ensures RiskGate(x) >= 50
  {
  }

  /** Entering, in plain terms: three of the eight tests never decide anything.
      The conflict and "avoid" tests follow from a score of 55, and the risk gate
      follows from the risk limit. */
  lemma {:induction false} EnterExactly(x: Inputs)
    requires x.mtf.Some? ==> FromVote(x.mtf.value)
    ensures Decide(x) == Enter <==>
      && (forall i :: 0 <= i < |x.permissions| ==> x.permissions[i] == Allow)
      && !x.doNotTrade && x.cooldownSeconds <= 0
      && x.manipulation < 80
      && (x.mtf.Some? ==> x.mtf.value.score >= 55)
      && x.freshness >= 45 && (x.alpha >= 45 || x.consensusTrades) && x.confidence >= 0.55
      && x.risk <= (if x.stopWiden || (x.avoidLatency && x.latencyRisk >= 75) then 62 else 70)
  {
    WorstIsWorst(x.permissions);
    if x.mtf.Some? {
      VoteFacts(x.mtf.value);
    }
    if x.risk <= 70 && !MtfConflict(x) {
      GateIsRedundant(x);
    }
    hide RiskGate;
    if forall i :: 0 <= i < |x.permissions| ==> x.permissions[i] == Allow {
      assert Worst(x.permissions) == Allow;
    } else {
      var i :| 0 <= i < |x.permissions| && x.permissions[i] != Allow;
      assert Rank(x.permissions[i]) >= 1;
    }
  }

  /** The other actions, in plain terms. A veto is a blocking permission or an explicit
      one; only a halting permission halts. */
  lemma {:induction false} OtherActionsExactly(x: Inputs)
    ensures var halted := Halt in x.permissions;
      var vetoed := Block in x.permissions || x.doNotTrade;
      var calm := x.cooldownSeconds <= 0;
      var leave := x.freshness <= 25;
      && (Decide(x) == HaltAll <==> halted)
      && (Decide(x) == Hedge <==>
            (!halted && if vetoed then x.risk >= 85 || x.manipulation >= 85
                        else calm && !(leave && x.exitUrgency >= 85) && (x.risk >= 80 || x.manipulation >= 80)))
      && (Decide(x) == Exit <==>
            (!halted && if vetoed then x.risk < 85 && x.manipulation < 85 && leave && x.exitUrgency >= 80
                        else calm && leave && x.exitUrgency >= 85))
  {
    WorstIsWorst(x.permissions);
    WorstExactly(x.permissions);
    hide RiskGate, RiskOk, MtfConflict, MtfScore, MtfAvoid, Worst;
  }

  lemma {:induction false} WorstExactly(ps: seq<Permission>)
    ensures Worst(ps) == Halt <==> Halt in ps
    ensures Worst(ps) == Block <==> Halt !in ps && Block in ps
  {
    WorstIsWorst(ps);
    if Halt in ps {
      var i :| 0 <= i < |ps| && ps[i] == Halt;
      assert Rank(ps[i]) == 2;
    }
    if Block in ps {
      var i :| 0 <= i < |ps| && ps[i] == Block;
      assert Rank(ps[i]) == 1;
    }
  }
}
