/** Confidence in a recommended action: a base value from the gap between
    probability and threshold, plus additive adjustments for contest, clock,
    location and clutch time, clamped to [0.15, 0.95] and named by level. */
module ActionConfidence {
  import opened Common

  /** The adjustments, in the order they are checked. */
  datatype Adjustment =
    | TightContest
    | ContestedShot
    | LateClockPressure
    | ModerateTimePressure
    | DeepThreeAttempt
    | InefficientMidrange
    | DifficultAngle
    | ClutchSituation

  function Weight(a: Adjustment): real
  {
    match a
    case TightContest => 0.10
    case ContestedShot => 0.05
    case LateClockPressure => -0.10
    case ModerateTimePressure => -0.05
    case DeepThreeAttempt => 0.08
    case InefficientMidrange => 0.06
    case DifficultAngle => 0.07
    case ClutchSituation => -0.08
  }

  /** The tag recorded in `active_adjustments`. */
  function Tag(a: Adjustment): string
  {
    match a
    case TightContest => "tight_contest"
    case ContestedShot => "contested_shot"
    case LateClockPressure => "late_clock_pressure"
    case ModerateTimePressure => "moderate_time_pressure"
    case DeepThreeAttempt => "deep_three_attempt"
    case InefficientMidrange => "inefficient_midrange"
    case DifficultAngle => "difficult_angle"
    case ClutchSituation => "clutch_situation"
  }

  predicate IsContest(a: Adjustment) { a == TightContest || a == ContestedShot }
  predicate IsLocation(a: Adjustment) { a == DeepThreeAttempt || a == InefficientMidrange || a == DifficultAngle }

  /** The total adjustment of a list of adjustments. */
  function SumWeights(adjustments: seq<Adjustment>): real
  {
    if |adjustments| == 0 then 0.0 else Weight(adjustments[0]) + SumWeights(adjustments[1..])
  }

  /** Summing distributes over concatenation, so accumulating weight by
      weight in check order gives the same total. */
  lemma {:induction false} SumWeightsAppend(a: seq<Adjustment>, b: seq<Adjustment>)
    ensures SumWeights(a + b) == SumWeights(a) + SumWeights(b)
    decreases |a|
  {
    if |a| > 0 {
      assert (a + b)[0] == a[0];
      assert (a + b)[1..] == a[1..] + b;
      SumWeightsAppend(a[1..], b);
    } else {
      assert a + b == b;
    }
  }

  /** The base confidence by gap bucket. */
  function BaseConfidence(gap: real): (r: real)
    ensures r in {0.85, 0.70, 0.55, 0.40}
    ensures r == 0.85 <==> gap >= 0.15
    ensures r == 0.70 <==> 0.10 <= gap < 0.15
    ensures r == 0.55 <==> 0.05 <= gap < 0.10
    ensures r == 0.40 <==> gap < 0.05
  {
    if gap >= 0.15 then 0.85
    else if gap >= 0.10 then 0.70
    else if gap >= 0.05 then 0.55
    else 0.40
  }

  /** A wider gap never gives a lower base confidence. */
  lemma BaseConfidenceMonotone(gap1: real, gap2: real)
    requires gap1 <= gap2
    ensures BaseConfidence(gap1) <= BaseConfidence(gap2)
  {
  }

  /** Contest adjustment: only for PASS with a truthy contest string. */
  function ContestAdjustments(decision: string, contestLevel: Option<string>): (r: seq<Adjustment>)
    ensures |r| <= 1 && forall a | a in r :: IsContest(a)
    ensures TightContest in r <==> decision == PASS && contestLevel == Some(TIGHT)
    ensures ContestedShot in r <==> decision == PASS && contestLevel == Some(CONTESTED)
  {
    if decision == PASS && Truthy(contestLevel) then
      (if contestLevel.value == TIGHT then [TightContest]
       else if contestLevel.value == CONTESTED then [ContestedShot]
       else [])
    else []
  }

  /** Time adjustment: late clock at 5 s or fewer, moderate at 10 or fewer. */
  function TimeAdjustments(timeRemaining: int): (r: seq<Adjustment>)
    ensures |r| <= 1 && forall a | a in r :: a == LateClockPressure || a == ModerateTimePressure
    ensures LateClockPressure in r <==> timeRemaining <= 5
    ensures ModerateTimePressure in r <==> 5 < timeRemaining <= 10
  {
    if timeRemaining <= 5 then [LateClockPressure]
    else if timeRemaining <= 10 then [ModerateTimePressure]
    else []
  }

  /** Location adjustment for PASS, first match of deep three, long
      mid-range two and deep above-the-break three. */
  function LocationAdjustments(decision: string, shotType: string, zone: string, shotDistance: real): (r: seq<Adjustment>)
    ensures |r| <= 1 && forall a | a in r :: IsLocation(a)
    ensures decision != PASS ==> r == []
    ensures DeepThreeAttempt in r <==> decision == PASS && shotType == THREE_PT_FG && shotDistance >= 27.0
    ensures InefficientMidrange in r <==>
      decision == PASS && !(shotType == THREE_PT_FG && shotDistance >= 27.0)
      && shotType == TWO_PT_FG && zone == MID_RANGE && shotDistance >= 15.0
    ensures DifficultAngle in r <==>
      decision == PASS && shotType == THREE_PT_FG && shotDistance < 27.0
      && zone == ABOVE_THE_BREAK_3 && shotDistance >= 25.0
  {
    if decision == PASS then
      (if shotType == THREE_PT_FG && shotDistance >= 27.0 then [DeepThreeAttempt]
       else if shotType == TWO_PT_FG && zone == MID_RANGE && shotDistance >= 15.0 then [InefficientMidrange]
       else if shotType == THREE_PT_FG && zone == ABOVE_THE_BREAK_3 && shotDistance >= 25.0 then [DifficultAngle]
       else [])
    else []
  }

  /** Clutch adjustment: fourth quarter or later with two minutes or less. */
  function ClutchAdjustments(quarter: int, timeRemaining: int): (r: seq<Adjustment>)
    ensures ClutchSituation in r <==> quarter >= 4 && timeRemaining <= 120
  {
    Opt(quarter >= 4 && timeRemaining <= 120, ClutchSituation)
  }

  /** `active_adjustments`: contest, time, location and clutch, in that order. */
  function ActiveAdjustments(decision: string, shotType: string, zone: string, shotDistance: real,
                             timeRemaining: int, quarter: int, contestLevel: Option<string>): seq<Adjustment>
  {
    ContestAdjustments(decision, contestLevel) + TimeAdjustments(timeRemaining)
      + LocationAdjustments(decision, shotType, zone, shotDistance) + ClutchAdjustments(quarter, timeRemaining)
  }

  lemma SumOfAtMostOne(s: seq<Adjustment>, lo: real, hi: real)
    requires |s| <= 1
    requires lo <= 0.0 <= hi
    requires forall a | a in s :: lo <= Weight(a) <= hi
    ensures lo <= SumWeights(s) <= hi
  {
    if |s| == 1 {
      assert s[0] in s;
      assert s[1..] == [];
    }
  }

  /** The total adjustment lies in [-0.18, +0.18]: at most +0.10 for the
      contest and +0.08 for the location, at most -0.10 for the clock and
      -0.08 for clutch time. */
  lemma TotalAdjustmentBounds(decision: string, shotType: string, zone: string, shotDistance: real,
                              timeRemaining: int, quarter: int, contestLevel: Option<string>)
    ensures -0.18 <= SumWeights(ActiveAdjustments(decision, shotType, zone, shotDistance, timeRemaining, quarter, contestLevel)) <= 0.18
  {
    var c := ContestAdjustments(decision, contestLevel);
    var t := TimeAdjustments(timeRemaining);
    var l := LocationAdjustments(decision, shotType, zone, shotDistance);
    var k := ClutchAdjustments(quarter, timeRemaining);
    SumWeightsAppend(c, t);
    SumWeightsAppend(c + t, l);
    SumWeightsAppend(c + t + l, k);
    SumOfAtMostOne(c, 0.0, 0.10);
    SumOfAtMostOne(t, -0.10, 0.0);
    SumOfAtMostOne(l, 0.0, 0.08);
    SumOfAtMostOne(k, -0.08, 0.0);
  }

  /** At most one location tag is ever recorded. */
  lemma AtMostOneLocationTag(decision: string, shotType: string, zone: string, shotDistance: real,
                             timeRemaining: int, quarter: int, contestLevel: Option<string>, i: int, j: int)
    requires var adjustments := ActiveAdjustments(decision, shotType, zone, shotDistance, timeRemaining, quarter, contestLevel);
      0 <= i < |adjustments| && 0 <= j < |adjustments| && IsLocation(adjustments[i]) && IsLocation(adjustments[j])
    ensures i == j
  {
    var c := ContestAdjustments(decision, contestLevel);
    var t := TimeAdjustments(timeRemaining);
    var l := LocationAdjustments(decision, shotType, zone, shotDistance);
    var k := ClutchAdjustments(quarter, timeRemaining);
    var adjustments := c + t + l + k;
    var offset := |c| + |t|;
    assert forall n | 0 <= n < |c| :: adjustments[n] == c[n];
    assert forall n | |c| <= n < offset :: adjustments[n] == t[n - |c|];
    assert forall n | offset + |l| <= n < |adjustments| :: adjustments[n] == k[n - offset - |l|];
  }

  /** Contest and location adjustments are recorded only for PASS. */
  lemma ContestAndLocationOnlyForPass(decision: string, shotType: string, zone: string, shotDistance: real,
                                      timeRemaining: int, quarter: int, contestLevel: Option<string>)
    requires decision != PASS
    ensures forall a | a in ActiveAdjustments(decision, shotType, zone, shotDistance, timeRemaining, quarter, contestLevel) ::
      !IsContest(a) && !IsLocation(a)
  {
  }

  /** `min(0.95, max(0.15, base + total))`. */
  function FinalConfidence(base: real, total: real): (r: real)
    ensures 0.15 <= r <= 0.95
    ensures 0.15 <= base + total <= 0.95 ==> r == base + total
    ensures base + total > 0.95 ==> r == 0.95
    ensures base + total < 0.15 ==> r == 0.15
  {
    Min(0.95, Max(0.15, base + total))
  }

  const VERY_HIGH: string := "Very High"
  const HIGH: string := "High"
  const MODERATE: string := "Moderate"
  const LOW: string := "Low"

  function ConfidenceLevel(score: real): (r: string)
    ensures r == VERY_HIGH <==> score >= 0.75
    ensures r == HIGH <==> 0.60 <= score < 0.75
    ensures r == MODERATE <==> 0.45 <= score < 0.60
    ensures r == LOW <==> score < 0.45
  {
    if score >= 0.75 then VERY_HIGH
    else if score >= 0.60 then HIGH
    else if score >= 0.45 then MODERATE
    else LOW
  }

  datatype ReasoningPart =
    | WellBelow
    | ClearlyBelow
    | ModeratelyBelow
    | MarginallyBelow
    | TightlyContested
    | ActivelyContested
    | FromDeepThree
    | FromMidRange
    | FromDifficultAngle
    | ShotClockPressure
    | ClutchUncertainty

  /** The opening phrase, by the same gap buckets as the base confidence. */
  function GapPart(gap: real): (r: ReasoningPart)
    ensures r in {WellBelow, ClearlyBelow, ModeratelyBelow, MarginallyBelow}
    ensures r == WellBelow <==> BaseConfidence(gap) == 0.85
    ensures r == ClearlyBelow <==> BaseConfidence(gap) == 0.70
    ensures r == ModeratelyBelow <==> BaseConfidence(gap) == 0.55
  {
    if gap >= 0.15 then WellBelow
    else if gap >= 0.10 then ClearlyBelow
    else if gap >= 0.05 then ModeratelyBelow
    else MarginallyBelow
  }

  function ContestPart(adjustments: seq<Adjustment>): (r: seq<ReasoningPart>)
    ensures |r| <= 1 && forall x | x in r :: x == TightlyContested || x == ActivelyContested
    ensures TightlyContested in r <==> TightContest in adjustments
    ensures ActivelyContested in r <==> TightContest !in adjustments && ContestedShot in adjustments
  {
    if TightContest in adjustments then [TightlyContested]
    else if ContestedShot in adjustments then [ActivelyContested]
    else []
  }

  function LocationPart(adjustments: seq<Adjustment>): (r: seq<ReasoningPart>)
    ensures |r| <= 1 && forall x | x in r :: x == FromDeepThree || x == FromMidRange || x == FromDifficultAngle
    ensures FromDeepThree in r <==> DeepThreeAttempt in adjustments
    ensures FromMidRange in r <==> DeepThreeAttempt !in adjustments && InefficientMidrange in adjustments
    ensures FromDifficultAngle in r <==>
      DeepThreeAttempt !in adjustments && InefficientMidrange !in adjustments && DifficultAngle in adjustments
  {
    if DeepThreeAttempt in adjustments then [FromDeepThree]
    else if InefficientMidrange in adjustments then [FromMidRange]
    else if DifficultAngle in adjustments then [FromDifficultAngle]
    else []
  }

  function ClockPart(adjustments: seq<Adjustment>): (r: seq<ReasoningPart>)
    ensures |r| <= 1 && forall x | x in r :: x == ShotClockPressure || x == ClutchUncertainty
    ensures ShotClockPressure in r <==> LateClockPressure in adjustments
    ensures ClutchUncertainty in r <==> LateClockPressure !in adjustments && ClutchSituation in adjustments
  {
    if LateClockPressure in adjustments then [ShotClockPressure]
    else if ClutchSituation in adjustments then [ClutchUncertainty]
    else []
  }

  /** The reasoning phrases: the gap, then the contest, location and clock
      phrases for the tags recorded. */
  function ReasoningParts(gap: real, adjustments: seq<Adjustment>): (r: seq<ReasoningPart>)
    ensures 1 <= |r| <= 4 && r[0] == GapPart(gap)
    ensures |r| == 1 + |ContestPart(adjustments)| + |LocationPart(adjustments)| + |ClockPart(adjustments)|
  {
    [GapPart(gap)] + ContestPart(adjustments) + LocationPart(adjustments) + ClockPart(adjustments)
  }

  /** A phrase after the gap phrase comes from the contest, location or clock part. */
  lemma ReasoningPartsMember(gap: real, adjustments: seq<Adjustment>, x: ReasoningPart)
    requires x !in {WellBelow, ClearlyBelow, ModeratelyBelow, MarginallyBelow}
    ensures x in ReasoningParts(gap, adjustments)
      <==> x in ContestPart(adjustments) || x in LocationPart(adjustments) || x in ClockPart(adjustments)
  {
  }

  /** Which phrases follow the gap phrase: at most one per group, chosen by
      the first recorded tag of the group in check order. */
  lemma ReasoningPartsContent(gap: real, adjustments: seq<Adjustment>)
    ensures var r := ReasoningParts(gap, adjustments);
      && (TightlyContested in r <==> TightContest in adjustments)
      && (ActivelyContested in r <==> TightContest !in adjustments && ContestedShot in adjustments)
      && (FromDeepThree in r <==> DeepThreeAttempt in adjustments)
      && (FromMidRange in r <==> DeepThreeAttempt !in adjustments && InefficientMidrange in adjustments)
      && (FromDifficultAngle in r <==>
          DeepThreeAttempt !in adjustments && InefficientMidrange !in adjustments && DifficultAngle in adjustments)
      && (ShotClockPressure in r <==> LateClockPressure in adjustments)
      && (ClutchUncertainty in r <==> LateClockPressure !in adjustments && ClutchSituation in adjustments)
  {
    ReasoningPartsMember(gap, adjustments, TightlyContested);
    ReasoningPartsMember(gap, adjustments, ActivelyContested);
    ReasoningPartsMember(gap, adjustments, FromDeepThree);
    ReasoningPartsMember(gap, adjustments, FromMidRange);
    ReasoningPartsMember(gap, adjustments, FromDifficultAngle);
    ReasoningPartsMember(gap, adjustments, ShotClockPressure);
    ReasoningPartsMember(gap, adjustments, ClutchUncertainty);
  }

  datatype ConfidenceReasoning =
    | ClearPassingDecision(lead: ReasoningPart)
    | Listed(parts: seq<ReasoningPart>)
    | ExceedsBy(gap: real)

  /** The final sentence: for PASS the lead phrase alone when there are at
      most two phrases, otherwise all of them; for anything else, the gap. */
  function Reasoning(decision: string, gap: real, parts: seq<ReasoningPart>): (r: ConfidenceReasoning)
    requires |parts| >= 1
    ensures decision != PASS <==> r == ExceedsBy(gap)
    ensures decision == PASS && |parts| <= 2 <==> r == ClearPassingDecision(parts[0])
    ensures r.Listed? ==> r.parts == parts && |parts| >= 3
  {
    if decision == PASS then
      (if |parts| <= 2 then ClearPassingDecision(parts[0]) else Listed(parts))
    else ExceedsBy(gap)
  }

  datatype ConfidenceFactors = ConfidenceFactors(
    baseConfidence: real,
    probabilityThresholdGap: real,
    totalAdjustment: real,
    activeAdjustments: seq<Adjustment>)

  datatype Confidence = Confidence(
    actionConfidence: real,
    confidenceLevel: string,
    confidenceReasoning: ConfidenceReasoning,
    confidenceFactors: ConfidenceFactors)

  /** The whole assessment as a function of the inputs. The recommended
      action is accepted but never consulted. */
  function ConfidenceOf(makeProbability: real, threshold: real, decision: string, shotType: string, zone: string,
                        shotDistance: real, timeRemaining: int, quarter: int, defenderDistance: Option<real>,
                        contestLevel: Option<string>, recommendedAction: Option<string>): (r: Confidence)
    ensures 0.15 <= r.actionConfidence <= 0.95
    ensures r.confidenceLevel == ConfidenceLevel(r.actionConfidence)
    ensures r.confidenceFactors.probabilityThresholdGap == Abs(makeProbability - threshold)
    ensures r.confidenceFactors.baseConfidence == BaseConfidence(Abs(makeProbability - threshold))
    ensures -0.18 <= r.confidenceFactors.totalAdjustment <= 0.18
    ensures r.confidenceFactors.totalAdjustment == SumWeights(r.confidenceFactors.activeAdjustments)
    ensures r.confidenceFactors.activeAdjustments
            == ActiveAdjustments(decision, shotType, zone, shotDistance, timeRemaining, quarter, contestLevel)
    ensures r.actionConfidence == FinalConfidence(r.confidenceFactors.baseConfidence, r.confidenceFactors.totalAdjustment)
    ensures r.confidenceReasoning
            == Reasoning(decision, Abs(makeProbability - threshold),
                         ReasoningParts(Abs(makeProbability - threshold), r.confidenceFactors.activeAdjustments))
  {
    var gap := Abs(makeProbability - threshold);
    var base := BaseConfidence(gap);
    var adjustments := ActiveAdjustments(decision, shotType, zone, shotDistance, timeRemaining, quarter, contestLevel);
    var total := SumWeights(adjustments);
    TotalAdjustmentBounds(decision, shotType, zone, shotDistance, timeRemaining, quarter, contestLevel);
    var score := FinalConfidence(base, total);
    Confidence(score, ConfidenceLevel(score), Reasoning(decision, gap, ReasoningParts(gap, adjustments)),
               ConfidenceFactors(base, gap, total, adjustments))
  }

  /** A whole number of hundredths: rounding to two decimals leaves it as it is. */
  predicate OnHundredths(x: real)
  {
    (x * 100.0).Floor as real == x * 100.0
  }

  /** Every weight is a whole number of hundredths. */
  function WeightHundredths(a: Adjustment): (r: int)
    ensures r as real == Weight(a) * 100.0
  {
    match a
    case TightContest => 10
    case ContestedShot => 5
    case LateClockPressure => -10
    case ModerateTimePressure => -5
    case DeepThreeAttempt => 8
    case InefficientMidrange => 6
    case DifficultAngle => 7
    case ClutchSituation => -8
  }

  /** The total of a list of adjustments counted in hundredths. */
  function SumHundredths(adjustments: seq<Adjustment>): int
  {
    if |adjustments| == 0 then 0 else WeightHundredths(adjustments[0]) + SumHundredths(adjustments[1..])
  }

  /** Any total of weights is a whole number of hundredths. */
  lemma {:induction false} SumWeightsOnHundredths(adjustments: seq<Adjustment>)
    ensures SumWeights(adjustments) * 100.0 == SumHundredths(adjustments) as real
    ensures OnHundredths(SumWeights(adjustments))
    decreases |adjustments|
  {
    if |adjustments| > 0 {
      SumWeightsOnHundredths(adjustments[1..]);
      var w := Weight(adjustments[0]);
      var rest := SumWeights(adjustments[1..]);
      calc {
        SumWeights(adjustments) * 100.0;
        (w + rest) * 100.0;
        w * 100.0 + rest * 100.0;
        WeightHundredths(adjustments[0]) as real + SumHundredths(adjustments[1..]) as real;
      }
    }
  }

  /** The score, base confidence and total adjustment are already whole
      hundredths, so the two-decimal rounding of the reported values changes
      none of them; `ConfidenceOf` ties its fields to these three. */
  lemma ConfidenceOnHundredths(gap: real, adjustments: seq<Adjustment>)
    ensures OnHundredths(BaseConfidence(gap)) && OnHundredths(SumWeights(adjustments))
    ensures OnHundredths(FinalConfidence(BaseConfidence(gap), SumWeights(adjustments)))
  {
    SumWeightsOnHundredths(adjustments);
    var base := BaseConfidence(gap);
    var total := SumWeights(adjustments);
    var b: int := if base == 0.85 then 85 else if base == 0.70 then 70 else if base == 0.55 then 55 else 40;
    var t := SumHundredths(adjustments);
    assert base == b as real / 100.0;
    assert total == t as real / 100.0;
    WholeHundredths(b);
    if 0.15 <= base + total <= 0.95 {
      assert base + total == (b + t) as real / 100.0;
      WholeHundredths(b + t);
    } else if base + total > 0.95 {
      WholeHundredths(95);
    } else {
      WholeHundredths(15);
    }
  }

  /** A whole number of hundredths, as a real, is on the hundredths grid. */
  lemma WholeHundredths(n: int)
    ensures OnHundredths(n as real / 100.0)
  {
    assert n as real / 100.0 * 100.0 == n as real;
  }

  /** The recommended action has no influence on the assessment. */
  lemma RecommendedActionIgnored(makeProbability: real, threshold: real, decision: string, shotType: string, zone: string,
                                 shotDistance: real, timeRemaining: int, quarter: int, defenderDistance: Option<real>,
                                 contestLevel: Option<string>, a1: Option<string>, a2: Option<string>)
    ensures ConfidenceOf(makeProbability, threshold, decision, shotType, zone, shotDistance, timeRemaining, quarter,
                         defenderDistance, contestLevel, a1)
         == ConfidenceOf(makeProbability, threshold, decision, shotType, zone, shotDistance, timeRemaining, quarter,
                         defenderDistance, contestLevel, a2)
  {
  }

  /** A decision other than PASS is explained by the gap alone. */
  lemma NonPassReasoningIsGap(makeProbability: real, threshold: real, decision: string, shotType: string, zone: string,
                              shotDistance: real, timeRemaining: int, quarter: int, defenderDistance: Option<real>,
                              contestLevel: Option<string>, recommendedAction: Option<string>)
    requires decision != PASS
    ensures ConfidenceOf(makeProbability, threshold, decision, shotType, zone, shotDistance, timeRemaining, quarter,
                         defenderDistance, contestLevel, recommendedAction).confidenceReasoning
         == ExceedsBy(Abs(makeProbability - threshold))
  {
  }

  /** The adjustment section of `compute_action_confidence`: each check
      contributes its weight to the running total and its tag to the list,
      in check order. */
  method CollectAdjustments(decision: string, shotType: string, zone: string, shotDistance: real,
                            timeRemaining: int, quarter: int, contestLevel: Option<string>)
    returns (adjustments: seq<Adjustment>, total: real)
    ensures adjustments == ActiveAdjustments(decision, shotType, zone, shotDistance, timeRemaining, quarter, contestLevel)
    ensures total == SumWeights(adjustments)
  {
    adjustments, total := [], 0.0;

    var step, delta := ContestStep(decision, contestLevel);
    SumWeightsAppend(adjustments, step);
    total, adjustments := total + delta, adjustments + step;
    assert adjustments == ContestAdjustments(decision, contestLevel);

    step, delta := TimeStep(timeRemaining);
    SumWeightsAppend(adjustments, step);
    total, adjustments := total + delta, adjustments + step;
    assert adjustments == ContestAdjustments(decision, contestLevel) + TimeAdjustments(timeRemaining);

    step, delta := LocationStep(decision, shotType, zone, shotDistance);
    SumWeightsAppend(adjustments, step);
    total, adjustments := total + delta, adjustments + step;
    assert adjustments == ContestAdjustments(decision, contestLevel) + TimeAdjustments(timeRemaining)
      + LocationAdjustments(decision, shotType, zone, shotDistance);

    step, delta := ClutchStep(quarter, timeRemaining);
    SumWeightsAppend(adjustments, step);
    total, adjustments := total + delta, adjustments + step;
  }

  /** The contest check of the accumulation: the tag it appends and the weight it adds. */
  method ContestStep(decision: string, contestLevel: Option<string>) returns (step: seq<Adjustment>, delta: real)
    ensures step == ContestAdjustments(decision, contestLevel) && delta == SumWeights(step)
  {
    step, delta := [], 0.0;
    if decision == PASS && Truthy(contestLevel) {
      if contestLevel.value == TIGHT {
        delta, step := 0.10, [TightContest];
      } else if contestLevel.value == CONTESTED {
        delta, step := 0.05, [ContestedShot];
      }
    }
  }

  /** The shot-clock check of the accumulation. */
  method TimeStep(timeRemaining: int) returns (step: seq<Adjustment>, delta: real)
    ensures step == TimeAdjustments(timeRemaining) && delta == SumWeights(step)
  {
    step, delta := [], 0.0;
    if timeRemaining <= 5 {
      delta, step := -0.10, [LateClockPressure];
    } else if timeRemaining <= 10 {
      delta, step := -0.05, [ModerateTimePressure];
    }
  }

  /** The shot-location check of the accumulation, PASS only. */
  method LocationStep(decision: string, shotType: string, zone: string, shotDistance: real)
    returns (step: seq<Adjustment>, delta: real)
    ensures step == LocationAdjustments(decision, shotType, zone, shotDistance) && delta == SumWeights(step)
  {
    step, delta := [], 0.0;
    if decision == PASS {
      if shotType == THREE_PT_FG && shotDistance >= 27.0 {
        delta, step := 0.08, [DeepThreeAttempt];
      } else if shotType == TWO_PT_FG && zone == MID_RANGE && shotDistance >= 15.0 {
        delta, step := 0.06, [InefficientMidrange];
      } else if shotType == THREE_PT_FG && zone == ABOVE_THE_BREAK_3 && shotDistance >= 25.0 {
        delta, step := 0.07, [DifficultAngle];
      }
    }
  }

  /** The clutch check of the accumulation. */
  method ClutchStep(quarter: int, timeRemaining: int) returns (step: seq<Adjustment>, delta: real)
    ensures step == ClutchAdjustments(quarter, timeRemaining) && delta == SumWeights(step)
  {
    step, delta := [], 0.0;
    if quarter >= 4 && timeRemaining <= 120 {
      delta, step := -0.08, [ClutchSituation];
    }
  }


  /** The reasoning section of `compute_action_confidence`: the phrase list,
      then the sentence chosen by decision and phrase count. */
  method AssembleReasoning(decision: string, gap: real, adjustments: seq<Adjustment>)
    returns (confidenceReasoning: ConfidenceReasoning)
    ensures confidenceReasoning == Reasoning(decision, gap, ReasoningParts(gap, adjustments))
  {
    var reasoningParts: seq<ReasoningPart> := [];
    if gap >= 0.15 {
      reasoningParts := reasoningParts + [WellBelow];
    } else if gap >= 0.10 {
      reasoningParts := reasoningParts + [ClearlyBelow];
    } else if gap >= 0.05 {
      reasoningParts := reasoningParts + [ModeratelyBelow];
    } else {
      reasoningParts := reasoningParts + [MarginallyBelow];
    }
    assert reasoningParts == [GapPart(gap)];
    var phrase: seq<ReasoningPart> := [];
    if TightContest in adjustments {
      phrase := [TightlyContested];
    } else if ContestedShot in adjustments {
      phrase := [ActivelyContested];
    }
    assert phrase == ContestPart(adjustments);
    reasoningParts := reasoningParts + phrase;
    phrase := [];
    if DeepThreeAttempt in adjustments {
      phrase := [FromDeepThree];
    } else if InefficientMidrange in adjustments {
      phrase := [FromMidRange];
    } else if DifficultAngle in adjustments {
      phrase := [FromDifficultAngle];
    }
    assert phrase == LocationPart(adjustments);
    reasoningParts := reasoningParts + phrase;
    phrase := [];
    if LateClockPressure in adjustments {
      phrase := [ShotClockPressure];
    } else if ClutchSituation in adjustments {
      phrase := [ClutchUncertainty];
    }
    assert phrase == ClockPart(adjustments);
    reasoningParts := reasoningParts + phrase;
    assert reasoningParts == ReasoningParts(gap, adjustments);

    if decision == PASS {
      if |reasoningParts| <= 2 {
        confidenceReasoning := ClearPassingDecision(reasoningParts[0]);
      } else {
        confidenceReasoning := Listed(reasoningParts);
      }
    } else {
      confidenceReasoning := ExceedsBy(gap);
    }
  }

  /** `compute_action_confidence`: base confidence, adjustments, clamp,
      level and reasoning. */
  method ComputeActionConfidence(makeProbability: real, threshold: real, decision: string, shotType: string, zone: string,
                                 shotDistance: real, timeRemaining: int, quarter: int, defenderDistance: Option<real>,
                                 contestLevel: Option<string>, recommendedAction: Option<string>) returns (result: Confidence)
    ensures result == ConfidenceOf(makeProbability, threshold, decision, shotType, zone, shotDistance, timeRemaining,
                                   quarter, defenderDistance, contestLevel, recommendedAction)
  {
    var gap := Abs(makeProbability - threshold);
    var baseConfidence: real;
    if gap >= 0.15 {
      baseConfidence := 0.85;
    } else if gap >= 0.10 {
      baseConfidence := 0.70;
    } else if gap >= 0.05 {
      baseConfidence := 0.55;
    } else {
      baseConfidence := 0.40;
    }
    assert baseConfidence == BaseConfidence(gap);

    var adjustments, total := CollectAdjustments(decision, shotType, zone, shotDistance, timeRemaining, quarter, contestLevel);

    var finalConfidence := Min(0.95, Max(0.15, baseConfidence + total));
    assert finalConfidence == FinalConfidence(baseConfidence, total);

    var confidenceLevel: string;
    if finalConfidence >= 0.75 {
      confidenceLevel := VERY_HIGH;
    } else if finalConfidence >= 0.60 {
      confidenceLevel := HIGH;
    } else if finalConfidence >= 0.45 {
      confidenceLevel := MODERATE;
    } else {
      confidenceLevel := LOW;
    }
    assert confidenceLevel == ConfidenceLevel(finalConfidence);

    var confidenceReasoning := AssembleReasoning(decision, gap, adjustments);

    result := Confidence(finalConfidence, confidenceLevel, confidenceReasoning,
                         ConfidenceFactors(baseConfidence, gap, total, adjustments));
  }
}
