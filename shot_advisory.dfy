/** The threshold engine of the shot advisor: a context-dependent make
    probability threshold, the TAKE SHOT / PASS decision against it, and the
    list of rationale lines that accompanies the decision.

    The advisor's tables are fixed when it is constructed and never change,
    so they are module-level lookups here. */
module ShotAdvisory {
  import opened Common

  const BASE_THRESHOLD: real := 0.45
  const LATE_CLOCK_THRESHOLD: real := 0.30
  /** The late-clock step applies with at most this many seconds left. */
  const LATE_CLOCK_SECONDS: real := 5.0
  const OVERTIME_FACTOR: real := 0.95

  /** `shot_type_thresholds.get(shot_type)`. */
  function ShotTypeThreshold(shotType: string): (r: Option<real>)
    ensures r.Some? <==> shotType in {THREE_PT_FG, TWO_PT_FG}
    ensures r.Some? ==> 0.35 <= r.value <= 0.50
    ensures shotType == THREE_PT_FG ==> r == Some(0.35)
    ensures shotType == TWO_PT_FG ==> r == Some(0.50)
  {
    if shotType == THREE_PT_FG then Some(0.35)
    else if shotType == TWO_PT_FG then Some(0.50)
    else None
  }

  /** `zone_thresholds.get(zone)`. */
  function ZoneThreshold(zone: string): (r: Option<real>)
    ensures r.Some? ==> 0.35 <= r.value <= 0.55
    ensures r.Some? <==> zone in {RESTRICTED_AREA, PAINT_NON_RA, MID_RANGE, ABOVE_THE_BREAK_3, LEFT_CORNER_3,
                                  RIGHT_CORNER_3, RIGHT_SIDE_3, LEFT_SIDE_3}
    ensures r == Some(0.40) <==> zone == RESTRICTED_AREA
    ensures r == Some(0.45) <==> zone == PAINT_NON_RA
    ensures r == Some(0.55) <==> zone == MID_RANGE
    ensures r == Some(0.35) <==> zone in {ABOVE_THE_BREAK_3, LEFT_CORNER_3, RIGHT_CORNER_3, RIGHT_SIDE_3, LEFT_SIDE_3}
  {
    if zone == RESTRICTED_AREA then Some(0.40)
    else if zone == PAINT_NON_RA then Some(0.45)
    else if zone == MID_RANGE then Some(0.55)
    else if zone in {ABOVE_THE_BREAK_3, LEFT_CORNER_3, RIGHT_CORNER_3, RIGHT_SIDE_3, LEFT_SIDE_3} then Some(0.35)
    else None
  }

  /** Step 1: the base threshold, replaced by the shot type's entry if any. */
  function TypeStep(shotType: string): (r: real)
    ensures 0.35 <= r <= 0.50
    ensures ShotTypeThreshold(shotType).None? ==> r == BASE_THRESHOLD
    ensures ShotTypeThreshold(shotType).Some? ==> r == ShotTypeThreshold(shotType).value
  {
    match ShotTypeThreshold(shotType)
    case Some(v) => v
    case None => BASE_THRESHOLD
  }

  /** Step 2: the zone entry can only lower the threshold. */
  function ZoneStep(threshold: real, zone: string): (r: real)
    ensures r <= threshold
    ensures ZoneThreshold(zone).None? ==> r == threshold
    ensures ZoneThreshold(zone).Some? ==> r <= ZoneThreshold(zone).value
    ensures ZoneThreshold(zone).Some? ==> r == threshold || r == ZoneThreshold(zone).value
    ensures threshold >= 0.35 ==> r >= 0.35
  {
    match ZoneThreshold(zone)
    case Some(v) => Min(threshold, v)
    case None => threshold
  }

  /** Step 3: in the last five seconds the threshold is capped at 0.30. */
  function ClockStep(threshold: real, timeRemaining: real): (r: real)
    ensures r <= threshold
    ensures timeRemaining > LATE_CLOCK_SECONDS ==> r == threshold
    ensures timeRemaining <= LATE_CLOCK_SECONDS ==> r <= LATE_CLOCK_THRESHOLD
    ensures timeRemaining <= LATE_CLOCK_SECONDS && threshold >= LATE_CLOCK_THRESHOLD ==> r == LATE_CLOCK_THRESHOLD
  {
    if timeRemaining <= LATE_CLOCK_SECONDS then Min(threshold, LATE_CLOCK_THRESHOLD) else threshold
  }

  /** Step 4: overtime (quarter > 4) scales the threshold by 0.95. */
  function OvertimeStep(threshold: real, quarter: int): (r: real)
    ensures quarter <= 4 ==> r == threshold
    ensures quarter > 4 ==> r == OVERTIME_FACTOR * threshold
  {
    if quarter > 4 then threshold * OVERTIME_FACTOR else threshold
  }

  /** The dynamic threshold as the composition of the four steps. */
  function Threshold(shotType: string, zone: string, timeRemaining: real, quarter: int): (r: real)
    ensures 0.285 <= r <= 0.50
    ensures quarter <= 4 ==> 0.30 <= r
  {
    OvertimeStep(ClockStep(ZoneStep(TypeStep(shotType), zone), timeRemaining), quarter)
  }

  /** `get_threshold`, reassigning the local threshold step by step. */
  method GetThreshold(shotType: string, zone: string, timeRemaining: real, quarter: int) returns (threshold: real)
    ensures threshold == Threshold(shotType, zone, timeRemaining, quarter)
    ensures 0.285 <= threshold <= 0.50
  {
    threshold := BASE_THRESHOLD;
    var typed := ShotTypeThreshold(shotType);
    if typed.Some? {
      threshold := typed.value;
    }
    var zoned := ZoneThreshold(zone);
    if zoned.Some? {
      threshold := Min(threshold, zoned.value);
    }
    if timeRemaining <= LATE_CLOCK_SECONDS {
      threshold := Min(threshold, LATE_CLOCK_THRESHOLD);
    }
    if quarter > 4 {
      threshold := threshold * OVERTIME_FACTOR;
    }
  }

  /** Neither the zone step nor the late-clock step ever raises the threshold
      set by the shot type. */
  lemma ZoneAndClockNeverRaise(shotType: string, zone: string, timeRemaining: real, quarter: int)
    ensures ClockStep(ZoneStep(TypeStep(shotType), zone), timeRemaining) <= ZoneStep(TypeStep(shotType), zone) <= TypeStep(shotType)
    ensures quarter <= 4 ==> Threshold(shotType, zone, timeRemaining, quarter) <= TypeStep(shotType)
  {
  }

  /** In the last five seconds every context gives the same threshold:
      0.30 in regulation and 0.285 in overtime, since every value before the
      clock step is at least 0.35. */
  lemma LateClockThresholdIsFixed(shotType: string, zone: string, timeRemaining: real, quarter: int)
    requires timeRemaining <= LATE_CLOCK_SECONDS
    ensures Threshold(shotType, zone, timeRemaining, quarter) == if quarter > 4 then 0.285 else 0.30
  {
  }

  /** Overtime is exactly 0.95 times the fourth-quarter threshold for the same
      shot type, zone and clock, so it is strictly lower. */
  lemma OvertimeScalesFourthQuarter(shotType: string, zone: string, timeRemaining: real, quarter: int)
    requires quarter > 4
    ensures Threshold(shotType, zone, timeRemaining, quarter) == 0.95 * Threshold(shotType, zone, timeRemaining, 4)
    ensures Threshold(shotType, zone, timeRemaining, quarter) < Threshold(shotType, zone, timeRemaining, 4)
  {
  }

  /** The maximum 0.50 is reached only by a 2PT field goal in regulation with
      time on the clock, from a zone whose entry does not undercut it. */
  lemma MaximumOnlyForTwoPointers(shotType: string, zone: string, timeRemaining: real, quarter: int)
    ensures Threshold(shotType, zone, timeRemaining, quarter) == 0.50
        <==> shotType == TWO_PT_FG && (ZoneThreshold(zone).None? || zone == MID_RANGE)
             && timeRemaining > LATE_CLOCK_SECONDS && quarter <= 4
  {
  }

  /** Every threshold is one of ten values, each with at most four decimals,
      so rounding it to four decimals leaves it unchanged. */
  lemma ThresholdValues(shotType: string, zone: string, timeRemaining: real, quarter: int)
    ensures Threshold(shotType, zone, timeRemaining, quarter)
      in {0.30, 0.35, 0.40, 0.45, 0.50, 0.285, 0.3325, 0.38, 0.4275, 0.475}
  {
  }

  datatype ExplanationLine =
    | Exceeds(probability: real, threshold: real)
    | Below(probability: real, threshold: real)
    | ThreesValuable
    | TwosNeedEfficiency
    | NearBasket
    | ThreePointZone
    | MidRangeHigherBar
    | LongRange(distance: real)
    | CloseRange(distance: real)
    | LateClockSituation
    | ClockWindingDown
    | LateGame

  /** The opening line, chosen by the decision rule itself. */
  function ProbabilityLine(probability: real, threshold: real): (r: ExplanationLine)
    ensures r.Exceeds? <==> probability >= threshold
    ensures r.Exceeds? || r.Below?
    ensures r.probability == probability && r.threshold == threshold
  {
    if probability >= threshold then Exceeds(probability, threshold) else Below(probability, threshold)
  }

  function ShotTypeLines(shotType: string): (r: seq<ExplanationLine>)
    ensures |r| <= 1 && forall x | x in r :: x.ThreesValuable? || x.TwosNeedEfficiency?
    ensures ThreesValuable in r <==> shotType == THREE_PT_FG
    ensures TwosNeedEfficiency in r <==> shotType == TWO_PT_FG
  {
    if shotType == THREE_PT_FG then [ThreesValuable]
    else if shotType == TWO_PT_FG then [TwosNeedEfficiency]
    else []
  }

  predicate NearBasketZone(zone: string)
  {
    zone in {RESTRICTED_AREA, PAINT_NON_RA}
  }

  /** Near-basket zones first, then any zone whose name holds a '3', then
      any zone whose name holds "Mid-Range". */
  function ZoneLines(zone: string): (r: seq<ExplanationLine>)
    ensures |r| <= 1 && forall x | x in r :: x.NearBasket? || x.ThreePointZone? || x.MidRangeHigherBar?
    ensures NearBasket in r <==> NearBasketZone(zone)
    ensures ThreePointZone in r <==> !NearBasketZone(zone) && '3' in zone
    ensures MidRangeHigherBar in r <==> !NearBasketZone(zone) && '3' !in zone && Contains(zone, MID_RANGE)
  {
    if NearBasketZone(zone) then [NearBasket]
    else if '3' in zone then [ThreePointZone]
    else if Contains(zone, MID_RANGE) then [MidRangeHigherBar]
    else []
  }

  /** Each of the court's zones gets its own line through the substring
      tests: the five three-point zones by their '3', Mid-Range by its name. */
  lemma ZoneLinesOfCourtZones()
    ensures ZoneLines(RESTRICTED_AREA) == [NearBasket] && ZoneLines(PAINT_NON_RA) == [NearBasket]
    ensures ZoneLines(MID_RANGE) == [MidRangeHigherBar]
    ensures forall z | z in {ABOVE_THE_BREAK_3, LEFT_CORNER_3, RIGHT_CORNER_3, LEFT_SIDE_3, RIGHT_SIDE_3} :: ZoneLines(z) == [ThreePointZone]
  {
    ContainsPrefix(MID_RANGE, MID_RANGE);
  }

  function DistanceLines(distance: real): (r: seq<ExplanationLine>)
    ensures |r| <= 1 && forall x | x in r :: x.LongRange? || x.CloseRange?
    ensures LongRange(distance) in r <==> distance >= 25.0
    ensures CloseRange(distance) in r <==> distance <= 5.0
  {
    if distance >= 25.0 then [LongRange(distance)]
    else if distance <= 5.0 then [CloseRange(distance)]
    else []
  }

  function TimeLines(timeRemaining: real): (r: seq<ExplanationLine>)
    ensures |r| <= 1 && forall x | x in r :: x.LateClockSituation? || x.ClockWindingDown?
    ensures LateClockSituation in r <==> timeRemaining <= 5.0
    ensures ClockWindingDown in r <==> 5.0 < timeRemaining <= 10.0
  {
    if timeRemaining <= 5.0 then [LateClockSituation]
    else if timeRemaining <= 10.0 then [ClockWindingDown]
    else []
  }

  /** The rationale list: the probability line, then at most one line each
      for shot type, zone, distance, clock and quarter. */
  function ExplanationLines(probability: real, threshold: real, shotType: string, zone: string,
                            distance: real, timeRemaining: real, quarter: int): (r: seq<ExplanationLine>)
    ensures 1 <= |r| <= 6
    ensures r[0] == ProbabilityLine(probability, threshold)
  {
    [ProbabilityLine(probability, threshold)] + ShotTypeLines(shotType) + ZoneLines(zone) + DistanceLines(distance)
      + TimeLines(timeRemaining) + Opt(quarter >= 4, LateGame)
  }

  /** A line other than the opening one comes from one factor's part. */
  lemma ExplanationLinesParts(probability: real, threshold: real, shotType: string, zone: string,
                              distance: real, timeRemaining: real, quarter: int, x: ExplanationLine)
    requires !x.Exceeds? && !x.Below?
    ensures x in ExplanationLines(probability, threshold, shotType, zone, distance, timeRemaining, quarter)
      <==> x in ShotTypeLines(shotType) || x in ZoneLines(zone) || x in DistanceLines(distance)
           || x in TimeLines(timeRemaining) || x in Opt(quarter >= 4, LateGame)
  {
  }

  /** The shot-type and zone lines of the rationale list. */
  lemma ExplanationShotLines(probability: real, threshold: real, shotType: string, zone: string,
                             distance: real, timeRemaining: real, quarter: int)
    ensures var r := ExplanationLines(probability, threshold, shotType, zone, distance, timeRemaining, quarter);
      && (ThreesValuable in r <==> shotType == THREE_PT_FG)
      && (TwosNeedEfficiency in r <==> shotType == TWO_PT_FG)
      && (NearBasket in r <==> NearBasketZone(zone))
      && (ThreePointZone in r <==> !NearBasketZone(zone) && '3' in zone)
      && (MidRangeHigherBar in r <==> !NearBasketZone(zone) && '3' !in zone && Contains(zone, MID_RANGE))
  {
    ExplanationLinesParts(probability, threshold, shotType, zone, distance, timeRemaining, quarter, ThreesValuable);
    ExplanationLinesParts(probability, threshold, shotType, zone, distance, timeRemaining, quarter, TwosNeedEfficiency);
    ExplanationLinesParts(probability, threshold, shotType, zone, distance, timeRemaining, quarter, NearBasket);
    ExplanationLinesParts(probability, threshold, shotType, zone, distance, timeRemaining, quarter, ThreePointZone);
    ExplanationLinesParts(probability, threshold, shotType, zone, distance, timeRemaining, quarter, MidRangeHigherBar);
  }

  /** The distance, clock and quarter lines of the rationale list. */
  lemma ExplanationSituationLines(probability: real, threshold: real, shotType: string, zone: string,
                                  distance: real, timeRemaining: real, quarter: int)
    ensures var r := ExplanationLines(probability, threshold, shotType, zone, distance, timeRemaining, quarter);
      && (LongRange(distance) in r <==> distance >= 25.0)
      && (CloseRange(distance) in r <==> distance <= 5.0)
      && (LateClockSituation in r <==> timeRemaining <= 5.0)
      && (ClockWindingDown in r <==> 5.0 < timeRemaining <= 10.0)
      && (LateGame in r <==> quarter >= 4)
  {
    ExplanationLinesParts(probability, threshold, shotType, zone, distance, timeRemaining, quarter, LongRange(distance));
    ExplanationLinesParts(probability, threshold, shotType, zone, distance, timeRemaining, quarter, CloseRange(distance));
    ExplanationLinesParts(probability, threshold, shotType, zone, distance, timeRemaining, quarter, LateClockSituation);
    ExplanationLinesParts(probability, threshold, shotType, zone, distance, timeRemaining, quarter, ClockWindingDown);
    ExplanationLinesParts(probability, threshold, shotType, zone, distance, timeRemaining, quarter, LateGame);
  }

  /** `get_explanation`, appending line by line. */
  method GetExplanation(probability: real, threshold: real, shotType: string, zone: string,
                        distance: real, timeRemaining: real, quarter: int) returns (explanations: seq<ExplanationLine>)
    ensures explanations == ExplanationLines(probability, threshold, shotType, zone, distance, timeRemaining, quarter)
  {
    explanations := [];
    if probability >= threshold {
      explanations := explanations + [Exceeds(probability, threshold)];
    } else {
      explanations := explanations + [Below(probability, threshold)];
    }
    ghost var prefix := [ProbabilityLine(probability, threshold)];
    assert explanations == prefix;
    var line: seq<ExplanationLine> := [];
    if shotType == THREE_PT_FG {
      line := [ThreesValuable];
    } else if shotType == TWO_PT_FG {
      line := [TwosNeedEfficiency];
    }
    assert line == ShotTypeLines(shotType);
    explanations := explanations + line;
    prefix := prefix + ShotTypeLines(shotType);
    assert explanations == prefix;
    line := [];
    if NearBasketZone(zone) {
      line := [NearBasket];
    } else if '3' in zone {
      line := [ThreePointZone];
    } else if Contains(zone, MID_RANGE) {
      line := [MidRangeHigherBar];
    }
    assert line == ZoneLines(zone);
    explanations := explanations + line;
    prefix := prefix + ZoneLines(zone);
    assert explanations == prefix;
    line := [];
    if distance >= 25.0 {
      line := [LongRange(distance)];
    } else if distance <= 5.0 {
      line := [CloseRange(distance)];
    }
    assert line == DistanceLines(distance);
    explanations := explanations + line;
    prefix := prefix + DistanceLines(distance);
    assert explanations == prefix;
    line := [];
    if timeRemaining <= 5.0 {
      line := [LateClockSituation];
    } else if timeRemaining <= 10.0 {
      line := [ClockWindingDown];
    }
    assert line == TimeLines(timeRemaining);
    explanations := explanations + line;
    prefix := prefix + TimeLines(timeRemaining);
    assert explanations == prefix;
    if quarter >= 4 {
      explanations := explanations + [LateGame];
    }
    prefix := prefix + Opt(quarter >= 4, LateGame);
    assert explanations == prefix;
  }

  datatype Advice = Advice(
    decision: string,
    makeProbability: real,
    threshold: real,
    confidence: real,
    explanation: seq<ExplanationLine>)

  /** `advise`: TAKE SHOT exactly when the probability reaches the dynamic
      threshold; the confidence is the distance between the two. */
  method Advise(probability: real, shotType: string, zone: string, distance: real,
                timeRemaining: real, quarter: int) returns (advice: Advice)
    ensures advice.threshold == Threshold(shotType, zone, timeRemaining, quarter)
    ensures advice.decision == TAKE_SHOT <==> probability >= advice.threshold
    ensures advice.decision == PASS <==> probability < advice.threshold
    ensures advice.confidence == Abs(probability - advice.threshold)
    ensures advice.makeProbability == probability
    ensures advice.explanation == ExplanationLines(probability, advice.threshold, shotType, zone, distance, timeRemaining, quarter)
  {
    var threshold := GetThreshold(shotType, zone, timeRemaining, quarter);
    var decision := if probability >= threshold then TAKE_SHOT else PASS;
    var confidence := Abs(probability - threshold);
    var explanation := GetExplanation(probability, threshold, shotType, zone, distance, timeRemaining, quarter);
    advice := Advice(decision, probability, threshold, confidence, explanation);
  }
}
