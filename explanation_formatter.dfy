/** Two explanation styles for the same prediction: a single direct line for
    the player, a multi-line analysis for the coach, and one coaching
    insight. Each sentence is a tag carrying the values it quotes. */
module ExplanationFormatter {
  import opened Common
  import ActionRecommender

  /** The player-mode sentences. */
  datatype PlayerLine =
    | OpenCleanLook
    | CornerSpacing
    | AttackStrong
    | ConfidentShot
    | HandInFaceMoveBall
    | ContestedLongTwo
    | TooDeep
    | DefenseOnYou
    | LongTwoNotBest
    | QuickDecision
    | NotYourShot

  /** The defender is rated wide open or open. */
  predicate OpenLook(contestLevel: Option<string>)
  {
    contestLevel == Some(WIDE_OPEN) || contestLevel == Some(OPEN)
  }

  /** The defender is rated tight or contested. */
  predicate Contested(contestLevel: Option<string>)
  {
    contestLevel == Some(TIGHT) || contestLevel == Some(CONTESTED)
  }

  /** One of the two corner-three zones. */
  predicate CornerZone(zone: string)
  {
    zone in {LEFT_CORNER_3, RIGHT_CORNER_3}
  }

  /** A three-point attempt from 27 ft or further. */
  predicate LongRangeThree(shotType: string, shotDistance: real)
  {
    shotType == THREE_PT_FG && shotDistance >= 27.0
  }

  /** The player sentence: for TAKE SHOT by openness, corner and rim; for
      anything else by the first of seven pass situations. */
  function PlayerLineOf(decision: string, shotType: string, zone: string, shotDistance: real,
                        contestLevel: Option<string>, timeRemaining: Option<int>): (r: PlayerLine)
    ensures decision == TAKE_SHOT <==> r in {OpenCleanLook, CornerSpacing, AttackStrong, ConfidentShot}
    ensures decision == TAKE_SHOT ==> (r == OpenCleanLook <==> OpenLook(contestLevel))
    ensures decision == TAKE_SHOT ==> (r == CornerSpacing <==> !OpenLook(contestLevel) && CornerZone(zone))
    ensures decision == TAKE_SHOT ==>
      (r == AttackStrong <==> !OpenLook(contestLevel) && !CornerZone(zone) && shotDistance <= 5.0)
    ensures decision == TAKE_SHOT ==>
      (r == ConfidentShot <==> !OpenLook(contestLevel) && !CornerZone(zone) && shotDistance > 5.0)
    ensures decision != TAKE_SHOT ==> (r == HandInFaceMoveBall <==> contestLevel == Some(TIGHT))
    ensures decision != TAKE_SHOT ==>
      (r == ContestedLongTwo <==> contestLevel == Some(CONTESTED) && zone == MID_RANGE)
    ensures decision != TAKE_SHOT ==>
      (r == TooDeep <==> contestLevel != Some(TIGHT) && !(contestLevel == Some(CONTESTED) && zone == MID_RANGE)
                         && LongRangeThree(shotType, shotDistance))
    ensures decision != TAKE_SHOT ==>
      (r == DefenseOnYou <==> contestLevel == Some(CONTESTED) && zone != MID_RANGE && !LongRangeThree(shotType, shotDistance))
    ensures decision != TAKE_SHOT ==>
      (r == LongTwoNotBest <==> !Contested(contestLevel) && !LongRangeThree(shotType, shotDistance)
                                && zone == MID_RANGE && shotDistance >= 15.0)
    ensures decision != TAKE_SHOT ==>
      (r == QuickDecision <==> !Contested(contestLevel) && !LongRangeThree(shotType, shotDistance)
                               && !(zone == MID_RANGE && shotDistance >= 15.0)
                               && timeRemaining.Some? && timeRemaining.value <= 5)
    ensures decision != TAKE_SHOT ==>
      (r == NotYourShot <==> !Contested(contestLevel) && !LongRangeThree(shotType, shotDistance)
                             && !(zone == MID_RANGE && shotDistance >= 15.0)
                             && !(timeRemaining.Some? && timeRemaining.value <= 5))
  {
    if decision == TAKE_SHOT then
      if contestLevel == Some(WIDE_OPEN) || contestLevel == Some(OPEN) then OpenCleanLook
      else if zone in [LEFT_CORNER_3, RIGHT_CORNER_3] then CornerSpacing
      else if shotDistance <= 5.0 then AttackStrong
      else ConfidentShot
    else
      if contestLevel == Some(TIGHT) then HandInFaceMoveBall
      else if contestLevel == Some(CONTESTED) && zone == MID_RANGE then ContestedLongTwo
      else if shotType == THREE_PT_FG && shotDistance >= 27.0 then TooDeep
      else if contestLevel == Some(TIGHT) || contestLevel == Some(CONTESTED) then DefenseOnYou
      else if zone == MID_RANGE && shotDistance >= 15.0 then LongTwoNotBest
      else if timeRemaining.Some? && timeRemaining.value <= 5 then QuickDecision
      else NotYourShot
  }

  /** `format_player_explanation`: the list always holds exactly one line,
      whatever the decision. Probability, threshold and defender distance
      are accepted but not consulted. */
  method FormatPlayerExplanation(decision: string, makeProbability: real, threshold: real, shotType: string,
                                 zone: string, shotDistance: real, defenderDistance: Option<real>,
                                 contestLevel: Option<string>, timeRemaining: Option<int>)
    returns (explanations: seq<PlayerLine>)
    ensures |explanations| == 1
    ensures explanations[0] == PlayerLineOf(decision, shotType, zone, shotDistance, contestLevel, timeRemaining)
  {
    explanations := [];
    if decision == TAKE_SHOT {
      if contestLevel == Some(WIDE_OPEN) || contestLevel == Some(OPEN) {
        explanations := explanations + [OpenCleanLook];
      } else if zone in [LEFT_CORNER_3, RIGHT_CORNER_3] {
        explanations := explanations + [CornerSpacing];
      } else if shotDistance <= 5.0 {
        explanations := explanations + [AttackStrong];
      } else {
        explanations := explanations + [ConfidentShot];
      }
    } else {
      if contestLevel == Some(TIGHT) {
        explanations := explanations + [HandInFaceMoveBall];
      } else if contestLevel == Some(CONTESTED) && zone == MID_RANGE {
        explanations := explanations + [ContestedLongTwo];
      } else if shotType == THREE_PT_FG && shotDistance >= 27.0 {
        explanations := explanations + [TooDeep];
      } else if contestLevel == Some(TIGHT) || contestLevel == Some(CONTESTED) {
        explanations := explanations + [DefenseOnYou];
      } else if zone == MID_RANGE && shotDistance >= 15.0 {
        explanations := explanations + [LongTwoNotBest];
      } else if timeRemaining.Some? && timeRemaining.value <= 5 {
        explanations := explanations + [QuickDecision];
      } else {
        explanations := explanations + [NotYourShot];
      }
    }
  }

  /** The coach-mode sentences. */
  datatype CoachLine =
    | SignificantlyExceeds(probability: real, threshold: real)
    | MeetsThreshold(probability: real, threshold: real)
    | CornerThreeEfficiency
    | RestrictedAreaValue
    | ThreePointValue(distance: real, zone: string)
    | ZoneAligned(zone: string, distance: real)
    | WideOpenDefender(defenderDistance: real)
    | LateRotation
    | BestAvailableLateClock
    | WellBelow(probability: real, threshold: real)
    | FallsShort(probability: real, threshold: real)
    | MarginallyBelow(probability: real, threshold: real)
    | TightCloseout(defenderDistance: real)
    | ActiveContest(defenderDistance: real)
    | InefficientLongTwo(distance: real)
    | DeepThree(distance: real)
    | OutsidePreferredZones(zone: string, distance: real)
    | ForcedLateClock
    | TimeToCreate(seconds: int)
    | ClutchSelection

  predicate IsTakeGapLine(line: CoachLine) { line.SignificantlyExceeds? || line.MeetsThreshold? }
  predicate IsPassGapLine(line: CoachLine) { line.WellBelow? || line.FallsShort? || line.MarginallyBelow? }

  // ----- TAKE SHOT -----

  function TakeGapLine(makeProbability: real, threshold: real): (r: CoachLine)
    ensures r.SignificantlyExceeds? <==> Abs(makeProbability - threshold) >= 0.10
    ensures IsTakeGapLine(r) && r.probability == makeProbability && r.threshold == threshold
  {
    if Abs(makeProbability - threshold) >= 0.10 then SignificantlyExceeds(makeProbability, threshold)
    else MeetsThreshold(makeProbability, threshold)
  }

  function TakeZoneLine(shotType: string, zone: string, shotDistance: real): (r: CoachLine)
    ensures r == CornerThreeEfficiency <==> zone in {LEFT_CORNER_3, RIGHT_CORNER_3}
    ensures r == RestrictedAreaValue <==> zone == RESTRICTED_AREA
    ensures r.ThreePointValue? ==> shotType == THREE_PT_FG
    ensures r == ThreePointValue(shotDistance, zone) <==>
      !CornerZone(zone) && zone != RESTRICTED_AREA && shotType == THREE_PT_FG
    ensures r == ZoneAligned(zone, shotDistance) <==>
      !CornerZone(zone) && zone != RESTRICTED_AREA && shotType != THREE_PT_FG
    ensures r.CornerThreeEfficiency? || r.RestrictedAreaValue? || r.ThreePointValue? || r.ZoneAligned?
  {
    if zone in [LEFT_CORNER_3, RIGHT_CORNER_3] then CornerThreeEfficiency
    else if zone == RESTRICTED_AREA then RestrictedAreaValue
    else if shotType == THREE_PT_FG then ThreePointValue(shotDistance, zone)
    else ZoneAligned(zone, shotDistance)
  }

  /** The contest line: WIDE_OPEN quotes the defender distance, which
      cannot be formatted when it is missing. */
  function TakeContestLines(defenderDistance: Option<real>, contestLevel: Option<string>): (r: Result<seq<CoachLine>, FormatError>)
    ensures r.Err? <==> contestLevel == Some(WIDE_OPEN) && defenderDistance.None?
    ensures r.Ok? ==> |r.value| <= 1
    ensures r.Ok? ==> (r.value == [LateRotation] <==> contestLevel == Some(OPEN))
    ensures contestLevel == Some(WIDE_OPEN) && defenderDistance.Some? ==>
      r == Ok([WideOpenDefender(defenderDistance.value)])
    ensures !OpenLook(contestLevel) ==> r == Ok([])
  {
    if contestLevel == Some(WIDE_OPEN) then
      (if defenderDistance.None? then Err(NoneFormatted) else Ok([WideOpenDefender(defenderDistance.value)]))
    else if contestLevel == Some(OPEN) then Ok([LateRotation])
    else Ok([])
  }

  function TakeClockLines(timeRemaining: Option<int>): (r: seq<CoachLine>)
    ensures r != [] <==> timeRemaining.Some? && timeRemaining.value <= 5
    ensures r == [] || r == [BestAvailableLateClock]
  {
    Opt(timeRemaining.Some? && timeRemaining.value <= 5, BestAvailableLateClock)
  }

  /** The coach TAKE SHOT analysis: gap and zone lines always, then the
      contest and late-clock lines when they apply. */
  function CoachTakeLines(makeProbability: real, threshold: real, shotType: string, zone: string, shotDistance: real,
                          defenderDistance: Option<real>, contestLevel: Option<string>,
                          timeRemaining: Option<int>): (r: Result<seq<CoachLine>, FormatError>)
    ensures r.Err? <==> contestLevel == Some(WIDE_OPEN) && defenderDistance.None?
    ensures r.Ok? ==>
      (2 <= |r.value| <= 4 && IsTakeGapLine(r.value[0])
       && r.value[1] == TakeZoneLine(shotType, zone, shotDistance))
    ensures r.Ok? ==> r.value[0] == TakeGapLine(makeProbability, threshold)
    ensures r.Ok? ==> (LateRotation in r.value <==> contestLevel == Some(OPEN))
    ensures r.Ok? && defenderDistance.Some? ==>
      (WideOpenDefender(defenderDistance.value) in r.value <==> contestLevel == Some(WIDE_OPEN))
    ensures r.Ok? ==> (BestAvailableLateClock in r.value <==> timeRemaining.Some? && timeRemaining.value <= 5)
    ensures r.Ok? && TakeContestLines(defenderDistance, contestLevel).value != [] ==>
      r.value[2] == TakeContestLines(defenderDistance, contestLevel).value[0]
    ensures r.Ok? && timeRemaining.Some? && timeRemaining.value <= 5 ==> r.value[|r.value| - 1] == BestAvailableLateClock
  {
    match TakeContestLines(defenderDistance, contestLevel)
    case Err(e) => Err(e)
    case Ok(contest) =>
      Ok([TakeGapLine(makeProbability, threshold)] + [TakeZoneLine(shotType, zone, shotDistance)]
         + contest + TakeClockLines(timeRemaining))
  }

  // ----- PASS -----

  function PassGapLine(makeProbability: real, threshold: real): (r: CoachLine)
    ensures IsPassGapLine(r) && r.probability == makeProbability && r.threshold == threshold
    ensures r.WellBelow? <==> Abs(makeProbability - threshold) >= 0.10
    ensures r.FallsShort? <==> 0.05 <= Abs(makeProbability - threshold) < 0.10
  {
    var gap := Abs(makeProbability - threshold);
    if gap >= 0.10 then WellBelow(makeProbability, threshold)
    else if gap >= 0.05 then FallsShort(makeProbability, threshold)
    else MarginallyBelow(makeProbability, threshold)
  }

  function PassDefenderLines(defenderDistance: Option<real>, contestLevel: Option<string>): (r: seq<CoachLine>)
    ensures |r| <= 1
    ensures r != [] <==> defenderDistance.Some? && (contestLevel == Some(TIGHT) || contestLevel == Some(CONTESTED))
    ensures defenderDistance.Some? && contestLevel == Some(TIGHT) ==> r == [TightCloseout(defenderDistance.value)]
    ensures defenderDistance.Some? && contestLevel == Some(CONTESTED) ==> r == [ActiveContest(defenderDistance.value)]
  {
    if defenderDistance.Some? && Truthy(contestLevel) then
      (if contestLevel.value == TIGHT then [TightCloseout(defenderDistance.value)]
       else if contestLevel.value == CONTESTED then [ActiveContest(defenderDistance.value)]
       else [])
    else []
  }

  /** A mid-range two from 15 ft or further. */
  predicate LongTwo(shotType: string, zone: string, shotDistance: real)
  {
    shotType == TWO_PT_FG && zone == MID_RANGE && shotDistance >= 15.0
  }

  function PassLocationLines(shotType: string, zone: string, shotDistance: real): (r: seq<CoachLine>)
    ensures |r| <= 1
    ensures r == [InefficientLongTwo(shotDistance)] <==> LongTwo(shotType, zone, shotDistance)
    ensures r == [DeepThree(shotDistance)] <==>
      !LongTwo(shotType, zone, shotDistance) && LongRangeThree(shotType, shotDistance)
    ensures r == [OutsidePreferredZones(zone, shotDistance)] <==>
      !LongTwo(shotType, zone, shotDistance) && !LongRangeThree(shotType, shotDistance)
      && zone !in {LEFT_CORNER_3, RIGHT_CORNER_3, RESTRICTED_AREA}
    ensures r == [] <==>
      !LongTwo(shotType, zone, shotDistance) && !LongRangeThree(shotType, shotDistance)
      && zone in {LEFT_CORNER_3, RIGHT_CORNER_3, RESTRICTED_AREA}
  {
    if shotType == TWO_PT_FG && zone == MID_RANGE && shotDistance >= 15.0 then [InefficientLongTwo(shotDistance)]
    else if shotType == THREE_PT_FG && shotDistance >= 27.0 then [DeepThree(shotDistance)]
    else if zone !in [LEFT_CORNER_3, RIGHT_CORNER_3, RESTRICTED_AREA] then [OutsidePreferredZones(zone, shotDistance)]
    else []
  }

  function PassTimeLines(timeRemaining: Option<int>): (r: seq<CoachLine>)
    ensures |r| <= 1
    ensures r == [] <==> timeRemaining.None? || 5 < timeRemaining.value < 15
    ensures r == [ForcedLateClock] <==> timeRemaining.Some? && timeRemaining.value <= 5
    ensures timeRemaining.Some? ==> (r == [TimeToCreate(timeRemaining.value)] <==> timeRemaining.value >= 15)
  {
    if timeRemaining.Some? then
      (if timeRemaining.value <= 5 then [ForcedLateClock]
       else if timeRemaining.value >= 15 then [TimeToCreate(timeRemaining.value)]
       else [])
    else []
  }

  function ClutchLines(quarter: Option<int>, timeRemaining: Option<int>): (r: seq<CoachLine>)
    ensures r != [] <==> quarter.Some? && quarter.value >= 4 && timeRemaining.Some? && timeRemaining.value <= 120
    ensures r == [] || r == [ClutchSelection]
  {
    Opt(quarter.Some? && quarter.value >= 4 && timeRemaining.Some? && timeRemaining.value <= 120, ClutchSelection)
  }

  /** The coach PASS analysis: the gap line, then defender, location, clock
      and clutch lines when they apply. */
  function CoachPassLines(makeProbability: real, threshold: real, shotType: string, zone: string, shotDistance: real,
                          defenderDistance: Option<real>, contestLevel: Option<string>,
                          timeRemaining: Option<int>, quarter: Option<int>): (r: seq<CoachLine>)
    ensures 1 <= |r| <= 5
    ensures r[0] == PassGapLine(makeProbability, threshold)
  {
    [PassGapLine(makeProbability, threshold)] + PassDefenderLines(defenderDistance, contestLevel)
      + PassLocationLines(shotType, zone, shotDistance) + PassTimeLines(timeRemaining)
      + ClutchLines(quarter, timeRemaining)
  }

  /** A line after the gap line comes from one of the four situation parts. */
  lemma CoachPassLinesMember(makeProbability: real, threshold: real, shotType: string, zone: string,
                             shotDistance: real, defenderDistance: Option<real>, contestLevel: Option<string>,
                             timeRemaining: Option<int>, quarter: Option<int>, x: CoachLine)
    requires !IsPassGapLine(x)
    ensures x in CoachPassLines(makeProbability, threshold, shotType, zone, shotDistance, defenderDistance,
                                contestLevel, timeRemaining, quarter)
      <==> x in PassDefenderLines(defenderDistance, contestLevel) || x in PassLocationLines(shotType, zone, shotDistance)
           || x in PassTimeLines(timeRemaining) || x in ClutchLines(quarter, timeRemaining)
  {
  }

  /** The defender and location sentences of the PASS analysis, each exactly when it applies. */
  lemma CoachPassShotContent(makeProbability: real, threshold: real, shotType: string, zone: string,
                             shotDistance: real, defenderDistance: Option<real>, contestLevel: Option<string>,
                             timeRemaining: Option<int>, quarter: Option<int>)
    ensures var r := CoachPassLines(makeProbability, threshold, shotType, zone, shotDistance, defenderDistance,
                                    contestLevel, timeRemaining, quarter);
      && (defenderDistance.Some? ==> (TightCloseout(defenderDistance.value) in r <==> contestLevel == Some(TIGHT)))
      && (defenderDistance.Some? ==> (ActiveContest(defenderDistance.value) in r <==> contestLevel == Some(CONTESTED)))
      && (InefficientLongTwo(shotDistance) in r <==> LongTwo(shotType, zone, shotDistance))
      && (DeepThree(shotDistance) in r <==>
          !LongTwo(shotType, zone, shotDistance) && LongRangeThree(shotType, shotDistance))
      && (OutsidePreferredZones(zone, shotDistance) in r <==>
          !LongTwo(shotType, zone, shotDistance) && !LongRangeThree(shotType, shotDistance)
          && zone !in {LEFT_CORNER_3, RIGHT_CORNER_3, RESTRICTED_AREA})
  {
    if defenderDistance.Some? {
      CoachPassLinesMember(makeProbability, threshold, shotType, zone, shotDistance, defenderDistance, contestLevel,
                           timeRemaining, quarter, TightCloseout(defenderDistance.value));
      CoachPassLinesMember(makeProbability, threshold, shotType, zone, shotDistance, defenderDistance, contestLevel,
                           timeRemaining, quarter, ActiveContest(defenderDistance.value));
    }
    CoachPassLinesMember(makeProbability, threshold, shotType, zone, shotDistance, defenderDistance, contestLevel,
                         timeRemaining, quarter, InefficientLongTwo(shotDistance));
    CoachPassLinesMember(makeProbability, threshold, shotType, zone, shotDistance, defenderDistance, contestLevel,
                         timeRemaining, quarter, DeepThree(shotDistance));
    CoachPassLinesMember(makeProbability, threshold, shotType, zone, shotDistance, defenderDistance, contestLevel,
                         timeRemaining, quarter, OutsidePreferredZones(zone, shotDistance));
  }

  /** The clock and clutch sentences of the PASS analysis, each exactly when it applies. */
  lemma CoachPassClockContent(makeProbability: real, threshold: real, shotType: string, zone: string,
                              shotDistance: real, defenderDistance: Option<real>, contestLevel: Option<string>,
                              timeRemaining: Option<int>, quarter: Option<int>)
    ensures var r := CoachPassLines(makeProbability, threshold, shotType, zone, shotDistance, defenderDistance,
                                    contestLevel, timeRemaining, quarter);
      && (ForcedLateClock in r <==> timeRemaining.Some? && timeRemaining.value <= 5)
      && (timeRemaining.Some? ==> (TimeToCreate(timeRemaining.value) in r <==> timeRemaining.value >= 15))
      && (ClutchSelection in r <==>
          quarter.Some? && quarter.value >= 4 && timeRemaining.Some? && timeRemaining.value <= 120)
  {
    CoachPassLinesMember(makeProbability, threshold, shotType, zone, shotDistance, defenderDistance, contestLevel,
                         timeRemaining, quarter, ForcedLateClock);
    if timeRemaining.Some? {
      CoachPassLinesMember(makeProbability, threshold, shotType, zone, shotDistance, defenderDistance, contestLevel,
                           timeRemaining, quarter, TimeToCreate(timeRemaining.value));
    }
    CoachPassLinesMember(makeProbability, threshold, shotType, zone, shotDistance, defenderDistance, contestLevel,
                         timeRemaining, quarter, ClutchSelection);
  }

  /** The coach analysis for a decision: exactly "TAKE SHOT" gets the TAKE
      analysis, any other decision the PASS analysis, which cannot fail. */
  function CoachExplanation(decision: string, makeProbability: real, threshold: real, shotType: string, zone: string,
                            shotDistance: real, defenderDistance: Option<real>, contestLevel: Option<string>,
                            timeRemaining: Option<int>, quarter: Option<int>): (r: Result<seq<CoachLine>, FormatError>)
    ensures r.Err? <==> decision == TAKE_SHOT && contestLevel == Some(WIDE_OPEN) && defenderDistance.None?
    ensures r.Ok? && decision == TAKE_SHOT ==> 2 <= |r.value| <= 4 && IsTakeGapLine(r.value[0])
    ensures r.Ok? && decision != TAKE_SHOT ==> 1 <= |r.value| <= 5 && IsPassGapLine(r.value[0])
    ensures decision == TAKE_SHOT ==>
      r == CoachTakeLines(makeProbability, threshold, shotType, zone, shotDistance, defenderDistance, contestLevel,
                          timeRemaining)
    ensures decision != TAKE_SHOT ==>
      r == Ok(CoachPassLines(makeProbability, threshold, shotType, zone, shotDistance, defenderDistance, contestLevel,
                             timeRemaining, quarter))
  {
    if decision == TAKE_SHOT then
      CoachTakeLines(makeProbability, threshold, shotType, zone, shotDistance, defenderDistance, contestLevel, timeRemaining)
    else
      Ok(CoachPassLines(makeProbability, threshold, shotType, zone, shotDistance, defenderDistance, contestLevel,
                        timeRemaining, quarter))
  }

  /** The TAKE SHOT section of `format_coach_explanation`; a WIDE_OPEN shot
      without a defender distance fails at the contest line. */
  method CoachTakeSection(makeProbability: real, threshold: real, shotType: string, zone: string,
                           shotDistance: real, defenderDistance: Option<real>, contestLevel: Option<string>,
                           timeRemaining: Option<int>)
    returns (result: Result<seq<CoachLine>, FormatError>)
    ensures result == CoachTakeLines(makeProbability, threshold, shotType, zone, shotDistance,
                                     defenderDistance, contestLevel, timeRemaining)
  {
    var explanations: seq<CoachLine> := [];
    var probGap := Abs(makeProbability - threshold);
    var line: seq<CoachLine>;
    if probGap >= 0.10 {
      line := [SignificantlyExceeds(makeProbability, threshold)];
    } else {
      line := [MeetsThreshold(makeProbability, threshold)];
    }
    assert line == [TakeGapLine(makeProbability, threshold)];
    explanations := explanations + line;

    if zone in [LEFT_CORNER_3, RIGHT_CORNER_3] {
      line := [CornerThreeEfficiency];
    } else if zone == RESTRICTED_AREA {
      line := [RestrictedAreaValue];
    } else if shotType == THREE_PT_FG {
      line := [ThreePointValue(shotDistance, zone)];
    } else {
      line := [ZoneAligned(zone, shotDistance)];
    }
    assert line == [TakeZoneLine(shotType, zone, shotDistance)];
    explanations := explanations + line;
    ghost var prefix := [TakeGapLine(makeProbability, threshold)] + [TakeZoneLine(shotType, zone, shotDistance)];
    assert explanations == prefix;

    line := [];
    if contestLevel == Some(WIDE_OPEN) {
      if defenderDistance.None? {
        return Err(NoneFormatted);
      }
      line := [WideOpenDefender(defenderDistance.value)];
    } else if contestLevel == Some(OPEN) {
      line := [LateRotation];
    }
    assert TakeContestLines(defenderDistance, contestLevel) == Ok(line);
    explanations := explanations + line;
    prefix := prefix + line;
    assert explanations == prefix;

    line := [];
    if timeRemaining.Some? && timeRemaining.value <= 5 {
      line := [BestAvailableLateClock];
    }
    assert line == TakeClockLines(timeRemaining);
    explanations := explanations + line;
    prefix := prefix + line;
    assert explanations == prefix;
    assert Ok(explanations) == CoachTakeLines(makeProbability, threshold, shotType, zone, shotDistance,
                                              defenderDistance, contestLevel, timeRemaining);
    result := Ok(explanations);
  }

  /** The PASS section of `format_coach_explanation`. */
  method CoachPassSection(makeProbability: real, threshold: real, shotType: string, zone: string,
                           shotDistance: real, defenderDistance: Option<real>, contestLevel: Option<string>,
                           timeRemaining: Option<int>, quarter: Option<int>)
    returns (explanations: seq<CoachLine>)
    ensures explanations == CoachPassLines(makeProbability, threshold, shotType, zone, shotDistance,
                                           defenderDistance, contestLevel, timeRemaining, quarter)
  {
    explanations := [];
    var probGap := Abs(makeProbability - threshold);
    var line: seq<CoachLine>;
    if probGap >= 0.10 {
      line := [WellBelow(makeProbability, threshold)];
    } else if probGap >= 0.05 {
      line := [FallsShort(makeProbability, threshold)];
    } else {
      line := [MarginallyBelow(makeProbability, threshold)];
    }
    assert line == [PassGapLine(makeProbability, threshold)];
    explanations := explanations + line;
    ghost var prefix := [PassGapLine(makeProbability, threshold)];
    assert explanations == prefix;

    line := [];
    if defenderDistance.Some? && Truthy(contestLevel) {
      if contestLevel.value == TIGHT {
        line := [TightCloseout(defenderDistance.value)];
      } else if contestLevel.value == CONTESTED {
        line := [ActiveContest(defenderDistance.value)];
      }
    }
    assert line == PassDefenderLines(defenderDistance, contestLevel);
    explanations := explanations + line;
    prefix := prefix + PassDefenderLines(defenderDistance, contestLevel);
    assert explanations == prefix;

    line := [];
    if shotType == TWO_PT_FG && zone == MID_RANGE && shotDistance >= 15.0 {
      line := [InefficientLongTwo(shotDistance)];
    } else if shotType == THREE_PT_FG && shotDistance >= 27.0 {
      line := [DeepThree(shotDistance)];
    } else if zone !in [LEFT_CORNER_3, RIGHT_CORNER_3, RESTRICTED_AREA] {
      line := [OutsidePreferredZones(zone, shotDistance)];
    }
    assert line == PassLocationLines(shotType, zone, shotDistance);
    explanations := explanations + line;
    prefix := prefix + PassLocationLines(shotType, zone, shotDistance);
    assert explanations == prefix;

    explanations := PassClockSection(explanations, timeRemaining, quarter);
    prefix := prefix + PassTimeLines(timeRemaining) + ClutchLines(quarter, timeRemaining);
    assert explanations == prefix;
    assert explanations == CoachPassLines(makeProbability, threshold, shotType, zone, shotDistance,
                                          defenderDistance, contestLevel, timeRemaining, quarter);
  }

  /** The clock and clutch checks closing the PASS analysis, appended to the
      lines before them. */
  method PassClockSection(prior: seq<CoachLine>, timeRemaining: Option<int>, quarter: Option<int>)
    returns (explanations: seq<CoachLine>)
    ensures explanations == prior + PassTimeLines(timeRemaining) + ClutchLines(quarter, timeRemaining)
  {
    explanations := prior;
    if timeRemaining.Some? {
      if timeRemaining.value <= 5 {
        explanations := explanations + [ForcedLateClock];
      } else if timeRemaining.value >= 15 {
        explanations := explanations + [TimeToCreate(timeRemaining.value)];
      }
    }
    assert explanations == prior + PassTimeLines(timeRemaining);
    if quarter.Some? && quarter.value >= 4 && timeRemaining.Some? && timeRemaining.value <= 120 {
      explanations := explanations + [ClutchSelection];
    }
  }

  /** `format_coach_explanation`: the TAKE SHOT section for exactly
      "TAKE SHOT", the PASS section for any other decision. */
  method FormatCoachExplanation(decision: string, makeProbability: real, threshold: real, shotType: string, zone: string,
                                shotDistance: real, defenderDistance: Option<real>, contestLevel: Option<string>,
                                timeRemaining: Option<int>, quarter: Option<int>)
    returns (result: Result<seq<CoachLine>, FormatError>)
    ensures result == CoachExplanation(decision, makeProbability, threshold, shotType, zone, shotDistance,
                                       defenderDistance, contestLevel, timeRemaining, quarter)
  {
    if decision == TAKE_SHOT {
      result := CoachTakeSection(makeProbability, threshold, shotType, zone, shotDistance,
                                 defenderDistance, contestLevel, timeRemaining);
    } else {
      var explanations := CoachPassSection(makeProbability, threshold, shotType, zone, shotDistance,
                                           defenderDistance, contestLevel, timeRemaining, quarter);
      result := Ok(explanations);
    }
  }

  // ----- Coaching insight -----

  /** The one-sentence teaching points. */
  datatype CoachingInsight =
    | OpenLookDiscipline
    | CornerThreeEmphasis
    | HighQualityTarget
    | OnBalanceRhythm
    | OneMorePass
    | AttackInsteadOfMidRange
    | RangeLimitations
    | BallReversal
    | AttackCloseouts
    | EarlyOffense
    | MoveTheBall
    | TrustTheProcess

  /** A present, non-empty recommended action naming `word`. */
  predicate ActionNames(recommendedAction: Option<string>, word: string)
  {
    Truthy(recommendedAction) && Contains(recommendedAction.value, word)
  }

  /** Not tight, not a mid-range two and not a deep three: the insight
      cascade has reached the recommended action. */
  predicate InsightPastShotKind(shotType: string, zone: string, shotDistance: real, contestLevel: Option<string>)
  {
    contestLevel != Some(TIGHT) && !(shotType == TWO_PT_FG && zone == MID_RANGE) && !LongRangeThree(shotType, shotDistance)
  }

  /** `get_coaching_insight`: for TAKE SHOT by openness, corner and a 0.15
      margin; for anything else by contest, shot kind, then the words
      "Swing", "Drive" and "Reset" in the recommended action. */
  function GetCoachingInsight(decision: string, makeProbability: real, threshold: real, shotType: string, zone: string,
                              shotDistance: real, defenderDistance: Option<real>, contestLevel: Option<string>,
                              recommendedAction: Option<string>): (r: CoachingInsight)
    ensures decision == TAKE_SHOT <==> r in {OpenLookDiscipline, CornerThreeEmphasis, HighQualityTarget, OnBalanceRhythm}
    ensures decision == TAKE_SHOT ==> (r == OpenLookDiscipline <==> OpenLook(contestLevel))
    ensures decision == TAKE_SHOT ==> (r == CornerThreeEmphasis <==> !OpenLook(contestLevel) && CornerZone(zone))
    ensures decision == TAKE_SHOT ==>
      (r == HighQualityTarget <==> !OpenLook(contestLevel) && !CornerZone(zone) && makeProbability >= threshold + 0.15)
    ensures decision == TAKE_SHOT ==>
      (r == OnBalanceRhythm <==> !OpenLook(contestLevel) && !CornerZone(zone) && makeProbability < threshold + 0.15)
    ensures decision != TAKE_SHOT ==> (r == OneMorePass <==> contestLevel == Some(TIGHT))
    ensures decision != TAKE_SHOT ==>
      (r == AttackInsteadOfMidRange <==> contestLevel != Some(TIGHT) && shotType == TWO_PT_FG && zone == MID_RANGE)
    ensures decision != TAKE_SHOT ==>
      (r == RangeLimitations <==> contestLevel != Some(TIGHT) && LongRangeThree(shotType, shotDistance))
    ensures decision != TAKE_SHOT ==>
      (r == BallReversal <==> InsightPastShotKind(shotType, zone, shotDistance, contestLevel)
                              && ActionNames(recommendedAction, "Swing"))
    ensures decision != TAKE_SHOT ==>
      (r == AttackCloseouts <==> InsightPastShotKind(shotType, zone, shotDistance, contestLevel)
                                 && !ActionNames(recommendedAction, "Swing") && ActionNames(recommendedAction, "Drive"))
    ensures decision != TAKE_SHOT ==>
      (r == EarlyOffense <==> InsightPastShotKind(shotType, zone, shotDistance, contestLevel)
                              && !ActionNames(recommendedAction, "Swing") && !ActionNames(recommendedAction, "Drive")
                              && ActionNames(recommendedAction, "Reset"))
    ensures decision != TAKE_SHOT ==>
      (r == MoveTheBall <==> InsightPastShotKind(shotType, zone, shotDistance, contestLevel)
                             && !ActionNames(recommendedAction, "Swing") && !ActionNames(recommendedAction, "Drive")
                             && !ActionNames(recommendedAction, "Reset") && contestLevel == Some(CONTESTED))
    ensures decision != TAKE_SHOT ==>
      (r == TrustTheProcess <==> InsightPastShotKind(shotType, zone, shotDistance, contestLevel)
                                 && !ActionNames(recommendedAction, "Swing") && !ActionNames(recommendedAction, "Drive")
                                 && !ActionNames(recommendedAction, "Reset") && !Contested(contestLevel))
  {
    if decision == TAKE_SHOT then
      if contestLevel == Some(WIDE_OPEN) || contestLevel == Some(OPEN) then OpenLookDiscipline
      else if zone in [LEFT_CORNER_3, RIGHT_CORNER_3] then CornerThreeEmphasis
      else if makeProbability >= threshold + 0.15 then HighQualityTarget
      else OnBalanceRhythm
    else
      if contestLevel == Some(TIGHT) then OneMorePass
      else if shotType == TWO_PT_FG && zone == MID_RANGE then AttackInsteadOfMidRange
      else if shotType == THREE_PT_FG && shotDistance >= 27.0 then RangeLimitations
      else if ActionNames(recommendedAction, "Swing") then BallReversal
      else if ActionNames(recommendedAction, "Drive") then AttackCloseouts
      else if ActionNames(recommendedAction, "Reset") then EarlyOffense
      else if contestLevel == Some(TIGHT) || contestLevel == Some(CONTESTED) then MoveTheBall
      else TrustTheProcess
  }

  /** Once contest and shot kind have had their say, the recommender's own
      actions map onto insights by name: a swing pass to ball reversal,
      drive-and-kick to attacking closeouts, a reset to early offense. */
  lemma RecommendedActionInsights(decision: string, makeProbability: real, threshold: real, shotType: string,
                                  zone: string, shotDistance: real, defenderDistance: Option<real>,
                                  contestLevel: Option<string>)
    requires decision != TAKE_SHOT && contestLevel != Some(TIGHT)
    requires !(shotType == TWO_PT_FG && zone == MID_RANGE) && !(shotType == THREE_PT_FG && shotDistance >= 27.0)
    ensures GetCoachingInsight(decision, makeProbability, threshold, shotType, zone, shotDistance, defenderDistance,
                               contestLevel, Some(ActionRecommender.ActionValue(ActionRecommender.SwingPass))) == BallReversal
    ensures GetCoachingInsight(decision, makeProbability, threshold, shotType, zone, shotDistance, defenderDistance,
                               contestLevel, Some(ActionRecommender.ActionValue(ActionRecommender.DriveAndKick))) == AttackCloseouts
    ensures GetCoachingInsight(decision, makeProbability, threshold, shotType, zone, shotDistance, defenderDistance,
                               contestLevel, Some(ActionRecommender.ActionValue(ActionRecommender.ResetOffense))) == EarlyOffense
  {
    SwingPassInsight(decision, makeProbability, threshold, shotType, zone, shotDistance, defenderDistance, contestLevel);
    DriveAndKickInsight(decision, makeProbability, threshold, shotType, zone, shotDistance, defenderDistance, contestLevel);
    ResetInsight(decision, makeProbability, threshold, shotType, zone, shotDistance, defenderDistance, contestLevel);
  }

  lemma SwingPassInsight(decision: string, makeProbability: real, threshold: real, shotType: string,
                         zone: string, shotDistance: real, defenderDistance: Option<real>,
                         contestLevel: Option<string>)
    requires decision != TAKE_SHOT && contestLevel != Some(TIGHT)
    requires !(shotType == TWO_PT_FG && zone == MID_RANGE) && !(shotType == THREE_PT_FG && shotDistance >= 27.0)
    ensures GetCoachingInsight(decision, makeProbability, threshold, shotType, zone, shotDistance, defenderDistance,
                               contestLevel, Some(ActionRecommender.ActionValue(ActionRecommender.SwingPass))) == BallReversal
  {
    ContainsPrefix("Swing Pass", "Swing");
  }

  lemma DriveAndKickInsight(decision: string, makeProbability: real, threshold: real, shotType: string,
                            zone: string, shotDistance: real, defenderDistance: Option<real>,
                            contestLevel: Option<string>)
    requires decision != TAKE_SHOT && contestLevel != Some(TIGHT)
    requires !(shotType == TWO_PT_FG && zone == MID_RANGE) && !(shotType == THREE_PT_FG && shotDistance >= 27.0)
    ensures GetCoachingInsight(decision, makeProbability, threshold, shotType, zone, shotDistance, defenderDistance,
                               contestLevel, Some(ActionRecommender.ActionValue(ActionRecommender.DriveAndKick))) == AttackCloseouts
  {
    var drive := ActionRecommender.ActionValue(ActionRecommender.DriveAndKick);
    NotContainsWithoutFirstChar(drive, "Swing");
    ContainsPrefix(drive, "Drive");
  }

  lemma ResetInsight(decision: string, makeProbability: real, threshold: real, shotType: string,
                     zone: string, shotDistance: real, defenderDistance: Option<real>,
                     contestLevel: Option<string>)
    requires decision != TAKE_SHOT && contestLevel != Some(TIGHT)
    requires !(shotType == TWO_PT_FG && zone == MID_RANGE) && !(shotType == THREE_PT_FG && shotDistance >= 27.0)
    ensures GetCoachingInsight(decision, makeProbability, threshold, shotType, zone, shotDistance, defenderDistance,
                               contestLevel, Some(ActionRecommender.ActionValue(ActionRecommender.ResetOffense))) == EarlyOffense
  {
    var reset := ActionRecommender.ActionValue(ActionRecommender.ResetOffense);
    NotContainsWithoutFirstChar(reset, "Swing");
    NotContainsWithoutFirstChar(reset, "Drive");
    ContainsPrefix(reset, "Reset");
  }

  // ----- Dual mode -----

  datatype DualModeExplanation = DualModeExplanation(
    player: seq<PlayerLine>,
    coach: seq<CoachLine>,
    coachingInsight: CoachingInsight)

  /** `format_dual_mode_explanation`: the three styles over the same
      inputs, with the clock and quarter always present. It fails exactly
      when the coach analysis does. */
  function FormatDualModeExplanation(decision: string, makeProbability: real, threshold: real, shotType: string,
                                     zone: string, shotDistance: real, timeRemaining: int, quarter: int,
                                     defenderDistance: Option<real>, contestLevel: Option<string>,
                                     recommendedAction: Option<string>): (r: Result<DualModeExplanation, FormatError>)
    ensures r.Err? <==> decision == TAKE_SHOT && contestLevel == Some(WIDE_OPEN) && defenderDistance.None?
    ensures r.Ok? ==>
      r.value.player == [PlayerLineOf(decision, shotType, zone, shotDistance, contestLevel, Some(timeRemaining))]
      && Ok(r.value.coach) == CoachExplanation(decision, makeProbability, threshold, shotType, zone, shotDistance,
                                               defenderDistance, contestLevel, Some(timeRemaining), Some(quarter))
      && r.value.coachingInsight == GetCoachingInsight(decision, makeProbability, threshold, shotType, zone,
                                                       shotDistance, defenderDistance, contestLevel, recommendedAction)
  {
    var player := [PlayerLineOf(decision, shotType, zone, shotDistance, contestLevel, Some(timeRemaining))];
    match CoachExplanation(decision, makeProbability, threshold, shotType, zone, shotDistance,
                           defenderDistance, contestLevel, Some(timeRemaining), Some(quarter))
    case Err(e) => Err(e)
    case Ok(coach) =>
      Ok(DualModeExplanation(player, coach,
                             GetCoachingInsight(decision, makeProbability, threshold, shotType, zone, shotDistance,
                                                defenderDistance, contestLevel, recommendedAction)))
  }

  /** The player and coaching-insight parts agree on the decision: both
      take the TAKE SHOT branch for exactly the same decisions. */
  lemma DualModeStylesAgreeOnDecision(decision: string, makeProbability: real, threshold: real, shotType: string,
                                      zone: string, shotDistance: real, timeRemaining: int, quarter: int,
                                      defenderDistance: Option<real>, contestLevel: Option<string>,
                                      recommendedAction: Option<string>)
    requires FormatDualModeExplanation(decision, makeProbability, threshold, shotType, zone, shotDistance, timeRemaining,
                                       quarter, defenderDistance, contestLevel, recommendedAction).Ok?
    ensures var d := FormatDualModeExplanation(decision, makeProbability, threshold, shotType, zone, shotDistance,
                                               timeRemaining, quarter, defenderDistance, contestLevel, recommendedAction).value;
      (d.player[0] in {OpenCleanLook, CornerSpacing, AttackStrong, ConfidentShot})
      == (d.coachingInsight in {OpenLookDiscipline, CornerThreeEmphasis, HighQualityTarget, OnBalanceRhythm})
      == IsTakeGapLine(d.coach[0])
  {
  }
}
