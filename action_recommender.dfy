/** The action recommender for PASS decisions: a first-match cascade picks
    the primary reason for passing, and each reason maps to one of seven
    actions with a reasoning sentence. */
module ActionRecommender {
  import opened Common

  datatype RecommendedAction =
    | SwingPass
    | AttackCloseout
    | ResetOffense
    | LookInside
    | DriveAndKick
    | BestAvailable
    | Relocate

  /** The enum member's string value. */
  function ActionValue(a: RecommendedAction): string
  {
    match a
    case SwingPass => "Swing Pass"
    case AttackCloseout => "Attack the Closeout"
    case ResetOffense => "Reset the Offense"
    case LookInside => "Look Inside"
    case DriveAndKick => "Drive and Kick"
    case BestAvailable => "Take Best Available Shot"
    case Relocate => "Relocate for Better Look"
  }

  const ACTION_VALUES: set<string> := {
    "Swing Pass", "Attack the Closeout", "Reset the Offense", "Look Inside",
    "Drive and Kick", "Take Best Available Shot", "Relocate for Better Look"}

  /** Seven actions, seven different strings. */
  lemma ActionValuesDistinct(a: RecommendedAction, b: RecommendedAction)
    ensures ActionValue(a) in ACTION_VALUES
    ensures ActionValue(a) == ActionValue(b) <==> a == b
  {
  }

  datatype PrimaryReason =
    | LateClock
    | TightContestGoodZone
    | TightContest
    | ContestedPerimeter
    | ContestedShot
    | PoorLocationPerimeter
    | PoorLocationGeneral
    | MarginalQualityTimeAvailable
    | LowQualityGeneral

  /** The reason's tag as returned under `primary_reason`. */
  function ReasonTag(r: PrimaryReason): string
  {
    match r
    case LateClock => "late_clock"
    case TightContestGoodZone => "tight_contest_good_zone"
    case TightContest => "tight_contest"
    case ContestedPerimeter => "contested_perimeter"
    case ContestedShot => "contested_shot"
    case PoorLocationPerimeter => "poor_location_perimeter"
    case PoorLocationGeneral => "poor_location_general"
    case MarginalQualityTimeAvailable => "marginal_quality_time_available"
    case LowQualityGeneral => "low_quality_general"
  }

  const TIGHT_THRESHOLD: real := 3.0
  const CONTESTED_THRESHOLD: real := 6.0
  const LOW_QUALITY_THRESHOLD: real := 0.30
  const MEDIUM_QUALITY_THRESHOLD: real := 0.35
  const LATE_CLOCK_THRESHOLD: int := 5
  const EARLY_CLOCK_THRESHOLD: int := 15

  const THREE_POINT_ZONES: set<string> := {ABOVE_THE_BREAK_3, LEFT_CORNER_3, RIGHT_CORNER_3, LEFT_SIDE_3, RIGHT_SIDE_3}
  const PAINT_ZONES: set<string> := {RESTRICTED_AREA, PAINT_NON_RA}

  /** The tight test: the contest string is TIGHT, or a truthy (non-None,
      non-zero) defender distance is within 3 ft. */
  predicate TightTrigger(defenderDistance: Option<real>, contestLevel: Option<string>)
  {
    contestLevel == Some(TIGHT) || (NonZero(defenderDistance) && defenderDistance.value <= TIGHT_THRESHOLD)
  }

  /** The contested test, the same shape with CONTESTED and 6 ft. */
  predicate ContestedTrigger(defenderDistance: Option<real>, contestLevel: Option<string>)
  {
    contestLevel == Some(CONTESTED) || (NonZero(defenderDistance) && defenderDistance.value <= CONTESTED_THRESHOLD)
  }

  /** `_identify_primary_reason`: late clock, then tight, then contested,
      then the quality checks, first match wins. */
  function IdentifyPrimaryReason(makeProbability: real, defenderDistance: Option<real>, contestLevel: Option<string>,
                                 zone: string, shotDistance: real, timeRemaining: int, shotType: string): (r: PrimaryReason)
    ensures r == LateClock <==> timeRemaining <= LATE_CLOCK_THRESHOLD
    ensures r == TightContestGoodZone <==>
      timeRemaining > LATE_CLOCK_THRESHOLD && TightTrigger(defenderDistance, contestLevel)
      && zone in THREE_POINT_ZONES && shotType == THREE_PT_FG
    ensures r == TightContest <==>
      timeRemaining > LATE_CLOCK_THRESHOLD && TightTrigger(defenderDistance, contestLevel)
      && !(zone in THREE_POINT_ZONES && shotType == THREE_PT_FG)
    ensures r == ContestedPerimeter <==>
      timeRemaining > LATE_CLOCK_THRESHOLD && !TightTrigger(defenderDistance, contestLevel)
      && ContestedTrigger(defenderDistance, contestLevel) && zone in THREE_POINT_ZONES
    ensures r == ContestedShot <==>
      timeRemaining > LATE_CLOCK_THRESHOLD && !TightTrigger(defenderDistance, contestLevel)
      && ContestedTrigger(defenderDistance, contestLevel) && zone !in THREE_POINT_ZONES
    ensures r in {PoorLocationPerimeter, PoorLocationGeneral, MarginalQualityTimeAvailable, LowQualityGeneral} <==>
      timeRemaining > LATE_CLOCK_THRESHOLD && !TightTrigger(defenderDistance, contestLevel)
      && !ContestedTrigger(defenderDistance, contestLevel)
    ensures r in {PoorLocationPerimeter, PoorLocationGeneral, MarginalQualityTimeAvailable, LowQualityGeneral} ==>
      r == QualityReason(makeProbability, shotDistance, timeRemaining)
  {
    if timeRemaining <= LATE_CLOCK_THRESHOLD then LateClock
    else if TightTrigger(defenderDistance, contestLevel) then
      (if zone in THREE_POINT_ZONES && shotType == THREE_PT_FG then TightContestGoodZone else TightContest)
    else if ContestedTrigger(defenderDistance, contestLevel) then
      (if zone in THREE_POINT_ZONES then ContestedPerimeter else ContestedShot)
    else QualityReason(makeProbability, shotDistance, timeRemaining)
  }

  /** The quality checks at the end of the cascade. */
  function QualityReason(makeProbability: real, shotDistance: real, timeRemaining: int): (r: PrimaryReason)
    ensures r in {PoorLocationPerimeter, PoorLocationGeneral, MarginalQualityTimeAvailable, LowQualityGeneral}
    ensures r == PoorLocationPerimeter <==> makeProbability < LOW_QUALITY_THRESHOLD && shotDistance > 20.0
    ensures r == PoorLocationGeneral <==> makeProbability < LOW_QUALITY_THRESHOLD && shotDistance <= 20.0
    ensures r == MarginalQualityTimeAvailable <==>
      LOW_QUALITY_THRESHOLD <= makeProbability < MEDIUM_QUALITY_THRESHOLD && timeRemaining >= EARLY_CLOCK_THRESHOLD
  {
    if makeProbability < LOW_QUALITY_THRESHOLD then
      (if shotDistance > 20.0 then PoorLocationPerimeter else PoorLocationGeneral)
    else if makeProbability < MEDIUM_QUALITY_THRESHOLD && timeRemaining >= EARLY_CLOCK_THRESHOLD then
      MarginalQualityTimeAvailable
    else LowQualityGeneral
  }

  /** The reasoning sentence, as the facts it states. */
  datatype Reasoning =
    | CriticalFourthQuarterClock
    | LimitedOptions(secondsLeft: int)
    | AttackFlyingCloseout(defenderDistance: real, zone: string)
    | TightMidRangeDrive
    | LockedInTight(defenderDistance: real)
    | ContestedThreeSwing(defenderDistance: real)
    | RelocateAlongArc
    | ContestedMidRange
    | OutsideOptimalRange(shotDistance: real, probability: real)
    | TrafficInPaint
    | ZoneNotYielding(zone: string)
    | MarginalThree(probability: real, secondsLeft: int)
    | MarginalTwo(probability: real)
    | ResetWithTime(probability: real)
    | QuickPassBeforeClock

  /** The branches whose sentence formats the defender distance with `.1f`,
      which raises when the distance is None. */
  predicate FormatsDefenderDistance(reason: PrimaryReason, shotDistance: real, timeRemaining: int)
  {
    (reason == TightContestGoodZone && shotDistance >= 22.0)
    || reason == TightContest
    || (reason == ContestedPerimeter && timeRemaining >= EARLY_CLOCK_THRESHOLD)
  }

  /** `_select_action`: the action and reasoning for a reason, or the
      formatting error of the three branches that print a missing distance. */
  function SelectAction(reason: PrimaryReason, makeProbability: real, shotType: string, zone: string,
                        shotDistance: real, timeRemaining: int, quarter: int,
                        defenderDistance: Option<real>): (r: Result<(RecommendedAction, Reasoning), FormatError>)
    ensures r.Err? <==> defenderDistance.None? && FormatsDefenderDistance(reason, shotDistance, timeRemaining)
    ensures r.Ok? && reason == LateClock ==> r.value.0 == BestAvailable
    ensures r.Ok? && reason == TightContestGoodZone ==> r.value.0 == (if shotDistance >= 22.0 then AttackCloseout else DriveAndKick)
    ensures r.Ok? && reason == TightContest ==> r.value.0 == SwingPass
    ensures r.Ok? && reason == ContestedPerimeter ==> r.value.0 == (if timeRemaining >= EARLY_CLOCK_THRESHOLD then SwingPass else Relocate)
    ensures r.Ok? && reason == ContestedShot ==> r.value.0 == LookInside
    ensures r.Ok? && reason == PoorLocationPerimeter ==> r.value.0 == ResetOffense
    ensures r.Ok? && reason == PoorLocationGeneral ==> r.value.0 == (if zone in PAINT_ZONES then DriveAndKick else LookInside)
    ensures r.Ok? && reason == MarginalQualityTimeAvailable ==> r.value.0 == (if shotType == THREE_PT_FG then ResetOffense else LookInside)
    ensures r.Ok? && reason == LowQualityGeneral ==> r.value.0 == (if timeRemaining >= 10 then ResetOffense else SwingPass)
    ensures r.Ok? && r.value.0 == BestAvailable ==> reason == LateClock
    ensures r.Ok? ==> (r.value.1 == CriticalFourthQuarterClock <==> reason == LateClock && quarter == 4 && timeRemaining <= 3)
    ensures r.Ok? ==> (r.value.1 == LimitedOptions(timeRemaining) <==> reason == LateClock && !(quarter == 4 && timeRemaining <= 3))
    ensures r.Ok? ==> (r.value.1.AttackFlyingCloseout? <==> reason == TightContestGoodZone && shotDistance >= 22.0)
    ensures r.Ok? ==> (r.value.1 == TightMidRangeDrive <==> reason == TightContestGoodZone && shotDistance < 22.0)
    ensures r.Ok? ==> (r.value.1.LockedInTight? <==> reason == TightContest)
    ensures r.Ok? ==> (r.value.1.ContestedThreeSwing? <==> reason == ContestedPerimeter && timeRemaining >= EARLY_CLOCK_THRESHOLD)
    ensures r.Ok? ==> (r.value.1 == RelocateAlongArc <==> reason == ContestedPerimeter && timeRemaining < EARLY_CLOCK_THRESHOLD)
    ensures r.Ok? ==> (r.value.1 == ContestedMidRange <==> reason == ContestedShot)
    ensures r.Ok? ==> (r.value.1 == OutsideOptimalRange(shotDistance, makeProbability) <==> reason == PoorLocationPerimeter)
    ensures r.Ok? ==> (r.value.1 == TrafficInPaint <==> reason == PoorLocationGeneral && zone in PAINT_ZONES)
    ensures r.Ok? ==> (r.value.1 == ZoneNotYielding(zone) <==> reason == PoorLocationGeneral && zone !in PAINT_ZONES)
    ensures r.Ok? ==> (r.value.1 == MarginalThree(makeProbability, timeRemaining) <==>
                       reason == MarginalQualityTimeAvailable && shotType == THREE_PT_FG)
    ensures r.Ok? ==> (r.value.1 == MarginalTwo(makeProbability) <==>
                       reason == MarginalQualityTimeAvailable && shotType != THREE_PT_FG)
    ensures r.Ok? ==> (r.value.1 == ResetWithTime(makeProbability) <==> reason == LowQualityGeneral && timeRemaining >= 10)
    ensures r.Ok? ==> (r.value.1 == QuickPassBeforeClock <==> reason == LowQualityGeneral && timeRemaining < 10)
    ensures r.Ok? && r.value.1.AttackFlyingCloseout? ==>
      defenderDistance == Some(r.value.1.defenderDistance) && r.value.1.zone == zone
    ensures r.Ok? && (r.value.1.LockedInTight? || r.value.1.ContestedThreeSwing?) ==>
      defenderDistance == Some(r.value.1.defenderDistance)
  {
    match reason
    case LateClock =>
      if quarter == 4 && timeRemaining <= 3 then Ok((BestAvailable, CriticalFourthQuarterClock))
      else Ok((BestAvailable, LimitedOptions(timeRemaining)))
    case TightContestGoodZone =>
      if shotDistance >= 22.0 then
        (if defenderDistance.None? then Err(NoneFormatted)
         else Ok((AttackCloseout, AttackFlyingCloseout(defenderDistance.value, zone))))
      else Ok((DriveAndKick, TightMidRangeDrive))
    case TightContest =>
      if defenderDistance.None? then Err(NoneFormatted)
      else Ok((SwingPass, LockedInTight(defenderDistance.value)))
    case ContestedPerimeter =>
      if timeRemaining >= EARLY_CLOCK_THRESHOLD then
        (if defenderDistance.None? then Err(NoneFormatted)
         else Ok((SwingPass, ContestedThreeSwing(defenderDistance.value))))
      else Ok((Relocate, RelocateAlongArc))
    case ContestedShot => Ok((LookInside, ContestedMidRange))
    case PoorLocationPerimeter => Ok((ResetOffense, OutsideOptimalRange(shotDistance, makeProbability)))
    case PoorLocationGeneral =>
      if zone in PAINT_ZONES then Ok((DriveAndKick, TrafficInPaint))
      else Ok((LookInside, ZoneNotYielding(zone)))
    case MarginalQualityTimeAvailable =>
      if shotType == THREE_PT_FG then Ok((ResetOffense, MarginalThree(makeProbability, timeRemaining)))
      else Ok((LookInside, MarginalTwo(makeProbability)))
    case LowQualityGeneral =>
      if timeRemaining >= 10 then Ok((ResetOffense, ResetWithTime(makeProbability)))
      else Ok((SwingPass, QuickPassBeforeClock))
  }

  datatype Recommendation = Recommendation(action: string, reasoning: Reasoning, primaryReason: string)

  /** `get_recommendation`: the reason, then the action for it, returned
      as the action's string value and the reason's tag. */
  function GetRecommendation(makeProbability: real, shotType: string, zone: string, shotDistance: real,
                             timeRemaining: int, quarter: int, defenderDistance: Option<real>,
                             contestLevel: Option<string>): (r: Result<Recommendation, FormatError>)
    ensures r.Ok? ==> r.value.action in ACTION_VALUES
    ensures var selected := SelectAction(IdentifyPrimaryReason(makeProbability, defenderDistance, contestLevel,
                                                               zone, shotDistance, timeRemaining, shotType),
                                         makeProbability, shotType, zone, shotDistance, timeRemaining, quarter,
                                         defenderDistance);
      && (r.Ok? <==> selected.Ok?)
      && (r.Ok? ==> r.value.action == ActionValue(selected.value.0) && r.value.reasoning == selected.value.1)
    ensures r.Ok? ==> r.value.primaryReason == ReasonTag(IdentifyPrimaryReason(makeProbability, defenderDistance, contestLevel,
                                                                              zone, shotDistance, timeRemaining, shotType))
    ensures r.Err? <==>
      (defenderDistance.None?
       && FormatsDefenderDistance(IdentifyPrimaryReason(makeProbability, defenderDistance, contestLevel,
                                                        zone, shotDistance, timeRemaining, shotType), shotDistance, timeRemaining))
  {
    var reason := IdentifyPrimaryReason(makeProbability, defenderDistance, contestLevel, zone, shotDistance, timeRemaining, shotType);
    match SelectAction(reason, makeProbability, shotType, zone, shotDistance, timeRemaining, quarter, defenderDistance)
    case Err(e) => Err(e)
    case Ok((action, reasoning)) =>
      ActionValuesDistinct(action, action);
      Ok(Recommendation(ActionValue(action), reasoning, ReasonTag(reason)))
  }

  /** "Take Best Available Shot" is recommended exactly when five seconds or
      fewer remain, and then no formatting error can occur. */
  lemma BestAvailableIffLateClock(makeProbability: real, shotType: string, zone: string, shotDistance: real,
                                  timeRemaining: int, quarter: int, defenderDistance: Option<real>,
                                  contestLevel: Option<string>)
    ensures timeRemaining <= LATE_CLOCK_THRESHOLD ==>
      GetRecommendation(makeProbability, shotType, zone, shotDistance, timeRemaining, quarter, defenderDistance, contestLevel)
        == Ok(Recommendation(ActionValue(BestAvailable),
                             if quarter == 4 && timeRemaining <= 3 then CriticalFourthQuarterClock else LimitedOptions(timeRemaining),
                             "late_clock"))
    ensures GetRecommendation(makeProbability, shotType, zone, shotDistance, timeRemaining, quarter, defenderDistance, contestLevel)
              .Ok?
            && GetRecommendation(makeProbability, shotType, zone, shotDistance, timeRemaining, quarter, defenderDistance, contestLevel)
              .value.action == ActionValue(BestAvailable)
        ==> timeRemaining <= LATE_CLOCK_THRESHOLD
  {
    var reason := IdentifyPrimaryReason(makeProbability, defenderDistance, contestLevel, zone, shotDistance, timeRemaining, shotType);
    var selected := SelectAction(reason, makeProbability, shotType, zone, shotDistance, timeRemaining, quarter, defenderDistance);
    if selected.Ok? {
      ActionValuesDistinct(selected.value.0, BestAvailable);
    }
  }

  /** A defender distance of 0.0 is falsy, so it is classified as no
      distance at all. */
  lemma ZeroDistanceIsNoDistance(makeProbability: real, contestLevel: Option<string>, zone: string,
                                 shotDistance: real, timeRemaining: int, shotType: string)
    ensures IdentifyPrimaryReason(makeProbability, Some(0.0), contestLevel, zone, shotDistance, timeRemaining, shotType)
         == IdentifyPrimaryReason(makeProbability, None, contestLevel, zone, shotDistance, timeRemaining, shotType)
  {
  }

  /** The contested-perimeter reason looks at the zone only, never at the
      shot type. */
  lemma ContestedPerimeterIgnoresShotType(makeProbability: real, defenderDistance: Option<real>, contestLevel: Option<string>,
                                          zone: string, shotDistance: real, timeRemaining: int, st1: string, st2: string)
    requires !TightTrigger(defenderDistance, contestLevel)
    ensures IdentifyPrimaryReason(makeProbability, defenderDistance, contestLevel, zone, shotDistance, timeRemaining, st1)
         == IdentifyPrimaryReason(makeProbability, defenderDistance, contestLevel, zone, shotDistance, timeRemaining, st2)
  {
  }

  /** The contest string alone reaches the distance-formatting branches: a
      TIGHT contest with no distance fails, whatever the zone and shot. */
  lemma TightWithoutDistanceFails(makeProbability: real, shotType: string, zone: string, shotDistance: real,
                                  timeRemaining: int, quarter: int)
    requires timeRemaining > LATE_CLOCK_THRESHOLD
    requires !(zone in THREE_POINT_ZONES && shotType == THREE_PT_FG) || shotDistance >= 22.0
    ensures GetRecommendation(makeProbability, shotType, zone, shotDistance, timeRemaining, quarter, None, Some(TIGHT)).Err?
  {
  }
}
