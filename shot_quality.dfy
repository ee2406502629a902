/** The shot-quality breakdown: five additive components, each a table or
    a short cascade over the shot's context, and their display form. */
module ShotQuality {
  import opened Common
  import DefenderImpact

  datatype Breakdown = Breakdown(
    baseline: real,
    locationQuality: real,
    shotTypeValue: real,
    timeContext: real,
    defensivePressure: real)

  /** `_baseline_ability`: a fixed +5% for the player's base skill. */
  const BASELINE_ABILITY: real := 0.05

  /** `_location_quality`: the zone table, with Mid-Range split at 16 ft. */
  function LocationQuality(zone: string, shotDistance: real): (r: real)
    ensures -0.10 <= r <= 0.12
    ensures r < 0.0 <==> zone == MID_RANGE
    ensures r == 0.12 <==> zone == RESTRICTED_AREA
    ensures r == 0.08 <==> zone in {LEFT_CORNER_3, RIGHT_CORNER_3}
    ensures r == 0.03 <==> zone == PAINT_NON_RA
    ensures r == -0.05 <==> zone == MID_RANGE && shotDistance < 16.0
    ensures r == -0.10 <==> zone == MID_RANGE && shotDistance >= 16.0
    ensures zone !in {RESTRICTED_AREA, LEFT_CORNER_3, RIGHT_CORNER_3, PAINT_NON_RA, MID_RANGE} ==> r == 0.0
  {
    if zone == RESTRICTED_AREA then 0.12
    else if zone in {LEFT_CORNER_3, RIGHT_CORNER_3} then 0.08
    else if zone == PAINT_NON_RA then 0.03
    else if zone == ABOVE_THE_BREAK_3 then 0.00
    else if zone == MID_RANGE then (if shotDistance < 16.0 then -0.05 else -0.10)
    else 0.00
  }

  /** `_shot_type_value`: +8% for any shot type whose name contains "3PT". */
  function ShotTypeValue(shotType: string): (r: real)
    ensures r == 0.08 <==> Contains(shotType, "3PT")
    ensures r == -0.02 <==> !Contains(shotType, "3PT")
  {
    if Contains(shotType, "3PT") then 0.08 else -0.02
  }

  /** The two shot types the service is sent get +8% and -2%. */
  lemma ShotTypeValueOfFieldGoals()
    ensures ShotTypeValue(THREE_PT_FG) == 0.08
    ensures ShotTypeValue(TWO_PT_FG) == -0.02
  {
    ContainsPrefix(THREE_PT_FG, "3PT");
    assert TWO_PT_FG == "2PT Field Goal";
    NotContainsWithoutFirstChar(TWO_PT_FG, "3PT");
  }

  /** `_time_context`: first match of clutch, end of quarter, early game. */
  function TimeContext(timeRemaining: int, quarter: int): (r: real)
    ensures -0.08 <= r <= 0.03
    ensures r == -0.08 <==> quarter >= 4 && timeRemaining < 120
    ensures r == -0.05 <==> !(quarter >= 4 && timeRemaining < 120) && timeRemaining < 60
    ensures r == 0.03 <==> timeRemaining >= 60 && quarter <= 2 && timeRemaining > 360
    ensures r == 0.0 <==>
      !(quarter >= 4 && timeRemaining < 120) && timeRemaining >= 60 && !(quarter <= 2 && timeRemaining > 360)
  {
    if quarter >= 4 && timeRemaining < 120 then -0.08
    else if timeRemaining < 60 then -0.05
    else if quarter <= 2 && timeRemaining > 360 then 0.03
    else 0.00
  }

  /** `_defensive_pressure`: no distance means no pressure; otherwise the
      impact factor less one, the contest string converted as the service
      converts it. */
  function DefensivePressure(defenderDistance: Option<real>, contestLevel: Option<string>, exp: real -> real): (r: real)
    ensures defenderDistance.None? ==> r == 0.0
    ensures -0.4475 <= r <= 0.0
    ensures defenderDistance.Some? ==>
      r * 100.0 == DefenderImpact.ComputeDefenderImpact(defenderDistance, DefenderImpact.ContestFromRequest(contestLevel), exp).percentageAdjustment
  {
    if defenderDistance.None? then 0.0
    else
      var impact := DefenderImpact.ComputeDefenderImpact(defenderDistance, DefenderImpact.ContestFromRequest(contestLevel), exp);
      impact.impactFactor - 1.0
  }

  /** Pressure vanishes exactly when there is no distance, or the distance
      costs nothing and the contest string names WIDE_OPEN. */
  lemma PressureNeutralIff(defenderDistance: Option<real>, contestLevel: Option<string>, exp: real -> real)
    ensures DefensivePressure(defenderDistance, contestLevel, exp) == 0.0
        <==> defenderDistance.None?
             || (DefenderImpact.DistanceDecay(defenderDistance, exp) == 1.0 && contestLevel == Some(WIDE_OPEN))
  {
    if defenderDistance.Some? {
      var c := DefenderImpact.ContestFromRequest(contestLevel);
      DefenderImpact.NeutralImpactIff(defenderDistance, c, exp);
      if c == Some(DefenderImpact.WideOpen) {
        assert DefenderImpact.ContestValue(c.value) == WIDE_OPEN;
      }
    }
  }

  /** An unrecognised contest string presses like OPEN. */
  lemma UnknownContestPressesLikeOpen(defenderDistance: Option<real>, contestLevel: string, exp: real -> real)
    requires contestLevel != "" && contestLevel !in {TIGHT, CONTESTED, OPEN, WIDE_OPEN}
    ensures DefensivePressure(defenderDistance, Some(contestLevel), exp) == DefensivePressure(defenderDistance, Some(OPEN), exp)
  {
  }

  /** `compute_breakdown`: the five components. The make probability is
      accepted but consulted by none of them. */
  function ComputeBreakdown(makeProbability: real, shotType: string, zone: string, shotDistance: real,
                            timeRemaining: int, quarter: int, defenderDistance: Option<real>,
                            contestLevel: Option<string>, exp: real -> real): (r: Breakdown)
    ensures r.baseline == BASELINE_ABILITY
    ensures -0.10 <= r.locationQuality <= 0.12
    ensures r.shotTypeValue in {0.08, -0.02}
    ensures -0.08 <= r.timeContext <= 0.03
    ensures -0.4475 <= r.defensivePressure <= 0.0
    ensures r.locationQuality == LocationQuality(zone, shotDistance)
    ensures r.shotTypeValue == ShotTypeValue(shotType)
    ensures r.timeContext == TimeContext(timeRemaining, quarter)
    ensures r.defensivePressure == DefensivePressure(defenderDistance, contestLevel, exp)
  {
    Breakdown(
      BASELINE_ABILITY,
      LocationQuality(zone, shotDistance),
      ShotTypeValue(shotType),
      TimeContext(timeRemaining, quarter),
      DefensivePressure(defenderDistance, contestLevel, exp))
  }

  /** The breakdown does not depend on the make probability. */
  lemma BreakdownIgnoresProbability(p1: real, p2: real, shotType: string, zone: string, shotDistance: real,
                                    timeRemaining: int, quarter: int, defenderDistance: Option<real>,
                                    contestLevel: Option<string>, exp: real -> real)
    ensures ComputeBreakdown(p1, shotType, zone, shotDistance, timeRemaining, quarter, defenderDistance, contestLevel, exp)
         == ComputeBreakdown(p2, shotType, zone, shotDistance, timeRemaining, quarter, defenderDistance, contestLevel, exp)
  {
  }

  /** The breakdown as the dictionary's items, in insertion order. */
  function BreakdownItems(b: Breakdown): (r: seq<(string, real)>)
    ensures |r| == 5
    ensures r[0] == ("baseline", b.baseline)
    ensures r[1] == ("location_quality", b.locationQuality)
    ensures r[2] == ("shot_type_value", b.shotTypeValue)
    ensures r[3] == ("time_context", b.timeContext)
    ensures r[4] == ("defensive_pressure", b.defensivePressure)
  {
    [("baseline", b.baseline),
     ("location_quality", b.locationQuality),
     ("shot_type_value", b.shotTypeValue),
     ("time_context", b.timeContext),
     ("defensive_pressure", b.defensivePressure)]
  }

  /** `component_names.get(key, key)`. */
  function DisplayName(key: string): (r: string)
    ensures key in {"baseline", "location_quality", "shot_type_value", "time_context", "defensive_pressure"} <==> r != key
  {
    if key == "baseline" then "Base Ability"
    else if key == "location_quality" then "Location Quality"
    else if key == "shot_type_value" then "Shot Type Value"
    else if key == "time_context" then "Time Context"
    else if key == "defensive_pressure" then "Defensive Pressure"
    else key
  }

  /** A displayed percentage: a '+' sign for non-negative values and the
      value times 100 (the one-decimal rendering is not modelled). */
  datatype Percentage = Percentage(plusSign: bool, percent: real)

  function FormatValue(value: real): (r: Percentage)
    ensures r.plusSign <==> value >= 0.0
    ensures r.percent / 100.0 == value
  {
    Percentage(value >= 0.0, value * 100.0)
  }

  /** No later item of `items` has the same display name as item `i`. */
  predicate LastOfItsName(items: seq<(string, real)>, i: int, upTo: int)
    requires 0 <= i < upTo <= |items|
  {
    forall j :: i < j < upTo ==> DisplayName(items[j].0) != DisplayName(items[i].0)
  }

  /** `format_breakdown_for_display`: one entry per display name; when two
      keys share a display name, the later item's value wins. */
  method FormatBreakdownForDisplay(items: seq<(string, real)>) returns (formatted: map<string, Percentage>)
    ensures formatted.Keys == set i | 0 <= i < |items| :: DisplayName(items[i].0)
    ensures forall i :: 0 <= i < |items| && LastOfItsName(items, i, |items|) ==>
              formatted[DisplayName(items[i].0)] == FormatValue(items[i].1)
  {
    formatted := map[];
    for n := 0 to |items|
      invariant formatted.Keys == set i | 0 <= i < n :: DisplayName(items[i].0)
      invariant forall i :: 0 <= i < n && LastOfItsName(items, i, n) ==>
                  formatted[DisplayName(items[i].0)] == FormatValue(items[i].1)
    {
      var (key, value) := items[n];
      var name := DisplayName(key);
      var percentage := value * 100.0;
      var sign := value >= 0.0;
      formatted := formatted[name := Percentage(sign, percentage)];
    }
  }

  /** The five component keys have five different display names, so every
      component of a breakdown appears in its display with its own value. */
  lemma BreakdownItemsAreLastOfTheirName(b: Breakdown, i: int)
    requires 0 <= i < 5
    ensures LastOfItsName(BreakdownItems(b), i, 5)
  {
  }
}
