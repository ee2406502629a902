/** Coach-style feedback: a short positive list for TAKE SHOT and, for
    anything else, a list built around the primary reason to pass. Which of
    several equivalent sentences is used is random in the program; here a
    sentence is a tag carrying the values it mentions, and the random
    sampling of context snippets is a `pick` parameter. */
module CoachFeedback {
  import opened Common

  /** Why a shot should be passed up. */
  datatype PassReason =
    | TightDefense
    | PoorLocation
    | ContestedThree
    | LateClockPressure
    | EarlyClockRush
    | LowPercentageArea
    | MarginalDecision

  predicate TightDefenseCase(defenderDistance: Option<real>, contestLevel: Option<string>)
  {
    contestLevel == Some(TIGHT) || (NonZero(defenderDistance) && defenderDistance.value <= 3.0)
  }

  predicate ContestedThreeCase(shotType: string, defenderDistance: Option<real>, contestLevel: Option<string>)
  {
    (contestLevel == Some(CONTESTED) || contestLevel == Some(TIGHT))
    && shotType == THREE_PT_FG && NonZero(defenderDistance) && defenderDistance.value <= 6.0
  }

  /** Neither defence case holds and more than 4 s are left: the cascade
      has reached the location check. */
  predicate PastClockCheck(shotType: string, timeRemaining: int,
                           defenderDistance: Option<real>, contestLevel: Option<string>)
  {
    !TightDefenseCase(defenderDistance, contestLevel)
    && !ContestedThreeCase(shotType, defenderDistance, contestLevel) && timeRemaining > 4
  }

  /** `_identify_pass_reason`: the first reason whose condition holds. */
  function IdentifyPassReason(makeProbability: real, threshold: real, shotType: string, zone: string,
                              shotDistance: real, timeRemaining: int, quarter: int,
                              defenderDistance: Option<real>, contestLevel: Option<string>): (r: PassReason)
    ensures r == TightDefense <==> TightDefenseCase(defenderDistance, contestLevel)
    // a contested three is only ever reported for CONTESTED beyond three feet
    ensures r == ContestedThree <==>
      (contestLevel == Some(CONTESTED) && shotType == THREE_PT_FG
       && defenderDistance.Some? && 3.0 < defenderDistance.value <= 6.0)
    ensures r == LateClockPressure <==>
      (!TightDefenseCase(defenderDistance, contestLevel)
       && !ContestedThreeCase(shotType, defenderDistance, contestLevel) && timeRemaining <= 4)
    ensures r == PoorLocation <==>
      (PastClockCheck(shotType, timeRemaining, defenderDistance, contestLevel)
       && zone in {MID_RANGE, PAINT_NON_RA} && shotDistance > 8.0)
    ensures r == LowPercentageArea <==>
      (PastClockCheck(shotType, timeRemaining, defenderDistance, contestLevel)
       && !(zone in {MID_RANGE, PAINT_NON_RA} && shotDistance > 8.0)
       && makeProbability < threshold - 0.08)
    ensures r == EarlyClockRush <==>
      (PastClockCheck(shotType, timeRemaining, defenderDistance, contestLevel)
       && !(zone in {MID_RANGE, PAINT_NON_RA} && shotDistance > 8.0)
       && makeProbability >= threshold - 0.08 && timeRemaining > 20 && quarter <= 3)
    ensures r == MarginalDecision <==>
      (PastClockCheck(shotType, timeRemaining, defenderDistance, contestLevel)
       && !(zone in {MID_RANGE, PAINT_NON_RA} && shotDistance > 8.0)
       && makeProbability >= threshold - 0.08 && !(timeRemaining > 20 && quarter <= 3))
  {
    if TightDefenseCase(defenderDistance, contestLevel) then TightDefense
    else if ContestedThreeCase(shotType, defenderDistance, contestLevel) then ContestedThree
    else if timeRemaining <= 4 then LateClockPressure
    else if zone in [MID_RANGE, PAINT_NON_RA] && shotDistance > 8.0 then PoorLocation
    else if makeProbability < threshold - 0.08 then LowPercentageArea
    else if timeRemaining > 20 && quarter <= 3 then EarlyClockRush
    else MarginalDecision
  }

  /** The context snippets `_build_context` can choose from. */
  datatype ContextSnippet =
    | TimePlenty
    | TimeSome
    | TimeLow
    | QuarterEarly
    | QuarterLate
    | DefenderTight
    | DefenderContest
    | DistanceFar
    | DistanceClose

  /** Clock snippet: plenty above 20 s, some above 8 s, low at 4 s or fewer;
      none from 5 to 8 s. */
  function TimeSnippets(timeRemaining: int): (r: seq<ContextSnippet>)
    ensures |r| <= 1
    ensures r == [] <==> 5 <= timeRemaining <= 8
    ensures r == [TimePlenty] <==> timeRemaining > 20
    ensures r == [TimeSome] <==> 8 < timeRemaining <= 20
    ensures r == [TimeLow] <==> timeRemaining <= 4
  {
    if timeRemaining > 20 then [TimePlenty]
    else if timeRemaining > 8 then [TimeSome]
    else if timeRemaining <= 4 then [TimeLow]
    else []
  }

  /** Quarter snippet: late from the fourth quarter, early up to the second. */
  function QuarterSnippets(quarter: int): (r: seq<ContextSnippet>)
    ensures |r| <= 1
    ensures r == [] <==> quarter == 3
    ensures r == [QuarterLate] <==> quarter >= 4
    ensures r == [QuarterEarly] <==> quarter <= 2
  {
    if quarter >= 4 then [QuarterLate]
    else if quarter <= 2 then [QuarterEarly]
    else []
  }

  /** Defender snippet: only with a distance and a CONTESTED or TIGHT contest. */
  function DefenderSnippets(defenderDistance: Option<real>, contestLevel: Option<string>): (r: seq<ContextSnippet>)
    ensures |r| <= 1
    ensures r != [] <==> defenderDistance.Some? && (contestLevel == Some(CONTESTED) || contestLevel == Some(TIGHT))
    ensures r == [DefenderContest] <==> defenderDistance.Some? && contestLevel == Some(CONTESTED)
    ensures r == [DefenderTight] <==> defenderDistance.Some? && contestLevel == Some(TIGHT)
  {
    if defenderDistance.Some? && Truthy(contestLevel) then
      (if contestLevel.value == CONTESTED then [DefenderContest]
       else if contestLevel.value == TIGHT then [DefenderTight]
       else [])
    else []
  }

  /** Distance snippet: far from 20 ft, close up to 8 ft. */
  function DistanceSnippets(shotDistance: real): (r: seq<ContextSnippet>)
    ensures |r| <= 1
    ensures r == [] <==> 8.0 < shotDistance < 20.0
    ensures r == [DistanceFar] <==> shotDistance >= 20.0
    ensures r == [DistanceClose] <==> shotDistance <= 8.0
  {
    if shotDistance >= 20.0 then [DistanceFar]
    else if shotDistance <= 8.0 then [DistanceClose]
    else []
  }

  /** Every snippet that applies, in the order they are checked. */
  function ContextCandidates(shotDistance: real, timeRemaining: int, quarter: int,
                             defenderDistance: Option<real>, contestLevel: Option<string>): (r: seq<ContextSnippet>)
    ensures |r| <= 4
  {
    TimeSnippets(timeRemaining) + QuarterSnippets(quarter)
      + DefenderSnippets(defenderDistance, contestLevel) + DistanceSnippets(shotDistance)
  }

  /** A snippet is a candidate exactly when its own group offers it. */
  lemma ContextCandidatesMember(shotDistance: real, timeRemaining: int, quarter: int,
                                defenderDistance: Option<real>, contestLevel: Option<string>, x: ContextSnippet)
    ensures x in ContextCandidates(shotDistance, timeRemaining, quarter, defenderDistance, contestLevel)
      <==> x in TimeSnippets(timeRemaining) || x in QuarterSnippets(quarter)
           || x in DefenderSnippets(defenderDistance, contestLevel) || x in DistanceSnippets(shotDistance)
  {
  }

  /** Which snippets are candidates: each one exactly in its own bucket. */
  lemma ContextCandidatesContent(shotDistance: real, timeRemaining: int, quarter: int,
                                 defenderDistance: Option<real>, contestLevel: Option<string>)
    ensures var r := ContextCandidates(shotDistance, timeRemaining, quarter, defenderDistance, contestLevel);
      && (TimePlenty in r <==> timeRemaining > 20)
      && (TimeSome in r <==> 8 < timeRemaining <= 20)
      && (TimeLow in r <==> timeRemaining <= 4)
      && (QuarterLate in r <==> quarter >= 4)
      && (QuarterEarly in r <==> quarter <= 2)
      && (DefenderContest in r <==> defenderDistance.Some? && contestLevel == Some(CONTESTED))
      && (DefenderTight in r <==> defenderDistance.Some? && contestLevel == Some(TIGHT))
      && (DistanceFar in r <==> shotDistance >= 20.0)
      && (DistanceClose in r <==> shotDistance <= 8.0)
  {
    ContextCandidatesMember(shotDistance, timeRemaining, quarter, defenderDistance, contestLevel, TimePlenty);
    ContextCandidatesMember(shotDistance, timeRemaining, quarter, defenderDistance, contestLevel, TimeSome);
    ContextCandidatesMember(shotDistance, timeRemaining, quarter, defenderDistance, contestLevel, TimeLow);
    ContextCandidatesMember(shotDistance, timeRemaining, quarter, defenderDistance, contestLevel, QuarterLate);
    ContextCandidatesMember(shotDistance, timeRemaining, quarter, defenderDistance, contestLevel, QuarterEarly);
    ContextCandidatesMember(shotDistance, timeRemaining, quarter, defenderDistance, contestLevel, DefenderContest);
    ContextCandidatesMember(shotDistance, timeRemaining, quarter, defenderDistance, contestLevel, DefenderTight);
    ContextCandidatesMember(shotDistance, timeRemaining, quarter, defenderDistance, contestLevel, DistanceFar);
    ContextCandidatesMember(shotDistance, timeRemaining, quarter, defenderDistance, contestLevel, DistanceClose);
  }

  /** The two positions `random.sample(parts, 2)` draws from `n` parts, as
      chosen by `pick`: the first anywhere, the second anywhere else. */
  function SamplePositions(n: nat, pick: (nat, nat)): (r: (nat, nat))
    requires n >= 2
    ensures r.0 < n && r.1 < n && r.0 != r.1
  {
    var first := pick.0 % n;
    var later := first + 1 + pick.1 % (n - 1);
    (first, if later < n then later else later - n)
  }

  /** Every ordered pair of different positions is drawn by some pick, so
      the pick parameter loses none of the sampler's outcomes. */
  lemma SamplePositionsReachEveryPair(n: nat, a: nat, b: nat)
    requires n >= 2 && a < n && b < n && a != b
    ensures exists pick :: SamplePositions(n, pick) == (a, b)
  {
    var k: nat := if a < b then b - a - 1 else b + n - a - 1;
    SmallModulus(a, n);
    SmallModulus(k, n - 1);
    assert SamplePositions(n, (a, k)) == (a, b);
  }

  lemma SmallModulus(x: nat, m: nat)
    requires x < m
    ensures x % m == x
  {
  }

  /** `random.sample(parts, 2)`: two parts from different positions. */
  function Sample<T>(parts: seq<T>, pick: (nat, nat)): (r: seq<T>)
    requires |parts| >= 2
    ensures |r| == 2
    ensures exists i, j :: 0 <= i < |parts| && 0 <= j < |parts| && i != j && r == [parts[i], parts[j]]
  {
    var (i, j) := SamplePositions(|parts|, pick);
    [parts[i], parts[j]]
  }

  /** The snippets `_build_context` keeps: all of them when there are at
      most two, otherwise a sample of two. */
  function ContextOf(candidates: seq<ContextSnippet>, pick: (nat, nat)): (r: seq<ContextSnippet>)
    ensures |r| <= 2
    ensures forall s | s in r :: s in candidates
    ensures |candidates| <= 2 ==> r == candidates
    ensures |candidates| > 2 ==>
      exists i, j :: 0 <= i < |candidates| && 0 <= j < |candidates| && i != j && r == [candidates[i], candidates[j]]
  {
    if |candidates| > 2 then Sample(candidates, pick) else candidates
  }

  /** `_build_context`: the applicable snippets, collected in order and
      sampled down to two. The shot type is accepted but not consulted; the
      joining of the snippets into one sentence is not modelled. */
  method BuildContext(shotType: string, shotDistance: real, timeRemaining: int, quarter: int,
                      defenderDistance: Option<real>, contestLevel: Option<string>, pick: (nat, nat))
    returns (context: seq<ContextSnippet>)
    ensures context == ContextOf(ContextCandidates(shotDistance, timeRemaining, quarter, defenderDistance, contestLevel), pick)
  {
    var contextParts: seq<ContextSnippet> := [];
    var snippet: seq<ContextSnippet> := [];
    if timeRemaining > 20 {
      snippet := [TimePlenty];
    } else if timeRemaining > 8 {
      snippet := [TimeSome];
    } else if timeRemaining <= 4 {
      snippet := [TimeLow];
    }
    assert snippet == TimeSnippets(timeRemaining);
    contextParts := contextParts + snippet;
    ghost var prefix := TimeSnippets(timeRemaining);
    assert contextParts == prefix;

    snippet := [];
    if quarter >= 4 {
      snippet := [QuarterLate];
    } else if quarter <= 2 {
      snippet := [QuarterEarly];
    }
    assert snippet == QuarterSnippets(quarter);
    contextParts := contextParts + snippet;
    prefix := prefix + QuarterSnippets(quarter);
    assert contextParts == prefix;

    snippet := [];
    if defenderDistance.Some? && Truthy(contestLevel) {
      if contestLevel.value == CONTESTED {
        snippet := [DefenderContest];
      } else if contestLevel.value == TIGHT {
        snippet := [DefenderTight];
      }
    }
    assert snippet == DefenderSnippets(defenderDistance, contestLevel);
    contextParts := contextParts + snippet;
    prefix := prefix + DefenderSnippets(defenderDistance, contestLevel);
    assert contextParts == prefix;

    snippet := [];
    if shotDistance >= 20.0 {
      snippet := [DistanceFar];
    } else if shotDistance <= 8.0 {
      snippet := [DistanceClose];
    }
    assert snippet == DistanceSnippets(shotDistance);
    contextParts := contextParts + snippet;
    prefix := prefix + DistanceSnippets(shotDistance);
    assert contextParts == prefix;

    if |contextParts| > 2 {
      contextParts := Sample(contextParts, pick);
    }
    context := contextParts;
  }

  /** The defender insights; each carries the distance it quotes. */
  datatype DefenderInsight =
    | HandInFace(distance: real)
    | ActiveContestRange(distance: real)

  /** `_get_defender_insight`: TIGHT within 2 ft, or CONTESTED within 5 ft. */
  function GetDefenderInsight(defenderDistance: real, contestLevel: string): (r: Option<DefenderInsight>)
    ensures r == Some(HandInFace(defenderDistance)) <==> contestLevel == TIGHT && defenderDistance <= 2.0
    ensures r == Some(ActiveContestRange(defenderDistance)) <==> contestLevel == CONTESTED && defenderDistance <= 5.0
    ensures r.Some? ==> r.value.distance == defenderDistance
    ensures r.None? <==> !(contestLevel == TIGHT && defenderDistance <= 2.0) && !(contestLevel == CONTESTED && defenderDistance <= 5.0)
  {
    if contestLevel == TIGHT && defenderDistance <= 2.0 then Some(HandInFace(defenderDistance))
    else if contestLevel == CONTESTED && defenderDistance <= 5.0 then Some(ActiveContestRange(defenderDistance))
    else None
  }

  /** The shot-quality insights, by how far the probability falls short. */
  datatype QualityInsight =
    | FarBelowStandard
    | BelowTarget
    | Borderline

  /** `_get_quality_insight`: shortfall of 0.08 or more, of 0.04 or more, or
      less. Shot type and zone are accepted but not consulted. */
  function GetQualityInsight(makeProbability: real, threshold: real, shotType: string, zone: string): (r: QualityInsight)
    ensures r == FarBelowStandard <==> threshold - makeProbability >= 0.08
    ensures r == BelowTarget <==> 0.04 <= threshold - makeProbability < 0.08
    ensures r == Borderline <==> threshold - makeProbability < 0.04
  {
    var margin := threshold - makeProbability;
    if margin >= 0.08 then FarBelowStandard
    else if margin >= 0.04 then BelowTarget
    else Borderline
  }

  /** One entry of a feedback list. */
  datatype FeedbackLine =
    | DefenderLine(insight: DefenderInsight)
    | MainExplanation(reason: PassReason, context: seq<ContextSnippet>)
    | QualityLine(quality: QualityInsight)
    | PassProbability(probability: real, threshold: real, margin: real)
    | WideOpenLook
    | HighQualityShot
    | GoodLook
    | CornerThree
    | AtTheRim
    | TakeProbability(probability: real, threshold: real, margin: real)

  /** The optional leading defender line: only with a distance and a
      non-empty contest string, and only when an insight applies. */
  function DefenderLines(defenderDistance: Option<real>, contestLevel: Option<string>): (r: seq<FeedbackLine>)
    ensures |r| <= 1
    ensures r != [] <==>
      (defenderDistance.Some?
       && ((contestLevel == Some(TIGHT) && defenderDistance.value <= 2.0)
           || (contestLevel == Some(CONTESTED) && defenderDistance.value <= 5.0)))
    ensures r != [] ==>
      defenderDistance.Some? && contestLevel.Some?
      && GetDefenderInsight(defenderDistance.value, contestLevel.value).Some?
      && r == [DefenderLine(GetDefenderInsight(defenderDistance.value, contestLevel.value).value)]
  {
    if defenderDistance.Some? && Truthy(contestLevel) then
      match GetDefenderInsight(defenderDistance.value, contestLevel.value)
      case Some(insight) => [DefenderLine(insight)]
      case None => []
    else []
  }

  /** The PASS explanation list: the optional defender line, the main
      explanation, the quality insight and the probability line. */
  function PassExplanationLines(makeProbability: real, threshold: real, shotType: string, zone: string,
                                shotDistance: real, timeRemaining: int, quarter: int,
                                defenderDistance: Option<real>, contestLevel: Option<string>,
                                pick: (nat, nat)): (r: seq<FeedbackLine>)
    ensures 3 <= |r| <= 4
    ensures |r| == 4 <==> DefenderLines(defenderDistance, contestLevel) != []
    ensures r[|r| - 1] == PassProbability(makeProbability, threshold, threshold - makeProbability)
    ensures r[|r| - 2] == QualityLine(GetQualityInsight(makeProbability, threshold, shotType, zone))
    ensures r[|r| - 3].MainExplanation?
      && r[|r| - 3].reason == IdentifyPassReason(makeProbability, threshold, shotType, zone, shotDistance,
                                                 timeRemaining, quarter, defenderDistance, contestLevel)
      && |r[|r| - 3].context| <= 2
    ensures r[|r| - 3].context
         == ContextOf(ContextCandidates(shotDistance, timeRemaining, quarter, defenderDistance, contestLevel), pick)
    ensures |r| == 4 ==> [r[0]] == DefenderLines(defenderDistance, contestLevel)
  {
    var reason := IdentifyPassReason(makeProbability, threshold, shotType, zone, shotDistance,
                                     timeRemaining, quarter, defenderDistance, contestLevel);
    var context := ContextOf(ContextCandidates(shotDistance, timeRemaining, quarter, defenderDistance, contestLevel), pick);
    DefenderLines(defenderDistance, contestLevel)
      + [MainExplanation(reason, context)]
      + [QualityLine(GetQualityInsight(makeProbability, threshold, shotType, zone))]
      + [PassProbability(makeProbability, threshold, threshold - makeProbability)]
  }

  /** A hand-in-face defender line always comes with the tight-defense
      reason: both fire on a TIGHT contest. */
  lemma HandInFaceMeansTightDefense(makeProbability: real, threshold: real, shotType: string, zone: string,
                                    shotDistance: real, timeRemaining: int, quarter: int,
                                    defenderDistance: Option<real>, contestLevel: Option<string>,
                                    pick: (nat, nat))
    requires var lines := PassExplanationLines(makeProbability, threshold, shotType, zone, shotDistance,
                                               timeRemaining, quarter, defenderDistance, contestLevel, pick);
      lines[0].DefenderLine? && lines[0].insight.HandInFace?
    ensures IdentifyPassReason(makeProbability, threshold, shotType, zone, shotDistance,
                               timeRemaining, quarter, defenderDistance, contestLevel) == TightDefense
  {
  }

  /** `generate_pass_explanation`: reason and context first, then the list
      assembled entry by entry. The random template is not modelled: the
      main explanation is its reason and context. */
  method GeneratePassExplanation(makeProbability: real, threshold: real, shotType: string, zone: string,
                                 shotDistance: real, timeRemaining: int, quarter: int,
                                 defenderDistance: Option<real>, contestLevel: Option<string>,
                                 pick: (nat, nat)) returns (explanations: seq<FeedbackLine>)
    ensures explanations == PassExplanationLines(makeProbability, threshold, shotType, zone, shotDistance,
                                                 timeRemaining, quarter, defenderDistance, contestLevel, pick)
  {
    var reason := IdentifyPassReason(makeProbability, threshold, shotType, zone, shotDistance,
                                     timeRemaining, quarter, defenderDistance, contestLevel);
    var context := BuildContext(shotType, shotDistance, timeRemaining, quarter, defenderDistance, contestLevel, pick);
    var mainExplanation := MainExplanation(reason, context);

    explanations := [];
    if defenderDistance.Some? && Truthy(contestLevel) {
      var defenderInsight := GetDefenderInsight(defenderDistance.value, contestLevel.value);
      if defenderInsight.Some? {
        explanations := explanations + [DefenderLine(defenderInsight.value)];
      }
    }
    assert explanations == DefenderLines(defenderDistance, contestLevel);
    explanations := explanations + [mainExplanation];

    var qualityInsight := GetQualityInsight(makeProbability, threshold, shotType, zone);
    explanations := explanations + [QualityLine(qualityInsight)];

    var margin := threshold - makeProbability;
    explanations := explanations + [PassProbability(makeProbability, threshold, margin)];
  }

  /** The TAKE SHOT list: a verdict line, an optional corner-three or rim
      line, and the probability line. */
  function TakeShotLines(makeProbability: real, threshold: real, shotType: string, zone: string,
                         shotDistance: real, defenderDistance: Option<real>, contestLevel: Option<string>): (r: seq<FeedbackLine>)
    ensures 2 <= |r| <= 3
    ensures r[0] == WideOpenLook <==> defenderDistance.Some? && contestLevel == Some(WIDE_OPEN)
    ensures r[0] == HighQualityShot <==>
      !(defenderDistance.Some? && contestLevel == Some(WIDE_OPEN)) && makeProbability - threshold >= 0.10
    ensures r[0] == GoodLook <==>
      !(defenderDistance.Some? && contestLevel == Some(WIDE_OPEN)) && makeProbability - threshold < 0.10
    ensures |r| == 3 ==> (r[1] == CornerThree <==> shotType == THREE_PT_FG && zone in {LEFT_CORNER_3, RIGHT_CORNER_3})
    ensures |r| == 3 ==> (r[1] == AtTheRim <==> !(shotType == THREE_PT_FG && zone in {LEFT_CORNER_3, RIGHT_CORNER_3}))
    ensures r[|r| - 1] == TakeProbability(makeProbability, threshold, makeProbability - threshold)
    ensures |r| == 3 <==> (shotType == THREE_PT_FG && zone in {LEFT_CORNER_3, RIGHT_CORNER_3}) || shotDistance <= 5.0
  {
    var margin := makeProbability - threshold;
    var verdict :=
      if defenderDistance.Some? && contestLevel == Some(WIDE_OPEN) then WideOpenLook
      else if margin >= 0.10 then HighQualityShot
      else GoodLook;
    var spot :=
      if shotType == THREE_PT_FG && zone in [LEFT_CORNER_3, RIGHT_CORNER_3] then [CornerThree]
      else if shotDistance <= 5.0 then [AtTheRim]
      else [];
    [verdict] + spot + [TakeProbability(makeProbability, threshold, margin)]
  }

  /** The feedback for a decision: exactly "TAKE SHOT" gets the short list,
      any other decision the PASS explanation. */
  function CoachFeedbackOf(decision: string, makeProbability: real, threshold: real, shotType: string, zone: string,
                           shotDistance: real, timeRemaining: int, quarter: int,
                           defenderDistance: Option<real>, contestLevel: Option<string>,
                           pick: (nat, nat)): (r: seq<FeedbackLine>)
    ensures decision == TAKE_SHOT ==> 2 <= |r| <= 3 && r[|r| - 1].TakeProbability?
    ensures decision != TAKE_SHOT ==> 3 <= |r| <= 4 && r[|r| - 1].PassProbability?
    ensures r[|r| - 1].probability == makeProbability && r[|r| - 1].threshold == threshold
    ensures decision == TAKE_SHOT ==>
      r == TakeShotLines(makeProbability, threshold, shotType, zone, shotDistance, defenderDistance, contestLevel)
    ensures decision != TAKE_SHOT ==>
      r == PassExplanationLines(makeProbability, threshold, shotType, zone, shotDistance, timeRemaining, quarter,
                                defenderDistance, contestLevel, pick)
  {
    if decision == TAKE_SHOT then
      TakeShotLines(makeProbability, threshold, shotType, zone, shotDistance, defenderDistance, contestLevel)
    else
      PassExplanationLines(makeProbability, threshold, shotType, zone, shotDistance, timeRemaining, quarter,
                           defenderDistance, contestLevel, pick)
  }

  /** `generate_coach_feedback`. */
  method GenerateCoachFeedback(decision: string, makeProbability: real, threshold: real, shotType: string, zone: string,
                               shotDistance: real, timeRemaining: int, quarter: int,
                               defenderDistance: Option<real>, contestLevel: Option<string>,
                               pick: (nat, nat)) returns (explanations: seq<FeedbackLine>)
    ensures explanations == CoachFeedbackOf(decision, makeProbability, threshold, shotType, zone, shotDistance,
                                            timeRemaining, quarter, defenderDistance, contestLevel, pick)
  {
    if decision == TAKE_SHOT {
      explanations := [];
      var margin := makeProbability - threshold;
      if defenderDistance.Some? && contestLevel == Some(WIDE_OPEN) {
        explanations := explanations + [WideOpenLook];
      } else if margin >= 0.10 {
        explanations := explanations + [HighQualityShot];
      } else {
        explanations := explanations + [GoodLook];
      }
      var spot: seq<FeedbackLine> := [];
      if shotType == THREE_PT_FG && zone in [LEFT_CORNER_3, RIGHT_CORNER_3] {
        spot := [CornerThree];
      } else if shotDistance <= 5.0 {
        spot := [AtTheRim];
      }
      explanations := explanations + spot;
      explanations := explanations + [TakeProbability(makeProbability, threshold, margin)];
    } else {
      explanations := GeneratePassExplanation(makeProbability, threshold, shotType, zone, shotDistance,
                                              timeRemaining, quarter, defenderDistance, contestLevel, pick);
    }
  }
}
