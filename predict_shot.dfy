/** The shot-prediction endpoint: the model's make probability is adjusted
    for the defender, then drives the breakdown, the advisory decision, the
    coach feedback and, for PASS only, the action recommendation and its
    confidence. The model's own prediction is an input here. */
module ShotService {
  import opened Common
  import DefenderImpact
  import ShotQuality
  import ShotAdvisory
  import CoachFeedback
  import ActionRecommender
  import ActionConfidence

  /** The request fields the endpoint reads besides the model features. */
  datatype ShotRequest = ShotRequest(
    shotDistance: real,
    shotType: string,
    zone: string,
    quarter: int,
    minsLeft: int,
    secsLeft: int,
    defenderDistance: Option<real>,
    contestLevel: Option<string>)

  datatype ShotResponse = ShotResponse(
    decision: string,
    makeProbability: real,
    threshold: real,
    confidence: real,
    explanation: seq<CoachFeedback.FeedbackLine>,
    contestLevel: Option<string>,
    defenderDistance: Option<real>,
    shotQualityBreakdown: ShotQuality.Breakdown,
    defenderImpactDetails: DefenderImpact.Impact,
    recommendedAction: Option<string>,
    actionReasoning: Option<ActionRecommender.Reasoning>,
    actionConfidence: Option<real>,
    confidenceLevel: Option<string>,
    confidenceReasoning: Option<ActionConfidence.ConfidenceReasoning>,
    confidenceFactors: Option<ActionConfidence.ConfidenceFactors>)

  /** The endpoint's failures: models missing, or an exception while
      building the response. */
  datatype HttpError = ModelsNotLoaded | PredictionError

  function StatusCode(e: HttpError): (r: int)
    ensures r == 503 <==> e == ModelsNotLoaded
    ensures r == 500 <==> e == PredictionError
  {
    match e
    case ModelsNotLoaded => 503
    case PredictionError => 500
  }

  /** Seconds left in the quarter, from the clock's minutes and seconds. */
  function TimeRemaining(request: ShotRequest): (r: int)
    ensures 0 <= request.minsLeft && 0 <= request.secsLeft ==> r >= request.secsLeft
  {
    request.minsLeft * 60 + request.secsLeft
  }

  /** With the seconds on the clock below a minute, the minutes and seconds
      are recovered from the total by division and remainder. */
  lemma TimeRemainingRoundTrip(request: ShotRequest)
    requires 0 <= request.secsLeft < 60
    ensures TimeRemaining(request) / 60 == request.minsLeft && TimeRemaining(request) % 60 == request.secsLeft
  {
  }

  /** The model probability scaled by the defender impact, the contest
      string converted to a contest level first. */
  function Adjustment(request: ShotRequest, baseProbability: real, exp: real -> real): (r: (real, DefenderImpact.Impact))
    ensures 0.0 <= r.0 <= 1.0
    ensures 0.0 <= baseProbability <= 1.0 ==> r.0 <= baseProbability
  {
    DefenderImpact.ApplyDefenderAdjustment(baseProbability, request.defenderDistance,
                                           DefenderImpact.ContestFromRequest(request.contestLevel), exp)
  }

  function RequestThreshold(request: ShotRequest): (r: real)
    ensures 0.285 <= r <= 0.50
  {
    ShotAdvisory.Threshold(request.shotType, request.zone, TimeRemaining(request) as real, request.quarter)
  }

  /** The recommender fails for this request at this probability: one of
      its sentences would format the missing defender distance. */
  predicate RecommendationFails(request: ShotRequest, makeProbability: real)
  {
    ActionRecommender.GetRecommendation(makeProbability, request.shotType, request.zone, request.shotDistance,
                                        TimeRemaining(request), request.quarter, request.defenderDistance,
                                        request.contestLevel).Err?
  }

  predicate PassFieldsSet(response: ShotResponse)
  {
    response.recommendedAction.Some? && response.actionReasoning.Some? && response.actionConfidence.Some?
    && response.confidenceLevel.Some? && response.confidenceReasoning.Some? && response.confidenceFactors.Some?
  }

  predicate PassFieldsUnset(response: ShotResponse)
  {
    response.recommendedAction.None? && response.actionReasoning.None? && response.actionConfidence.None?
    && response.confidenceLevel.None? && response.confidenceReasoning.None? && response.confidenceFactors.None?
  }

  /** The feedback ends with the line quoting the probability and the
      threshold the decision was made on. */
  predicate ClosesWithProbability(lines: seq<CoachFeedback.FeedbackLine>, makeProbability: real, threshold: real)
  {
    |lines| > 0
    && (lines[|lines| - 1].PassProbability? || lines[|lines| - 1].TakeProbability?)
    && lines[|lines| - 1].probability == makeProbability
    && lines[|lines| - 1].threshold == threshold
  }

  /** The breakdown, defender impact and coach feedback of a response are
      the ones computed for the request at the response's own adjusted
      probability, threshold and decision. */
  predicate ReportsOf(request: ShotRequest, baseProbability: real, exp: real -> real, pick: (nat, nat),
                      response: ShotResponse)
  {
    response.defenderImpactDetails == Adjustment(request, baseProbability, exp).1
    && response.shotQualityBreakdown
       == ShotQuality.ComputeBreakdown(response.makeProbability, request.shotType, request.zone, request.shotDistance,
                                       TimeRemaining(request), request.quarter, request.defenderDistance,
                                       request.contestLevel, exp)
    && response.explanation
       == CoachFeedback.CoachFeedbackOf(response.decision, response.makeProbability, response.threshold,
                                        request.shotType, request.zone, request.shotDistance, TimeRemaining(request),
                                        request.quarter, request.defenderDistance, request.contestLevel, pick)
  }

  /** The six PASS-only fields hold the recommender's action and reasoning
      for the request, and the confidence assessed for that action against
      the response's probability, threshold and decision. */
  predicate RecommendedBy(request: ShotRequest, response: ShotResponse)
    requires PassFieldsSet(response)
  {
    var recommendation := ActionRecommender.GetRecommendation(response.makeProbability, request.shotType, request.zone,
                                                              request.shotDistance, TimeRemaining(request),
                                                              request.quarter, request.defenderDistance,
                                                              request.contestLevel);
    var assessment := ActionConfidence.ConfidenceOf(response.makeProbability, response.threshold, response.decision,
                                                    request.shotType, request.zone, request.shotDistance,
                                                    TimeRemaining(request), request.quarter, request.defenderDistance,
                                                    request.contestLevel, response.recommendedAction);
    && recommendation.Ok?
    && response.recommendedAction.value == recommendation.value.action
    && response.actionReasoning.value == recommendation.value.reasoning
    && response.actionConfidence.value == assessment.actionConfidence
    && response.confidenceLevel.value == assessment.confidenceLevel
    && response.confidenceReasoning.value == assessment.confidenceReasoning
    && response.confidenceFactors.value == assessment.confidenceFactors
  }

  /** The part of the response every answered request carries: adjusted
      probability, decision, confidence, coach feedback, breakdown and impact;
      the six PASS-only fields are still empty. */
  function AdvisedResponse(request: ShotRequest, baseProbability: real, exp: real -> real, pick: (nat, nat))
    : (r: ShotResponse)
    ensures r.makeProbability == Adjustment(request, baseProbability, exp).0
    ensures r.threshold == RequestThreshold(request)
    ensures r.decision == TAKE_SHOT <==> r.makeProbability >= r.threshold
    ensures r.decision == PASS <==> r.makeProbability < r.threshold
    ensures r.confidence == Abs(r.makeProbability - r.threshold)
    ensures r.contestLevel == request.contestLevel && r.defenderDistance == request.defenderDistance
    ensures PassFieldsUnset(r)
    ensures ClosesWithProbability(r.explanation, r.makeProbability, r.threshold)
    ensures ReportsOf(request, baseProbability, exp, pick, r)
  {
    var timeRemaining := TimeRemaining(request);
    var (makeProbability, impact) := Adjustment(request, baseProbability, exp);
    var breakdown := ShotQuality.ComputeBreakdown(makeProbability, request.shotType, request.zone, request.shotDistance,
                                                  timeRemaining, request.quarter, request.defenderDistance,
                                                  request.contestLevel, exp);
    var threshold := RequestThreshold(request);
    var decision := if makeProbability >= threshold then TAKE_SHOT else PASS;
    var explanation := CoachFeedback.CoachFeedbackOf(decision, makeProbability, threshold, request.shotType,
                                                     request.zone, request.shotDistance, timeRemaining,
                                                     request.quarter, request.defenderDistance,
                                                     request.contestLevel, pick);
    ShotResponse(decision, makeProbability, threshold, Abs(makeProbability - threshold),
                 explanation, request.contestLevel, request.defenderDistance, breakdown, impact,
                 None, None, None, None, None, None)
  }

  /** The PASS branch: the recommendation and its confidence fill the six
      PASS-only fields, or the request fails when the recommender does. */
  function WithRecommendation(request: ShotRequest, response: ShotResponse): (r: Result<ShotResponse, HttpError>)
    ensures r.Err? <==> RecommendationFails(request, response.makeProbability)
    ensures r.Err? ==> r.error == PredictionError
    ensures r.Ok? ==> PassFieldsSet(r.value) && RecommendedBy(request, r.value)
    ensures r.Ok? ==> r.value == response.(recommendedAction := r.value.recommendedAction,
                                          actionReasoning := r.value.actionReasoning,
                                          actionConfidence := r.value.actionConfidence,
                                          confidenceLevel := r.value.confidenceLevel,
                                          confidenceReasoning := r.value.confidenceReasoning,
                                          confidenceFactors := r.value.confidenceFactors)
    ensures r.Ok? ==> 0.15 <= r.value.actionConfidence.value <= 0.95
    ensures r.Ok? ==> r.value.confidenceFactors.value.probabilityThresholdGap
                      == Abs(response.makeProbability - response.threshold)
  {
    var timeRemaining := TimeRemaining(request);
    match ActionRecommender.GetRecommendation(response.makeProbability, request.shotType, request.zone,
                                              request.shotDistance, timeRemaining, request.quarter,
                                              request.defenderDistance, request.contestLevel)
    case Err(_) => Err(PredictionError)
    case Ok(recommendation) =>
      var assessment := ActionConfidence.ConfidenceOf(response.makeProbability, response.threshold, response.decision,
                                                      request.shotType, request.zone, request.shotDistance,
                                                      timeRemaining, request.quarter, request.defenderDistance,
                                                      request.contestLevel, Some(recommendation.action));
      var filled := response.(recommendedAction := Some(recommendation.action),
                              actionReasoning := Some(recommendation.reasoning),
                              actionConfidence := Some(assessment.actionConfidence),
                              confidenceLevel := Some(assessment.confidenceLevel),
                              confidenceReasoning := Some(assessment.confidenceReasoning),
                              confidenceFactors := Some(assessment.confidenceFactors));
      assert PassFieldsSet(filled);
      assert RecommendedBy(request, filled);
      Ok(filled)
  }

  /** The response of the endpoint as a function of the request, whether the
      models are loaded, the model's probability, the exponential and the
      random pick of context snippets. */
  function PredictShotOf(request: ShotRequest, modelsLoaded: bool, baseProbability: real,
                         exp: real -> real, pick: (nat, nat)): (r: Result<ShotResponse, HttpError>)
    ensures r == Err(ModelsNotLoaded) <==> !modelsLoaded
    ensures r == Err(PredictionError) <==>
      (modelsLoaded
       && Adjustment(request, baseProbability, exp).0 < RequestThreshold(request)
       && RecommendationFails(request, Adjustment(request, baseProbability, exp).0))
    ensures r.Ok? ==>
      r.value.makeProbability == Adjustment(request, baseProbability, exp).0
      && r.value.threshold == RequestThreshold(request)
      && (r.value.decision == TAKE_SHOT <==> r.value.makeProbability >= r.value.threshold)
      && (r.value.decision == PASS <==> r.value.makeProbability < r.value.threshold)
      && r.value.confidence == Abs(r.value.makeProbability - r.value.threshold)
    ensures r.Ok? ==> (r.value.decision == PASS ==> PassFieldsSet(r.value))
                      && (r.value.decision != PASS ==> PassFieldsUnset(r.value))
    ensures r.Ok? ==> ClosesWithProbability(r.value.explanation, r.value.makeProbability, r.value.threshold)
    ensures r.Ok? ==> ReportsOf(request, baseProbability, exp, pick, r.value)
    ensures r.Ok? && r.value.decision == PASS ==> RecommendedBy(request, r.value)
    ensures r.Ok? && r.value.decision == PASS ==>
      0.15 <= r.value.actionConfidence.value <= 0.95
      && r.value.confidenceFactors.value.probabilityThresholdGap == r.value.threshold - r.value.makeProbability
  {
    if !modelsLoaded then Err(ModelsNotLoaded)
    else
      var response := AdvisedResponse(request, baseProbability, exp, pick);
      if response.decision == PASS then WithRecommendation(request, response) else Ok(response)
  }

  /** With a defender distance in the request, a loaded service always
      answers: every failing sentence needs the distance to be missing. */
  lemma DefenderDistancePreventsFailure(request: ShotRequest, baseProbability: real, exp: real -> real, pick: (nat, nat))
    requires request.defenderDistance.Some?
    ensures PredictShotOf(request, true, baseProbability, exp, pick).Ok?
  {
    var t := TimeRemaining(request);
    var p := Adjustment(request, baseProbability, exp).0;
    assert !RecommendationFails(request, p);
  }

  /** In the last five seconds of regulation the threshold is 0.30 whatever
      the shot, so the decision turns on the adjusted probability alone. */
  lemma LastSecondsOfRegulation(request: ShotRequest, baseProbability: real, exp: real -> real, pick: (nat, nat))
    requires request.minsLeft == 0 && request.secsLeft <= 5 && request.quarter <= 4
    ensures var r := PredictShotOf(request, true, baseProbability, exp, pick);
      r.Ok? ==> r.value.threshold == 0.30 && (r.value.decision == TAKE_SHOT <==> r.value.makeProbability >= 0.30)
  {
    ShotAdvisory.LateClockThresholdIsFixed(request.shotType, request.zone, TimeRemaining(request) as real, request.quarter);
  }

  /** The PASS branch of `predict_shot`: recommend an action, then assess
      the confidence in it against the advisory threshold and decision. */
  method RecommendForPass(request: ShotRequest, advised: ShotResponse, timeRemaining: int)
    returns (result: Result<ShotResponse, HttpError>)
    requires timeRemaining == TimeRemaining(request)
    ensures result == WithRecommendation(request, advised)
  {
    var actionRec := ActionRecommender.GetRecommendation(advised.makeProbability, request.shotType, request.zone,
                                                         request.shotDistance, timeRemaining, request.quarter,
                                                         request.defenderDistance, request.contestLevel);
    if actionRec.Err? {
      return Err(PredictionError);
    }
    var recommendedAction := Some(actionRec.value.action);
    var actionReasoning := Some(actionRec.value.reasoning);

    var confidenceResult := ActionConfidence.ComputeActionConfidence(
      advised.makeProbability, advised.threshold, advised.decision, request.shotType, request.zone,
      request.shotDistance, timeRemaining, request.quarter, request.defenderDistance, request.contestLevel,
      recommendedAction);

    result := Ok(advised.(recommendedAction := recommendedAction,
                          actionReasoning := actionReasoning,
                          actionConfidence := Some(confidenceResult.actionConfidence),
                          confidenceLevel := Some(confidenceResult.confidenceLevel),
                          confidenceReasoning := Some(confidenceResult.confidenceReasoning),
                          confidenceFactors := Some(confidenceResult.confidenceFactors)));
  }

  /** The steps of `predict_shot` every answered request goes through:
      defender adjustment, breakdown, advice and coach feedback. */
  method AdviseRequest(request: ShotRequest, baseProbability: real, exp: real -> real, pick: (nat, nat))
    returns (advised: ShotResponse, timeRemaining: int)
    ensures advised == AdvisedResponse(request, baseProbability, exp, pick)
    ensures timeRemaining == TimeRemaining(request)
  {
    timeRemaining := request.minsLeft * 60 + request.secsLeft;

    var contestEnum := DefenderImpact.ContestFromRequest(request.contestLevel);
    var adjusted := DefenderImpact.ApplyDefenderAdjustment(baseProbability, request.defenderDistance, contestEnum, exp);
    var adjustedProbability := adjusted.0;
    var impactBreakdown := adjusted.1;
    assert adjusted == Adjustment(request, baseProbability, exp);
    assert timeRemaining == TimeRemaining(request);

    var breakdown := ShotQuality.ComputeBreakdown(adjustedProbability, request.shotType, request.zone,
                                                  request.shotDistance, timeRemaining, request.quarter,
                                                  request.defenderDistance, request.contestLevel, exp);

    var baseAdvice := ShotAdvisory.Advise(adjustedProbability, request.shotType, request.zone, request.shotDistance,
                                          timeRemaining as real, request.quarter);
    assert baseAdvice.threshold == RequestThreshold(request);

    var coachExplanations := CoachFeedback.GenerateCoachFeedback(baseAdvice.decision, adjustedProbability,
                                                                 baseAdvice.threshold, request.shotType, request.zone,
                                                                 request.shotDistance, timeRemaining, request.quarter,
                                                                 request.defenderDistance, request.contestLevel, pick);

    advised := ShotResponse(baseAdvice.decision, adjustedProbability, baseAdvice.threshold,
                            baseAdvice.confidence, coachExplanations, request.contestLevel,
                            request.defenderDistance, breakdown, impactBreakdown,
                            None, None, None, None, None, None);
  }

  /** `predict_shot`: refuse without models; otherwise adjust, break down,
      advise and give feedback, then fill the six PASS-only fields when the
      decision is PASS. Any failure inside becomes a 500. */
  method PredictShot(request: ShotRequest, modelsLoaded: bool, baseProbability: real,
                     exp: real -> real, pick: (nat, nat)) returns (result: Result<ShotResponse, HttpError>)
    ensures result == PredictShotOf(request, modelsLoaded, baseProbability, exp, pick)
  {
    if !modelsLoaded {
      return Err(ModelsNotLoaded);
    }
    var advised, timeRemaining := AdviseRequest(request, baseProbability, exp, pick);
    if advised.decision == PASS {
      result := RecommendForPass(request, advised, timeRemaining);
    } else {
      result := Ok(advised);
    }
  }
}
