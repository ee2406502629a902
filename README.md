# Shot-selection advisory: a Dafny model

This project models the decision core of the Data-Driven Shot Selection
Advisory System. A basketball shot arrives as a request: shot type, court
zone, distance, quarter, clock and, optionally, the nearest defender's
distance and a contest level. The machine-learned make probability is then
processed as follows:

- It is scaled down by a defender-impact factor. An exponential distance
  decay is multiplied by a contest multiplier.
- It is compared with a context-dependent threshold. The threshold is set
  by shot type and zone, lowered late in the clock and scaled down in
  overtime. The comparison gives the decision TAKE SHOT or PASS.
- The decision is explained by several layers:
  - a five-part shot-quality breakdown;
  - coach feedback;
  - player-mode, coach-mode and dual-mode explanation texts;
  - for PASS, a recommended alternative action with a confidence score.

One Dafny module models each source file:

| module | file |
|---|---|
| `Common` | shared vocabulary: `Option`, `Result`, clamps, Python truthiness, the substring test, the label strings |
| `ShotAdvisory` | `ml/shot_advisory.py` |
| `DefenderImpact` | `backend/defender_impact.py` |
| `ShotQuality` | `backend/shot_quality_breakdown.py` |
| `ActionRecommender` | `backend/action_recommender.py` |
| `ActionConfidence` | `backend/action_confidence.py` |
| `CoachFeedback` | `backend/coach_feedback.py` |
| `ExplanationFormatter` | `backend/explanation_formatter.py` |
| `ShotService` | the `predict_shot` endpoint of `backend/main.py` |

Labels such as shot types, zones, contest levels and decisions stay strings.
Values the source does not recognise therefore behave as they do in the
source:

- an unknown shot type falls back to the base threshold;
- an unknown contest string counts as OPEN;
- any decision other than "TAKE SHOT" follows the PASS path.

Python truthiness is written out: `Truthy` for an optional string and
`NonZero` for an optional distance. A distance of 0.0 is as absent as
`None` wherever the source tests `defender_distance and …`.

Generated sentences become datatypes of tags carrying the numbers they
interpolate. Where the source picks a phrasing at random, only the category
of the sentence is modelled. The two context snippets picked by
`random.sample` come from a `pick` parameter. A lemma shows that `pick` can
select every ordered pair of distinct candidates.

Code that builds its result step by step becomes a `method`. Each such
method is proved equal to a specification function, and the properties
are proved about that function. This covers:

- `get_threshold`, `get_explanation` and `advise`;
- `format_breakdown_for_display`;
- `compute_action_confidence`;
- `_build_context`, `generate_pass_explanation` and
  `generate_coach_feedback`;
- the two explanation formatters `format_player_explanation` and
  `format_coach_explanation` (`get_coaching_insight` and
  `format_dual_mode_explanation` only compute, so they are functions);
- `predict_shot`.

Three long source functions are split into section methods:
`compute_action_confidence`, `format_coach_explanation` and `predict_shot`,
which each have two or more sections.

Formatting `None` with `:.1f` raises a `TypeError` in the source. The
model returns `Err(NoneFormatted)` in its place, and `predict_shot` turns
that error into HTTP 500 as the source's `except Exception` does.

Where the code and its own documentation disagree, the model follows the
code:

- `apply_defender_adjustment`'s docstring says that without defender data
  the probability is unchanged (`assert adj_prob == 0.38`). The code
  multiplies by the OPEN multiplier 0.97, so the probability is not
  unchanged. `DefenderImpact.NoDefenderDataScalesByOpen` proves this.
  `DefenderImpact.UnchangedIff` gives the exact condition for an unchanged
  probability.
- `_location_quality` documents a range of −0.15 to +0.12. The code
  never goes below −0.10.
- `_defensive_pressure` documents "typically −0.35 to 0.00". The proved
  range is −0.4475 to 0.00, because the decay and the contest multiplier
  combine.
- `format_player_explanation` is described as giving one or two lines. It
  always gives exactly one line.
- In `_identify_pass_reason` the contested-three test also accepts TIGHT.
  TIGHT was already caught by the tight-defense test before it, so a
  contested three is only ever reported for CONTESTED. The contract of
  `CoachFeedback.IdentifyPassReason` states this.

## Model

| member | source | states |
|---|---|---|
| DefenderImpact.ContestByValue | backend/defender_impact.py:14-19 | `ContestLevel(s)` succeeds exactly for the four contest strings and gives back the member whose value is `s` |
| DefenderImpact.ContestFromRequest | backend/main.py:736-741 | the contest level is absent exactly when the request's contest string is falsy; a known string maps to its level; an unknown non-empty string becomes OPEN |
| DefenderImpact.DistanceDecay | backend/defender_impact.py:87-94 | the decay lies in [0.65, 1.0] and is 1.0 for a missing or negative distance |
| DefenderImpact.DecayIsUnclippedFormula | backend/defender_impact.py:90-94 | for d ≥ 0 the clip never bites: the decay is exactly 1 − 0.35·e^(−0.25·d), and is below 1 |
| DefenderImpact.DecayMonotone | backend/defender_impact.py:62-94 | a farther defender never decays the probability more, provided exp is non-decreasing |
| DefenderImpact.MultiplierOf | backend/defender_impact.py:54-59 | TIGHT gives 0.85, CONTESTED 0.92, OPEN 0.97 and WIDE_OPEN 1.00, each value exactly for its level; all lie in [0.85, 1.0] |
| DefenderImpact.MultiplierMonotone | backend/defender_impact.py:54-59 | the multipliers are ordered like the contest levels from TIGHT to WIDE_OPEN, in both directions |
| DefenderImpact.ContestMultiplier | backend/defender_impact.py:117-120 | no contest level gives the OPEN multiplier 0.97; a level gives its own multiplier |
| DefenderImpact.ComputeDefenderImpact | backend/defender_impact.py:150-164 | the factor is decay × multiplier, lies in [0.5525, 1.0], and the percentage adjustment is (factor − 1)·100, in [−44.75, 0] |
| DefenderImpact.NeutralImpactIff | backend/defender_impact.py:150-157 | the factor is 1 exactly when the decay is 1 and the contest is WIDE_OPEN |
| DefenderImpact.ApplyDefenderAdjustment | backend/defender_impact.py:201-210 | the adjusted probability lies in [0, 1]; for a base in [0, 1] it is base × factor, between 0.5525·base and base; a non-positive base gives 0 |
| DefenderImpact.UnchangedIff | backend/defender_impact.py:195-210 | a positive probability is left unchanged exactly when the decay is 1 and the contest is WIDE_OPEN |
| DefenderImpact.NoDefenderDataScalesByOpen | backend/defender_impact.py:195-199 | without defender data the factor is 0.97 and 0.38 becomes 0.97·0.38, not 0.38 as the docstring asserts |
| DefenderImpact.DistanceBucketOf | backend/defender_impact.py:246-253 | the four distance descriptions partition the distances at 3, 6 and 10 feet |
| DefenderImpact.ContestDescriptionOf | backend/defender_impact.py:256-262 | "standard defense" exactly when no contest level is given; each of the four levels has its own description, used exactly for that level |
| DefenderImpact.GetExplanation | backend/defender_impact.py:240-267 | the no-data text appears exactly when the distance is missing; otherwise the text carries the distance, its bucket, the contest description and the percentage adjustment |
| ShotAdvisory.ShotTypeThreshold | ml/shot_advisory.py:22-25 | only the two field-goal types have a threshold: 0.35 for a three-pointer, 0.50 for a two-pointer |
| ShotAdvisory.ZoneThreshold | ml/shot_advisory.py:28-37 | exactly the eight court zones have a threshold: 0.40 exactly for the restricted area, 0.45 exactly for the paint, 0.55 exactly for mid-range, 0.35 exactly for the five three-point zones |
| ShotAdvisory.TypeStep | ml/shot_advisory.py:61-65 | the base 0.45 is replaced by the shot-type threshold when there is one |
| ShotAdvisory.ZoneStep | ml/shot_advisory.py:68-69 | the zone step never raises the threshold; for a listed zone the result is either the incoming threshold or the zone's value, whichever is lower |
| ShotAdvisory.ClockStep | ml/shot_advisory.py:72-73 | with 5 s or less the threshold is capped at 0.30, otherwise unchanged |
| ShotAdvisory.OvertimeStep | ml/shot_advisory.py:76-77 | after the fourth quarter the threshold is multiplied by 0.95 |
| ShotAdvisory.Threshold | ml/shot_advisory.py:61-79 | every threshold lies in [0.285, 0.50], and in regulation it is at least 0.30 |
| ShotAdvisory.GetThreshold | ml/shot_advisory.py:42-79 | the step-by-step method computes `Threshold` |
| ShotAdvisory.ZoneAndClockNeverRaise | ml/shot_advisory.py:68-73 | zone and clock adjustments only ever lower the shot-type threshold |
| ShotAdvisory.LateClockThresholdIsFixed | ml/shot_advisory.py:72-77 | with 5 s or less the threshold is 0.30 in regulation and 0.285 in overtime, whatever the shot |
| ShotAdvisory.OvertimeScalesFourthQuarter | ml/shot_advisory.py:76-77 | an overtime threshold is 0.95 times, and strictly below, the fourth-quarter one |
| ShotAdvisory.MaximumOnlyForTwoPointers | ml/shot_advisory.py:61-79 | the maximum 0.50 is reached exactly for a two-pointer from mid-range or an unlisted zone, with more than 5 s left, in regulation |
| ShotAdvisory.ThresholdValues | ml/shot_advisory.py:173-190 | every threshold is one of ten values with at most four decimals, so `round(threshold, 4)` leaves it unchanged |
| ShotAdvisory.ProbabilityLine | ml/shot_advisory.py:112-115 | the first line says "exceeds" exactly when the probability reaches the threshold, and carries the probability and the threshold |
| ShotAdvisory.ShotTypeLines | ml/shot_advisory.py:118-121 | the shot-type line appears exactly for the two field-goal types |
| ShotAdvisory.ZoneLines | ml/shot_advisory.py:124-129 | the near-basket line appears exactly for the two paint zones; the three-point line for other zones containing '3'; the mid-range line for the remaining zones containing "Mid-Range" |
| ShotAdvisory.ZoneLinesOfCourtZones | ml/shot_advisory.py:124-129 | each of the eight court zones gets its expected zone line |
| ShotAdvisory.DistanceLines | ml/shot_advisory.py:132-135 | a long-range line from 25 ft, a close-range line up to 5 ft |
| ShotAdvisory.TimeLines | ml/shot_advisory.py:138-141 | a late-clock line up to 5 s, a winding-down line in (5, 10] |
| ShotAdvisory.ExplanationLines | ml/shot_advisory.py:106-147 | one to six lines, the first being the probability-versus-threshold line; which lines follow is stated by `ExplanationShotLines` and `ExplanationSituationLines` |
| ShotAdvisory.ExplanationShotLines | ml/shot_advisory.py:117-129 | the shot-type and zone lines of the explanation: the three-pointer line exactly for 3PT, the two-pointer line exactly for 2PT, and the near-basket, three-point-zone and mid-range lines each exactly when its zone branch is the first to hold |
| ShotAdvisory.ExplanationSituationLines | ml/shot_advisory.py:131-145 | the distance, clock and quarter lines of the explanation: long range exactly from 25 ft, close range exactly within 5 ft, late clock exactly with 5 s or less, winding down exactly in (5, 10], late game exactly from the fourth quarter |
| ShotAdvisory.GetExplanation | ml/shot_advisory.py:81-147 | the appending method computes `ExplanationLines` |
| ShotAdvisory.Advise | ml/shot_advisory.py:173-193 | the threshold is `Threshold`; TAKE SHOT exactly when the probability reaches it and PASS otherwise; the confidence is the absolute gap; the explanation is `ExplanationLines` |
| ShotQuality.LocationQuality | backend/shot_quality_breakdown.py:100-118 | the value lies in [−0.10, 0.12]; each table value is characterised: 0.12 exactly at the rim, 0.08 exactly in the corners, 0.03 exactly in the paint, −0.05 exactly at mid-range under 16 ft, −0.10 exactly at mid-range from 16 ft; 0 for every other zone |
| ShotQuality.ShotTypeValue | backend/shot_quality_breakdown.py:133-136 | +0.08 exactly when the shot type contains "3PT", −0.02 otherwise |
| ShotQuality.ShotTypeValueOfFieldGoals | backend/shot_quality_breakdown.py:133-136 | the three-point field goal gets +0.08 and the two-point one −0.02 |
| ShotQuality.TimeContext | backend/shot_quality_breakdown.py:152-163 | the value lies in [−0.08, 0.03]; each of the four values is characterised by its first-match clock and quarter condition, including the fallback 0.00 |
| ShotQuality.DefensivePressure | backend/shot_quality_breakdown.py:183-208 | 0 without a distance; otherwise the impact's percentage adjustment ÷ 100; always in [−0.4475, 0] |
| ShotQuality.PressureNeutralIff | backend/shot_quality_breakdown.py:183-208 | the pressure is 0 exactly when there is no distance, or the decay is 1 and the contest is WIDE_OPEN |
| ShotQuality.UnknownContestPressesLikeOpen | backend/shot_quality_breakdown.py:192-196 | an unrecognised contest string presses like OPEN |
| ShotQuality.ComputeBreakdown | backend/shot_quality_breakdown.py:57-74 | the baseline is 0.05; location, shot type, time and pressure are `LocationQuality`, `ShotTypeValue`, `TimeContext` and `DefensivePressure` of the request, each within its proved range |
| ShotQuality.BreakdownIgnoresProbability | backend/shot_quality_breakdown.py:57-74 | the breakdown does not depend on the make probability it is given |
| ShotQuality.BreakdownItems | backend/shot_quality_breakdown.py:68-74 | the breakdown has five entries, each key paired with its component, in order: baseline, location quality, shot type value, time context, defensive pressure |
| ShotQuality.DisplayName | backend/shot_quality_breakdown.py:227-236 | a key is renamed exactly when it is one of the five components |
| ShotQuality.FormatValue | backend/shot_quality_breakdown.py:237-239 | the sign is '+' exactly for non-negative values, and the percentage is value × 100 |
| ShotQuality.FormatBreakdownForDisplay | backend/shot_quality_breakdown.py:225-241 | the keys are the display names of the entries; each name maps to the formatted value of the last entry with that name |
| ShotQuality.BreakdownItemsAreLastOfTheirName | backend/shot_quality_breakdown.py:227-241 | the five breakdown entries have distinct display names, so each appears formatted |
| ActionRecommender.ActionValuesDistinct | backend/action_recommender.py:12-20 | the seven action labels are distinct |
| ActionRecommender.IdentifyPrimaryReason | backend/action_recommender.py:132-159 | late clock, then tight, then contested, then quality; each reason holds exactly under its condition, and every quality-based reason is the one `QualityReason` picks from probability, distance and clock |
| ActionRecommender.QualityReason | backend/action_recommender.py:149-159 | the four quality reasons are characterised by the 0.30 and 0.35 probability bars, the 20-ft line and the 15-s early clock |
| ActionRecommender.SelectAction | backend/action_recommender.py:182-310 | the action chosen for each reason; the call fails exactly when the distance is missing and the chosen sentence formats it; for each reason, each reasoning sentence is given exactly under its clock, quarter, distance, zone or shot-type condition (critical fourth-quarter clock exactly in Q4 with 3 s or less, attack the flying closeout exactly from 22 ft, and so on), with the sentence carrying the distance, clock or probability it quotes |
| ActionRecommender.GetRecommendation | backend/action_recommender.py:86-113 | fails exactly when `SelectAction` of the identified primary reason fails; otherwise the action and the reasoning are the ones `SelectAction` chooses for that reason; the action is one of the seven labels |
| ActionRecommender.BestAvailableIffLateClock | backend/action_recommender.py:132-133 | with 5 s or less the recommendation is always "Best Available Shot"; that label is recommended only then |
| ActionRecommender.ZeroDistanceIsNoDistance | backend/action_recommender.py:136-146 | a defender at 0.0 ft is treated as no defender |
| ActionRecommender.ContestedPerimeterIgnoresShotType | backend/action_recommender.py:136-159 | when the tight case does not hold, the shot type does not affect the reason |
| ActionRecommender.TightWithoutDistanceFails | backend/action_recommender.py:136-140 | a TIGHT contest without a distance (outside the late clock and the deep-closeout case) raises |
| ActionConfidence.SumWeightsAppend | backend/action_confidence.py:79-127 | the adjustment total is additive over concatenation |
| ActionConfidence.BaseConfidence | backend/action_confidence.py:67-74 | the base confidence is 0.85 exactly from a 0.15 gap, 0.70 exactly in [0.10, 0.15), 0.55 exactly in [0.05, 0.10), and 0.40 exactly below 0.05 |
| ActionConfidence.BaseConfidenceMonotone | backend/action_confidence.py:67-74 | a larger gap never lowers the base confidence |
| ActionConfidence.ContestAdjustments | backend/action_confidence.py:84-92 | at most one contest adjustment; tight_contest (+0.10) exactly for PASS with TIGHT, contested_shot (+0.05) exactly for PASS with CONTESTED |
| ActionConfidence.TimeAdjustments | backend/action_confidence.py:96-103 | late-clock pressure up to 5 s, moderate pressure in (5, 10] |
| ActionConfidence.LocationAdjustments | backend/action_confidence.py:107-121 | at most one location adjustment, none unless PASS; first match: deep_three_attempt exactly for a PASS three from 27 ft; inefficient_midrange exactly for a PASS mid-range two from 15 ft that is not a deep three; difficult_angle exactly for a PASS above-the-break three from 25 ft up to 27 ft |
| ActionConfidence.ClutchAdjustments | backend/action_confidence.py:125-127 | the clutch adjustment applies exactly from the fourth quarter with 120 s or less |
| ActionConfidence.TotalAdjustmentBounds | backend/action_confidence.py:79-127 | the total adjustment lies in [−0.18, 0.18] |
| ActionConfidence.AtMostOneLocationTag | backend/action_confidence.py:107-121 | the active adjustments never hold two location tags |
| ActionConfidence.ContestAndLocationOnlyForPass | backend/action_confidence.py:84-121 | a non-PASS decision gets no contest and no location adjustment |
| ActionConfidence.FinalConfidence | backend/action_confidence.py:132 | the score lies in [0.15, 0.95]; it equals base + total when that is in range, 0.95 above it and 0.15 below it |
| ActionConfidence.ConfidenceLevel | backend/action_confidence.py:137-144 | the four levels partition the score at 0.75, 0.60 and 0.45 |
| ActionConfidence.GapPart | backend/action_confidence.py:152-159 | the gap phrase agrees with the base-confidence band |
| ActionConfidence.ContestPart | backend/action_confidence.py:162-165 | at most one contest phrase: "tightly contested" exactly with the tight adjustment, "actively contested" exactly with the contested one and not the tight one |
| ActionConfidence.LocationPart | backend/action_confidence.py:167-172 | at most one location phrase, first match: deep three exactly with its adjustment, mid-range exactly with its own and no deep three, difficult angle exactly with its own and neither before it |
| ActionConfidence.ClockPart | backend/action_confidence.py:175-178 | at most one clock phrase: shot-clock pressure exactly with late-clock pressure, clutch uncertainty exactly with the clutch adjustment and no late-clock pressure |
| ActionConfidence.ReasoningParts | backend/action_confidence.py:149-178 | one to four parts, the first being the gap phrase and one part per contest, location and clock phrase; which phrases appear is stated by `ReasoningPartsContent` |
| ActionConfidence.ReasoningPartsContent | backend/action_confidence.py:149-178 | first match within each group: tightly contested exactly with the tight adjustment, actively contested exactly with the contested one and not the tight one; deep three, mid-range and difficult angle each exactly with its adjustment and none before it; shot-clock pressure exactly with late-clock pressure, clutch uncertainty exactly in the clutch without it |
| ActionConfidence.Reasoning | backend/action_confidence.py:181-191 | non-PASS reasoning quotes the gap; PASS with at most two parts is a "clear passing decision"; otherwise all parts are listed |
| ActionConfidence.ConfidenceOf | backend/action_confidence.py:14-206 | the score lies in [0.15, 0.95] and its level matches; the factors record the gap, the base confidence and a total in [−0.18, 0.18] equal to the sum of the active adjustments; the active adjustments are exactly `ActiveAdjustments` of the inputs, the score is `FinalConfidence` of the recorded base and total, and the reasoning is `Reasoning` of the decision, the gap and the `ReasoningParts` of those adjustments |
| ActionConfidence.RecommendedActionIgnored | backend/action_confidence.py:14-206 | the recommended action has no influence on the assessment |
| ActionConfidence.NonPassReasoningIsGap | backend/action_confidence.py:189-191 | outside PASS the reasoning is the exceeds-by-gap sentence |
| ActionConfidence.CollectAdjustments | backend/action_confidence.py:79-127 | the accumulating method collects exactly the active adjustments and their sum |
| ActionConfidence.ContestStep | backend/action_confidence.py:84-92 | the contest check appends `ContestAdjustments` and adds its weight |
| ActionConfidence.TimeStep | backend/action_confidence.py:96-103 | the clock check appends `TimeAdjustments` and adds its weight |
| ActionConfidence.LocationStep | backend/action_confidence.py:107-121 | the location check appends `LocationAdjustments` and adds its weight |
| ActionConfidence.ClutchStep | backend/action_confidence.py:125-127 | the clutch check appends `ClutchAdjustments` and adds its weight |
| ActionConfidence.WeightHundredths | backend/action_confidence.py:84-127 | each adjustment weight is a whole number of hundredths |
| ActionConfidence.SumWeightsOnHundredths | backend/action_confidence.py:79-127 | every total adjustment is a whole number of hundredths |
| ActionConfidence.ConfidenceOnHundredths | backend/action_confidence.py:197-203 | the base confidence, the total adjustment and the score are whole hundredths, so their rounding to 2 decimals leaves them unchanged |
| ActionConfidence.AssembleReasoning | backend/action_confidence.py:149-191 | the appending method builds `Reasoning` of the reasoning parts |
| ActionConfidence.ComputeActionConfidence | backend/action_confidence.py:14-206 | the method computes `ConfidenceOf` |
| CoachFeedback.IdentifyPassReason | backend/coach_feedback.py:210-237 | first match, each reason exactly under its condition: tight defense, contested three, late clock, then poor location (mid-range or paint beyond 8 ft), low percentage (more than 0.08 below the threshold), early-clock rush (over 20 s in quarters 1-3), else marginal |
| CoachFeedback.TimeSnippets | backend/coach_feedback.py:253-258 | first match: plenty of clock exactly over 20 s, some clock exactly in (8, 20], low clock exactly at 4 s or less; no clock snippet exactly when 5 ≤ t ≤ 8 |
| CoachFeedback.QuarterSnippets | backend/coach_feedback.py:261-264 | the late-game snippet exactly from the fourth quarter, the early-game one exactly in quarters 1-2, none in the third |
| CoachFeedback.DefenderSnippets | backend/coach_feedback.py:267-271 | the contested snippet exactly with a distance and CONTESTED, the tight snippet exactly with a distance and TIGHT, none otherwise |
| CoachFeedback.DistanceSnippets | backend/coach_feedback.py:274-277 | the far snippet exactly from 20 ft, the close snippet exactly within 8 ft, none for 8 < d < 20 |
| CoachFeedback.ContextCandidates | backend/coach_feedback.py:250-277 | at most four context snippets, one per group; which snippets appear is stated by `ContextCandidatesContent` |
| CoachFeedback.ContextCandidatesContent | backend/coach_feedback.py:250-277 | each of the nine snippets is a candidate exactly under its clock, quarter, contest or distance condition |
| CoachFeedback.SamplePositions | backend/coach_feedback.py:280-281 | the two sampled positions are distinct and in range |
| CoachFeedback.SamplePositionsReachEveryPair | backend/coach_feedback.py:280-281 | every ordered pair of distinct positions can be sampled |
| CoachFeedback.Sample | backend/coach_feedback.py:280-281 | a sample is two elements at distinct positions |
| CoachFeedback.ContextOf | backend/coach_feedback.py:280-283 | all the candidates when there are at most two; otherwise exactly two snippets, the candidates at two distinct positions |
| CoachFeedback.BuildContext | backend/coach_feedback.py:239-283 | the appending method computes `ContextOf` of the candidates |
| CoachFeedback.GetDefenderInsight | backend/coach_feedback.py:308-323 | a hand-in-face insight exactly for TIGHT within 2 ft, an active-contest insight exactly for CONTESTED within 5 ft, none otherwise |
| CoachFeedback.GetQualityInsight | backend/coach_feedback.py:334-361 | the three insights partition the margin at 0.08 and 0.04 |
| CoachFeedback.DefenderLines | backend/coach_feedback.py:170-175 | a defender line appears exactly with a distance and a qualifying contest, and it is the line of `GetDefenderInsight` for that distance and contest |
| CoachFeedback.PassExplanationLines | backend/coach_feedback.py:149-193 | three or four lines, four exactly with a defender line, which is then the first line, the one `DefenderLines` gives; then the main explanation for the identified reason with the context `ContextOf` picks from `ContextCandidates`, the quality line, and the probability line with the margin |
| CoachFeedback.HandInFaceMeansTightDefense | backend/coach_feedback.py:170-211 | a hand-in-face opening line implies the tight-defense reason |
| CoachFeedback.GeneratePassExplanation | backend/coach_feedback.py:118-193 | the appending method computes `PassExplanationLines` |
| CoachFeedback.TakeShotLines | backend/coach_feedback.py:400-423 | two or three lines; wide-open opening exactly with a distance and WIDE_OPEN; otherwise high-quality exactly from a 0.10 margin and good-look exactly below it; a third line exactly for a corner three or a shot within 5 ft, the corner-three line exactly for a three from a corner and the at-the-rim line otherwise; the last line quotes probability, threshold and margin |
| CoachFeedback.CoachFeedbackOf | backend/coach_feedback.py:400-437 | exactly "TAKE SHOT" gives `TakeShotLines` (2–3 lines), anything else `PassExplanationLines` (3–4 lines); the last line quotes the probability and the threshold |
| CoachFeedback.GenerateCoachFeedback | backend/coach_feedback.py:364-437 | the method computes `CoachFeedbackOf` |
| ExplanationFormatter.PlayerLineOf | backend/explanation_formatter.py:48-84 | the TAKE lines are used exactly for TAKE SHOT; first match for TAKE: open look, corner spacing, attack within 5 ft, confident shot; first match otherwise: hand in face (TIGHT), contested long two, too deep (three from 27 ft), defense on you (CONTESTED), long two (mid-range from 15 ft), quick decision (at most 5 s), not your shot; each line exactly when its rung is the first to hold |
| ExplanationFormatter.FormatPlayerExplanation | backend/explanation_formatter.py:14-84 | exactly one line, `PlayerLineOf` |
| ExplanationFormatter.TakeGapLine | backend/explanation_formatter.py:129-139 | the "significantly exceeds" line appears exactly from a 0.10 gap |
| ExplanationFormatter.TakeZoneLine | backend/explanation_formatter.py:141-160 | first match, each line exactly when its branch is the first to hold: the corner line in the corners, the rim line in the restricted area, the three-point value line for other threes, the zone-aligned line for everything else |
| ExplanationFormatter.TakeContestLines | backend/explanation_formatter.py:163-172 | fails exactly for WIDE_OPEN without a distance; the wide-open line with the distance for WIDE_OPEN with one; the late-rotation line exactly for OPEN; nothing for any other contest |
| ExplanationFormatter.TakeClockLines | backend/explanation_formatter.py:175-179 | the late-clock line, and only it, appears exactly with 5 s or less |
| ExplanationFormatter.CoachTakeLines | backend/explanation_formatter.py:127-179 | fails exactly for WIDE_OPEN without a distance; otherwise 2–4 lines: `TakeGapLine` first, `TakeZoneLine` second, any contest line third and any late-clock line last; the late-rotation line exactly for OPEN, the wide-open line exactly for WIDE_OPEN with a distance, and the late-clock line exactly with 5 s or less |
| ExplanationFormatter.PassGapLine | backend/explanation_formatter.py:187-201 | the three gap lines partition the gap at 0.10 and 0.05 |
| ExplanationFormatter.PassDefenderLines | backend/explanation_formatter.py:204-216 | a defender line appears exactly with a distance and TIGHT or CONTESTED: the tight-closeout line for TIGHT, the active-contest line for CONTESTED, each carrying the distance |
| ExplanationFormatter.PassLocationLines | backend/explanation_formatter.py:218-233 | first match, each line exactly when its branch is the first to hold: the long-two line (mid-range two from 15 ft), the deep-three line (three from 27 ft), the outside-preferred-zones line outside the corners and restricted area; no line otherwise |
| ExplanationFormatter.PassTimeLines | backend/explanation_formatter.py:236-246 | the forced-late-clock line exactly with 5 s or less, the time-to-create line exactly from 15 s, no clock line without a clock or with 5 < t < 15 |
| ExplanationFormatter.ClutchLines | backend/explanation_formatter.py:249-253 | the clutch line, and only it, appears exactly from the fourth quarter with 120 s or less |
| ExplanationFormatter.CoachPassLines | backend/explanation_formatter.py:181-253 | one to five lines, `PassGapLine` first; which lines follow is stated by `CoachPassShotContent` and `CoachPassClockContent` |
| ExplanationFormatter.CoachPassShotContent | backend/explanation_formatter.py:204-233 | after the gap line: the tight-closeout line exactly for TIGHT and the active-contest line exactly for CONTESTED when a distance is given; the long-two, deep-three and outside-preferred-zones lines each exactly when its location branch is the first to hold |
| ExplanationFormatter.CoachPassClockContent | backend/explanation_formatter.py:236-253 | after the gap line: the forced-late-clock line exactly with 5 s or less, the time-to-create line exactly from 15 s, the clutch line exactly from the fourth quarter with 120 s or less |
| ExplanationFormatter.CoachExplanation | backend/explanation_formatter.py:123-255 | exactly "TAKE SHOT" gives `CoachTakeLines` (2–4 lines) and anything else `CoachPassLines` (1–5 lines), each opening with its gap line; fails exactly for TAKE SHOT with WIDE_OPEN and no distance |
| ExplanationFormatter.CoachTakeSection | backend/explanation_formatter.py:127-179 | the appending method computes `CoachTakeLines` |
| ExplanationFormatter.CoachPassSection | backend/explanation_formatter.py:181-253 | the appending method computes `CoachPassLines` |
| ExplanationFormatter.PassClockSection | backend/explanation_formatter.py:236-253 | the clock and clutch checks append `PassTimeLines` and then `ClutchLines` to the lines before them |
| ExplanationFormatter.FormatCoachExplanation | backend/explanation_formatter.py:87-255 | the method computes `CoachExplanation` |
| ExplanationFormatter.GetCoachingInsight | backend/explanation_formatter.py:292-328 | the TAKE insights exactly for TAKE SHOT; first match for TAKE: open look, corner three, a margin of at least 0.15, on-balance rhythm; first match otherwise: one more pass (TIGHT), mid-range two, three from 27 ft, then "Swing", "Drive" and "Reset" in the recommended action, move the ball (CONTESTED), trust the process; each insight exactly when its rung is the first to hold |
| ExplanationFormatter.RecommendedActionInsights | backend/explanation_formatter.py:316-323 | Swing Pass, Drive and Kick and Reset the Offense lead to their three insights |
| ExplanationFormatter.SwingPassInsight | backend/explanation_formatter.py:316-323 | "Swing Pass" leads to the ball-reversal insight |
| ExplanationFormatter.DriveAndKickInsight | backend/explanation_formatter.py:316-323 | "Drive and Kick" leads to the attack-closeouts insight |
| ExplanationFormatter.ResetInsight | backend/explanation_formatter.py:316-323 | "Reset the Offense" leads to the early-offense insight |
| ExplanationFormatter.FormatDualModeExplanation | backend/explanation_formatter.py:360-403 | fails exactly when the coach analysis fails; otherwise it holds the player line, the coach lines and the coaching insight |
| ExplanationFormatter.DualModeStylesAgreeOnDecision | backend/explanation_formatter.py:360-403 | the player, coach and insight parts all take the same side of the decision |
| ShotService.StatusCode | backend/main.py:674-682 | missing models answer 503, a failure inside the prediction answers 500 |
| ShotService.TimeRemaining | backend/main.py:688 | with a non-negative clock the total is at least the seconds |
| ShotService.TimeRemainingRoundTrip | backend/main.py:688 | with the seconds in [0, 60) the total divided by 60 gives back the minutes and its remainder the seconds |
| ShotService.Adjustment | backend/main.py:736-747 | the adjusted probability lies in [0, 1] and never exceeds a base in [0, 1] |
| ShotService.RequestThreshold | backend/main.py:766-773 | the threshold for the request lies in [0.285, 0.50] |
| ShotService.AdvisedResponse | backend/main.py:743-799 | the decision compares the adjusted probability with the threshold; the confidence is the gap; the defender impact is the one `Adjustment` reports, the breakdown is `ComputeBreakdown` and the feedback is `CoachFeedbackOf` of the request at that probability, threshold and decision; the six PASS-only fields are empty; the feedback ends with the probability line |
| ShotService.WithRecommendation | backend/main.py:801-836 | fails exactly when the recommender fails; otherwise sets all six PASS-only fields to the recommender's action and reasoning and to the `ConfidenceOf` assessment of that action on the advised probability, threshold and decision, and changes nothing else |
| ShotService.PredictShotOf | backend/main.py:674-865 | 503 exactly without models; 500 exactly for a PASS whose recommendation fails; otherwise the decision, threshold and confidence follow the advisory, the impact, breakdown and feedback are those of the request, and the PASS-only fields are present exactly for PASS, holding the recommendation and its confidence assessment |
| ShotService.DefenderDistancePreventsFailure | backend/main.py:801-865 | with a defender distance in the request, a loaded service always answers |
| ShotService.LastSecondsOfRegulation | backend/main.py:688-773 | with 0 min and at most 5 s left in regulation, the threshold is 0.30 whatever the shot |
| ShotService.RecommendForPass | backend/main.py:801-836 | the PASS section computes `WithRecommendation` |
| ShotService.AdviseRequest | backend/main.py:688-789 | the adjust, breakdown, advise and feedback steps compute `AdvisedResponse` |
| ShotService.PredictShot | backend/main.py:655-865 | the endpoint method computes `PredictShotOf` |

## Left out

- Model training, feature engineering, data loading and the shot-data cache
  (`ml/train_model.py`, `ml/feature_engineering.py`, `ml/data_loader.py`,
  `backend/shot_data_cache.py`) are not part of this model. The model's
  probability (`predict_proba`) is an input of `ShotService.PredictShot`.
  Failures while building features are not modelled.
- The request fields `loc_x`, `loc_y`, `position` and `action_type` feed
  only the features, so they are not part of `ShotService.ShotRequest`.
- The FastAPI application is left out: routing, pydantic validation, the
  other endpoints and the exception-detail texts. Of the HTTP layer only
  the 503 and 500 outcomes of `predict_shot` are modelled.
- `np.exp` is a parameter `exp`. The clip in `compute_distance_decay` is
  enough for the bounds. Monotonicity assumes `exp` is non-decreasing.
- Floating point is replaced by exact reals. Python's `round(…, 4)` of the
  make probability and the confidence in `advise` is not modelled.
  `ShotAdvisory.ThresholdValues` shows that rounding the threshold changes
  nothing.
- ActionConfidence.ConfidenceOf: `probability_threshold_gap` is reported
  unrounded. The source rounds it to 3 decimals (backend/action_confidence.py:202).
  The score, base confidence and total adjustment are also rounded to
  2 decimals there (lines 197-203), but `ActionConfidence.ConfidenceOnHundredths`
  shows that this rounding leaves them unchanged.
- ShotService.WithRecommendation: the confidence factors it embeds carry the
  unrounded gap, as in `ActionConfidence.ConfidenceOf`.
- ShotService.PredictShotOf: the PASS confidence factors carry the
  unrounded gap, as in `ActionConfidence.ConfidenceOf`.
- TimeRemaining: its own contract gives only the lower bound. The
  minutes-and-seconds round trip is stated separately, as
  `ShotService.TimeRemainingRoundTrip`, so that callers do not carry
  division facts.
- Text is not modelled: sentence wording, number formatting (`.1f`, `.1%`,
  `+.1f`) and the `" ".join` of the context snippets. Sentences are tags
  carrying their numbers; only a `None` passed to a `.1f` format is modelled,
  as an error.
- `random.choice` among phrasings is replaced by the category of the
  sentence. `random.sample` is replaced by the `pick` parameter.
- The `ImportError` fallback in `_defensive_pressure` is not modelled, since
  `defender_impact` is always present here.
- The context snippets `three_point`, `two_point`, `distance_mid` and
  `defender_closing` exist in the source but are never chosen, so the
  snippet datatype does not contain them.
- The section methods have no source function of their own. They are
  `ActionConfidence.CollectAdjustments` with its four checks
  (`ActionConfidence.ContestStep`, `TimeStep`, `LocationStep`, `ClutchStep`),
  `ActionConfidence.AssembleReasoning`,
  `ExplanationFormatter.CoachTakeSection`,
  `ExplanationFormatter.CoachPassSection` with its closing
  `ExplanationFormatter.PassClockSection`, `ShotService.AdviseRequest` and
  `ShotService.RecommendForPass`. Each one is a consecutive section of the
  source function named in its row.
- The `test_*` demo functions at the end of the source files are not
  modelled.
