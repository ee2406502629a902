/** The defender-pressure model: a clipped exponential distance decay times
    a contest-quality multiplier, applied multiplicatively to the base make
    probability and clipped back into [0, 1].

    `np.exp` is not available to the verifier, so every function that needs
    it takes it as the parameter `exp`; the bounds below follow from the
    clips alone, whatever `exp` is. */
module DefenderImpact {
  import opened Common

  datatype ContestLevel = Tight | Contested | Open | WideOpen

  /** Maximum relative penalty, reached with the defender at 0 ft. */
  const MAX_PENALTY: real := 0.35
  /** Rate of the exponential decay per foot. */
  const DECAY_RATE: real := 0.25

  /** The enum member's string value. */
  function ContestValue(c: ContestLevel): string
  {
    match c
    case Tight => TIGHT
    case Contested => CONTESTED
    case Open => OPEN
    case WideOpen => WIDE_OPEN
  }

  /** `ContestLevel(s)`: lookup by value; None stands for the ValueError
      raised on any other string. */
  function ContestByValue(s: string): (r: Option<ContestLevel>)
    ensures r.Some? <==> s in {TIGHT, CONTESTED, OPEN, WIDE_OPEN}
    ensures r.Some? ==> ContestValue(r.value) == s
  {
    if s == TIGHT then Some(Tight)
    else if s == CONTESTED then Some(Contested)
    else if s == OPEN then Some(Open)
    else if s == WIDE_OPEN then Some(WideOpen)
    else None
  }

  /** How a contest string from a request becomes the model's input: a
      missing or empty string gives no level, a string naming a level gives
      that level, and any other string is treated as OPEN. */
  function ContestFromRequest(s: Option<string>): (r: Option<ContestLevel>)
    ensures r.None? <==> !Truthy(s)
    ensures Truthy(s) && s.value in {TIGHT, CONTESTED, OPEN, WIDE_OPEN} ==> ContestValue(r.value) == s.value
    ensures Truthy(s) && s.value !in {TIGHT, CONTESTED, OPEN, WIDE_OPEN} ==> r == Some(Open)
  {
    if !Truthy(s) then None
    else match ContestByValue(s.value)
      case Some(c) => Some(c)
      case None => Some(Open)
  }

  /** Distance decay `clip(1 - 0.35 * exp(-0.25 * d), 0.65, 1.0)`; no
      defender data, or a negative distance, means no penalty. */
  function DistanceDecay(d: Option<real>, exp: real -> real): (r: real)
    ensures 0.65 <= r <= 1.0
    ensures d.None? || d.value < 0.0 ==> r == 1.0
  {
    if d.None? || d.value < 0.0 then 1.0
    else Clip(1.0 - MAX_PENALTY * exp(-DECAY_RATE * d.value), 0.65, 1.0)
  }

  /** With the true exponential, `exp(-0.25 d)` lies in (0, 1] for d >= 0,
      so the clip never binds and the decay is exactly the formula. */
  lemma DecayIsUnclippedFormula(d: real, exp: real -> real)
    requires d >= 0.0
    requires 0.0 < exp(-DECAY_RATE * d) <= 1.0
    ensures DistanceDecay(Some(d), exp) == 1.0 - MAX_PENALTY * exp(-DECAY_RATE * d)
    ensures DistanceDecay(Some(d), exp) < 1.0
  {
    var e := exp(-DECAY_RATE * d);
    assert 0.65 <= 1.0 - MAX_PENALTY * e < 1.0;
  }

  /** For an increasing exponential, the decay is non-decreasing in the
      defender distance: a farther defender never costs more. */
  lemma DecayMonotone(d1: real, d2: real, exp: real -> real)
    requires 0.0 <= d1 <= d2
    requires forall x: real, y: real :: x <= y ==> exp(x) <= exp(y)
    ensures DistanceDecay(Some(d1), exp) <= DistanceDecay(Some(d2), exp)
  {
    assert exp(-DECAY_RATE * d2) <= exp(-DECAY_RATE * d1);
    var u1 := 1.0 - MAX_PENALTY * exp(-DECAY_RATE * d1);
    var u2 := 1.0 - MAX_PENALTY * exp(-DECAY_RATE * d2);
    assert u1 <= u2;
  }

  /** CONTEST_MULTIPLIERS. */
  function MultiplierOf(c: ContestLevel): (r: real)
    ensures 0.85 <= r <= 1.0
    ensures r == 0.85 <==> c == Tight
    ensures r == 0.92 <==> c == Contested
    ensures r == 0.97 <==> c == Open
    ensures r == 1.00 <==> c == WideOpen
  {
    match c
    case Tight => 0.85
    case Contested => 0.92
    case Open => 0.97
    case WideOpen => 1.00
  }

  /** Position of a level from TIGHT (0) to WIDE_OPEN (3). */
  function Openness(c: ContestLevel): nat
  {
    match c
    case Tight => 0
    case Contested => 1
    case Open => 2
    case WideOpen => 3
  }

  /** The multiplier table is monotone from TIGHT to WIDE_OPEN, and strictly so. */
  lemma MultiplierMonotone(a: ContestLevel, b: ContestLevel)
    ensures Openness(a) <= Openness(b) <==> MultiplierOf(a) <= MultiplierOf(b)
  {
  }

  /** `get_contest_multiplier`: a missing level counts as OPEN. */
  function ContestMultiplier(c: Option<ContestLevel>): (r: real)
    ensures 0.85 <= r <= 1.0
    ensures c.None? ==> r == 0.97
    ensures c.Some? ==> r == MultiplierOf(c.value)
  {
    if c.None? then MultiplierOf(Open) else MultiplierOf(c.value)
  }

  datatype Impact = Impact(
    impactFactor: real,
    distanceDecay: real,
    contestMultiplier: real,
    percentageAdjustment: real)

  lemma ProductBounds(a: real, b: real)
    requires 0.65 <= a <= 1.0 && 0.85 <= b <= 1.0
    ensures 0.5525 <= a * b <= 1.0
  {
    assert 0.65 * b <= a * b;
    assert a * b <= 1.0 * b;
  }

  /** `compute_defender_impact`: the combined factor and its display form. */
  function ComputeDefenderImpact(d: Option<real>, c: Option<ContestLevel>, exp: real -> real): (r: Impact)
    ensures r.distanceDecay == DistanceDecay(d, exp)
    ensures r.contestMultiplier == ContestMultiplier(c)
    ensures r.impactFactor == r.distanceDecay * r.contestMultiplier
    ensures 0.5525 <= r.impactFactor <= 1.0
    ensures r.percentageAdjustment == (r.impactFactor - 1.0) * 100.0
    ensures -44.75 <= r.percentageAdjustment <= 0.0
  {
    var decay := DistanceDecay(d, exp);
    var mult := ContestMultiplier(c);
    ProductBounds(decay, mult);
    Impact(decay * mult, decay, mult, (decay * mult - 1.0) * 100.0)
  }

  /** The factor is neutral (1.0) exactly when the decay and the multiplier
      both are, i.e. the level is WIDE_OPEN and the distance adds no penalty. */
  lemma NeutralImpactIff(d: Option<real>, c: Option<ContestLevel>, exp: real -> real)
    ensures ComputeDefenderImpact(d, c, exp).impactFactor == 1.0
        <==> DistanceDecay(d, exp) == 1.0 && c == Some(WideOpen)
  {
    var decay := DistanceDecay(d, exp);
    var mult := ContestMultiplier(c);
    if decay * mult == 1.0 {
      assert decay == 1.0;
      assert mult == 1.0;
    }
  }

  lemma ScaleBounds(base: real, f: real, scaled: real)
    requires 0.5525 <= f <= 1.0 && scaled == base * f
    ensures 0.0 <= base ==> 0.5525 * base <= scaled <= base
    ensures base <= 0.0 ==> scaled <= 0.0
  {
    if 0.0 <= base {
      assert base * f <= base * 1.0;
      assert 0.5525 * base <= base * f;
    } else {
      assert base * f <= 0.0;
    }
  }

  /** `apply_defender_adjustment`: `clip(base * factor, 0, 1)` and the
      breakdown it came from. */
  function ApplyDefenderAdjustment(base: real, d: Option<real>, c: Option<ContestLevel>, exp: real -> real): (r: (real, Impact))
    ensures r.1 == ComputeDefenderImpact(d, c, exp)
    ensures 0.0 <= r.0 <= 1.0
    ensures 0.0 <= base <= 1.0 ==> r.0 == base * r.1.impactFactor
    ensures 0.0 <= base <= 1.0 ==> 0.5525 * base <= r.0 <= base
    ensures base <= 0.0 ==> r.0 == 0.0
  {
    var impact := ComputeDefenderImpact(d, c, exp);
    var f := impact.impactFactor;
    var scaled := base * f;
    ScaleBounds(base, f, scaled);
    (Clip(scaled, 0.0, 1.0), impact)
  }

  /** A probability is left unchanged exactly when the defender has no
      effect: WIDE_OPEN and no distance penalty. */
  lemma UnchangedIff(base: real, d: Option<real>, c: Option<ContestLevel>, exp: real -> real)
    requires 0.0 < base <= 1.0
    ensures ApplyDefenderAdjustment(base, d, c, exp).0 == base
        <==> DistanceDecay(d, exp) == 1.0 && c == Some(WideOpen)
  {
    var f := ComputeDefenderImpact(d, c, exp).impactFactor;
    NeutralImpactIff(d, c, exp);
    if base * f == base {
      assert base * (f - 1.0) == 0.0;
    }
  }

  /** With neither a distance nor a contest level the model still applies the
      OPEN multiplier: the probability is scaled by 0.97, not kept. The
      doc-comment example that expects 0.38 back for 0.38 does not hold. */
  lemma NoDefenderDataScalesByOpen(base: real, exp: real -> real)
    requires 0.0 <= base <= 1.0
    ensures ComputeDefenderImpact(None, None, exp).impactFactor == 0.97
    ensures ApplyDefenderAdjustment(base, None, None, exp).0 == 0.97 * base
    ensures ApplyDefenderAdjustment(0.38, None, None, exp).0 != 0.38
  {
  }

  datatype DistanceBucket = TightCloseout | ContestedRange | OpenLook | WideOpenLook

  /** Qualitative distance bucket of `get_explanation`. */
  function DistanceBucketOf(d: real): (r: DistanceBucket)
    ensures r == TightCloseout <==> d <= 3.0
    ensures r == ContestedRange <==> 3.0 < d <= 6.0
    ensures r == OpenLook <==> 6.0 < d <= 10.0
    ensures r == WideOpenLook <==> 10.0 < d
  {
    if d <= 3.0 then TightCloseout
    else if d <= 6.0 then ContestedRange
    else if d <= 10.0 then OpenLook
    else WideOpenLook
  }

  datatype ContestDescription = ActiveHand | ModeratePressure | LateRotation | NoRealContest | StandardDefense

  /** `contest_descriptions.get(contest_level, "standard defense")`. */
  function ContestDescriptionOf(c: Option<ContestLevel>): (r: ContestDescription)
    ensures r == StandardDefense <==> c.None?
    ensures r == ActiveHand <==> c == Some(Tight)
    ensures r == ModeratePressure <==> c == Some(Contested)
    ensures r == LateRotation <==> c == Some(Open)
    ensures r == NoRealContest <==> c == Some(WideOpen)
  {
    match c
    case None => StandardDefense
    case Some(Tight) => ActiveHand
    case Some(Contested) => ModeratePressure
    case Some(Open) => LateRotation
    case Some(WideOpen) => NoRealContest
  }

  /** The explanation sentence, as the facts it states. */
  datatype DefenderExplanation =
    | NoDefenderData
    | DefenderAt(distance: real, bucket: DistanceBucket, contest: ContestDescription, adjustment: real)

  /** `get_explanation`: the fixed no-data text for a missing distance,
      otherwise the distance, its bucket, the contest description and the
      breakdown's percentage adjustment. */
  function GetExplanation(d: Option<real>, c: Option<ContestLevel>, impact: Impact): (r: DefenderExplanation)
    ensures r.NoDefenderData? <==> d.None?
    ensures r.DefenderAt? ==> r.distance == d.value && r.bucket == DistanceBucketOf(d.value)
    ensures r.DefenderAt? ==> r.contest == ContestDescriptionOf(c)
    ensures r.DefenderAt? ==> r.adjustment == impact.percentageAdjustment
  {
    if d.None? then NoDefenderData
    else DefenderAt(d.value, DistanceBucketOf(d.value), ContestDescriptionOf(c), impact.percentageAdjustment)
  }
}
