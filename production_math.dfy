/**
 * Production rates of the exploration game (src/lib/gameplay/productionMath.ts):
 * the combined multiplier of seven bonus factors, the efficiency of the complex
 * parameter, base production from upgrades, passive depth gain and the zone
 * bonus. Math.hypot enters as its result `distance`; the lemmas that need it
 * take `distance >= 0 && distance * distance == dx * dx + dy * dy` as a
 * hypothesis.
 */
module ProductionMath {
  import opened Numeric
  import opened GameConfig

  /** The inputs of calculateProductionMultiplier. */
  datatype MultiplierParams = MultiplierParams(
    ascensionLevel: real,
    amplifiers: real,
    depth: real,
    dimensionalPoints: real,
    resonance: real,
    anomalies: real,
    transcensionLevel: real,
    harmonicCores: real,
    juliaFlux: real)

  /** The anomaly penalty: 3% per anomaly, never below 0.6. */
  function AnomalyPenalty(anomalies: real): (p: real)
    ensures p >= 0.6
    ensures anomalies >= 0.0 ==> p <= 1.0
    ensures anomalies * 0.03 <= 0.4 ==> p == 1.0 - anomalies * 0.03
  {
    Max(0.6, 1.0 - anomalies * 0.03)
  }

  /** calculateProductionMultiplier: the product of the seven factors, in the source's order. */
  function ProductionMultiplier(p: MultiplierParams): real
  {
    var ascensionBonus := 1.0 + p.ascensionLevel * 0.25 + p.amplifiers * 0.35;
    var depthBonus := 1.0 + Floor(p.depth) as real * 0.05;
    var dimensionalBonus := 1.0 + p.dimensionalPoints * 0.02;
    var resonanceBonus := 1.0 + p.resonance * 0.015;
    var anomalyPenalty := AnomalyPenalty(p.anomalies);
    var transcendenceBonus := 1.0 + p.transcensionLevel * 0.5 + p.harmonicCores * 0.25;
    var juliaFluxBonus := 1.0 + p.juliaFlux * 0.04;
    ascensionBonus * depthBonus * dimensionalBonus * resonanceBonus * anomalyPenalty * transcendenceBonus * juliaFluxBonus
  }

  /** calculateParameterEfficiency: 1.45 at the target, 1.1 less per unit of distance, at least 0.65. */
  function ParameterEfficiency(distance: real): (e: real)
    ensures 0.65 <= e
    ensures distance >= 0.0 ==> e <= 1.45
    ensures distance * 1.1 <= 0.8 ==> e == 1.45 - distance * 1.1
  {
    Max(0.65, 1.45 - distance * 1.1)
  }

  /** What Math.hypot(dx, dy) returns: the non-negative square root of dx^2 + dy^2. */
  predicate IsHypot(distance: real, current: ComplexParameter, target: ComplexParameter)
  {
    var dx := current.re - target.re;
    var dy := current.im - target.im;
    distance >= 0.0 && distance * distance == dx * dx + dy * dy
  }

  /** calculateBaseProduction. */
  function BaseProduction(probe: real, processor: real, stabilizer: real): real
  {
    probe * 0.9 + processor * 3.5 + stabilizer * 1.6
  }

  /** The resonance assist of the passive depth gain: 2% per resonance, capped at 60%. */
  function ResonanceAssist(resonance: real): (a: real)
    ensures a <= 1.6
    ensures resonance >= 0.0 ==> 1.0 <= a
    ensures resonance * 0.02 <= 0.6 ==> a == 1.0 + resonance * 0.02
  {
    1.0 + Min(resonance * 0.02, 0.6)
  }

  /** calculatePassiveDepthGain: nothing without stabilizers. */
  function PassiveDepthGain(stabilizerCount: real, resonance: real, parameterEfficiency: real): real
  {
    if stabilizerCount <= 0.0 then 0.0
    else (0.06 + stabilizerCount * 0.025) * parameterEfficiency * ResonanceAssist(resonance)
  }

  /** calculateZoneBonus. */
  function ZoneBonus(zoneBonus: real): (m: real)
    ensures m - zoneBonus == 1.0
  {
    1.0 + zoneBonus
  }

  // ---------------------------------------------------------------------------
  // Properties
  // ---------------------------------------------------------------------------

  /** With every input zero all seven factors are 1, and so is their product. */
  lemma NeutralMultiplier()
    ensures ProductionMultiplier(MultiplierParams(0.0, 0.0, 0.0, 0.0, 0.0, 0.0, 0.0, 0.0, 0.0)) == 1.0
  {
  }

  /** From 40/3 anomalies on the penalty stays at its floor 0.6. */
  lemma PenaltyFloor(anomalies: real)
    requires anomalies * 0.03 >= 0.4
    ensures AnomalyPenalty(anomalies) == 0.6
  {
  }

  /**
   * With non-negative inputs every bonus is at least 1, so the multiplier is
   * at least the anomaly penalty's floor 0.6; without anomalies it is at least 1.
   */
  lemma MultiplierLowerBound(p: MultiplierParams)
    requires p.ascensionLevel >= 0.0 && p.amplifiers >= 0.0 && p.depth >= 0.0 && p.dimensionalPoints >= 0.0
    requires p.resonance >= 0.0 && p.anomalies >= 0.0 && p.transcensionLevel >= 0.0 && p.harmonicCores >= 0.0
    requires p.juliaFlux >= 0.0
    ensures ProductionMultiplier(p) >= 0.6
    ensures p.anomalies == 0.0 ==> ProductionMultiplier(p) >= 1.0
  {
    var ascensionBonus := 1.0 + p.ascensionLevel * 0.25 + p.amplifiers * 0.35;
    var depthBonus := 1.0 + Floor(p.depth) as real * 0.05;
    var dimensionalBonus := 1.0 + p.dimensionalPoints * 0.02;
    var resonanceBonus := 1.0 + p.resonance * 0.015;
    var anomalyPenalty := AnomalyPenalty(p.anomalies);
    var transcendenceBonus := 1.0 + p.transcensionLevel * 0.5 + p.harmonicCores * 0.25;
    var juliaFluxBonus := 1.0 + p.juliaFlux * 0.04;
    FloorMonotone(0.0, p.depth);
    FactorsBound(ascensionBonus, depthBonus, dimensionalBonus, resonanceBonus, anomalyPenalty,
                 transcendenceBonus, juliaFluxBonus);
  }

  /** Six factors of at least 1 and one penalty of at least 0.6 multiply to at least 0.6. */
  lemma FactorsBound(a: real, b: real, c: real, d: real, penalty: real, e: real, f: real)
    requires a >= 1.0 && b >= 1.0 && c >= 1.0 && d >= 1.0 && e >= 1.0 && f >= 1.0 && penalty >= 0.6
    ensures a * b * c * d * penalty * e * f >= 0.6
    ensures penalty == 1.0 ==> a * b * c * d * penalty * e * f >= 1.0
  {
    GrowsBy(a, b);
    GrowsBy(a * b, c);
    GrowsBy(a * b * c, d);
    AtLeastPenalty(a * b * c * d, penalty);
    GrowsBy(a * b * c * d * penalty, e);
    GrowsBy(a * b * c * d * penalty * e, f);
  }

  /** Multiplying by a factor of at least 1 keeps a non-negative value at least as large. */
  lemma GrowsBy(x: real, f: real)
    requires x >= 0.0 && f >= 1.0
    ensures x * f >= x
  {
    assert x * f - x == x * (f - 1.0);
  }

  /** A value of at least 1 times a penalty in [0.6, 1] is at least the penalty, and itself when the penalty is 1. */
  lemma AtLeastPenalty(x: real, penalty: real)
    requires x >= 1.0 && penalty >= 0.6
    ensures x * penalty >= 0.6
    ensures penalty == 1.0 ==> x * penalty >= 1.0
  {
    assert x * penalty - penalty == (x - 1.0) * penalty;
  }

  /** At the target the distance is 0 and the efficiency its maximum 1.45. */
  lemma FullEfficiencyAtTarget(distance: real, target: ComplexParameter)
    requires IsHypot(distance, target, target)
    ensures ParameterEfficiency(distance) == 1.45
  {
    ZeroSquare(distance);
  }

  lemma ZeroSquare(d: real)
    requires d >= 0.0 && d * d == 0.0
    ensures d == 0.0
  {
    if d > 0.0 {
      SquaresOrdered(0.0, d);
    }
  }

  /** Efficiency falls as the parameter moves away from the target. */
  lemma EfficiencyDecreasing(d1: real, d2: real)
    requires d1 <= d2
    ensures ParameterEfficiency(d2) <= ParameterEfficiency(d1)
  {
  }

  /**
   * At the origin the distance to the target is about 0.758, beyond the 8/11
   * where the efficiency reaches its floor 0.65.
   */
  lemma OriginAtFloor(distance: real)
    requires IsHypot(distance, ComplexParameter(0.0, 0.0), DimensionalTarget)
    ensures ParameterEfficiency(distance) == 0.65
  {
    if distance * 1.1 < 0.8 {
      SquaresOrdered(distance, 0.8 / 1.1);
    }
  }

  /** Squaring preserves the order of non-negative numbers, strictly for distinct ones. */
  lemma SquaresOrdered(d: real, c: real)
    requires 0.0 <= d <= c
    ensures d * d <= c * c
    ensures d < c ==> d * d < c * c
  {
    assert c * c - d * d == (c - d) * (c + d);
    if d < c {
      PositiveProduct(c - d, c + d);
    }
  }

  /** Base production is 0 without upgrades, 0.9 per probe, and 18.2 for 5, 3 and 2. */
  lemma BaseProductionExamples()
    ensures BaseProduction(0.0, 0.0, 0.0) == 0.0
    ensures BaseProduction(10.0, 0.0, 0.0) == 9.0
    ensures BaseProduction(5.0, 3.0, 2.0) == 18.2
  {
  }

  /** Base production is non-negative and grows with every upgrade count. */
  lemma BaseProductionMonotone(a1: real, b1: real, c1: real, a2: real, b2: real, c2: real)
    requires 0.0 <= a1 <= a2 && 0.0 <= b1 <= b2 && 0.0 <= c1 <= c2
    ensures 0.0 <= BaseProduction(a1, b1, c1) <= BaseProduction(a2, b2, c2)
  {
  }

  /** No stabilizers, no passive depth gain; and 0.16 * assist for four stabilizers at full efficiency. */
  lemma PassiveDepthGainExamples(resonance: real, efficiency: real, stabilizers: real)
    requires stabilizers <= 0.0
    ensures PassiveDepthGain(stabilizers, resonance, efficiency) == 0.0
    ensures PassiveDepthGain(4.0, 0.0, 1.0) == 0.16
    ensures PassiveDepthGain(4.0, 20.0, 1.0) == 0.224
    ensures PassiveDepthGain(4.0, 100.0, 1.0) == 0.256
  {
  }

  /** The assist is capped: from 30 resonance on, more resonance adds no depth. */
  lemma PassiveDepthGainCapped(stabilizers: real, r1: real, r2: real, efficiency: real)
    requires 30.0 <= r1 <= r2
    ensures PassiveDepthGain(stabilizers, r1, efficiency) == PassiveDepthGain(stabilizers, r2, efficiency)
    ensures ResonanceAssist(r1) == 1.6
  {
  }

  /** With stabilizers, non-negative resonance and a positive efficiency the gain is positive. */
  lemma PassiveDepthGainPositive(stabilizers: real, resonance: real, efficiency: real)
    requires stabilizers > 0.0 && resonance >= 0.0 && efficiency > 0.0
    ensures PassiveDepthGain(stabilizers, resonance, efficiency) > 0.0
  {
    var base := 0.06 + stabilizers * 0.025;
    PositiveProduct(base, efficiency);
    PositiveProduct(base * efficiency, ResonanceAssist(resonance));
  }

  lemma PositiveProduct(a: real, b: real)
    requires a > 0.0 && b > 0.0
    ensures a * b > 0.0
  {
  }

  /** Every zone's bonus multiplier is at least 1, from 1 in the core to 1.45 in the Hyperbolic Bloom. */
  lemma ZoneBonusesAtLeastOne()
    ensures forall i :: 0 <= i < |FractalZones| ==> 1.0 <= ZoneBonus(FractalZones[i].bonus) <= 1.45
    ensures ZoneBonus(FractalZones[0].bonus) == 1.0 && ZoneBonus(FractalZones[4].bonus) == 1.45
  {
  }
}
