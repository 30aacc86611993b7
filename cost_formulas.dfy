/**
 * The cost formulas of the exploration game (src/lib/gameplay/costFormulas.ts):
 * exponential upgrade and zoom costs and three linear costs, each rounded
 * down. Owned counts are whole and non-negative; the zoom level is any whole
 * number.
 */
module CostFormulas {
  import opened Numeric
  import opened GameConfig

  /** calculateUpgradeCost: floor(baseCost * growth^owned). */
  function UpgradeCost(key: UpgradeKey, owned: nat): int
  {
    var config := UpgradeConfigOf(key);
    Floor(config.baseCost * Pow(config.growth, owned))
  }

  /** calculateZoomCost: floor(18 * 1.55^level). */
  function ZoomCost(nextDepthLevel: int): int
  {
    Floor(18.0 * PowInt(1.55, nextDepthLevel))
  }

  /** calculateExpeditionCost. */
  function ExpeditionCost(depth: real, ascensionLevel: real, expeditionRank: real): int
  {
    Floor(90.0 + depth * 25.0 + ascensionLevel * 35.0 + expeditionRank * 20.0)
  }

  /** calculateExpeditionPreview: the Dimensional Points an expedition is expected to bring. */
  function ExpeditionPreview(depth: real, resonance: real, ascensionLevel: real): int
  {
    Floor(6.0 + depth * 0.6 + resonance * 0.3 + ascensionLevel * 1.5)
  }

  /** calculateStabiliseCost. */
  function StabiliseCost(anomalies: real, ascensionLevel: real): int
  {
    Floor(24.0 + anomalies * 9.0 + ascensionLevel * 6.0)
  }

  // ---------------------------------------------------------------------------
  // Properties
  // ---------------------------------------------------------------------------

  /** With nothing owned an upgrade costs its base cost. */
  lemma FirstUpgradeCostsBase(key: UpgradeKey)
    ensures UpgradeCost(key, 0) as real == UpgradeConfigOf(key).baseCost
    ensures UpgradeCost(Probe, 0) == 35 && UpgradeCost(Processor, 0) == 120 && UpgradeCost(Stabilizer, 0) == 220
  {
  }

  /** The next copies: 35 * 1.45 = 50.75, 35 * 1.45^2 = 73.5875, 120 * 1.6 = 192, 220 * 1.55 = 341. */
  lemma UpgradeCostExamples()
    ensures UpgradeCost(Probe, 1) == 50 && UpgradeCost(Probe, 2) == 73
    ensures UpgradeCost(Processor, 1) == 192 && UpgradeCost(Stabilizer, 1) == 341
  {
  }

  /** Each further copy costs at least as much as the one before, and no cost is negative. */
  lemma UpgradeCostMonotone(key: UpgradeKey, owned1: nat, owned2: nat)
    requires owned1 <= owned2
    ensures 0 <= UpgradeCost(key, owned1) <= UpgradeCost(key, owned2)
  {
    var config := UpgradeConfigOf(key);
    PowAtLeastOne(config.growth, owned1);
    PowMonotone(config.growth, owned1, owned2);
    ScaleUp(config.baseCost, Pow(config.growth, owned1), Pow(config.growth, owned2));
    FloorMonotone(0.0, config.baseCost * Pow(config.growth, owned1));
    FloorMonotone(config.baseCost * Pow(config.growth, owned1), config.baseCost * Pow(config.growth, owned2));
  }

  /** a * x <= a * y for a >= 0 and x <= y, and a * x >= 0 when x >= 0. */
  lemma ScaleUp(a: real, x: real, y: real)
    requires a >= 0.0 && 0.0 <= x <= y
    ensures 0.0 <= a * x <= a * y
  {
    assert a * y - a * x == a * (y - x);
  }

  /** 18 * 1.55 = 27.9, 18 * 1.55^2 = 43.245, 18 * 1.55^5 = 161.3...: zoom levels 1, 2 and 5. */
  lemma ZoomCostExamples()
    ensures ZoomCost(1) == 27 && ZoomCost(2) == 43 && ZoomCost(5) == 161
  {
    assert PowInt(1.55, 5) == Pow(1.55, 5);
  }

  /** Zooming deeper never gets cheaper. */
  lemma ZoomCostMonotone(level1: nat, level2: nat)
    requires level1 <= level2
    ensures 0 <= ZoomCost(level1) <= ZoomCost(level2)
  {
    PowAtLeastOne(1.55, level1);
    PowMonotone(1.55, level1, level2);
    ScaleUp(18.0, Pow(1.55, level1), Pow(1.55, level2));
    FloorMonotone(0.0, 18.0 * Pow(1.55, level1));
    FloorMonotone(18.0 * Pow(1.55, level1), 18.0 * Pow(1.55, level2));
  }

  /** The three linear costs at the points the formulas are documented with. */
  lemma LinearCostExamples()
    ensures ExpeditionCost(0.0, 0.0, 0.0) == 90 && ExpeditionCost(5.0, 2.0, 1.0) == 305 && ExpeditionCost(10.0, 5.0, 3.0) == 575
    ensures ExpeditionPreview(0.0, 0.0, 0.0) == 6 && ExpeditionPreview(10.0, 5.0, 2.0) == 16 && ExpeditionPreview(20.0, 10.0, 5.0) == 28
    ensures StabiliseCost(0.0, 0.0) == 24 && StabiliseCost(3.0, 2.0) == 63 && StabiliseCost(5.0, 5.0) == 99
  {
  }

  /** For whole arguments the linear costs are exact: the floor removes nothing. */
  lemma WholeArgumentsExact(d: int, a: int, r: int, n: int)
    ensures ExpeditionCost(d as real, a as real, r as real) == 90 + 25 * d + 35 * a + 20 * r
    ensures StabiliseCost(n as real, a as real) == 24 + 9 * n + 6 * a
  {
    assert 90.0 + d as real * 25.0 + a as real * 35.0 + r as real * 20.0 == (90 + 25 * d + 35 * a + 20 * r) as real;
    assert 24.0 + n as real * 9.0 + a as real * 6.0 == (24 + 9 * n + 6 * a) as real;
  }

  /** Every linear cost is non-decreasing in each of its arguments. */
  lemma LinearCostsMonotone(d1: real, a1: real, r1: real, d2: real, a2: real, r2: real)
    requires d1 <= d2 && a1 <= a2 && r1 <= r2
    ensures ExpeditionCost(d1, a1, r1) <= ExpeditionCost(d2, a2, r2)
    ensures ExpeditionPreview(d1, r1, a1) <= ExpeditionPreview(d2, r2, a2)
    ensures StabiliseCost(d1, a1) <= StabiliseCost(d2, a2)
  {
    FloorMonotone(90.0 + d1 * 25.0 + a1 * 35.0 + r1 * 20.0, 90.0 + d2 * 25.0 + a2 * 35.0 + r2 * 20.0);
    FloorMonotone(6.0 + d1 * 0.6 + r1 * 0.3 + a1 * 1.5, 6.0 + d2 * 0.6 + r2 * 0.3 + a2 * 1.5);
    FloorMonotone(24.0 + d1 * 9.0 + a1 * 6.0, 24.0 + d2 * 9.0 + a2 * 6.0);
  }
}
