/**
 * Static configuration of the exploration game (src/data/gameConfig.ts):
 * the three upgrades with their base costs and growth factors, the five
 * fractal zones with their depth requirements and bonuses, and the target
 * point of the complex parameter. Titles, descriptions and flavour texts are
 * display strings and are left out; a zone keeps its name.
 */
module GameConfig {
  datatype UpgradeKey = Probe | Processor | Stabilizer

  datatype UpgradeConfig = UpgradeConfig(baseCost: real, growth: real)

  /** UPGRADE_CONFIG. */
  function UpgradeConfigOf(key: UpgradeKey): (c: UpgradeConfig)
    ensures c.baseCost > 0.0 && c.growth > 1.0
  {
    match key
    case Probe => UpgradeConfig(35.0, 1.45)
    case Processor => UpgradeConfig(120.0, 1.6)
    case Stabilizer => UpgradeConfig(220.0, 1.55)
  }

  datatype FractalZone = FractalZone(name: string, requirement: real, bonus: real)

  /** FRACTAL_ZONES, in order of increasing depth requirement. */
  const FractalZones: seq<FractalZone> := [
    FractalZone("Mandelbrot Core", 0.0, 0.0),
    FractalZone("Seahorse Valley", 4.0, 0.08),
    FractalZone("Spiral Nebula", 7.0, 0.18),
    FractalZone("Mini-Brot Frontier", 11.0, 0.3),
    FractalZone("Hyperbolic Bloom", 15.0, 0.45)
  ]

  /** A point of the complex plane: real part `re`, imaginary part `im`. */
  datatype ComplexParameter = ComplexParameter(re: real, im: real)

  /** DIMENSIONAL_TARGET. */
  const DimensionalTarget: ComplexParameter := ComplexParameter(-0.75, 0.11)

  /** The zones are listed with strictly increasing requirements and non-decreasing bonuses, starting at depth 0. */
  lemma ZonesOrdered()
    ensures |FractalZones| == 5 && FractalZones[0].requirement == 0.0 && FractalZones[0].bonus == 0.0
    ensures forall i, j :: 0 <= i < j < |FractalZones| ==>
              FractalZones[i].requirement < FractalZones[j].requirement && FractalZones[i].bonus <= FractalZones[j].bonus
  {
  }
}
