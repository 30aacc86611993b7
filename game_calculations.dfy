/**
 * The derived values of the exploration game (src/app/hooks/useGameCalculations.ts):
 * costs, production rates, the current fractal zone, readiness for ascension and
 * transcension, prestige yields, the Julia lab's numbers and the omen shown to
 * the player. The memoisation is left out; Math.hypot enters as `distance`, the
 * distance of the complex parameter from the target.
 */
module GameCalculations {
  import opened Numeric
  import opened GameConfig
  import opened CostFormulas
  import opened ProductionMath

  datatype Upgrades = Upgrades(probe: nat, processor: nat, stabilizer: nat)

  function Owned(upgrades: Upgrades, key: UpgradeKey): nat
  {
    match key
    case Probe => upgrades.probe
    case Processor => upgrades.processor
    case Stabilizer => upgrades.stabilizer
  }

  /** The part of the game state the hook reads. */
  datatype CalcState = CalcState(
    depth: real,
    upgrades: Upgrades,
    ascensionLevel: real,
    amplifiers: nat,
    dimensionalPoints: real,
    resonance: real,
    anomalies: real,
    complexParameter: ComplexParameter,
    expeditionRank: real,
    fractalData: real,
    transcensionLevel: real,
    harmonicCores: real,
    juliaFlux: real,
    juliaDepth: real)

  // ---------------------------------------------------------------------------
  // Zones
  // ---------------------------------------------------------------------------

  predicate Reached(zone: FractalZone, depth: real)
  {
    depth >= zone.requirement
  }

  /** `zones.filter(zone => depth >= zone.requirement)`. */
  function UnlockedZones(zones: seq<FractalZone>, depth: real): (r: seq<FractalZone>)
    ensures |r| <= |zones|
    ensures forall z :: z in r <==> z in zones && Reached(z, depth)
  {
    if |zones| == 0 then []
    else
      var rest := UnlockedZones(zones[..|zones| - 1], depth);
      var last := zones[|zones| - 1];
      assert zones == zones[..|zones| - 1] + [last];
      if Reached(last, depth) then rest + [last] else rest
  }

  /** The last unlocked zone, or the first zone when none is unlocked. */
  function CurrentZone(zones: seq<FractalZone>, depth: real): (z: FractalZone)
    requires |zones| > 0
    ensures z in zones
    ensures Reached(z, depth) || z == zones[0]
  {
    var unlocked := UnlockedZones(zones, depth);
    if |unlocked| > 0 then unlocked[|unlocked| - 1] else zones[0]
  }

  /** The last zone whose requirement is met is the last element of the filtered list. */
  lemma {:induction false} LastReachedEndsUnlocked(zones: seq<FractalZone>, depth: real, i: nat)
    requires i < |zones| && Reached(zones[i], depth)
    requires forall j :: i < j < |zones| ==> !Reached(zones[j], depth)
    ensures var r := UnlockedZones(zones, depth); |r| > 0 && r[|r| - 1] == zones[i]
  {
    var prefix := zones[..|zones| - 1];
    if i < |zones| - 1 {
      assert prefix[i] == zones[i];
      assert forall j :: i < j < |prefix| ==> prefix[j] == zones[j];
      LastReachedEndsUnlocked(prefix, depth, i);
    }
  }

  /** currentZone is the last zone whose requirement the depth meets. */
  lemma CurrentZoneIsLastReached(zones: seq<FractalZone>, depth: real, i: nat)
    requires i < |zones| && Reached(zones[i], depth)
    requires forall j :: i < j < |zones| ==> !Reached(zones[j], depth)
    ensures CurrentZone(zones, depth) == zones[i]
  {
    LastReachedEndsUnlocked(zones, depth, i);
  }

  /** With no zone reached, currentZone falls back to the first zone. */
  lemma CurrentZoneFallsBack(zones: seq<FractalZone>, depth: real)
    requires |zones| > 0
    requires forall j :: 0 <= j < |zones| ==> !Reached(zones[j], depth)
    ensures CurrentZone(zones, depth) == zones[0]
  {
    var unlocked := UnlockedZones(zones, depth);
    if |unlocked| > 0 {
      assert unlocked[0] in unlocked;
    }
  }

  /** The game's zones: depth 5 is in Seahorse Valley, 11 in the Mini-Brot Frontier, 20 in the Hyperbolic Bloom, -1 in the core. */
  lemma CurrentZoneExamples()
    ensures CurrentZone(FractalZones, 5.0).name == "Seahorse Valley"
    ensures CurrentZone(FractalZones, 11.0).name == "Mini-Brot Frontier"
    ensures CurrentZone(FractalZones, 20.0).name == "Hyperbolic Bloom"
    ensures CurrentZone(FractalZones, -1.0).name == "Mandelbrot Core"
  {
    CurrentZoneIsLastReached(FractalZones, 5.0, 1);
    CurrentZoneIsLastReached(FractalZones, 11.0, 3);
    CurrentZoneIsLastReached(FractalZones, 20.0, 4);
    CurrentZoneFallsBack(FractalZones, -1.0);
  }

  // ---------------------------------------------------------------------------
  // Rates, readiness and yields
  // ---------------------------------------------------------------------------

  /** dataPerSecond: nothing without base production, else the product of the three rates. */
  function DataPerSecond(baseProduction: real, productionMultiplier: real, parameterEfficiency: real): (r: real)
    ensures baseProduction <= 0.0 ==> r == 0.0
    ensures baseProduction > 0.0 && productionMultiplier > 0.0 && parameterEfficiency > 0.0 ==> r > 0.0
  {
    if baseProduction <= 0.0 then 0.0
    else
      var r := baseProduction * productionMultiplier * parameterEfficiency;
      assert productionMultiplier > 0.0 && parameterEfficiency > 0.0 ==> r > 0.0 by {
        if productionMultiplier > 0.0 && parameterEfficiency > 0.0 {
          PositiveProduct(baseProduction, productionMultiplier);
          PositiveProduct(baseProduction * productionMultiplier, parameterEfficiency);
        }
      }
      r
  }

  predicate AscendReady(depth: real, fractalData: real)
  {
    depth >= 6.0 && fractalData >= 1200.0
  }

  predicate TranscensionReady(dimensionalPoints: real, depth: real, fractalData: real)
  {
    dimensionalPoints >= 25.0 && AscendReady(depth, fractalData)
  }

  /** ascensionYield: three quarters of depth, data / 400 and processors, rounded down, at least 1. */
  function AscensionYield(depth: real, fractalData: real, processor: nat): (y: int)
    ensures y >= 1
  {
    var depthContribution := Floor(Max(depth, 0.0));
    var dataContribution := Floor(fractalData / 400.0);
    var total := depthContribution + dataContribution + processor;
    MaxInt(1, Floor(total as real * 0.75))
  }

  /** transcensionYield: 60% of ascension level, ascension yield and a quarter of depth, at least 1. */
  function TranscensionYield(ascensionLevel: real, ascensionYield: int, depth: real): (y: int)
    ensures y >= 1
  {
    var combined := ascensionLevel + ascensionYield as real + depth * 0.25;
    MaxInt(1, Floor(combined * 0.6))
  }

  /** amplifierCost: floor(3 * 2.4^amplifiers). */
  function AmplifierCost(amplifiers: nat): int
  {
    Floor(3.0 * Pow(2.4, amplifiers))
  }

  function JuliaStudyCost(juliaDepth: real, harmonicCores: real): int
  {
    Floor(420.0 + juliaDepth * 140.0 + harmonicCores * 120.0)
  }

  /** juliaFluxGain: at least 1. */
  function JuliaFluxGain(harmonicCores: real, juliaDepth: real, resonance: real): (g: int)
    ensures g >= 1
  {
    MaxInt(1, Floor(harmonicCores * 2.0 + juliaDepth * 1.25 + resonance * 0.6))
  }

  function JuliaBonusMultiplier(harmonicCores: real, juliaFlux: real, transcensionLevel: real): real
  {
    1.0 + harmonicCores * 0.25 + juliaFlux * 0.04 + transcensionLevel * 0.15
  }

  /** The four omen messages. */
  datatype Omen = AnomalyWarning | CosmicChoir | FrontierStorms | IdleSensors

  /** omenMessage: anomalies first, then resonance, then a deep zone, else the idle message. */
  function OmenOf(anomalies: real, resonance: real, zone: FractalZone): (o: Omen)
    ensures o == AnomalyWarning <==> anomalies >= 4.0
    ensures o == CosmicChoir <==> anomalies < 4.0 && resonance >= 18.0
    ensures o == FrontierStorms <==> anomalies < 4.0 && resonance < 18.0 && zone.requirement >= 10.0
    ensures o == IdleSensors <==> anomalies < 4.0 && resonance < 18.0 && zone.requirement < 10.0
  {
    if anomalies >= 4.0 then AnomalyWarning
    else if resonance >= 18.0 then CosmicChoir
    else if zone.requirement >= 10.0 then FrontierStorms
    else IdleSensors
  }

  // ---------------------------------------------------------------------------
  // The hook
  // ---------------------------------------------------------------------------

  /** What useGameCalculations returns (the formatted efficiency string left out). */
  datatype Derived = Derived(
    zoomCost: int,
    productionMultiplier: real,
    parameterEfficiency: real,
    baseProduction: real,
    dataPerSecond: real,
    effectiveDataPerSecond: real,
    unlockedZones: seq<FractalZone>,
    currentZone: FractalZone,
    zoneBonus: real,
    passiveDepthGain: real,
    expeditionCost: int,
    expeditionPreview: int,
    stabiliseCost: int,
    ascendReady: bool,
    ascensionYield: int,
    transcensionReady: bool,
    transcensionYield: int,
    amplifierCost: int,
    juliaStudyCost: int,
    juliaFluxGain: int,
    juliaBonusMultiplier: real,
    omen: Omen)

  function MultiplierParamsOf(state: CalcState): MultiplierParams
  {
    MultiplierParams(state.ascensionLevel, state.amplifiers as real, state.depth, state.dimensionalPoints,
                     state.resonance, state.anomalies, state.transcensionLevel, state.harmonicCores, state.juliaFlux)
  }

  /** `upgradeCost(key)`: the cost of the next copy of an upgrade. */
  function NextUpgradeCost(state: CalcState, key: UpgradeKey): (c: int)
    ensures c >= 0
  {
    UpgradeCostMonotone(key, Owned(state.upgrades, key), Owned(state.upgrades, key));
    UpgradeCost(key, Owned(state.upgrades, key))
  }

  /** The body of useGameCalculations. */
  function Calculate(state: CalcState, distance: real): (d: Derived)
    ensures d.ascendReady <==> state.depth >= 6.0 && state.fractalData >= 1200.0
    ensures d.transcensionReady <==> d.ascendReady && state.dimensionalPoints >= 25.0
    ensures d.ascensionYield >= 1 && d.transcensionYield >= 1 && d.juliaFluxGain >= 1
    ensures d.baseProduction <= 0.0 ==> d.dataPerSecond == 0.0 && d.effectiveDataPerSecond == 0.0
    ensures d.currentZone in FractalZones && (Reached(d.currentZone, state.depth) || d.currentZone == FractalZones[0])
    ensures d.effectiveDataPerSecond == d.dataPerSecond * (1.0 + d.currentZone.bonus)
    ensures 0.65 <= d.parameterEfficiency
    ensures distance >= 0.0 ==> d.parameterEfficiency <= 1.45
  {
    var nextDepthLevel := Floor(state.depth) + 1;
    var productionMultiplier := ProductionMultiplier(MultiplierParamsOf(state));
    var parameterEfficiency := ParameterEfficiency(distance);
    var upgrades := state.upgrades;
    var baseProduction := BaseProduction(upgrades.probe as real, upgrades.processor as real, upgrades.stabilizer as real);
    var dataPerSecond := DataPerSecond(baseProduction, productionMultiplier, parameterEfficiency);
    var unlockedZones := UnlockedZones(FractalZones, state.depth);
    var currentZone := CurrentZone(FractalZones, state.depth);
    var zoneBonus := ZoneBonus(currentZone.bonus);
    var ascendReady := AscendReady(state.depth, state.fractalData);
    var ascensionYield := AscensionYield(state.depth, state.fractalData, upgrades.processor);
    Derived(
      ZoomCost(nextDepthLevel),
      productionMultiplier,
      parameterEfficiency,
      baseProduction,
      dataPerSecond,
      dataPerSecond * zoneBonus,
      unlockedZones,
      currentZone,
      zoneBonus,
      PassiveDepthGain(upgrades.stabilizer as real, state.resonance, parameterEfficiency),
      ExpeditionCost(state.depth, state.ascensionLevel, state.expeditionRank),
      ExpeditionPreview(state.depth, state.resonance, state.ascensionLevel),
      StabiliseCost(state.anomalies, state.ascensionLevel),
      ascendReady,
      ascensionYield,
      TranscensionReady(state.dimensionalPoints, state.depth, state.fractalData),
      TranscensionYield(state.ascensionLevel, ascensionYield, state.depth),
      AmplifierCost(state.amplifiers),
      JuliaStudyCost(state.juliaDepth, state.harmonicCores),
      JuliaFluxGain(state.harmonicCores, state.juliaDepth, state.resonance),
      JuliaBonusMultiplier(state.harmonicCores, state.juliaFlux, state.transcensionLevel),
      OmenOf(state.anomalies, state.resonance, currentZone))
  }

  // ---------------------------------------------------------------------------
  // Properties
  // ---------------------------------------------------------------------------

  /** The frontier omen needs a zone with requirement at least 10, so a depth of at least 11. */
  lemma FrontierOmenNeedsDepth(state: CalcState, distance: real)
    requires Calculate(state, distance).omen == FrontierStorms
    ensures state.depth >= 11.0 && state.anomalies < 4.0 && state.resonance < 18.0
  {
    var zone := CurrentZone(FractalZones, state.depth);
    assert zone.requirement >= 10.0;
    assert zone != FractalZones[0];
    assert zone in FractalZones;
  }

  /** Amplifiers cost 3, then 7 (7.2), then 17 (17.28), and each costs at least as much as the one before. */
  lemma AmplifierCostGrows(a1: nat, a2: nat)
    requires a1 <= a2
    ensures 0 <= AmplifierCost(a1) <= AmplifierCost(a2)
    ensures AmplifierCost(0) == 3 && AmplifierCost(1) == 7 && AmplifierCost(2) == 17
  {
    PowAtLeastOne(2.4, a1);
    PowMonotone(2.4, a1, a2);
    ScaleUp(3.0, Pow(2.4, a1), Pow(2.4, a2));
    FloorMonotone(0.0, 3.0 * Pow(2.4, a1));
    FloorMonotone(3.0 * Pow(2.4, a1), 3.0 * Pow(2.4, a2));
  }

  /** A fresh game yields one ascension point; 6 depth, 1200 data and 2 processors yield floor(0.75 * 11) = 8. */
  lemma AscensionYieldExamples()
    ensures AscensionYield(0.0, 0.0, 0) == 1
    ensures AscensionYield(6.0, 1200.0, 2) == 8
    ensures AscensionYield(-3.0, 0.0, 4) == 3
  {
  }

  /** Ascension yield never falls when depth, data or processors grow. */
  lemma AscensionYieldMonotone(d1: real, f1: real, p1: nat, d2: real, f2: real, p2: nat)
    requires d1 <= d2 && f1 <= f2 && p1 <= p2
    ensures AscensionYield(d1, f1, p1) <= AscensionYield(d2, f2, p2)
  {
    FloorMonotone(Max(d1, 0.0), Max(d2, 0.0));
    FloorMonotone(f1 / 400.0, f2 / 400.0);
    var t1 := Floor(Max(d1, 0.0)) + Floor(f1 / 400.0) + p1;
    var t2 := Floor(Max(d2, 0.0)) + Floor(f2 / 400.0) + p2;
    FloorMonotone(t1 as real * 0.75, t2 as real * 0.75);
  }

  /** The Julia lab starts at a study cost of 420 and a bonus of 1; both grow with cores, depth and flux. */
  lemma JuliaLabGrows(depth1: real, cores1: real, flux1: real, depth2: real, cores2: real, flux2: real, level: real)
    requires depth1 <= depth2 && cores1 <= cores2 && flux1 <= flux2
    ensures JuliaStudyCost(0.0, 0.0) == 420 && JuliaBonusMultiplier(0.0, 0.0, 0.0) == 1.0
    ensures JuliaStudyCost(depth1, cores1) <= JuliaStudyCost(depth2, cores2)
    ensures JuliaBonusMultiplier(cores1, flux1, level) <= JuliaBonusMultiplier(cores2, flux2, level)
    ensures JuliaFluxGain(cores1, depth1, 0.0) <= JuliaFluxGain(cores2, depth2, 0.0)
  {
    FloorMonotone(420.0 + depth1 * 140.0 + cores1 * 120.0, 420.0 + depth2 * 140.0 + cores2 * 120.0);
    FloorMonotone(cores1 * 2.0 + depth1 * 1.25 + 0.0 * 0.6, cores2 * 2.0 + depth2 * 1.25 + 0.0 * 0.6);
  }
}
