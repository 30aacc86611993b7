/**
 * The growth game's tables and formulas (src/lib/gameData.ts): seasons and
 * their multipliers, the rule library, the seed upgrades, the season-scaled
 * costs and the harvest yield.
 */
module GameData {
  import opened Numeric

  datatype Option<T> = None | Some(value: T)

  // ---------------------------------------------------------------------------
  // Seasons
  // ---------------------------------------------------------------------------

  datatype Season = Spring | Summer | Autumn | Winter

  /** SEASON_ORDER: the cycle the game walks through. */
  const SeasonOrder: seq<Season> := [Spring, Summer, Autumn, Winter]

  /** Production rate multiplier of each season. */
  function RateMultiplier(s: Season): real
  {
    match s
    case Spring => 1.15
    case Summer => 1.0
    case Autumn => 0.7
    case Winter => 0.1
  }

  /** Cost multiplier of each season. */
  function CostMultiplier(s: Season): (m: real)
    ensures m >= 0.75
  {
    match s
    case Spring => 0.75
    case Summer => 1.25
    case Autumn => 1.1
    case Winter => 1.6
  }

  /** SEASON_ORDER.indexOf(s): every season occurs, exactly once. */
  function SeasonIndex(s: Season): (i: nat)
    ensures i < |SeasonOrder| && SeasonOrder[i] == s
    ensures forall j :: 0 <= j < |SeasonOrder| && SeasonOrder[j] == s ==> j == i
  {
    match s
    case Spring => 0
    case Summer => 1
    case Autumn => 2
    case Winter => 3
  }

  /** The season after s: the next entry of SEASON_ORDER, wrapping round. */
  function NextSeason(s: Season): Season
  {
    SeasonOrder[(SeasonIndex(s) + 1) % |SeasonOrder|]
  }

  /** Spring, summer, autumn, winter, and back to spring. */
  lemma SeasonCycle()
    ensures NextSeason(Spring) == Summer && NextSeason(Summer) == Autumn
    ensures NextSeason(Autumn) == Winter && NextSeason(Winter) == Spring
  {
  }

  /** Four steps bring every season back to itself; fewer never do. */
  lemma SeasonPeriod(s: Season)
    ensures NextSeason(NextSeason(NextSeason(NextSeason(s)))) == s
    ensures NextSeason(s) != s && NextSeason(NextSeason(s)) != s && NextSeason(NextSeason(NextSeason(s))) != s
  {
  }

  // ---------------------------------------------------------------------------
  // Constants and tables
  // ---------------------------------------------------------------------------

  const MaxIterations: int := 7
  const BaseWidth: real := 0.08
  const WidthStep: real := 0.02
  const BaseStep: real := 0.9

  datatype Geometry = Cylinder | Cone | Box | Tetra

  /** The cost of a rule; an absent resource costs nothing. */
  datatype RuleCost = RuleCost(photosynthesis: Option<real>, sap: Option<real>, seeds: Option<real>)

  /** A rule of the library; `requiresPitch`/`requiresRoll` stand for `requires?.pitch`/`requires?.roll`. */
  datatype RuleDefinition = RuleDefinition(
    id: string,
    symbol: string,
    replacement: string,
    cost: RuleCost,
    requiresPitch: bool,
    requiresRoll: bool)

  const NoCost: RuleCost := RuleCost(None, None, None)

  /** RULE_LIBRARY (names and descriptions left out). */
  const RuleLibrary: seq<RuleDefinition> := [
    RuleDefinition("stem", "F", "F", NoCost, false, false),
    RuleDefinition("sprout", "X", "F[+X][-X]", NoCost, false, false),
    RuleDefinition("stretch", "F", "FF", RuleCost(None, Some(60.0), None), false, false),
    RuleDefinition("thicket", "F", "F[+F]F[-F]F", RuleCost(None, Some(140.0), None), false, false),
    RuleDefinition("crown", "X", "F[+X]F[-X]+X", RuleCost(Some(80.0), None, None), false, false),
    RuleDefinition("fern", "X", "F-[[X]+X]+F[+FX]-X", RuleCost(Some(140.0), None, None), false, false),
    RuleDefinition("whorl", "X", "F[+X][-X]&X", RuleCost(Some(180.0), None, None), true, false),
    RuleDefinition("spiral", "X", "F[+X][-X]/X", RuleCost(Some(220.0), None, None), false, true)
  ]

  /** A seed upgrade of SEED_UPGRADES (names and descriptions left out). */
  datatype SeedUpgrade = SeedUpgrade(id: string, cost: real)

  const SeedUpgrades: seq<SeedUpgrade> := [
    SeedUpgrade("pitch", 12.0),
    SeedUpgrade("roll", 14.0),
    SeedUpgrade("autoTuner", 16.0),
    SeedUpgrade("geometry_cone", 10.0),
    SeedUpgrade("geometry_box", 14.0),
    SeedUpgrade("geometry_tetra", 18.0)
  ]

  /** `RULE_LIBRARY.find(entry => entry.id === id)`: the first rule with that id. */
  function FindRule(id: string): (r: Option<RuleDefinition>)
    ensures r.Some? <==> exists i :: 0 <= i < |RuleLibrary| && RuleLibrary[i].id == id
    ensures r.Some? ==> r.value in RuleLibrary && r.value.id == id
  {
    FindRuleFrom(id, 0)
  }

  function FindRuleFrom(id: string, k: nat): (r: Option<RuleDefinition>)
    requires k <= |RuleLibrary|
    ensures r.Some? <==> exists i :: k <= i < |RuleLibrary| && RuleLibrary[i].id == id
    ensures r.Some? ==> r.value in RuleLibrary && r.value.id == id
    decreases |RuleLibrary| - k
  {
    if k == |RuleLibrary| then None
    else if RuleLibrary[k].id == id then Some(RuleLibrary[k])
    else FindRuleFrom(id, k + 1)
  }

  /** `SEED_UPGRADES.find(entry => entry.id === id)`. */
  function FindUpgrade(id: string): (u: Option<SeedUpgrade>)
    ensures u.Some? <==> exists i :: 0 <= i < |SeedUpgrades| && SeedUpgrades[i].id == id
    ensures u.Some? ==> u.value in SeedUpgrades && u.value.id == id
  {
    FindUpgradeFrom(id, 0)
  }

  function FindUpgradeFrom(id: string, k: nat): (u: Option<SeedUpgrade>)
    requires k <= |SeedUpgrades|
    ensures u.Some? <==> exists i :: k <= i < |SeedUpgrades| && SeedUpgrades[i].id == id
    ensures u.Some? ==> u.value in SeedUpgrades && u.value.id == id
    decreases |SeedUpgrades| - k
  {
    if k == |SeedUpgrades| then None
    else if SeedUpgrades[k].id == id then Some(SeedUpgrades[k])
    else FindUpgradeFrom(id, k + 1)
  }

  /** Rule ids are distinct, so lookup by id finds each rule. */
  lemma RuleIdsDistinct()
    ensures forall i, j :: 0 <= i < j < |RuleLibrary| ==> RuleLibrary[i].id != RuleLibrary[j].id
  {
  }

  /** Every rule costs a non-negative amount of each resource. */
  lemma RuleCostsNonNegative(rule: RuleDefinition)
    requires rule in RuleLibrary
    ensures rule.cost.photosynthesis.Some? ==> rule.cost.photosynthesis.value >= 0.0
    ensures rule.cost.sap.Some? ==> rule.cost.sap.value >= 0.0
    ensures rule.cost.seeds.Some? ==> rule.cost.seeds.value >= 0.0
  {
  }

  // ---------------------------------------------------------------------------
  // Formulas
  // ---------------------------------------------------------------------------

  /** getWidth: the base width plus one step per level. */
  function Width(level: real): real
  {
    BaseWidth + level * WidthStep
  }

  /** getTickMultiplier: 15% more production per tick level. */
  function TickMultiplier(level: real): real
  {
    1.0 + level * 0.15
  }

  /** Each level adds exactly one width step and 0.15 to the tick multiplier. */
  lemma LevelIncrements(level: real)
    ensures Width(level + 1.0) == Width(level) + WidthStep
    ensures TickMultiplier(level + 1.0) == TickMultiplier(level) + 0.15
    ensures Width(0.0) == 0.08 && TickMultiplier(0.0) == 1.0
  {
  }

  /** round(base * growth^exponent * costMultiplier(season)), the shape of every season-scaled cost. */
  function ScaledCost(base: real, growth: real, exponent: int, season: Season): int
    requires growth > 0.0
  {
    Round(base * PowInt(growth, exponent) * CostMultiplier(season))
  }

  /** getIterationCost: round(24 * 1.85^iterations * multiplier). */
  function IterationCost(iterations: int, season: Season): int
  {
    ScaledCost(24.0, 1.85, iterations, season)
  }

  /** getWidthCost: round(20 * 1.55^(level + 1) * multiplier). */
  function WidthCost(level: int, season: Season): int
  {
    ScaledCost(20.0, 1.55, level + 1, season)
  }

  /** getTickCost: round(26 * 1.7^(level + 1) * multiplier). */
  function TickCost(level: int, season: Season): int
  {
    ScaledCost(26.0, 1.7, level + 1, season)
  }

  /** getFruitCost: round(35 * 1.35^(fruit + 1) * multiplier). */
  function FruitCost(fruit: int, season: Season): int
  {
    ScaledCost(35.0, 1.35, fruit + 1, season)
  }

  /** The first iteration costs round(24 * multiplier): 18 in spring, 38 in winter. */
  lemma FirstIterationCost(season: Season)
    ensures IterationCost(0, season) == Round(24.0 * CostMultiplier(season))
    ensures IterationCost(0, Spring) == 18 && IterationCost(0, Winter) == 38
  {
  }

  /** A cost with a growth factor of at least one is non-decreasing in its exponent. */
  lemma ScaledCostMonotone(base: real, growth: real, e1: nat, e2: nat, season: Season)
    requires base >= 0.0 && growth >= 1.0 && e1 <= e2
    ensures 0 <= ScaledCost(base, growth, e1, season) <= ScaledCost(base, growth, e2, season)
  {
    PowMonotone(growth, e1, e2);
    PowPositive(growth, e1);
    assert PowInt(growth, e1) == Pow(growth, e1) && PowInt(growth, e2) == Pow(growth, e2);
    RoundScaledMonotone(base, Pow(growth, e1), Pow(growth, e2), CostMultiplier(season));
  }

  lemma RoundScaledMonotone(base: real, p1: real, p2: real, m: real)
    requires base >= 0.0 && 0.0 <= p1 <= p2 && m >= 0.0
    ensures 0 <= Round(base * p1 * m) <= Round(base * p2 * m)
  {
    ScaleMonotone(base, p1, p2);
    ScaleMonotone(base, 0.0, p1);
    ScaleMonotone(m, base * p1, base * p2);
    ScaleMonotone(m, 0.0, base * p1);
    assert base * p1 * m == m * (base * p1);
    assert base * p2 * m == m * (base * p2);
    RoundMonotone(0.0, base * p1 * m);
    RoundMonotone(base * p1 * m, base * p2 * m);
  }

  lemma ScaleMonotone(a: real, x: real, y: real)
    requires a >= 0.0 && x <= y
    ensures a * x <= a * y
  {
    assert a * y - a * x == a * (y - x);
  }

  /** For a fixed season every level-scaled cost is non-negative and non-decreasing in its level. */
  lemma CostsMonotone(l1: int, l2: int, season: Season)
    requires 0 <= l1 <= l2
    ensures 0 <= IterationCost(l1, season) <= IterationCost(l2, season)
    ensures 0 <= WidthCost(l1, season) <= WidthCost(l2, season)
    ensures 0 <= TickCost(l1, season) <= TickCost(l2, season)
    ensures 0 <= FruitCost(l1, season) <= FruitCost(l2, season)
  {
    ScaledCostMonotone(24.0, 1.85, l1, l2, season);
    ScaledCostMonotone(20.0, 1.55, l1 + 1, l2 + 1, season);
    ScaledCostMonotone(26.0, 1.7, l1 + 1, l2 + 1, season);
    ScaledCostMonotone(35.0, 1.35, l1 + 1, l2 + 1, season);
  }

  /** getAxiomCost: six per character, at least eight. */
  function AxiomCost(axiom: string): (c: int)
    ensures c >= 8
    ensures c == MaxInt(8, 6 * |axiom|)
  {
    assert Round(|axiom| as real * 6.0) == 6 * |axiom|;
    MaxInt(8, Round(|axiom| as real * 6.0))
  }

  /** getSeedYield: one seed per 180 photosynthesis plus sap, 2.5 per fruit (rounded down), at least one. */
  function SeedYield(photosynthesis: real, sap: real, fruit: real): (y: int)
    ensures y >= 1
  {
    var core := Floor((photosynthesis + sap) / 180.0);
    var fruitBonus := Floor(fruit * 2.5);
    MaxInt(1, core + fruitBonus)
  }

  lemma SeedYieldExamples()
    ensures SeedYield(100.0, 80.0, 0.0) == 1
    ensures SeedYield(360.0, 0.0, 2.0) == 7
    ensures AxiomCost("A") == 8 && AxiomCost("ABC") == 18
  {
  }

  /** More resources never yield fewer seeds. */
  lemma SeedYieldMonotone(p1: real, s1: real, f1: real, p2: real, s2: real, f2: real)
    requires p1 + s1 <= p2 + s2 && f1 <= f2
    ensures SeedYield(p1, s1, f1) <= SeedYield(p2, s2, f2)
  {
    FloorMonotone((p1 + s1) / 180.0, (p2 + s2) / 180.0);
    FloorMonotone(f1 * 2.5, f2 * 2.5);
  }
}
