/**
 * The growth game's store (src/store/gameStore.ts). Every action reads the
 * current state and, when its guard holds, replaces it with an updated copy;
 * `Date.now()` enters as the parameter `now`. Each action is specified by a
 * step function on states, and the `Store` class holds the current state and
 * performs the actions.
 */
module GameStore {
  import opened Numeric
  import opened GameData

  // ---------------------------------------------------------------------------
  // Strings: String.prototype.trim and toUpperCase
  // ---------------------------------------------------------------------------

  /** The characters `trim` removes: JavaScript's white space and line terminators. */
  predicate IsWhitespace(c: char)
  {
    c == ' ' || c == '\t' || c == '\n' || c == '\r' || c == '\U{000B}' || c == '\U{000C}'
    || c == '\U{00A0}' || c == '\U{1680}' || ('\U{2000}' <= c <= '\U{200A}')
    || c == '\U{2028}' || c == '\U{2029}' || c == '\U{202F}' || c == '\U{205F}'
    || c == '\U{3000}' || c == '\U{FEFF}'
  }

  predicate AllWhitespace(s: string)
  {
    forall i :: 0 <= i < |s| ==> IsWhitespace(s[i])
  }

  /** s without its leading white space. */
  function TrimStart(s: string): (r: string)
    ensures |r| <= |s| && r == s[|s| - |r|..]
    ensures forall i :: 0 <= i < |s| - |r| ==> IsWhitespace(s[i])
    ensures |r| > 0 ==> !IsWhitespace(r[0])
  {
    if |s| > 0 && IsWhitespace(s[0]) then
      var r := TrimStart(s[1..]);
      assert s[1..][|s| - 1 - |r|..] == s[|s| - |r|..];
      assert forall i :: 1 <= i < |s| ==> s[1..][i - 1] == s[i];
      r
    else
      s
  }

  /** s without its trailing white space. */
  function TrimEnd(s: string): (r: string)
    ensures |r| <= |s| && r == s[..|r|]
    ensures forall i :: |r| <= i < |s| ==> IsWhitespace(s[i])
    ensures |r| > 0 ==> !IsWhitespace(r[|r| - 1])
  {
    if |s| > 0 && IsWhitespace(s[|s| - 1]) then
      var r := TrimEnd(s[..|s| - 1]);
      assert s[..|s| - 1][..|r|] == s[..|r|];
      assert forall i :: 0 <= i < |s| - 1 ==> s[..|s| - 1][i] == s[i];
      r
    else
      s
  }

  /** String.prototype.trim. */
  function Trim(s: string): (r: string)
    ensures |r| <= |s|
    ensures |r| > 0 ==> !IsWhitespace(r[0]) && !IsWhitespace(r[|r| - 1])
  {
    TrimEnd(TrimStart(s))
  }

  /** A string that starts with a visible character keeps it through TrimEnd. */
  lemma TrimEndKeepsVisible(t: string)
    requires |t| > 0 && !IsWhitespace(t[0])
    ensures |TrimEnd(t)| > 0
  {
  }

  /** `!axiom.trim()`: the trimmed text is empty exactly when every character is white space. */
  lemma TrimEmptyIffBlank(s: string)
    ensures Trim(s) == "" <==> AllWhitespace(s)
  {
    var t := TrimStart(s);
    if |t| > 0 {
      TrimEndKeepsVisible(t);
      assert s[|s| - |t|] == t[0];
    } else {
      assert TrimEnd(t) == "";
    }
  }

  /** Upper-casing of the ASCII letters a-z; every other character is kept. */
  function UpperChar(c: char): char
  {
    if 'a' <= c <= 'z' then (c as int - 32) as char else c
  }

  function ToUpper(s: string): (r: string)
    ensures |r| == |s| && forall i :: 0 <= i < |s| ==> r[i] == UpperChar(s[i])
  {
    seq(|s|, i requires 0 <= i < |s| => UpperChar(s[i]))
  }

  // ---------------------------------------------------------------------------
  // State
  // ---------------------------------------------------------------------------

  datatype Unlocks = Unlocks(pitch: bool, roll: bool, autoTuner: bool)

  datatype GeometryUnlocks = GeometryUnlocks(cylinder: bool, cone: bool, box: bool, tetra: bool)

  function GeometryUnlocked(unlocks: GeometryUnlocks, g: Geometry): bool
  {
    match g
    case Cylinder => unlocks.cylinder
    case Cone => unlocks.cone
    case Box => unlocks.box
    case Tetra => unlocks.tetra
  }

  datatype ResourceRates = ResourceRates(photosynthesis: real, sap: real)

  /** The data fields of GameState (the action closures are the methods of Store). */
  datatype GameState = GameState(
    season: Season,
    photosynthesis: real,
    sap: real,
    seeds: real,
    fruit: int,
    iterations: int,
    widthLevel: int,
    tickLevel: int,
    angle: real,
    step: real,
    axiom: string,
    activeRules: map<string, string>,
    unlockedRules: seq<string>,
    analysisMode: bool,
    geometryUnlocks: GeometryUnlocks,
    selectedGeometry: Geometry,
    unlocks: Unlocks,
    lastMutation: real,
    lastRuleChanged: Option<string>)

  const DefaultActiveRules: map<string, string> := map["X" := "sprout", "F" := "stem"]
  const DefaultUnlockedRules: seq<string> := ["sprout", "stem"]
  const DefaultAngle: real := 28.0
  const DefaultIterations: int := 3

  /** The store's initial state, created at time `now`. */
  function Initial(now: real): GameState
  {
    GameState(Spring, 0.0, 0.0, 0.0, 0, DefaultIterations, 0, 0, DefaultAngle, BaseStep, "X",
              DefaultActiveRules, DefaultUnlockedRules, false,
              GeometryUnlocks(true, false, false, false), Cylinder,
              Unlocks(false, false, false), now, None)
  }

  function RuleIds(): set<string>
  {
    set i | 0 <= i < |RuleLibrary| :: RuleLibrary[i].id
  }

  /** Every unlocked rule is a library rule unlocked once, and every active rule is unlocked. */
  ghost predicate RulesConsistent(unlockedRules: seq<string>, activeRules: map<string, string>)
  {
    && (forall i :: 0 <= i < |unlockedRules| ==> unlockedRules[i] in RuleIds())
    && (forall i, j :: 0 <= i < j < |unlockedRules| ==> unlockedRules[i] != unlockedRules[j])
    && (forall sym :: sym in activeRules ==> activeRules[sym] in unlockedRules)
  }

  /** The cylinder is always available and the selected geometry is unlocked. */
  predicate GeometryConsistent(unlocks: GeometryUnlocks, selected: Geometry)
  {
    unlocks.cylinder && GeometryUnlocked(unlocks, selected)
  }

  /**
   * What every reachable state satisfies: the counters stay in range, the angle
   * lies in [0, 90], the rules are consistent and the selected geometry is unlocked.
   */
  ghost predicate Invariant(s: GameState)
  {
    && 0 <= s.iterations <= MaxIterations
    && s.widthLevel >= 0 && s.tickLevel >= 0 && s.fruit >= 0
    && 0.0 <= s.angle <= 90.0
    && RulesConsistent(s.unlockedRules, s.activeRules)
    && GeometryConsistent(s.geometryUnlocks, s.selectedGeometry)
  }

  /** No resource is negative. */
  predicate Solvent(s: GameState)
  {
    s.photosynthesis >= 0.0 && s.sap >= 0.0 && s.seeds >= 0.0
  }

  // ---------------------------------------------------------------------------
  // Actions as state transitions
  // ---------------------------------------------------------------------------

  /** addResources: nothing for dt <= 0, otherwise rate * dt more photosynthesis and sap. */
  function AddResourcesStep(s: GameState, dt: real, rates: ResourceRates): (r: GameState)
    ensures dt <= 0.0 ==> r == s
    ensures dt > 0.0 ==> r.photosynthesis - s.photosynthesis == rates.photosynthesis * dt
                         && r.sap - s.sap == rates.sap * dt
    ensures r.(photosynthesis := s.photosynthesis, sap := s.sap) == s
  {
    if dt <= 0.0 then s
    else s.(photosynthesis := s.photosynthesis + rates.photosynthesis * dt, sap := s.sap + rates.sap * dt)
  }

  /** setAngle: the argument clamped to [0, 90]. */
  function SetAngleStep(s: GameState, angle: real): (r: GameState)
    ensures 0.0 <= r.angle <= 90.0
    ensures 0.0 <= angle <= 90.0 ==> r.angle == angle
    ensures angle < 0.0 ==> r.angle == 0.0
    ensures angle > 90.0 ==> r.angle == 90.0
    ensures r.(angle := s.angle) == s
  {
    s.(angle := Max(0.0, Min(90.0, angle)))
  }

  function ToggleAnalysisStep(s: GameState): (r: GameState)
    ensures r.analysisMode != s.analysisMode && r.(analysisMode := s.analysisMode) == s
  {
    s.(analysisMode := !s.analysisMode)
  }

  /** advanceSeason: the next season of SEASON_ORDER. */
  function AdvanceSeasonStep(s: GameState): (r: GameState)
    ensures r.season == NextSeason(s.season) && r.season != s.season
    ensures r.(season := s.season) == s
  {
    SeasonPeriod(s.season);
    s.(season := NextSeason(s.season))
  }

  /** buyIteration: below the cap of 7 and affordable, pay the cost for one more iteration. */
  function BuyIterationStep(s: GameState, now: real): (r: GameState)
    ensures r != s <==> s.iterations < MaxIterations && s.photosynthesis >= IterationCost(s.iterations, s.season) as real
    ensures r != s ==> r == s.(photosynthesis := s.photosynthesis - IterationCost(s.iterations, s.season) as real,
                               iterations := s.iterations + 1, lastMutation := now)
  {
    if s.iterations >= MaxIterations then s
    else
      var cost := IterationCost(s.iterations, s.season);
      if s.photosynthesis < cost as real then s
      else s.(photosynthesis := s.photosynthesis - cost as real, iterations := s.iterations + 1, lastMutation := now)
  }

  /** buyWidth: when the sap covers the cost, one more width level. */
  function BuyWidthStep(s: GameState, now: real): (r: GameState)
    ensures r != s <==> s.sap >= WidthCost(s.widthLevel, s.season) as real
    ensures r != s ==> r == s.(sap := s.sap - WidthCost(s.widthLevel, s.season) as real,
                               widthLevel := s.widthLevel + 1, lastMutation := now)
  {
    var cost := WidthCost(s.widthLevel, s.season);
    if s.sap < cost as real then s
    else s.(sap := s.sap - cost as real, widthLevel := s.widthLevel + 1, lastMutation := now)
  }

  /** buyTickRate: when the sap covers the cost, one more tick level. */
  function BuyTickRateStep(s: GameState, now: real): (r: GameState)
    ensures r != s <==> s.sap >= TickCost(s.tickLevel, s.season) as real
    ensures r != s ==> r == s.(sap := s.sap - TickCost(s.tickLevel, s.season) as real,
                               tickLevel := s.tickLevel + 1, lastMutation := now)
  {
    var cost := TickCost(s.tickLevel, s.season);
    if s.sap < cost as real then s
    else s.(sap := s.sap - cost as real, tickLevel := s.tickLevel + 1, lastMutation := now)
  }

  /** buyFruit: only in autumn, and only when the sap covers the cost. */
  function BuyFruitStep(s: GameState, now: real): (r: GameState)
    ensures r != s <==> s.season == Autumn && s.sap >= FruitCost(s.fruit, Autumn) as real
    ensures r != s ==> r == s.(sap := s.sap - FruitCost(s.fruit, Autumn) as real,
                               fruit := s.fruit + 1, lastMutation := now)
  {
    if s.season != Autumn then s
    else
      var cost := FruitCost(s.fruit, s.season);
      if s.sap < cost as real then s
      else s.(sap := s.sap - cost as real, fruit := s.fruit + 1, lastMutation := now)
  }

  /** `cost ?? 0`. */
  function CostOf(c: Option<real>): real
  {
    match c
    case None => 0.0
    case Some(v) => v
  }

  /** Whether unlockRule goes ahead: a new library rule whose dimension is unlocked and whose costs are covered. */
  predicate CanUnlock(s: GameState, ruleId: string)
  {
    && ruleId !in s.unlockedRules
    && FindRule(ruleId).Some?
    && var rule := FindRule(ruleId).value;
    && !(rule.requiresPitch && !s.unlocks.pitch)
    && !(rule.requiresRoll && !s.unlocks.roll)
    && s.photosynthesis >= CostOf(rule.cost.photosynthesis)
    && s.sap >= CostOf(rule.cost.sap)
    && s.seeds >= CostOf(rule.cost.seeds)
  }

  /** unlockRule: pay the three costs, record the id and make the rule active for its symbol. */
  function UnlockRuleStep(s: GameState, ruleId: string, now: real): (r: GameState)
    ensures !CanUnlock(s, ruleId) ==> r == s
    ensures CanUnlock(s, ruleId) ==>
              var rule := FindRule(ruleId).value;
              r == s.(photosynthesis := s.photosynthesis - CostOf(rule.cost.photosynthesis),
                      sap := s.sap - CostOf(rule.cost.sap),
                      seeds := s.seeds - CostOf(rule.cost.seeds),
                      unlockedRules := s.unlockedRules + [ruleId],
                      activeRules := s.activeRules[rule.symbol := ruleId],
                      lastMutation := now, lastRuleChanged := Some(ruleId))
  {
    if ruleId in s.unlockedRules then s
    else match FindRule(ruleId)
      case None => s
      case Some(rule) =>
        if rule.requiresPitch && !s.unlocks.pitch then s
        else if rule.requiresRoll && !s.unlocks.roll then s
        else
          var photoCost := CostOf(rule.cost.photosynthesis);
          var sapCost := CostOf(rule.cost.sap);
          var seedCost := CostOf(rule.cost.seeds);
          if s.photosynthesis < photoCost || s.sap < sapCost || s.seeds < seedCost then s
          else s.(photosynthesis := s.photosynthesis - photoCost, sap := s.sap - sapCost,
                  seeds := s.seeds - seedCost, unlockedRules := s.unlockedRules + [ruleId],
                  activeRules := s.activeRules[rule.symbol := ruleId], lastMutation := now,
                  lastRuleChanged := Some(ruleId))
  }

  /** setActiveRule: only an unlocked rule can become the active rule of a symbol. */
  function SetActiveRuleStep(s: GameState, symbol: string, ruleId: string, now: real): (r: GameState)
    ensures ruleId !in s.unlockedRules ==> r == s
    ensures ruleId in s.unlockedRules ==>
              r == s.(activeRules := s.activeRules[symbol := ruleId], lastMutation := now,
                      lastRuleChanged := Some(ruleId))
  {
    if ruleId !in s.unlockedRules then s
    else s.(activeRules := s.activeRules[symbol := ruleId], lastMutation := now, lastRuleChanged := Some(ruleId))
  }

  /** applyAxiom: the new state and the returned flag. */
  function ApplyAxiomStep(s: GameState, axiom: string, cost: real, now: real): (r: (GameState, bool))
    ensures r.1 <==> !AllWhitespace(axiom) && s.photosynthesis >= cost
    ensures !r.1 ==> r.0 == s
    ensures r.1 ==> r.0.axiom == ToUpper(Trim(axiom)) && |r.0.axiom| > 0
                    && r.0.photosynthesis == s.photosynthesis - cost
                    && r.0.lastMutation == now && r.0.lastRuleChanged == None
                    && r.0.(photosynthesis := s.photosynthesis, axiom := s.axiom, lastMutation := s.lastMutation,
                            lastRuleChanged := s.lastRuleChanged) == s
  {
    TrimEmptyIffBlank(axiom);
    if Trim(axiom) == "" then (s, false)
    else if s.photosynthesis < cost then (s, false)
    else (s.(photosynthesis := s.photosynthesis - cost, axiom := ToUpper(Trim(axiom)), lastMutation := now,
             lastRuleChanged := None), true)
  }

  /** selectGeometry: only an unlocked geometry can be selected. */
  function SelectGeometryStep(s: GameState, g: Geometry): (r: GameState)
    ensures GeometryUnlocked(s.geometryUnlocks, g) ==> r == s.(selectedGeometry := g)
    ensures !GeometryUnlocked(s.geometryUnlocks, g) ==> r == s
  {
    if !GeometryUnlocked(s.geometryUnlocks, g) then s else s.(selectedGeometry := g)
  }

  /** The unlocks a seed upgrade turns on: the one its id names, if any. */
  function UnlocksAfter(u: Unlocks, upgradeId: string): (r: Unlocks)
    ensures r.pitch == (u.pitch || upgradeId == "pitch")
    ensures r.roll == (u.roll || upgradeId == "roll")
    ensures r.autoTuner == (u.autoTuner || upgradeId == "autoTuner")
  {
    var u1 := if upgradeId == "pitch" then u.(pitch := true) else u;
    var u2 := if upgradeId == "roll" then u1.(roll := true) else u1;
    if upgradeId == "autoTuner" then u2.(autoTuner := true) else u2
  }

  /** The geometries a seed upgrade unlocks: the one its id names, if any. */
  function GeometryAfter(g: GeometryUnlocks, upgradeId: string): (r: GeometryUnlocks)
    ensures r.cylinder == g.cylinder
    ensures r.cone == (g.cone || upgradeId == "geometry_cone")
    ensures r.box == (g.box || upgradeId == "geometry_box")
    ensures r.tetra == (g.tetra || upgradeId == "geometry_tetra")
  {
    var g1 := if upgradeId == "geometry_cone" then g.(cone := true) else g;
    var g2 := if upgradeId == "geometry_box" then g1.(box := true) else g1;
    if upgradeId == "geometry_tetra" then g2.(tetra := true) else g2
  }

  /** buySeedUpgrade: a known upgrade the seeds cover is paid for (again, if already owned) and switched on. */
  function BuySeedUpgradeStep(s: GameState, upgradeId: string): (r: GameState)
    ensures FindUpgrade(upgradeId).None? || s.seeds < FindUpgrade(upgradeId).value.cost ==> r == s
    ensures FindUpgrade(upgradeId).Some? && s.seeds >= FindUpgrade(upgradeId).value.cost ==>
              && r.seeds == s.seeds - FindUpgrade(upgradeId).value.cost
              && r.unlocks == UnlocksAfter(s.unlocks, upgradeId)
              && r.geometryUnlocks == GeometryAfter(s.geometryUnlocks, upgradeId)
              && r.(seeds := s.seeds, unlocks := s.unlocks, geometryUnlocks := s.geometryUnlocks) == s
  {
    match FindUpgrade(upgradeId)
    case None => s
    case Some(upgrade) =>
      if s.seeds < upgrade.cost then s
      else s.(seeds := s.seeds - upgrade.cost, unlocks := UnlocksAfter(s.unlocks, upgradeId),
              geometryUnlocks := GeometryAfter(s.geometryUnlocks, upgradeId))
  }

  /**
   * harvest: only in winter; trade the tree for seeds and start again in
   * spring, keeping the seeds, the unlocks, the geometry unlocks, the step and
   * the analysis mode.
   */
  function HarvestStep(s: GameState, now: real): (r: GameState)
    ensures s.season != Winter ==> r == s
    ensures s.season == Winter ==>
              && r.seeds == s.seeds + SeedYield(s.photosynthesis, s.sap, s.fruit as real) as real
              && r.seeds >= s.seeds + 1.0
              && r == Initial(now).(seeds := r.seeds, step := s.step, analysisMode := s.analysisMode,
                                    geometryUnlocks := s.geometryUnlocks, unlocks := s.unlocks)
  {
    if s.season != Winter then s
    else
      var seedsEarned := SeedYield(s.photosynthesis, s.sap, s.fruit as real);
      s.(seeds := s.seeds + seedsEarned as real, photosynthesis := 0.0, sap := 0.0, fruit := 0,
         iterations := DefaultIterations, widthLevel := 0, tickLevel := 0, angle := DefaultAngle, axiom := "X",
         activeRules := DefaultActiveRules, unlockedRules := DefaultUnlockedRules, season := Spring,
         selectedGeometry := Cylinder, lastMutation := now, lastRuleChanged := None)
  }

  // ---------------------------------------------------------------------------
  // Runs of actions
  // ---------------------------------------------------------------------------

  /** One call of a store action, with the time it happens at. */
  datatype Action =
    | AddResourcesAction(dt: real, rates: ResourceRates)
    | SetAngleAction(angle: real)
    | ToggleAnalysisAction
    | AdvanceSeasonAction
    | BuyIterationAction(now: real)
    | BuyWidthAction(now: real)
    | BuyTickRateAction(now: real)
    | BuyFruitAction(now: real)
    | UnlockRuleAction(ruleId: string, now: real)
    | SetActiveRuleAction(symbol: string, ruleId: string, now: real)
    | ApplyAxiomAction(axiom: string, cost: real, now: real)
    | SelectGeometryAction(geometry: Geometry)
    | BuySeedUpgradeAction(upgradeId: string)
    | HarvestAction(now: real)

  function Apply(s: GameState, a: Action): GameState
  {
    match a
    case AddResourcesAction(dt, rates) => AddResourcesStep(s, dt, rates)
    case SetAngleAction(angle) => SetAngleStep(s, angle)
    case ToggleAnalysisAction => ToggleAnalysisStep(s)
    case AdvanceSeasonAction => AdvanceSeasonStep(s)
    case BuyIterationAction(now) => BuyIterationStep(s, now)
    case BuyWidthAction(now) => BuyWidthStep(s, now)
    case BuyTickRateAction(now) => BuyTickRateStep(s, now)
    case BuyFruitAction(now) => BuyFruitStep(s, now)
    case UnlockRuleAction(ruleId, now) => UnlockRuleStep(s, ruleId, now)
    case SetActiveRuleAction(symbol, ruleId, now) => SetActiveRuleStep(s, symbol, ruleId, now)
    case ApplyAxiomAction(axiom, cost, now) => ApplyAxiomStep(s, axiom, cost, now).0
    case SelectGeometryAction(g) => SelectGeometryStep(s, g)
    case BuySeedUpgradeAction(upgradeId) => BuySeedUpgradeStep(s, upgradeId)
    case HarvestAction(now) => HarvestStep(s, now)
  }

  function Run(s: GameState, actions: seq<Action>): GameState
  {
    if |actions| == 0 then s else Apply(Run(s, actions[..|actions| - 1]), actions[|actions| - 1])
  }

  lemma InitialInvariant(now: real)
    ensures Invariant(Initial(now)) && Solvent(Initial(now))
  {
    assert "sprout" == RuleLibrary[1].id && "stem" == RuleLibrary[0].id;
  }

  lemma UnlockRuleKeepsInvariant(s: GameState, ruleId: string, now: real)
    requires Invariant(s)
    ensures Invariant(UnlockRuleStep(s, ruleId, now))
  {
    if CanUnlock(s, ruleId) {
      var r := UnlockRuleStep(s, ruleId, now);
      var rule := FindRule(ruleId).value;
      var k :| 0 <= k < |RuleLibrary| && RuleLibrary[k].id == ruleId;
      assert ruleId in RuleIds();
      assert forall i :: 0 <= i < |s.unlockedRules| ==> r.unlockedRules[i] == s.unlockedRules[i];
    }
  }

  lemma HarvestKeepsInvariant(s: GameState, now: real)
    requires Invariant(s)
    ensures Invariant(HarvestStep(s, now))
  {
    assert "sprout" == RuleLibrary[1].id && "stem" == RuleLibrary[0].id;
  }

  lemma SetActiveRuleKeepsInvariant(s: GameState, symbol: string, ruleId: string, now: real)
    requires Invariant(s)
    ensures Invariant(SetActiveRuleStep(s, symbol, ruleId, now))
  {
  }

  lemma ApplyAxiomKeepsInvariant(s: GameState, axiom: string, cost: real, now: real)
    requires Invariant(s)
    ensures Invariant(ApplyAxiomStep(s, axiom, cost, now).0)
  {
  }

  lemma BuySeedUpgradeKeepsInvariant(s: GameState, upgradeId: string)
    requires Invariant(s)
    ensures Invariant(BuySeedUpgradeStep(s, upgradeId))
  {
    var g := BuySeedUpgradeStep(s, upgradeId).geometryUnlocks;
    assert GeometryUnlocked(g, s.selectedGeometry);
  }

  /** Every action keeps the invariant. */
  lemma ApplyKeepsInvariant(s: GameState, a: Action)
    requires Invariant(s)
    ensures Invariant(Apply(s, a))
  {
    match a
    case BuyIterationAction(now) =>
    case UnlockRuleAction(ruleId, now) => UnlockRuleKeepsInvariant(s, ruleId, now);
    case HarvestAction(now) => HarvestKeepsInvariant(s, now);
    case SetActiveRuleAction(symbol, ruleId, now) => SetActiveRuleKeepsInvariant(s, symbol, ruleId, now);
    case ApplyAxiomAction(axiom, cost, now) => ApplyAxiomKeepsInvariant(s, axiom, cost, now);
    case BuySeedUpgradeAction(upgradeId) => BuySeedUpgradeKeepsInvariant(s, upgradeId);
    case _ =>
  }

  /** Whether an action adds resources at a negative rate. */
  predicate DrainsResources(a: Action)
  {
    a.AddResourcesAction? && (a.rates.photosynthesis < 0.0 || a.rates.sap < 0.0)
  }

  /** Purchases never overdraw: only adding resources at a negative rate can make a resource negative. */
  lemma ApplyKeepsSolvent(s: GameState, a: Action)
    requires Solvent(s) && !DrainsResources(a)
    ensures Solvent(Apply(s, a))
  {
    match a
    case AddResourcesAction(dt, rates) =>
      if dt > 0.0 {
        assert rates.photosynthesis * dt >= 0.0 && rates.sap * dt >= 0.0;
      }
    case UnlockRuleAction(ruleId, now) =>
    case HarvestAction(now) =>
    case _ =>
  }

  /** Every state reached from the initial state by store actions satisfies the invariant. */
  lemma {:induction false} RunKeepsInvariant(s: GameState, actions: seq<Action>)
    requires Invariant(s)
    ensures Invariant(Run(s, actions))
  {
    if |actions| > 0 {
      RunKeepsInvariant(s, actions[..|actions| - 1]);
      ApplyKeepsInvariant(Run(s, actions[..|actions| - 1]), actions[|actions| - 1]);
    }
  }

  /** Without negative rates no resource ever goes negative. */
  lemma {:induction false} RunKeepsSolvent(s: GameState, actions: seq<Action>)
    requires Solvent(s)
    requires forall i :: 0 <= i < |actions| ==> !DrainsResources(actions[i])
    ensures Solvent(Run(s, actions))
  {
    if |actions| > 0 {
      RunKeepsSolvent(s, actions[..|actions| - 1]);
      ApplyKeepsSolvent(Run(s, actions[..|actions| - 1]), actions[|actions| - 1]);
    }
  }

  /** Actions that change nothing outside the season leave a non-autumn or non-winter state alone. */
  lemma SeasonGates(s: GameState, now: real)
    ensures s.season != Autumn ==> BuyFruitStep(s, now) == s
    ensures s.season != Winter ==> HarvestStep(s, now) == s
  {
  }

  // ---------------------------------------------------------------------------
  // The store
  // ---------------------------------------------------------------------------

  /** The store: the current state, replaced by each action. */
  class Store {
    var state: GameState

    ghost predicate Valid()
      reads this
    {
      Invariant(state)
    }

    constructor(now: real)
      ensures state == Initial(now) && Valid()
    {
      state := Initial(now);
      InitialInvariant(now);
    }

    method AddResources(dt: real, rates: ResourceRates)
      requires Valid()
      modifies this
      ensures state == AddResourcesStep(old(state), dt, rates)
      ensures Valid()
    {
      if dt > 0.0 {
        var photosynthesis := state.photosynthesis + rates.photosynthesis * dt;
        var sap := state.sap + rates.sap * dt;
        state := state.(photosynthesis := photosynthesis, sap := sap);
      }
    }

    method SetAngle(angle: real)
      requires Valid()
      modifies this
      ensures state == SetAngleStep(old(state), angle) && Valid()
    {
      var clamped := Max(0.0, Min(90.0, angle));
      state := state.(angle := clamped);
    }

    method ToggleAnalysis()
      requires Valid()
      modifies this
      ensures state == ToggleAnalysisStep(old(state)) && Valid()
    {
      state := state.(analysisMode := !state.analysisMode);
    }

    method AdvanceSeason()
      requires Valid()
      modifies this
      ensures state == AdvanceSeasonStep(old(state)) && Valid()
    {
      var currentIndex := SeasonIndex(state.season);
      var next := SeasonOrder[(currentIndex + 1) % |SeasonOrder|];
      state := state.(season := next);
    }

    method BuyIteration(now: real)
      requires Valid()
      modifies this
      ensures state == BuyIterationStep(old(state), now) && Valid()
    {
      if state.iterations >= MaxIterations {
        return;
      }
      var cost := IterationCost(state.iterations, state.season);
      if state.photosynthesis < cost as real {
        return;
      }
      state := state.(photosynthesis := state.photosynthesis - cost as real,
                      iterations := state.iterations + 1, lastMutation := now);
    }

    method BuyWidth(now: real)
      requires Valid()
      modifies this
      ensures state == BuyWidthStep(old(state), now) && Valid()
    {
      var cost := WidthCost(state.widthLevel, state.season);
      if state.sap < cost as real {
        return;
      }
      state := state.(sap := state.sap - cost as real, widthLevel := state.widthLevel + 1, lastMutation := now);
    }

    method BuyTickRate(now: real)
      requires Valid()
      modifies this
      ensures state == BuyTickRateStep(old(state), now) && Valid()
    {
      var cost := TickCost(state.tickLevel, state.season);
      if state.sap < cost as real {
        return;
      }
      state := state.(sap := state.sap - cost as real, tickLevel := state.tickLevel + 1, lastMutation := now);
    }

    method BuyFruit(now: real)
      requires Valid()
      modifies this
      ensures state == BuyFruitStep(old(state), now) && Valid()
    {
      if state.season != Autumn {
        return;
      }
      var cost := FruitCost(state.fruit, state.season);
      if state.sap < cost as real {
        return;
      }
      state := state.(sap := state.sap - cost as real, fruit := state.fruit + 1, lastMutation := now);
    }

    method UnlockRule(ruleId: string, now: real)
      requires Valid()
      modifies this
      ensures state == UnlockRuleStep(old(state), ruleId, now) && Valid()
    {
      UnlockRuleKeepsInvariant(state, ruleId, now);
      if ruleId in state.unlockedRules {
        return;
      }
      var found := FindRule(ruleId);
      if found.None? {
        return;
      }
      var rule := found.value;
      if rule.requiresPitch && !state.unlocks.pitch {
        return;
      }
      if rule.requiresRoll && !state.unlocks.roll {
        return;
      }
      var photoCost := CostOf(rule.cost.photosynthesis);
      var sapCost := CostOf(rule.cost.sap);
      var seedCost := CostOf(rule.cost.seeds);
      if state.photosynthesis < photoCost || state.sap < sapCost || state.seeds < seedCost {
        return;
      }
      state := state.(photosynthesis := state.photosynthesis - photoCost, sap := state.sap - sapCost,
                      seeds := state.seeds - seedCost, unlockedRules := state.unlockedRules + [ruleId],
                      activeRules := state.activeRules[rule.symbol := ruleId], lastMutation := now,
                      lastRuleChanged := Some(ruleId));
    }

    method SetActiveRule(symbol: string, ruleId: string, now: real)
      requires Valid()
      modifies this
      ensures state == SetActiveRuleStep(old(state), symbol, ruleId, now) && Valid()
    {
      if ruleId !in state.unlockedRules {
        return;
      }
      state := state.(activeRules := state.activeRules[symbol := ruleId], lastMutation := now,
                      lastRuleChanged := Some(ruleId));
    }

    method ApplyAxiom(axiom: string, cost: real, now: real) returns (applied: bool)
      requires Valid()
      modifies this
      ensures state == ApplyAxiomStep(old(state), axiom, cost, now).0
      ensures applied == ApplyAxiomStep(old(state), axiom, cost, now).1
      ensures Valid()
    {
      ApplyAxiomKeepsInvariant(state, axiom, cost, now);
      var trimmed := Trim(axiom);
      if trimmed == "" {
        return false;
      }
      if state.photosynthesis < cost {
        return false;
      }
      var photosynthesis := state.photosynthesis - cost;
      var upper := ToUpper(trimmed);
      state := state.(photosynthesis := photosynthesis, axiom := upper, lastMutation := now, lastRuleChanged := None);
      return true;
    }

    method SelectGeometry(g: Geometry)
      requires Valid()
      modifies this
      ensures state == SelectGeometryStep(old(state), g) && Valid()
    {
      if !GeometryUnlocked(state.geometryUnlocks, g) {
        return;
      }
      state := state.(selectedGeometry := g);
    }

    method BuySeedUpgrade(upgradeId: string)
      requires Valid()
      modifies this
      ensures state == BuySeedUpgradeStep(old(state), upgradeId) && Valid()
    {
      var found := FindUpgrade(upgradeId);
      if found.None? {
        return;
      }
      var upgrade := found.value;
      if state.seeds < upgrade.cost {
        return;
      }
      var nextUnlocks := state.unlocks;
      var nextGeometry := state.geometryUnlocks;
      if upgradeId == "pitch" { nextUnlocks := nextUnlocks.(pitch := true); }
      if upgradeId == "roll" { nextUnlocks := nextUnlocks.(roll := true); }
      if upgradeId == "autoTuner" { nextUnlocks := nextUnlocks.(autoTuner := true); }
      if upgradeId == "geometry_cone" { nextGeometry := nextGeometry.(cone := true); }
      if upgradeId == "geometry_box" { nextGeometry := nextGeometry.(box := true); }
      if upgradeId == "geometry_tetra" { nextGeometry := nextGeometry.(tetra := true); }
      state := state.(seeds := state.seeds - upgrade.cost, unlocks := nextUnlocks, geometryUnlocks := nextGeometry);
    }

    method Harvest(now: real)
      requires Valid()
      modifies this
      ensures state == HarvestStep(old(state), now) && Valid()
    {
      HarvestKeepsInvariant(state, now);
      if state.season != Winter {
        return;
      }
      var seedsEarned := SeedYield(state.photosynthesis, state.sap, state.fruit as real);
      state := state.(seeds := state.seeds + seedsEarned as real, photosynthesis := 0.0, sap := 0.0, fruit := 0,
                      iterations := DefaultIterations, widthLevel := 0, tickLevel := 0, angle := DefaultAngle,
                      axiom := "X", activeRules := DefaultActiveRules, unlockedRules := DefaultUnlockedRules,
                      season := Spring, selectedGeometry := Cylinder, lastMutation := now, lastRuleChanged := None);
    }
  }

  // ---------------------------------------------------------------------------
  // getActiveRuleMap
  // ---------------------------------------------------------------------------

  /**
   * getActiveRuleMap: for each symbol whose active rule id names a library
   * rule, that rule's replacement; symbols with an unknown id are dropped.
   */
  method GetActiveRuleMap(activeRules: map<string, string>) returns (ruleMap: map<string, string>)
    ensures forall sym :: sym in ruleMap <==> sym in activeRules && FindRule(activeRules[sym]).Some?
    ensures forall sym :: sym in ruleMap ==> ruleMap[sym] == FindRule(activeRules[sym]).value.replacement
  {
    ruleMap := map[];
    var pending := activeRules.Keys;
    while pending != {}
      invariant pending <= activeRules.Keys
      invariant forall sym :: sym in ruleMap <==> sym in activeRules && sym !in pending && FindRule(activeRules[sym]).Some?
      invariant forall sym :: sym in ruleMap ==> ruleMap[sym] == FindRule(activeRules[sym]).value.replacement
      decreases pending
    {
      var symbol :| symbol in pending;
      var rule := FindRule(activeRules[symbol]);
      if rule.Some? {
        ruleMap := ruleMap[symbol := rule.value.replacement];
      }
      pending := pending - {symbol};
    }
  }
}
