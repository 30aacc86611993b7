/**
 * Weighted selection of a cosmic event (src/lib/gameplay/cosmicEventResolver.ts).
 * The random number generator enters as the value `roll` it returns; the
 * catalogue is a parameter so that the error for an empty catalogue is part
 * of the model.
 */
module CosmicResolver {
  import opened Numeric
  import opened CosmicEvents

  datatype Result<T> = Success(value: T) | Failure(error: string)

  /** clampWeight: a non-positive weight counts as 0.5. */
  function ClampWeight(value: real): (w: real)
    ensures w > 0.0
    ensures value > 0.0 ==> w == value
  {
    if value > 0.0 then value else 0.5
  }

  /** meetsRequirement: a present gate is a lower bound on depth or resonance. */
  predicate MeetsRequirement(s: Snapshot, e: CosmicEvent)
  {
    if e.minDepth.Some? && s.depth < e.minDepth.value then false
    else if e.minResonance.Some? && s.resonance < e.minResonance.value then false
    else true
  }

  /** An event fails its requirement exactly when the snapshot is below one of its present gates. */
  lemma RequirementFailsIffBelowGate(s: Snapshot, e: CosmicEvent)
    ensures !MeetsRequirement(s, e) <==>
            (e.minDepth.Some? && s.depth < e.minDepth.value) || (e.minResonance.Some? && s.resonance < e.minResonance.value)
  {
  }

  /** `events.filter(e => meetsRequirement(snapshot, e))`. */
  function Eligible(s: Snapshot, events: seq<CosmicEvent>): (r: seq<CosmicEvent>)
    ensures |r| <= |events|
    ensures forall e :: e in r <==> e in events && MeetsRequirement(s, e)
  {
    if |events| == 0 then []
    else
      var rest := Eligible(s, events[..|events| - 1]);
      var last := events[|events| - 1];
      assert events == events[..|events| - 1] + [last];
      if MeetsRequirement(s, last) then rest + [last] else rest
  }

  /** The pool: the eligible events, or the first event of the catalogue when none qualifies. */
  function Pool(s: Snapshot, events: seq<CosmicEvent>): (pool: seq<CosmicEvent>)
    requires |events| > 0
    ensures |pool| > 0
    ensures forall e :: e in pool ==> e in events && (MeetsRequirement(s, e) || e == events[0])
  {
    var eligible := Eligible(s, events);
    if |eligible| > 0 then eligible else [events[0]]
  }

  /** The sum of the clamped weights of the first n events of the pool. */
  function CumulativeWeight(pool: seq<CosmicEvent>, n: nat): (w: real)
    requires n <= |pool|
    ensures w >= 0.0
    ensures n > 0 ==> w > 0.0
  {
    if n == 0 then 0.0 else CumulativeWeight(pool, n - 1) + ClampWeight(pool[n - 1].weight)
  }

  /** The cumulative weights strictly increase along the pool. */
  lemma {:induction false} CumulativeIncreasing(pool: seq<CosmicEvent>, m: nat, n: nat)
    requires m < n <= |pool|
    ensures CumulativeWeight(pool, m) < CumulativeWeight(pool, n)
  {
    if m < n - 1 {
      CumulativeIncreasing(pool, m, n - 1);
    }
  }

  lemma CumulativeMonotone(pool: seq<CosmicEvent>, m: nat, n: nat)
    requires m <= n <= |pool|
    ensures CumulativeWeight(pool, m) <= CumulativeWeight(pool, n)
  {
    if m < n {
      CumulativeIncreasing(pool, m, n);
    }
  }

  /**
   * The first index whose cumulative weight reaches the target, searching from k:
   * event i is chosen when the target lies in (W(i), W(i + 1)], the first in [.., W(1)].
   * The search fails exactly when the target exceeds the total weight.
   */
  function SelectFrom(pool: seq<CosmicEvent>, target: real, k: nat): (r: Option<nat>)
    requires k <= |pool|
    ensures r.Some? ==> k <= r.value < |pool| && target <= CumulativeWeight(pool, r.value + 1)
    ensures r.Some? && k < r.value ==> target > CumulativeWeight(pool, r.value)
    ensures r.None? <==> k == |pool| || target > CumulativeWeight(pool, |pool|)
    decreases |pool| - k
  {
    if k == |pool| then None
    else if target <= CumulativeWeight(pool, k + 1) then
      CumulativeMonotone(pool, k + 1, |pool|);
      Some(k)
    else SelectFrom(pool, target, k + 1)
  }

  /** The chosen event is the only one whose interval (W(i), W(i + 1)] holds the target. */
  lemma SelectionIsUnique(pool: seq<CosmicEvent>, target: real, i: nat)
    requires 0 < |pool| && i < |pool|
    requires target <= CumulativeWeight(pool, i + 1)
    requires i > 0 ==> target > CumulativeWeight(pool, i)
    ensures SelectFrom(pool, target, 0) == Some(i)
  {
    CumulativeMonotone(pool, i + 1, |pool|);
    var r := SelectFrom(pool, target, 0);
    if r.value < i {
      CumulativeMonotone(pool, r.value + 1, i);
    } else if r.value > i {
      CumulativeMonotone(pool, i + 1, r.value);
    }
  }

  /** The target a roll draws: `rng() * safeTotal`. */
  function Target(roll: real, total: real): real
  {
    roll * total
  }

  /** The divisor of the roll: the total weight, or the pool size when the total is not positive. */
  function SafeTotal(pool: seq<CosmicEvent>): (t: real)
    ensures |pool| > 0 ==> t == CumulativeWeight(pool, |pool|) && t > 0.0
  {
    var totalWeight := CumulativeWeight(pool, |pool|);
    if totalWeight > 0.0 then totalWeight else |pool| as real
  }

  /** The event the scan settles on: the selected one, or the fallback when none is. */
  function PickEvent(pool: seq<CosmicEvent>, target: real, fallback: CosmicEvent): (e: CosmicEvent)
    ensures e in pool || e == fallback
  {
    match SelectFrom(pool, target, 0)
    case Some(i) => pool[i]
    case None => fallback
  }

  /** What resolveCosmicEvent returns: the chosen event and its outcome, or the error for an empty catalogue. */
  function Resolve(s: Snapshot, events: seq<CosmicEvent>, roll: real): (r: Result<(CosmicEvent, Outcome)>)
    ensures r.Failure? <==> |events| == 0
    ensures r.Success? ==> r.value.0 in events && (MeetsRequirement(s, r.value.0) || r.value.0 == events[0])
    ensures r.Success? ==> r.value.1 == ApplyEvent(r.value.0.id, s)
  {
    if |events| == 0 then Failure("No cosmic events defined")
    else
      var pool := Pool(s, events);
      var event := PickEvent(pool, Target(roll, SafeTotal(pool)), events[0]);
      Success((event, ApplyEvent(event.id, s)))
  }

  /** resolveCosmicEvent: the two accumulation loops of the source, the second with its early exit. */
  method ResolveCosmicEvent(s: Snapshot, events: seq<CosmicEvent>, roll: real) returns (r: Result<(CosmicEvent, Outcome)>)
    ensures r == Resolve(s, events, roll)
  {
    if |events| == 0 {
      return Failure("No cosmic events defined");
    }
    var eligible := Eligible(s, events);
    var fallbackEvent := events[0];
    var pool := if |eligible| > 0 then eligible else [fallbackEvent];
    assert pool == Pool(s, events);
    var totalWeight := 0.0;
    for i := 0 to |pool|
      invariant totalWeight == CumulativeWeight(pool, i)
    {
      totalWeight := totalWeight + ClampWeight(pool[i].weight);
    }
    var safeTotal := if totalWeight > 0.0 then totalWeight else |pool| as real;
    assert safeTotal == SafeTotal(pool);
    var target := Target(roll, safeTotal);
    var cumulative := 0.0;
    var selected: Option<CosmicEvent> := None;
    var i := 0;
    while i < |pool|
      invariant 0 <= i <= |pool|
      invariant cumulative == CumulativeWeight(pool, i)
      invariant selected.None? && SelectFrom(pool, target, 0) == SelectFrom(pool, target, i)
    {
      cumulative := cumulative + ClampWeight(pool[i].weight);
      if target <= cumulative {
        selected := Some(pool[i]);
        assert SelectFrom(pool, target, 0) == Some(i);
        break;
      }
      i := i + 1;
    }
    var resolvedEvent := match selected case Some(e) => e case None => fallbackEvent;
    assert resolvedEvent == PickEvent(pool, target, fallbackEvent);
    return Success((resolvedEvent, ApplyEvent(resolvedEvent.id, s)));
  }

  // ---------------------------------------------------------------------------
  // Properties
  // ---------------------------------------------------------------------------

  /** A pool is never empty, so its total weight is positive and `safeTotal` is the total weight. */
  lemma TotalWeightPositive(s: Snapshot, events: seq<CosmicEvent>)
    requires |events| > 0
    ensures CumulativeWeight(Pool(s, events), |Pool(s, events)|) > 0.0
  {
  }

  /** Every roll in [0, 1] lands in some event's interval, so the fallback after the loop is never needed. */
  lemma RollInRangeSelects(pool: seq<CosmicEvent>, roll: real)
    requires |pool| > 0 && 0.0 <= roll <= 1.0
    ensures SelectFrom(pool, Target(roll, SafeTotal(pool)), 0).Some?
  {
    var target := Target(roll, SafeTotal(pool));
    assert target <= CumulativeWeight(pool, |pool|) by {
      ScaleBelow(roll, CumulativeWeight(pool, |pool|));
    }
    ReachableTargetSelects(pool, target);
  }

  lemma ReachableTargetSelects(pool: seq<CosmicEvent>, target: real)
    requires |pool| > 0 && target <= CumulativeWeight(pool, |pool|)
    ensures SelectFrom(pool, target, 0).Some?
  {
  }

  lemma ScaleBelow(a: real, b: real)
    requires 0.0 <= a <= 1.0 && b >= 0.0
    ensures a * b <= b
  {
    assert b - a * b == (1.0 - a) * b;
  }

  /** A roll of 0 picks the first event of the pool. */
  lemma ZeroRollPicksFirst(s: Snapshot, events: seq<CosmicEvent>)
    requires |events| > 0
    ensures Resolve(s, events, 0.0).Success?
    ensures Resolve(s, events, 0.0).value.0 == Pool(s, events)[0]
  {
  }

  /** With the real catalogue the resolver never fails, and Cantor Caravan is always eligible. */
  lemma CatalogueNeverFails(s: Snapshot, roll: real)
    ensures Resolve(s, Catalogue, roll).Success?
    ensures Catalogue[0] in Eligible(s, Catalogue)
  {
  }

  /** At roll 0 an empty-handed snapshot draws Cantor Caravan. */
  lemma BaseSnapshotDrawsCaravan()
    ensures Resolve(Snapshot(0.0, 0.0, 0.0, 0.0, 0.0), Catalogue, 0.0).value.0.id == CantorCaravan
  {
    var s := Snapshot(0.0, 0.0, 0.0, 0.0, 0.0);
    assert MeetsRequirement(s, Catalogue[0]);
    assert Eligible(s, Catalogue)[0] == Catalogue[0] by {
      EligibleKeepsFirst(s, Catalogue);
    }
  }

  /** When the first event is eligible it heads the filtered list. */
  lemma {:induction false} EligibleKeepsFirst(s: Snapshot, events: seq<CosmicEvent>)
    requires |events| > 0 && MeetsRequirement(s, events[0])
    ensures |Eligible(s, events)| > 0 && Eligible(s, events)[0] == events[0]
  {
    if |events| > 1 {
      EligibleKeepsFirst(s, events[..|events| - 1]);
      assert events[..|events| - 1][0] == events[0];
    }
  }
}
