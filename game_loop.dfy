/**
 * The animation-frame loop of src/app/hooks/useGameLoop.ts: every frame adds
 * the production of the elapsed time (at most 50 ms) to the store and, with
 * the auto-tuner unlocked, turns the branching angle toward the suggested one
 * by at most 8 degrees per second. The frame clock is the parameter `now`.
 */
module GameLoop {
  import opened Numeric
  import opened GameStore

  datatype Option<T> = None | Some(value: T)

  /** The rates the hook receives: resource rates and the angle the shading suggests. */
  datatype GameLoopRates = GameLoopRates(photosynthesis: real, sap: real, suggestedAngle: real)

  function ResourceRatesOf(rates: GameLoopRates): ResourceRates
  {
    ResourceRates(rates.photosynthesis, rates.sap)
  }

  /** The frame's time step in seconds: the elapsed milliseconds, capped at 0.05 s. */
  function FrameDelta(now: real, last: real): (dt: real)
    ensures dt <= 0.05
    ensures now - last <= 50.0 ==> dt * 1000.0 == now - last
    ensures now - last >= 50.0 ==> dt == 0.05
    ensures dt >= 0.0 <==> now >= last
  {
    Min(0.05, (now - last) / 1000.0)
  }

  /** The auto-tuner's next angle, or None when the angle is within 0.2 of the target. */
  function TunerStep(current: real, target: real, dt: real): (next: Option<real>)
    ensures next.None? <==> Abs(target - current) <= 0.2
  {
    var delta := target - current;
    if Abs(delta) > 0.2 then
      var step := Sign(delta) * Min(Abs(delta), dt * 8.0);
      Some(current + step)
    else None
  }

  /**
   * What a frame does to the store and to the hook's angle reference: add the
   * resources, then, with the auto-tuner, set the angle to the next step (the
   * reference keeps the unclamped value).
   */
  function TickStep(s: GameState, angleRef: real, dt: real, rates: GameLoopRates): (r: (GameState, real))
    ensures r.0.(angle := s.angle) == AddResourcesStep(s, dt, ResourceRatesOf(rates))
    ensures !s.unlocks.autoTuner ==> r == (AddResourcesStep(s, dt, ResourceRatesOf(rates)), angleRef)
  {
    var added := AddResourcesStep(s, dt, ResourceRatesOf(rates));
    if added.unlocks.autoTuner then
      match TunerStep(angleRef, rates.suggestedAngle, dt)
      case Some(next) => (SetAngleStep(added, next), next)
      case None => (added, angleRef)
    else (added, angleRef)
  }

  // ---------------------------------------------------------------------------
  // Properties of the tuner and of a frame
  // ---------------------------------------------------------------------------

  /** A tuner step moves by min(|delta|, 8 dt) toward the target and never past it. */
  lemma TunerNeverOvershoots(current: real, target: real, dt: real)
    requires dt >= 0.0
    requires TunerStep(current, target, dt).Some?
    ensures var next := TunerStep(current, target, dt).value;
            && Abs(next - current) == Min(Abs(target - current), dt * 8.0)
            && (current <= target ==> current <= next <= target)
            && (target <= current ==> target <= next <= current)
  {
  }

  /** With a positive time step each tuner step strictly narrows the gap to the target. */
  lemma TunerApproaches(current: real, target: real, dt: real)
    requires dt > 0.0
    requires TunerStep(current, target, dt).Some?
    ensures Abs(target - TunerStep(current, target, dt).value) < Abs(target - current)
  {
  }

  /** When 8 dt covers the gap the tuner lands exactly on the target. */
  lemma TunerLandsWhenClose(current: real, target: real, dt: real)
    requires Abs(target - current) > 0.2 && dt * 8.0 >= Abs(target - current)
    ensures TunerStep(current, target, dt) == Some(target)
  {
  }

  /** A frame keeps the store's invariant. */
  lemma TickKeepsInvariant(s: GameState, angleRef: real, dt: real, rates: GameLoopRates)
    requires Invariant(s)
    ensures Invariant(TickStep(s, angleRef, dt, rates).0)
  {
  }

  /** With non-negative rates and a forward clock, a frame leaves a solvent store solvent. */
  lemma TickKeepsSolvent(s: GameState, angleRef: real, dt: real, rates: GameLoopRates)
    requires Solvent(s) && rates.photosynthesis >= 0.0 && rates.sap >= 0.0 && dt >= 0.0
    ensures Solvent(TickStep(s, angleRef, dt, rates).0)
  {
    var r := TickStep(s, angleRef, dt, rates);
    if dt > 0.0 {
      assert rates.photosynthesis * dt >= 0.0;
      assert rates.sap * dt >= 0.0;
    }
    assert r.0.photosynthesis == AddResourcesStep(s, dt, ResourceRatesOf(rates)).photosynthesis;
    assert r.0.sap == AddResourcesStep(s, dt, ResourceRatesOf(rates)).sap;
  }

  /**
   * When the reference agrees with the store and the suggested angle lies in
   * [0, 90], the tuner's step never needs the store's clamp, so reference and
   * store still agree after the frame.
   */
  lemma TickKeepsAngleInSync(s: GameState, dt: real, rates: GameLoopRates)
    requires 0.0 <= s.angle <= 90.0 && 0.0 <= rates.suggestedAngle <= 90.0 && dt >= 0.0
    ensures TickStep(s, s.angle, dt, rates).0.angle == TickStep(s, s.angle, dt, rates).1
  {
    var next := TunerStep(s.angle, rates.suggestedAngle, dt);
    if s.unlocks.autoTuner && next.Some? {
      TunerNeverOvershoots(s.angle, rates.suggestedAngle, dt);
    }
  }

  // ---------------------------------------------------------------------------
  // The hook
  // ---------------------------------------------------------------------------

  /** The running loop: the last frame time, the hook's refs and the store it drives. */
  class FrameLoop {
    var last: real
    var angleRef: real
    var ratesRef: GameLoopRates
    const store: Store

    ghost predicate Valid()
      reads this, store
    {
      store.Valid()
    }

    /** Mounting the hook: the refs take the current rates and angle, the clock its start time. */
    constructor(store: Store, rates: GameLoopRates, start: real)
      requires store.Valid()
      ensures this.store == store && last == start && angleRef == store.state.angle && ratesRef == rates
      ensures Valid()
    {
      this.store := store;
      last := start;
      angleRef := store.state.angle;
      ratesRef := rates;
    }

    /** The effect that copies new rates into the ref. */
    method UpdateRates(rates: GameLoopRates)
      modifies this
      ensures ratesRef == rates && last == old(last) && angleRef == old(angleRef)
    {
      ratesRef := rates;
    }

    /** The effect that copies the store's angle into the ref when it changes. */
    method SyncAngle()
      modifies this
      ensures angleRef == store.state.angle && last == old(last) && ratesRef == old(ratesRef)
    {
      angleRef := store.state.angle;
    }

    /** One animation frame. */
    method Tick(now: real)
      requires Valid()
      modifies this, store
      ensures last == now && ratesRef == old(ratesRef)
      ensures (store.state, angleRef) == TickStep(old(store.state), old(angleRef), FrameDelta(now, old(last)), ratesRef)
      ensures Valid()
    {
      var dt := Min(0.05, (now - last) / 1000.0);
      last := now;
      var activeRates := ratesRef;
      store.AddResources(dt, ResourceRates(activeRates.photosynthesis, activeRates.sap));
      if store.state.unlocks.autoTuner {
        var target := activeRates.suggestedAngle;
        var current := angleRef;
        var delta := target - current;
        if Abs(delta) > 0.2 {
          var step := Sign(delta) * Min(Abs(delta), dt * 8.0);
          var next := current + step;
          angleRef := next;
          store.SetAngle(next);
        }
      }
    }
  }
}
