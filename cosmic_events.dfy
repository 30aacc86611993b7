/**
 * The catalogue of cosmic events (src/data/cosmicEvents.ts): six events, each
 * with optional depth and resonance gates, a weight and an outcome computed
 * from a snapshot of the player's state. The log messages are left out.
 */
module CosmicEvents {
  import opened Numeric

  datatype Option<T> = None | Some(value: T)

  /** The player's state an event reads. */
  datatype Snapshot = Snapshot(
    depth: real,
    resonance: real,
    anomalies: real,
    ascensionLevel: real,
    dimensionalPoints: real)

  /** The changes an event makes; an absent field changes nothing. */
  datatype Outcome = Outcome(
    dataDelta: Option<real>,
    resonanceDelta: Option<real>,
    anomaliesDelta: Option<real>,
    depthDelta: Option<real>,
    dimensionalPointsDelta: Option<real>)

  datatype EventId =
    | CantorCaravan
    | SierpinskiStorm
    | HilbertScouts
    | LighthouseOfJulia
    | ParadoxAuditors
    | TemporalTeaTime

  /** An event of the catalogue; `apply` is `ApplyEvent(id, ·)`. */
  datatype CosmicEvent = CosmicEvent(id: EventId, minDepth: Option<real>, minResonance: Option<real>, weight: real)

  /** COSMIC_EVENTS, in catalogue order. */
  const Catalogue: seq<CosmicEvent> := [
    CosmicEvent(CantorCaravan, None, None, 3.2),
    CosmicEvent(SierpinskiStorm, None, None, 2.1),
    CosmicEvent(HilbertScouts, Some(4.0), None, 2.0),
    CosmicEvent(LighthouseOfJulia, Some(6.0), Some(6.0), 1.4),
    CosmicEvent(ParadoxAuditors, Some(2.0), None, 1.1),
    CosmicEvent(TemporalTeaTime, None, Some(3.0), 1.6)
  ]

  /** Cantor Caravan: round(60 + 12 depth + 4 resonance) data and one resonance. */
  function Caravan(s: Snapshot): Outcome
  {
    var dataGain := Round(60.0 + s.depth * 12.0 + s.resonance * 4.0);
    Outcome(Some(dataGain as real), Some(1.0), None, None, None)
  }

  /** Sierpinski Storm: lose round(30 + 8 depth) data, gain 3 + round(anomalies / 2) resonance and one anomaly. */
  function Storm(s: Snapshot): Outcome
  {
    var lost := Round(30.0 + s.depth * 8.0);
    var resonanceGain := 3 + Round(s.anomalies * 0.5);
    Outcome(Some(-lost as real), Some(resonanceGain as real), Some(1.0), None, None)
  }

  /** Hilbert Scouts: 0.4 + 0.1 ascension depth, and one anomaly calmed when there is any. */
  function Scouts(s: Snapshot): Outcome
  {
    var depthGain := 0.4 + s.ascensionLevel * 0.1;
    var anomalyDrop := if s.anomalies > 0.0 then -1.0 else 0.0;
    Outcome(None, None, Some(anomalyDrop), Some(depthGain), None)
  }

  /** Lighthouse of Julia: 4 + round(1.5 ascension) resonance and round(85 + 2 resonance) data. */
  function Lighthouse(s: Snapshot): Outcome
  {
    var resonanceGain := 4 + Round(s.ascensionLevel * 1.5);
    var dataGain := Round(85.0 + s.resonance * 2.0);
    Outcome(Some(dataGain as real), Some(resonanceGain as real), None, None, None)
  }

  /** Paradox Auditors: remove up to two anomalies and refund as many Dimensional Points. */
  function Auditors(s: Snapshot): Outcome
  {
    var removedAnomalies := Min(s.anomalies, 2.0);
    var dpGain := if removedAnomalies > 0.0 then removedAnomalies else 0.0;
    Outcome(None, None, Some(-removedAnomalies), None, Some(dpGain))
  }

  /** Temporal Tea Time: spend up to two resonance for 40 + 30 per unit data, or 22 data for nothing. */
  function Tea(s: Snapshot): Outcome
  {
    var resonanceSpend := Min(s.resonance, 2.0);
    var dataGain := if resonanceSpend > 0.0 then 40.0 + resonanceSpend * 30.0 else 22.0;
    Outcome(Some(dataGain), Some(-resonanceSpend), None, None, None)
  }

  /** `event.apply(snapshot)`. */
  function ApplyEvent(id: EventId, s: Snapshot): Outcome
  {
    match id
    case CantorCaravan => Caravan(s)
    case SierpinskiStorm => Storm(s)
    case HilbertScouts => Scouts(s)
    case LighthouseOfJulia => Lighthouse(s)
    case ParadoxAuditors => Auditors(s)
    case TemporalTeaTime => Tea(s)
  }

  // ---------------------------------------------------------------------------
  // Properties of the catalogue
  // ---------------------------------------------------------------------------

  /** Cantor Caravan opens the catalogue, has no gates, and pays out at least 60 data for a non-negative state. */
  lemma CaravanIsUngatedFallback(s: Snapshot)
    requires s.depth >= 0.0 && s.resonance >= 0.0
    ensures Catalogue[0].id == CantorCaravan && Catalogue[0].minDepth.None? && Catalogue[0].minResonance.None?
    ensures Caravan(s).dataDelta.Some? && Caravan(s).dataDelta.value >= 60.0
  {
    RoundMonotone(60.0, 60.0 + s.depth * 12.0 + s.resonance * 4.0);
  }

  /** The storm always adds exactly one anomaly and, at non-negative depth, loses at least 30 data. */
  lemma StormAddsOneAnomaly(s: Snapshot)
    ensures Storm(s).anomaliesDelta == Some(1.0)
    ensures s.depth >= 0.0 ==> Storm(s).dataDelta.value <= -30.0
  {
    if s.depth >= 0.0 {
      RoundMonotone(30.0, 30.0 + s.depth * 8.0);
    }
  }

  /** The scouts calm one anomaly exactly when there is one, and never push the count below zero. */
  lemma ScoutsCalmOnlyExistingAnomalies(s: Snapshot)
    ensures Scouts(s).anomaliesDelta == Some(if s.anomalies > 0.0 then -1.0 else 0.0)
    ensures s.anomalies >= 1.0 || s.anomalies <= 0.0 ==> Max(s.anomalies, 0.0) + Scouts(s).anomaliesDelta.value >= 0.0
  {
  }

  /**
   * The lighthouse, gated at resonance 6, always brings at least 97 data, and
   * with a non-negative ascension level at least 4 resonance.
   */
  lemma LighthouseRewards(s: Snapshot)
    requires s.resonance >= 6.0
    ensures Lighthouse(s).dataDelta.Some? && Lighthouse(s).dataDelta.value >= 97.0
    ensures s.ascensionLevel >= 0.0 ==> Lighthouse(s).resonanceDelta.value >= 4.0
  {
    RoundMonotone(97.0, 85.0 + s.resonance * 2.0);
    if s.ascensionLevel >= 0.0 {
      RoundMonotone(0.0, s.ascensionLevel * 1.5);
    }
  }

  /**
   * The auditors remove min(anomalies, 2) anomalies and refund exactly that many
   * Dimensional Points, so a non-negative anomaly count stays non-negative.
   */
  lemma AuditorsRefundRemoved(s: Snapshot)
    requires s.anomalies >= 0.0
    ensures Auditors(s).anomaliesDelta == Some(-Min(s.anomalies, 2.0))
    ensures Auditors(s).dimensionalPointsDelta == Some(Min(s.anomalies, 2.0))
    ensures s.anomalies + Auditors(s).anomaliesDelta.value >= 0.0
  {
  }

  /** Tea spends min(resonance, 2) resonance for 40 + 30 per unit data, or yields 22 data when nothing is spent. */
  lemma TeaTrade(s: Snapshot)
    ensures Tea(s).resonanceDelta == Some(-Min(s.resonance, 2.0))
    ensures s.resonance > 0.0 ==> Tea(s).dataDelta == Some(40.0 + Min(s.resonance, 2.0) * 30.0)
    ensures s.resonance <= 0.0 ==> Tea(s).dataDelta == Some(22.0)
    ensures s.resonance >= 3.0 ==> Tea(s).dataDelta == Some(100.0) && Tea(s).resonanceDelta == Some(-2.0)
  {
  }

  /** The gates: scouts at depth 4, lighthouse at depth 6 and resonance 6, auditors at depth 2, tea at resonance 3. */
  lemma Gates()
    ensures Catalogue[2].id == HilbertScouts && Catalogue[2].minDepth == Some(4.0) && Catalogue[2].minResonance.None?
    ensures Catalogue[3].id == LighthouseOfJulia && Catalogue[3].minDepth == Some(6.0) && Catalogue[3].minResonance == Some(6.0)
    ensures Catalogue[4].id == ParadoxAuditors && Catalogue[4].minDepth == Some(2.0) && Catalogue[4].minResonance.None?
    ensures Catalogue[5].id == TemporalTeaTime && Catalogue[5].minDepth.None? && Catalogue[5].minResonance == Some(3.0)
  {
  }
}
