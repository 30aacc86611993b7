/**
 * Parameter derivations shared by the CPU and GPU fractal renderers
 * (src/lib/fractal/fractalMath.ts). Zoom and saturation use a fractional
 * power and a sine; they enter the model as opaque inputs.
 */
module FractalMath {
  import opened Numeric

  /** Upper bound on the escape-time iteration budget. */
  const IterationCap: int := 1000

  /** calculateMaxIterations: floor(40 + 14 depth + 12 amplifiers), capped at 1000 (no lower clamp). */
  function MaxIterations(depth: real, amplifiers: real): (n: int)
    ensures n <= IterationCap
  {
    MinInt(IterationCap, Floor(40.0 + depth * 14.0 + amplifiers * 12.0))
  }

  /** calculatePaletteShift: ((17 depth + 45 amplifiers) % 360 + 360) % 360 with JavaScript's `%`. */
  function PaletteShift(depth: real, amplifiers: real): (h: real)
    ensures 0.0 <= h < 360.0
  {
    var inner := JsMod(depth * 17.0 + amplifiers * 45.0, 360.0);
    JsModBounded(depth * 17.0 + amplifiers * 45.0, 360.0);
    JsModNonNegative(inner + 360.0, 360.0);
    JsMod(inner + 360.0, 360.0)
  }

  /** The record calculateFractalParameters builds. */
  datatype FractalParameters = FractalParameters(
    maxIterations: int,
    zoom: real,
    paletteShift: real,
    saturation: real)

  /**
   * calculateFractalParameters. `zoom` stands for calculateZoom(depth, amplifiers)
   * and `saturation` for calculateSaturation(depth), both computed outside the model.
   */
  function CalculateFractalParameters(depth: real, amplifiers: real, zoom: real, saturation: real): (p: FractalParameters)
    ensures p.maxIterations <= IterationCap
    ensures 0.0 <= p.paletteShift < 360.0
    ensures p.zoom == zoom && p.saturation == saturation
  {
    FractalParameters(MaxIterations(depth, amplifiers), zoom, PaletteShift(depth, amplifiers), saturation)
  }

  /** The fields agree with the individual derivations applied to the same inputs. */
  lemma ParametersAgreeWithDerivations(depth: real, amplifiers: real, zoom: real, saturation: real)
    ensures CalculateFractalParameters(depth, amplifiers, zoom, saturation).maxIterations == MaxIterations(depth, amplifiers)
    ensures CalculateFractalParameters(depth, amplifiers, zoom, saturation).paletteShift == PaletteShift(depth, amplifiers)
  {
  }

  lemma MaxIterationsExamples()
    ensures MaxIterations(0.0, 0.0) == 40
    ensures MaxIterations(5.0, 2.0) == 134
    ensures MaxIterations(100.0, 100.0) == 1000
  {
  }

  /** The budget never decreases when depth or amplifiers grow. */
  lemma MaxIterationsMonotone(d1: real, a1: real, d2: real, a2: real)
    requires d1 <= d2 && a1 <= a2
    ensures MaxIterations(d1, a1) <= MaxIterations(d2, a2)
  {
    FloorMonotone(40.0 + d1 * 14.0 + a1 * 12.0, 40.0 + d2 * 14.0 + a2 * 12.0);
  }

  /** Non-negative inputs give at least 40 iterations. */
  lemma MaxIterationsAtLeastBase(depth: real, amplifiers: real)
    requires depth >= 0.0 && amplifiers >= 0.0
    ensures 40 <= MaxIterations(depth, amplifiers)
  {
    FloorMonotone(40.0, 40.0 + depth * 14.0 + amplifiers * 12.0);
  }

  /** There is no lower clamp: a negative depth drives the budget below one. */
  lemma NegativeDepthBudget()
    ensures MaxIterations(-3.0, 0.0) == -2
  {
  }

  lemma PaletteShiftAtOrigin()
    ensures PaletteShift(0.0, 0.0) == 0.0
  {
  }
}
