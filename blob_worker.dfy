/**
 * The inlined worker whose source text src/lib/fractal/workerCodeGenerator.ts
 * generates for a Blob URL: the same tile loop as the module worker, with an
 * optional formula ("julia" seeds z with the pixel and c with a constant) and
 * JavaScript `||` fallbacks for missing or zero fields.
 */
module BlobWorker {
  import opened Escape
  import opened TileRender
  import FractalMath
  import CpuWorker

  datatype Option<T> = None | Some(value: T)

  /** The fields of a request to the inlined worker; the optional ones may be missing. */
  datatype BlobRequest = BlobRequest(
    width: nat,
    height: int,
    depth: real,
    parameter: Option<Complex>,
    amplifiers: real,
    tileHeight: int,
    formula: Option<string>,
    juliaConstant: Option<Complex>)

  /** `formula || "mandelbrot"`: a missing or empty formula means Mandelbrot. */
  function Mode(formula: Option<string>): (mode: string)
    ensures mode != ""
    ensures formula.Some? && formula.value != "" ==> mode == formula.value
  {
    if formula.Some? && formula.value != "" then formula.value else "mandelbrot"
  }

  /** `v || fallback` for a number: zero is falsy and falls back. */
  function OrElse(v: real, fallback: real): (r: real)
    ensures r == (if v == 0.0 then fallback else v)
  {
    if v != 0.0 then v else fallback
  }

  /** `(parameter && parameter.real) || 0` and the same for the imaginary part. */
  function Center(parameter: Option<Complex>): (c: Complex)
    ensures parameter.None? ==> c == Complex(0.0, 0.0)
    ensures parameter.Some? ==> c == parameter.value
  {
    match parameter
    case None => Complex(0.0, 0.0)
    case Some(p) => Complex(OrElse(p.re, 0.0), OrElse(p.im, 0.0))
  }

  /** `(juliaConstant && juliaConstant.real) || centerReal`, and likewise for the imaginary part. */
  function JuliaConstant(juliaConstant: Option<Complex>, center: Complex): (c: Complex)
    ensures juliaConstant.None? ==> c == center
    ensures juliaConstant.Some? ==>
              c.re == (if juliaConstant.value.re == 0.0 then center.re else juliaConstant.value.re)
              && c.im == (if juliaConstant.value.im == 0.0 then center.im else juliaConstant.value.im)
  {
    match juliaConstant
    case None => center
    case Some(k) => Complex(OrElse(k.re, center.re), OrElse(k.im, center.im))
  }

  /** The scene the inlined worker renders for a request. */
  function SceneOf(request: BlobRequest, zoom: real): (scene: Scene)
    ensures scene.divisor == WidthAsWritten
    ensures scene.center == Center(request.parameter)
    ensures scene.seed.JuliaSeed? <==> Mode(request.formula) == "julia"
    ensures scene.seed.JuliaSeed? ==> scene.seed.constant == JuliaConstant(request.juliaConstant, scene.center)
    ensures scene.maxIterations == FractalMath.MaxIterations(request.depth, request.amplifiers)
    ensures scene.width == request.width && scene.height == request.height && scene.zoom == zoom
  {
    var center := Center(request.parameter);
    var seed := if Mode(request.formula) == "julia" then JuliaSeed(JuliaConstant(request.juliaConstant, center)) else MandelbrotSeed;
    Scene(request.width, request.height, zoom, center,
          FractalMath.MaxIterations(request.depth, request.amplifiers), seed, WidthAsWritten)
  }

  /** self.onmessage of the generated worker. */
  method OnMessage(request: BlobRequest, zoom: real, palette: Palette) returns (posted: seq<Message>)
    requires zoom > 0.0 && request.tileHeight > 0
    ensures posted == FrameMessages(SceneOf(request, zoom), palette, request.tileHeight)
    ensures |posted| == TileCount(request.height, request.tileHeight, 0) + 1
    ensures posted[|posted| - 1] == Done
  {
    var scene := SceneOf(request, zoom);
    posted := RenderFrame(scene, palette, request.tileHeight);
    FrameEndsWithDone(scene, palette, request.tileHeight);
  }

  /** The request the module worker would receive for the same fields. */
  function AsModuleRequest(request: BlobRequest): CpuWorker.WorkerRequest
  {
    CpuWorker.WorkerRequest(request.width, request.height, request.depth,
                            Center(request.parameter), request.amplifiers, request.tileHeight)
  }

  /**
   * Without a "julia" formula the inlined worker draws exactly the scene of the
   * module worker, so both post the same messages.
   */
  lemma MandelbrotMatchesModuleWorker(request: BlobRequest, zoom: real, palette: Palette)
    requires zoom > 0.0 && request.tileHeight > 0
    requires Mode(request.formula) != "julia"
    ensures SceneOf(request, zoom) == CpuWorker.SceneOf(AsModuleRequest(request), zoom)
    ensures FrameMessages(SceneOf(request, zoom), palette, request.tileHeight)
            == FrameMessages(CpuWorker.SceneOf(AsModuleRequest(request), zoom), palette, request.tileHeight)
  {
  }

  /** A missing formula means Mandelbrot; "julia" switches the seeding. */
  lemma ModeExamples()
    ensures Mode(None) == "mandelbrot"
    ensures Mode(Some("")) == "mandelbrot"
    ensures Mode(Some("julia")) == "julia"
  {
  }

  /** A Julia constant of zero falls back to the view centre, component by component. */
  lemma ZeroJuliaConstantFallsBack(center: Complex)
    ensures JuliaConstant(Some(Complex(0.0, 0.0)), center) == center
    ensures JuliaConstant(None, center) == center
  {
  }
}
