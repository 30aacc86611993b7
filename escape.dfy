/**
 * The per-pixel escape-time evaluation shared by the module worker
 * (src/workers/fractalCpu.worker.ts) and the inlined Blob worker
 * (the template in src/lib/fractal/workerCodeGenerator.ts): the
 * pixel-to-plane mapping, the bounded iteration z <- z^2 + c, and the
 * lightness rule of the colouring.
 */
module Escape {
  import opened Numeric

  datatype Complex = Complex(re: real, im: real)

  /**
   * The dimension that divides the real-axis pixel offset. Both workers divide by
   * the width as written; the repository's own test asks for the height.
   */
  datatype RealDivisor = WidthAsWritten | HeightIntended

  /** Mandelbrot seeds z = 0 and c = the pixel; Julia seeds z = the pixel and c = a constant. */
  datatype Seed = MandelbrotSeed | JuliaSeed(constant: Complex)

  /** One element of a Uint8ClampedArray. */
  type Byte = b: int | 0 <= b < 256

  datatype Rgb = Rgb(r: int, g: int, b: int)

  /**
   * hslToRgb(hue / 360, saturation / 100, lightness / 100) for a pixel that stopped
   * after `iter` iterations with the given lightness. The hue (a fractional power of
   * iter / maxIterations) and the saturation (a sine of depth) are floating point and
   * fixed for one request, so the palette enters the model as a function.
   */
  type Palette = (int, real) -> Rgb

  /** Everything one render request fixes about the pixels. */
  datatype Scene = Scene(
    width: nat,
    height: int,
    zoom: real,
    center: Complex,
    maxIterations: int,
    seed: Seed,
    divisor: RealDivisor)

  /** Imaginary coordinate of pixel row py. */
  function ImagComponent(py: int, height: int, zoom: real, centerImag: real): real
    requires zoom > 0.0 && height > 0
  {
    assert 0.5 * zoom * height as real > 0.0 by { PositiveProduct(0.5 * zoom, height as real); }
    (py as real - height as real / 2.0) / (0.5 * zoom * height as real) + centerImag
  }

  /** Scale of the real axis: half the zoomed divisor dimension. */
  function RealScale(divisor: RealDivisor, width: int, height: int, zoom: real): (s: real)
    requires zoom > 0.0 && width > 0 && height > 0
    ensures s > 0.0
  {
    PositiveProduct(0.5 * zoom, width as real);
    PositiveProduct(0.5 * zoom, height as real);
    match divisor
    case WidthAsWritten => 0.5 * zoom * width as real
    case HeightIntended => 0.5 * zoom * height as real
  }

  /** Real coordinate of pixel column px. */
  function RealComponent(divisor: RealDivisor, px: int, width: int, height: int, zoom: real, centerReal: real): real
    requires zoom > 0.0 && width > 0 && height > 0
  {
    (px as real - width as real / 2.0) / RealScale(divisor, width, height, zoom) + centerReal
  }

  lemma PositiveProduct(a: real, b: real)
    requires a > 0.0 && b > 0.0
    ensures a * b > 0.0
  {
  }

  /** Moving one pixel right adds 1 / scale to the real coordinate. */
  lemma RealStep(divisor: RealDivisor, px: int, width: int, height: int, zoom: real, centerReal: real)
    requires zoom > 0.0 && width > 0 && height > 0
    ensures RealComponent(divisor, px + 1, width, height, zoom, centerReal)
            - RealComponent(divisor, px, width, height, zoom, centerReal)
            == 1.0 / RealScale(divisor, width, height, zoom)
  {
    var s := RealScale(divisor, width, height, zoom);
    var a := px as real - width as real / 2.0;
    assert (a + 1.0) / s - a / s == 1.0 / s;
  }

  /** Moving one pixel down adds 1 / (0.5 zoom height) to the imaginary coordinate. */
  lemma ImagStep(py: int, height: int, zoom: real, centerImag: real)
    requires zoom > 0.0 && height > 0
    ensures ImagComponent(py + 1, height, zoom, centerImag) - ImagComponent(py, height, zoom, centerImag)
            == 1.0 / (0.5 * zoom * height as real)
  {
    PositiveProduct(0.5 * zoom, height as real);
    var s := 0.5 * zoom * height as real;
    var a := py as real - height as real / 2.0;
    assert (a + 1.0) / s - a / s == 1.0 / s;
  }

  /**
   * As written, a pixel spans the same distance along both axes exactly when the
   * canvas is square.
   */
  lemma AsWrittenSquareOnlyWhenSquare(px: int, py: int, width: int, height: int, zoom: real, centerReal: real, centerImag: real)
    requires zoom > 0.0 && width > 0 && height > 0
    ensures (RealComponent(WidthAsWritten, px + 1, width, height, zoom, centerReal)
             - RealComponent(WidthAsWritten, px, width, height, zoom, centerReal)
             == ImagComponent(py + 1, height, zoom, centerImag) - ImagComponent(py, height, zoom, centerImag))
            <==> width == height
  {
    RealStep(WidthAsWritten, px, width, height, zoom, centerReal);
    ImagStep(py, height, zoom, centerImag);
    var sw := 0.5 * zoom * width as real;
    var sh := 0.5 * zoom * height as real;
    PositiveProduct(0.5 * zoom, width as real);
    PositiveProduct(0.5 * zoom, height as real);
    if 1.0 / sw == 1.0 / sh {
      assert sw == sh;
      assert (0.5 * zoom) * (width as real - height as real) == 0.0;
    }
  }

  /** A 200 x 100 canvas: the real axis advances half as fast per pixel as the imaginary axis. */
  lemma AsWrittenStretchesWideCanvas()
    ensures RealComponent(WidthAsWritten, 1, 200, 100, 1.0, 0.0) - RealComponent(WidthAsWritten, 0, 200, 100, 1.0, 0.0) == 0.01
    ensures ImagComponent(1, 100, 1.0, 0.0) - ImagComponent(0, 100, 1.0, 0.0) == 0.02
  {
    RealStep(WidthAsWritten, 0, 200, 100, 1.0, 0.0);
    ImagStep(0, 100, 1.0, 0.0);
  }

  /** With the height as divisor, every pixel is square in the complex plane. */
  lemma IntendedPixelsAreSquare(px: int, py: int, width: int, height: int, zoom: real, centerReal: real, centerImag: real)
    requires zoom > 0.0 && width > 0 && height > 0
    ensures RealComponent(HeightIntended, px + 1, width, height, zoom, centerReal)
            - RealComponent(HeightIntended, px, width, height, zoom, centerReal)
            == ImagComponent(py + 1, height, zoom, centerImag) - ImagComponent(py, height, zoom, centerImag)
  {
    RealStep(HeightIntended, px, width, height, zoom, centerReal);
    ImagStep(py, height, zoom, centerImag);
  }

  /** On a square canvas the mapping as written and the intended one coincide. */
  lemma DivisorsAgreeOnSquareCanvas(px: int, size: int, zoom: real, centerReal: real)
    requires zoom > 0.0 && size > 0
    ensures RealComponent(WidthAsWritten, px, size, size, zoom, centerReal)
            == RealComponent(HeightIntended, px, size, size, zoom, centerReal)
  {
  }

  /**
   * The escape loop: iterate z <- z^2 + c from z = (x, y) while |z|^2 <= 4 and
   * fewer than maxIter iterations ran; the result is the iteration count.
   */
  function EscapeCount(x: real, y: real, cr: real, ci: real, iter: int, maxIter: int): int
    decreases maxIter - iter
  {
    if x * x + y * y <= 4.0 && iter < maxIter then
      EscapeCount(x * x - y * y + cr, 2.0 * x * y + ci, cr, ci, iter + 1, maxIter)
    else
      iter
  }

  /** The loop never runs past the budget, and a spent budget stops it at once. */
  lemma {:induction false} EscapeCountBounds(x: real, y: real, cr: real, ci: real, iter: int, maxIter: int)
    ensures iter <= EscapeCount(x, y, cr, ci, iter, maxIter)
    ensures iter <= maxIter ==> EscapeCount(x, y, cr, ci, iter, maxIter) <= maxIter
    ensures iter >= maxIter ==> EscapeCount(x, y, cr, ci, iter, maxIter) == iter
    decreases maxIter - iter
  {
    if x * x + y * y <= 4.0 && iter < maxIter {
      EscapeCountBounds(x * x - y * y + cr, 2.0 * x * y + ci, cr, ci, iter + 1, maxIter);
    }
  }

  /** A point that starts outside the radius-2 disc escapes after zero iterations. */
  lemma {:induction false} EscapesImmediately(x: real, y: real, cr: real, ci: real, maxIter: int)
    requires x * x + y * y > 4.0
    ensures EscapeCount(x, y, cr, ci, 0, maxIter) == 0
  {
  }

  /** The bounded escape loop of both workers. */
  method Iterate(zx: real, zy: real, cr: real, ci: real, maxIter: int) returns (iter: int)
    ensures iter == EscapeCount(zx, zy, cr, ci, 0, maxIter)
    ensures 0 <= iter
    ensures maxIter >= 0 ==> iter <= maxIter
    ensures maxIter <= 0 ==> iter == 0
  {
    var x, y := zx, zy;
    iter := 0;
    while x * x + y * y <= 4.0 && iter < maxIter
      invariant 0 <= iter
      invariant maxIter >= 0 ==> iter <= maxIter
      invariant maxIter <= 0 ==> iter == 0
      invariant EscapeCount(x, y, cr, ci, iter, maxIter) == EscapeCount(zx, zy, cr, ci, 0, maxIter)
      decreases maxIter - iter
    {
      var xt := x * x - y * y + cr;
      y := 2.0 * x * y + ci;
      x := xt;
      iter := iter + 1;
    }
  }

  /**
   * Lightness in percent: 5 for a pixel that used the whole budget, otherwise
   * 40 + 50 * iter / maxIter clamped to [10, 95].
   */
  function Lightness(iter: int, maxIter: int): (l: real)
    requires iter == maxIter || maxIter != 0
    ensures (l == 5.0) <==> iter == maxIter
    ensures iter != maxIter ==> 10.0 <= l <= 95.0
  {
    if iter == maxIter then 5.0
    else Clamp(40.0 + (iter as real / maxIter as real) * 50.0, 10.0, 95.0)
  }

  /** Storing into a Uint8ClampedArray clamps to [0, 255]. */
  function ToByte(v: int): (b: Byte)
    ensures 0 <= v <= 255 ==> b == v
  {
    if v < 0 then 0 else if v > 255 then 255 else v
  }

  /** The iteration count of pixel (px, py). */
  function PixelIter(scene: Scene, py: int, px: int): int
    requires scene.zoom > 0.0 && 0 <= py < scene.height && 0 <= px < scene.width
  {
    var imag := ImagComponent(py, scene.height, scene.zoom, scene.center.im);
    var re := RealComponent(scene.divisor, px, scene.width, scene.height, scene.zoom, scene.center.re);
    match scene.seed
    case MandelbrotSeed => EscapeCount(0.0, 0.0, re, imag, 0, scene.maxIterations)
    case JuliaSeed(c) => EscapeCount(re, imag, c.re, c.im, 0, scene.maxIterations)
  }

  /** A pixel's iteration count lies in [0, maxIterations] for a non-negative budget. */
  lemma PixelIterBounds(scene: Scene, py: int, px: int)
    requires scene.zoom > 0.0 && 0 <= py < scene.height && 0 <= px < scene.width
    ensures 0 <= PixelIter(scene, py, px)
    ensures scene.maxIterations >= 0 ==> PixelIter(scene, py, px) <= scene.maxIterations
    ensures scene.maxIterations <= 0 ==> PixelIter(scene, py, px) == 0
  {
    var imag := ImagComponent(py, scene.height, scene.zoom, scene.center.im);
    var re := RealComponent(scene.divisor, px, scene.width, scene.height, scene.zoom, scene.center.re);
    match scene.seed
    case MandelbrotSeed => EscapeCountBounds(0.0, 0.0, re, imag, 0, scene.maxIterations);
    case JuliaSeed(c) => EscapeCountBounds(re, imag, c.re, c.im, 0, scene.maxIterations);
  }

  /** The four RGBA bytes of pixel (px, py). */
  function PixelBytes(scene: Scene, palette: Palette, py: int, px: int): (bytes: seq<Byte>)
    requires scene.zoom > 0.0 && 0 <= py < scene.height && 0 <= px < scene.width
    ensures |bytes| == 4 && bytes[3] == 255
  {
    var iter := PixelIter(scene, py, px);
    PixelIterBounds(scene, py, px);
    var colour := palette(iter, Lightness(iter, scene.maxIterations));
    [ToByte(colour.r), ToByte(colour.g), ToByte(colour.b), 255]
  }
}
