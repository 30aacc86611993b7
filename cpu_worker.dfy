/**
 * The module worker of src/workers/fractalCpu.worker.ts: one request renders
 * the Mandelbrot set around `parameter` in tiles and posts each tile, then
 * "done".
 */
module CpuWorker {
  import opened Escape
  import opened TileRender
  import FractalMath

  /** The fields of a render request. */
  datatype WorkerRequest = WorkerRequest(
    width: nat,
    height: int,
    depth: real,
    parameter: Complex,
    amplifiers: real,
    tileHeight: int)

  /**
   * The scene a request describes. `zoom` stands for calculateZoom(depth, amplifiers),
   * a positive fractional power computed outside the model.
   */
  function SceneOf(request: WorkerRequest, zoom: real): (scene: Scene)
    ensures scene.seed == MandelbrotSeed && scene.divisor == WidthAsWritten
    ensures scene.maxIterations == FractalMath.MaxIterations(request.depth, request.amplifiers)
    ensures scene.width == request.width && scene.height == request.height
    ensures scene.center == request.parameter && scene.zoom == zoom
  {
    Scene(request.width, request.height, zoom, request.parameter,
          FractalMath.MaxIterations(request.depth, request.amplifiers), MandelbrotSeed, WidthAsWritten)
  }

  /**
   * self.onmessage: render the request tile by tile. The palette is the colouring
   * the request's depth and palette shift fix.
   */
  method OnMessage(request: WorkerRequest, zoom: real, palette: Palette) returns (posted: seq<Message>)
    requires zoom > 0.0 && request.tileHeight > 0
    ensures posted == FrameMessages(SceneOf(request, zoom), palette, request.tileHeight)
    ensures |posted| == TileCount(request.height, request.tileHeight, 0) + 1
    ensures posted[|posted| - 1] == Done
    ensures forall i :: 0 <= i < |posted| - 1 ==>
              posted[i].Tile? && posted[i].width == request.width
              && posted[i].y == i * request.tileHeight
              && 0 < posted[i].height <= request.tileHeight
              && |posted[i].buffer| == request.width * posted[i].height * 4
  {
    var scene := SceneOf(request, zoom);
    posted := RenderFrame(scene, palette, request.tileHeight);
    FrameEndsWithDone(scene, palette, request.tileHeight);
    TilesPartitionRows(scene, palette, request.tileHeight, 0);
  }
}
