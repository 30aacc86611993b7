/**
 * The tile loop both fractal workers run: rows are grouped into horizontal
 * tiles of at most tileHeight rows, each tile is filled pixel by pixel into an
 * RGBA buffer of width * h * 4 bytes and posted, and a final "done" message
 * follows the last tile.
 */
module TileRender {
  import opened Numeric
  import opened Escape

  /** A message posted by a worker. */
  datatype Message =
    | Tile(y: int, height: int, width: int, buffer: seq<Byte>)
    | Done

  /** The RGBA bytes of the first n pixels of row py. */
  function RowBytes(scene: Scene, palette: Palette, py: int, n: int): seq<Byte>
    requires scene.zoom > 0.0 && 0 <= py < scene.height && 0 <= n <= scene.width
  {
    if n == 0 then [] else RowBytes(scene, palette, py, n - 1) + PixelBytes(scene, palette, py, n - 1)
  }

  /** The RGBA bytes of rows first .. last - 1, row after row. */
  function RowsBytes(scene: Scene, palette: Palette, first: int, last: int): seq<Byte>
    requires scene.zoom > 0.0 && 0 <= first <= last <= scene.height
    decreases last - first
  {
    if last == first then [] else RowsBytes(scene, palette, first, last - 1) + RowBytes(scene, palette, last - 1, scene.width)
  }

  /** The buffer of the tile starting at row y0 with h rows. */
  function TileBytes(scene: Scene, palette: Palette, y0: int, h: int): seq<Byte>
    requires scene.zoom > 0.0 && 0 <= y0 && 0 <= h && y0 + h <= scene.height
  {
    RowsBytes(scene, palette, y0, y0 + h)
  }

  /** Every fourth byte, the alpha channel, is 255. */
  predicate AlphaOpaque(bytes: seq<Byte>)
  {
    forall i :: 0 <= i < |bytes| && i % 4 == 3 ==> bytes[i] == 255
  }

  lemma AlphaOpaqueConcat(a: seq<Byte>, b: seq<Byte>)
    requires |a| % 4 == 0 && AlphaOpaque(a) && AlphaOpaque(b)
    ensures AlphaOpaque(a + b)
  {
    forall i | 0 <= i < |a + b| && i % 4 == 3
      ensures (a + b)[i] == 255
    {
      if i >= |a| {
        assert (i - |a|) % 4 == 3;
        assert (a + b)[i] == b[i - |a|];
      }
    }
  }

  lemma {:induction false} RowBytesShape(scene: Scene, palette: Palette, py: int, n: int)
    requires scene.zoom > 0.0 && 0 <= py < scene.height && 0 <= n <= scene.width
    ensures |RowBytes(scene, palette, py, n)| == n * 4
    ensures |RowBytes(scene, palette, py, n)| % 4 == 0
    ensures AlphaOpaque(RowBytes(scene, palette, py, n))
  {
    if n > 0 {
      var before := RowBytes(scene, palette, py, n - 1);
      var pixel := PixelBytes(scene, palette, py, n - 1);
      assert RowBytes(scene, palette, py, n) == before + pixel;
      RowBytesShape(scene, palette, py, n - 1);
      assert AlphaOpaque(pixel) by {
        forall i | 0 <= i < |pixel| && i % 4 == 3
          ensures pixel[i] == 255
        {
          assert i == 3;
        }
      }
      AlphaOpaqueConcat(before, pixel);
      FourDividesSum(|before|, |pixel|);
    }
  }

  /** A buffer of several rows holds width * 4 bytes per row. */
  lemma {:induction false} RowsBytesLength(scene: Scene, palette: Palette, first: int, last: int)
    requires scene.zoom > 0.0 && 0 <= first <= last <= scene.height
    ensures |RowsBytes(scene, palette, first, last)| == (last - first) * (scene.width * 4)
    decreases last - first
  {
    if last > first {
      RowsBytesLength(scene, palette, first, last - 1);
      RowBytesShape(scene, palette, last - 1, scene.width);
      RowFits(last - 1 - first, last - first, scene.width * 4);
    }
  }

  /** Every alpha byte of a buffer of several rows is 255. */
  lemma {:induction false} RowsBytesOpaque(scene: Scene, palette: Palette, first: int, last: int)
    requires scene.zoom > 0.0 && 0 <= first <= last <= scene.height
    ensures |RowsBytes(scene, palette, first, last)| % 4 == 0
    ensures AlphaOpaque(RowsBytes(scene, palette, first, last))
    decreases last - first
  {
    if last > first {
      var before := RowsBytes(scene, palette, first, last - 1);
      var row := RowBytes(scene, palette, last - 1, scene.width);
      assert RowsBytes(scene, palette, first, last) == before + row;
      RowsBytesOpaque(scene, palette, first, last - 1);
      RowBytesShape(scene, palette, last - 1, scene.width);
      AlphaOpaqueConcat(before, row);
      FourDividesSum(|before|, |row|);
    }
  }

  lemma FourDividesSum(a: int, b: int)
    requires a % 4 == 0 && b % 4 == 0
    ensures (a + b) % 4 == 0
  {
  }

  lemma MulMonotone(a: int, b: int, c: int)
    requires a <= b && 0 <= c
    ensures a * c <= b * c
  {
    assert b * c - a * c == (b - a) * c;
  }

  /** A tile's buffer holds width * h * 4 bytes, and every alpha byte is 255. */
  lemma TileShape(scene: Scene, palette: Palette, y0: int, h: int)
    requires scene.zoom > 0.0 && 0 <= y0 && 0 <= h && y0 + h <= scene.height
    ensures |TileBytes(scene, palette, y0, h)| == scene.width * h * 4
    ensures AlphaOpaque(TileBytes(scene, palette, y0, h))
  {
    RowsBytesLength(scene, palette, y0, y0 + h);
    RowsBytesOpaque(scene, palette, y0, y0 + h);
    RowsTimesWidth(h, scene.width);
  }

  lemma RowsTimesWidth(h: int, w: int)
    ensures h * (w * 4) == w * h * 4
  {
  }

  lemma NextTileStart(y0: int, tileHeight: int, i: int)
    ensures (y0 + tileHeight) + (i - 1) * tileHeight == y0 + i * tileHeight
  {
  }

  /** The escape loop for one pixel, seeded as the scene says. */
  method PixelIteration(scene: Scene, py: int, px: int, imaginaryComponent: real) returns (iter: int)
    requires scene.zoom > 0.0 && 0 <= py < scene.height && 0 <= px < scene.width
    requires imaginaryComponent == ImagComponent(py, scene.height, scene.zoom, scene.center.im)
    ensures iter == PixelIter(scene, py, px)
  {
    var realComponent := RealComponent(scene.divisor, px, scene.width, scene.height, scene.zoom, scene.center.re);
    match scene.seed {
      case MandelbrotSeed =>
        iter := Iterate(0.0, 0.0, realComponent, imaginaryComponent, scene.maxIterations);
      case JuliaSeed(c) =>
        iter := Iterate(realComponent, imaginaryComponent, c.re, c.im, scene.maxIterations);
    }
  }

  /**
   * Fill one tile's buffer pixel by pixel, as the inner two loops of both workers do,
   * and hand back its contents.
   */
  method RenderTile(scene: Scene, palette: Palette, y0: int, h: int) returns (bytes: seq<Byte>)
    requires scene.zoom > 0.0 && 0 <= y0 && 0 <= h && y0 + h <= scene.height
    ensures bytes == TileBytes(scene, palette, y0, h)
  {
    var rowBytes := scene.width * 4;
    MulNonNegative(h, rowBytes);
    var buffer := new Byte[h * rowBytes];
    var di := 0;
    var py := y0;
    while py < y0 + h
      invariant y0 <= py <= y0 + h
      invariant di == (py - y0) * rowBytes
      invariant buffer[..di] == RowsBytes(scene, palette, y0, py)
    {
      RowFits(py - y0, h, rowBytes);
      di := FillRow(scene, palette, py, buffer, di);
      py := py + 1;
    }
    bytes := buffer[..];
  }

  /** The inner loop over one row: write its pixels into buffer from index di on. */
  method FillRow(scene: Scene, palette: Palette, py: int, buffer: array<Byte>, di: int) returns (next: int)
    requires scene.zoom > 0.0 && 0 <= py < scene.height
    requires 0 <= di && di + scene.width * 4 <= buffer.Length
    modifies buffer
    ensures next == di + scene.width * 4
    ensures buffer[..next] == old(buffer[..di]) + RowBytes(scene, palette, py, scene.width)
  {
    var imaginaryComponent := ImagComponent(py, scene.height, scene.zoom, scene.center.im);
    next := di;
    var px := 0;
    while px < scene.width
      invariant 0 <= px <= scene.width
      invariant next == di + px * 4
      invariant buffer[..next] == old(buffer[..di]) + RowBytes(scene, palette, py, px)
    {
      var iter := PixelIteration(scene, py, px, imaginaryComponent);
      PixelIterBounds(scene, py, px);
      var colour := palette(iter, Lightness(iter, scene.maxIterations));
      assert PixelBytes(scene, palette, py, px) == [ToByte(colour.r), ToByte(colour.g), ToByte(colour.b), 255];
      StorePixel(buffer, next, ToByte(colour.r), ToByte(colour.g), ToByte(colour.b));
      next := next + 4;
      px := px + 1;
    }
  }

  /** Store one pixel's red, green and blue bytes and an opaque alpha at buffer[at..at + 4]. */
  method StorePixel(buffer: array<Byte>, at: int, r: Byte, g: Byte, b: Byte)
    requires 0 <= at && at + 4 <= buffer.Length
    modifies buffer
    ensures buffer[..at + 4] == old(buffer[..at]) + [r, g, b, 255]
  {
    buffer[at] := r;
    buffer[at + 1] := g;
    buffer[at + 2] := b;
    buffer[at + 3] := 255;
  }

  lemma MulNonNegative(n: int, r: int)
    requires 0 <= n && 0 <= r
    ensures 0 <= n * r
  {
  }

  /** Row r of a buffer of n rows, r * w bytes in, ends within the buffer. */
  lemma RowFits(r: int, n: int, w: int)
    requires 0 <= r < n && 0 <= w
    ensures (r + 1) * w == r * w + w <= n * w
  {
    MulMonotone(r + 1, n, w);
  }

  /** The messages for the tiles from row y0 on, each at most tileHeight rows tall. */
  function TileMessages(scene: Scene, palette: Palette, tileHeight: int, y0: int): seq<Message>
    requires scene.zoom > 0.0 && tileHeight > 0 && 0 <= y0
    decreases scene.height - y0
  {
    if y0 >= scene.height then []
    else
      var h := MinInt(tileHeight, scene.height - y0);
      [Tile(y0, h, scene.width, TileBytes(scene, palette, y0, h))] + TileMessages(scene, palette, tileHeight, y0 + tileHeight)
  }

  /** Everything a worker posts for one request: the tiles, then "done". */
  function FrameMessages(scene: Scene, palette: Palette, tileHeight: int): seq<Message>
    requires scene.zoom > 0.0 && tileHeight > 0
  {
    TileMessages(scene, palette, tileHeight, 0) + [Done]
  }

  /** The tile loop: post each tile as soon as it is filled, then post "done". */
  method RenderFrame(scene: Scene, palette: Palette, tileHeight: int) returns (posted: seq<Message>)
    requires scene.zoom > 0.0 && tileHeight > 0
    ensures posted == FrameMessages(scene, palette, tileHeight)
  {
    posted := [];
    var y0 := 0;
    while y0 < scene.height
      invariant 0 <= y0
      invariant posted + TileMessages(scene, palette, tileHeight, y0) == TileMessages(scene, palette, tileHeight, 0)
      decreases scene.height - y0
    {
      var h := MinInt(tileHeight, scene.height - y0);
      var buffer := RenderTile(scene, palette, y0, h);
      posted := posted + [Tile(y0, h, scene.width, buffer)];
      y0 := y0 + tileHeight;
    }
    posted := posted + [Done];
  }

  /** The number of tiles TileMessages produces from row y0 on. */
  function TileCount(height: int, tileHeight: int, y0: int): nat
    requires tileHeight > 0
    decreases height - y0
  {
    if y0 >= height then 0 else 1 + TileCount(height, tileHeight, y0 + tileHeight)
  }

  /**
   * Message m is tile i of a run starting at row y0: it starts at row
   * y0 + i * tileHeight, has between 1 and tileHeight rows, stays inside the
   * frame, is short only when it ends the frame, and carries width * h * 4 bytes.
   */
  predicate TilePlaced(scene: Scene, tileHeight: int, y0: int, i: int, m: Message)
  {
    m.Tile? && m.y == y0 + i * tileHeight && 0 < m.height <= tileHeight
    && m.y + m.height <= scene.height
    && (m.height < tileHeight ==> m.y + m.height == scene.height)
    && m.width == scene.width && |m.buffer| == scene.width * m.height * 4
  }

  /** Tile b starts on the row after tile a's last row. */
  predicate TilesAbut(a: Message, b: Message)
  {
    a.Tile? && b.Tile? && a.y + a.height == b.y
  }

  /** The tile's last row is row `height - 1`. */
  predicate EndsAt(m: Message, height: int)
  {
    m.Tile? && m.y + m.height == height
  }

  /**
   * Tile i starts at row y0 + i * tileHeight and has min(tileHeight, height - start)
   * rows, so consecutive tiles are adjacent, none is empty, and together they cover
   * rows y0 .. height - 1 exactly once.
   */
  lemma TilesPartitionRows(scene: Scene, palette: Palette, tileHeight: int, y0: int)
    requires scene.zoom > 0.0 && tileHeight > 0 && 0 <= y0
    ensures |TileMessages(scene, palette, tileHeight, y0)| == TileCount(scene.height, tileHeight, y0)
    ensures forall i :: 0 <= i < |TileMessages(scene, palette, tileHeight, y0)| ==>
              TilePlaced(scene, tileHeight, y0, i, TileMessages(scene, palette, tileHeight, y0)[i])
    ensures forall i :: 0 <= i < |TileMessages(scene, palette, tileHeight, y0)| - 1 ==>
              TilesAbut(TileMessages(scene, palette, tileHeight, y0)[i], TileMessages(scene, palette, tileHeight, y0)[i + 1])
    ensures y0 < scene.height ==> |TileMessages(scene, palette, tileHeight, y0)| > 0
    ensures |TileMessages(scene, palette, tileHeight, y0)| > 0 ==>
              EndsAt(TileMessages(scene, palette, tileHeight, y0)[|TileMessages(scene, palette, tileHeight, y0)| - 1],
                     scene.height)
  {
    TilesPlaced(scene, palette, tileHeight, y0);
    TilesAdjacent(scene, palette, tileHeight, y0);
  }

  /** Tile i sits at row y0 + i * tileHeight with its rows and bytes. */
  lemma {:induction false} TilesPlaced(scene: Scene, palette: Palette, tileHeight: int, y0: int)
    requires scene.zoom > 0.0 && tileHeight > 0 && 0 <= y0
    ensures |TileMessages(scene, palette, tileHeight, y0)| == TileCount(scene.height, tileHeight, y0)
    ensures forall i :: 0 <= i < |TileMessages(scene, palette, tileHeight, y0)| ==>
              TilePlaced(scene, tileHeight, y0, i, TileMessages(scene, palette, tileHeight, y0)[i])
    decreases scene.height - y0
  {
    if y0 < scene.height {
      var h := MinInt(tileHeight, scene.height - y0);
      TileShape(scene, palette, y0, h);
      TilesPlaced(scene, palette, tileHeight, y0 + tileHeight);
      var rest := TileMessages(scene, palette, tileHeight, y0 + tileHeight);
      var all := TileMessages(scene, palette, tileHeight, y0);
      assert all == [Tile(y0, h, scene.width, TileBytes(scene, palette, y0, h))] + rest;
      assert TilePlaced(scene, tileHeight, y0, 0, all[0]);
      forall i | 1 <= i < |all|
        ensures TilePlaced(scene, tileHeight, y0, i, all[i])
      {
        assert all[i] == rest[i - 1];
        assert TilePlaced(scene, tileHeight, y0 + tileHeight, i - 1, rest[i - 1]);
        NextTileStart(y0, tileHeight, i);
      }
    }
  }

  /** Consecutive tiles abut, and a non-empty run of tiles ends at the frame's last row. */
  lemma {:induction false} TilesAdjacent(scene: Scene, palette: Palette, tileHeight: int, y0: int)
    requires scene.zoom > 0.0 && tileHeight > 0 && 0 <= y0
    ensures forall i :: 0 <= i < |TileMessages(scene, palette, tileHeight, y0)| - 1 ==>
              TilesAbut(TileMessages(scene, palette, tileHeight, y0)[i], TileMessages(scene, palette, tileHeight, y0)[i + 1])
    ensures y0 < scene.height ==> |TileMessages(scene, palette, tileHeight, y0)| > 0
    ensures |TileMessages(scene, palette, tileHeight, y0)| > 0 ==>
              EndsAt(TileMessages(scene, palette, tileHeight, y0)[|TileMessages(scene, palette, tileHeight, y0)| - 1],
                     scene.height)
    decreases scene.height - y0
  {
    if y0 < scene.height {
      var h := MinInt(tileHeight, scene.height - y0);
      TilesAdjacent(scene, palette, tileHeight, y0 + tileHeight);
      var rest := TileMessages(scene, palette, tileHeight, y0 + tileHeight);
      var all := TileMessages(scene, palette, tileHeight, y0);
      assert all == [Tile(y0, h, scene.width, TileBytes(scene, palette, y0, h))] + rest;
      if |rest| > 0 {
        assert h == tileHeight;
        assert rest[0].y == y0 + tileHeight;
        assert TilesAbut(all[0], all[1]);
        assert all[|all| - 1] == rest[|rest| - 1];
      }
      forall i | 1 <= i < |all| - 1
        ensures TilesAbut(all[i], all[i + 1])
      {
        assert all[i] == rest[i - 1] && all[i + 1] == rest[i];
      }
    }
  }

  /** A frame ends with exactly one "done", after every tile. */
  lemma FrameEndsWithDone(scene: Scene, palette: Palette, tileHeight: int)
    requires scene.zoom > 0.0 && tileHeight > 0
    ensures |FrameMessages(scene, palette, tileHeight)| == TileCount(scene.height, tileHeight, 0) + 1
    ensures FrameMessages(scene, palette, tileHeight)[|FrameMessages(scene, palette, tileHeight)| - 1] == Done
    ensures forall i :: 0 <= i < |FrameMessages(scene, palette, tileHeight)| - 1 ==> FrameMessages(scene, palette, tileHeight)[i].Tile?
  {
    TilesPartitionRows(scene, palette, tileHeight, 0);
  }
}
