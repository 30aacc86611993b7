# t3fractal core in Dafny

This project models the core logic of t3fractal in Dafny and proves properties of it. t3fractal is a browser game with two halves.

The first half is a growing fractal tree:
- an L-system rewrites an axiom under a length cap;
- a turtle walks the sentence into trunk segments, leaves and bounds;
- a shading pass gives each leaf and each segment tip an exposure, and summarises the tree;
- a store of guarded actions drives the growth economy (seasons, purchases, rule unlocks, harvest);
- a per-frame loop adds resources and turns the branching angle toward the suggested one.

The second half is a fractal frontier:
- a Mandelbrot/Julia escape-time renderer runs in two workers, a module worker and an inlined Blob worker, posting tiles of RGBA bytes and a final "done" message;
- its iteration budget and palette shift are derived from depth and amplifiers;
- an economy of costs, production rates, zones, prestige yields and omens;
- cosmic events are drawn by weighted selection from a catalogue.

One Dafny module stands for each source file. Where the source works step by step, the model keeps that form:
- `GenerateSentence`, `InterpretSentence` and `ComputeExposure` are methods with loops;
- the RGBA tile buffer is an `array` filled through a running index;
- the leaf and segment exposures are written in place into arrays;
- the store and the frame loop are classes whose methods update their fields.

Each method is proved against a specification function, and the properties are stated as lemmas about those functions. JavaScript numbers are modelled as exact reals. `Math.round(x)` is `Floor(x + 0.5)`, and `%` keeps the sign of its dividend.

The two workers map the real axis with `0.5 * zoom * width`, while the imaginary axis uses `height`. The repository's unit test (tests/unit/workerCodeGenerator.test.ts:14-19) asks for `height` on both axes. The GPU path (src/lib/fractal/shaders.ts:60-68) multiplies the horizontal coordinate by the aspect ratio and divides both axes by the same zoom, so its pixels are square. The model records the code as written, and the pixel and tile functions take the divisor as a parameter. Both mappings are therefore available, and the discrepancy is proved below under Findings.

## Model

| member | source | states |
|---|---|---|
| Numeric.Clamp | src/workers/fractalCpu.worker.ts:41-43 | the result lies in [lo, hi] and equals the value when it already does |
| Numeric.Round | src/lib/gameData.ts:250 | Math.round lands within half a unit of its argument |
| Numeric.FloorMonotone | src/lib/gameplay/costFormulas.ts:19 | Math.floor is monotone |
| Numeric.RoundMonotone | src/lib/gameData.ts:250 | Math.round is monotone |
| Numeric.PowMonotone | src/lib/gameData.ts:249 | b^m <= b^n for b >= 1 and m <= n |
| Numeric.JsModNonNegative | src/lib/fractal/fractalMath.ts:41 | JavaScript's % of a non-negative dividend lies in [0, m) |
| Numeric.JsModBounded | src/lib/fractal/fractalMath.ts:41 | JavaScript's % lies strictly between -m and m |
| FractalMath.MaxIterations | src/lib/fractal/fractalMath.ts:14-19 | the iteration budget never exceeds 1000 |
| FractalMath.PaletteShift | src/lib/fractal/fractalMath.ts:37-42 | the palette shift lies in [0, 360) for every input |
| FractalMath.CalculateFractalParameters | src/lib/fractal/fractalMath.ts:59-66 | budget at most 1000, shift in [0, 360), zoom and saturation passed through |
| FractalMath.ParametersAgreeWithDerivations | src/lib/fractal/fractalMath.ts:59-66 | the combined record's fields equal the individual derivations |
| FractalMath.MaxIterationsExamples | src/lib/fractal/fractalMath.ts:18 | budgets 40, 134 and 1000 at (0,0), (5,2) and (100,100) |
| FractalMath.MaxIterationsMonotone | src/lib/fractal/fractalMath.ts:18 | the budget is non-decreasing in depth and in amplifiers |
| FractalMath.MaxIterationsAtLeastBase | src/lib/fractal/fractalMath.ts:18 | for non-negative inputs the budget is at least 40 |
| FractalMath.NegativeDepthBudget | src/lib/fractal/fractalMath.ts:18 | there is no lower clamp: depth -3 gives a budget of -2 |
| FractalMath.PaletteShiftAtOrigin | src/lib/fractal/fractalMath.ts:41 | the shift at (0, 0) is 0 |
| Escape.ImagComponent | src/workers/fractalCpu.worker.ts:91-92 | row py maps to (py - height / 2) / (0.5 * zoom * height) plus the centre; ImagStep states that neighbouring rows differ by 1 / (0.5 * zoom * height) |
| Escape.RealComponent | src/workers/fractalCpu.worker.ts:95-96 | column px maps to (px - width / 2) over RealScale plus the centre; RealStep states the step between neighbouring columns |
| Escape.RealScale | src/workers/fractalCpu.worker.ts:95-96 | the real-axis scale is positive, so the division is defined |
| Escape.RealStep | src/workers/fractalCpu.worker.ts:95-96 | neighbouring pixels differ in real part by 1 / (0.5 zoom divisor) |
| Escape.ImagStep | src/workers/fractalCpu.worker.ts:91-92 | neighbouring rows differ in imaginary part by 1 / (0.5 zoom height) |
| Escape.AsWrittenSquareOnlyWhenSquare | src/lib/fractal/workerCodeGenerator.ts:73-75 | with the width divisor, the two axis steps agree if and only if width == height |
| Escape.AsWrittenStretchesWideCanvas | src/lib/fractal/workerCodeGenerator.ts:75 | on a 200x100 canvas the real step is 0.01 but the imaginary step 0.02 |
| Escape.IntendedPixelsAreSquare | src/lib/fractal/workerCodeGenerator.ts:73 | with the height divisor the two axis steps agree on every canvas |
| Escape.DivisorsAgreeOnSquareCanvas | src/workers/fractalCpu.worker.ts:95-96 | on a square canvas both divisors map every pixel alike |
| Escape.EscapeCount | src/workers/fractalCpu.worker.ts:97-107 | the count of z <- z^2 + c steps while the radius stays within 2 and the budget lasts; EscapeCountBounds, EscapesImmediately and Iterate state its value |
| Escape.EscapeCountBounds | src/workers/fractalCpu.worker.ts:102-107 | the escape count never falls below its start and never exceeds a non-negative budget |
| Escape.EscapesImmediately | src/workers/fractalCpu.worker.ts:102 | a start point outside radius 2 iterates zero times |
| Escape.Iterate | src/workers/fractalCpu.worker.ts:97-107 | the while loop computes the escape count, within [0, maxIterations] |
| Escape.Lightness | src/workers/fractalCpu.worker.ts:113-116 | lightness is 5 exactly for pixels that used the whole budget, else in [10, 95] |
| Escape.ToByte | src/workers/fractalCpu.worker.ts:119-121 | a Uint8ClampedArray store keeps values in [0, 255] unchanged |
| Escape.PixelIter | src/lib/fractal/workerCodeGenerator.ts:76-86 | Mandelbrot seeds z = 0 with c the pixel, Julia seeds z the pixel with the fixed c; PixelIterBounds states its range |
| Escape.PixelIterBounds | src/lib/fractal/workerCodeGenerator.ts:76-86 | with either seed, a pixel's count lies in [0, maxIterations] |
| Escape.PixelBytes | src/workers/fractalCpu.worker.ts:119-122 | each pixel contributes four bytes, the last of which is alpha 255 |
| TileRender.AlphaOpaqueConcat | src/workers/fractalCpu.worker.ts:119-122 | joining whole pixels keeps every alpha byte at 255 |
| TileRender.RowBytesShape | src/workers/fractalCpu.worker.ts:94-123 | n pixels of a row are 4n bytes with opaque alpha |
| TileRender.RowBytes | src/workers/fractalCpu.worker.ts:94-123 | the bytes of a row's first n pixels; RowBytesShape states 4n bytes with opaque alpha and FillRow computes it |
| TileRender.RowsBytesLength | src/workers/fractalCpu.worker.ts:90-124 | k rows are k * width * 4 bytes |
| TileRender.RowsBytesOpaque | src/workers/fractalCpu.worker.ts:90-124 | every alpha byte of a run of rows is 255 |
| TileRender.TileBytes | src/workers/fractalCpu.worker.ts:87-124 | the rows of one tile, one after another; TileShape states its length and alpha, and RenderTile computes it |
| TileRender.TileShape | src/workers/fractalCpu.worker.ts:87-124 | a tile buffer is exactly width * h * 4 bytes, all alpha 255 |
| TileRender.PixelIteration | src/workers/fractalCpu.worker.ts:95-107 | the pixel loop body computes the pixel's escape count |
| TileRender.FillRow | src/workers/fractalCpu.worker.ts:94-123 | writing a row through `di` advances it by width * 4 and appends the row's bytes |
| TileRender.RenderTile | src/workers/fractalCpu.worker.ts:86-124 | the array filled through `di` holds exactly the tile's bytes |
| TileRender.TileMessages | src/workers/fractalCpu.worker.ts:85-135 | one tile message per band of at most tileHeight rows; TilesPartitionRows, TilesPlaced and TilesAdjacent state where the tiles lie |
| TileRender.FrameMessages | src/workers/fractalCpu.worker.ts:85-139 | the tile messages followed by "done"; FrameEndsWithDone states the single final done and RenderFrame computes it |
| TileRender.RenderFrame | src/workers/fractalCpu.worker.ts:85-139 | the posted messages are the tile messages followed by done |
| TileRender.TilesPartitionRows | src/workers/fractalCpu.worker.ts:85-86 | tiles start at y0, y0 + tileHeight, ..., have 0 < h <= tileHeight, abut without overlap and end at the last row |
| TileRender.TilesPlaced | src/workers/fractalCpu.worker.ts:85-88 | tile i starts at row i * tileHeight, has between 1 and tileHeight rows inside the frame, and carries width * h * 4 bytes |
| TileRender.TilesAdjacent | src/workers/fractalCpu.worker.ts:85-86 | each tile starts on the row after the previous one ends, and the last tile ends at the frame's last row |
| TileRender.FrameEndsWithDone | src/workers/fractalCpu.worker.ts:127-139 | exactly one done message is posted, after all tile messages |
| CpuWorker.SceneOf | src/workers/fractalCpu.worker.ts:79-82 | the module worker always seeds Mandelbrot, divides by width, and takes its budget from calculateMaxIterations |
| CpuWorker.OnMessage | src/workers/fractalCpu.worker.ts:78-140 | the message stream is the frame's tiles of width * h * 4 bytes at rows i * tileHeight, then done |
| BlobWorker.Mode | src/lib/fractal/workerCodeGenerator.ts:61 | a missing or empty formula means "mandelbrot", otherwise the formula is kept |
| BlobWorker.OrElse | src/lib/fractal/workerCodeGenerator.ts:62-65 | `v \|\| fallback` on numbers: zero falls back |
| BlobWorker.Center | src/lib/fractal/workerCodeGenerator.ts:62-63 | a missing parameter centres the view on 0 |
| BlobWorker.JuliaConstant | src/lib/fractal/workerCodeGenerator.ts:64-65 | a missing or zero Julia component falls back to the matching centre component |
| BlobWorker.SceneOf | src/lib/fractal/workerCodeGenerator.ts:57-80 | Julia seeding exactly when the mode is "julia", with the fallen-back constant; width divisor |
| BlobWorker.OnMessage | src/lib/fractal/workerCodeGenerator.ts:56-101 | the message stream is the frame's tiles, then exactly one done |
| BlobWorker.MandelbrotMatchesModuleWorker | src/lib/fractal/workerCodeGenerator.ts:67-100 | in Mandelbrot mode the Blob worker posts exactly what the module worker posts |
| BlobWorker.ModeExamples | src/lib/fractal/workerCodeGenerator.ts:61 | no formula and "" give "mandelbrot"; "julia" stays "julia" |
| BlobWorker.ZeroJuliaConstantFallsBack | src/lib/fractal/workerCodeGenerator.ts:64-65 | a zero or missing Julia constant is the centre |
| LSystem.Replacement | src/lib/lsystem.ts:61-62 | `rules[char] ?? char`; ExpandWithoutRules states that a character without a rule rewrites to itself |
| LSystem.Expand | src/lib/lsystem.ts:60-62 | the concatenated replacements of a sentence; ExpandConcat and ExpandWithoutRules state its value |
| LSystem.NextGeneration | src/lib/lsystem.ts:59-67 | one pass of the inner loop; NextGenerationIsCutExpansion, NextGenerationBelowCap and NextGenerationLengthBound state its value |
| LSystem.Generate | src/lib/lsystem.ts:51-73 | the outer loop; GenerateSentence computes it, and GenerateLengthBound, CapStopsGeneration and AlgaeExample state its value |
| LSystem.Cut | src/lib/lsystem.ts:60-66 | the inner loop consumes between k and all of the sentence |
| LSystem.CutBounds | src/lib/lsystem.ts:60-66 | the inner loop stops at the first prefix whose expansion reaches maxLength, or at the end |
| LSystem.ExpandConcat | src/lib/lsystem.ts:60-62 | expansion distributes over concatenation |
| LSystem.ExpandWithoutRules | src/lib/lsystem.ts:61-62 | a character without a rule rewrites to itself |
| LSystem.NextGenerationIsCutExpansion | src/lib/lsystem.ts:59-67 | a generation is the expansion of the shortest prefix reaching the cap, or of the whole sentence |
| LSystem.NextGenerationBelowCap | src/lib/lsystem.ts:59-67 | when the whole expansion stays below the cap, a generation is that whole expansion |
| LSystem.NextGenerationLengthBound | src/lib/lsystem.ts:60-66 | a generation is at most maxLength - 1 plus the longest replacement |
| LSystem.GenerateLengthBound | src/lib/lsystem.ts:57-72 | the sentence obeys the same soft cap after any positive number of generations |
| LSystem.GenerateWithoutRules | src/lib/lsystem.ts:57-72 | without applicable rules the axiom survives every generation |
| LSystem.CapStopsGeneration | src/lib/lsystem.ts:68-70 | once a generation reaches the cap, more iterations change nothing |
| LSystem.AlgaeExample | src/lib/lsystem.ts:57-72 | A -> AB, B -> A gives "A", "ABA" and "ABAAB" after 0, 2 and 3 generations |
| LSystem.GenerationExample | src/lib/lsystem.ts:59-67 | a full expansion below the cap is the next generation |
| LSystem.GenerateSentence | src/lib/lsystem.ts:51-73 | the nested loops with both breaks compute Generate |
| LSystem.OvershootExample | src/lib/lsystem.ts:63-70 | F -> FF from "F" under cap 5 overshoots to six characters and stops |
| LSystem.SegmentRadius | src/lib/lsystem.ts:97 | every segment radius is at least 0.01 |
| LSystem.Forward | src/lib/lsystem.ts:94-122 | F draws one segment to the next point; ForwardKeepsInvariant and SegmentsCounted state its effect |
| LSystem.Rotate | src/lib/lsystem.ts:125-148 | a rotation appends one turn; RotateKeepsInvariant and IgnoredCharacters state its effect |
| LSystem.OpenBranch | src/lib/lsystem.ts:149-154 | `[` pushes position, rotation and depth; OpenBranchKeepsInvariant and BranchRestoresTurtle state its effect |
| LSystem.CloseBranch | src/lib/lsystem.ts:155-166 | `]` emits a leaf if moved and pops the frame; LeafAtCloseIffDrawn, BranchRestoresTurtle and CloseWithEmptyStack state its effect |
| LSystem.Step | src/lib/lsystem.ts:93-167 | one character of the scan loop; StepKeepsInvariant and IgnoredCharacters state its effect |
| LSystem.Run | src/lib/lsystem.ts:93-167 | the scan loop over a prefix with the segment-cap break; RunConcat, RunSnoc, HaltedIsFinal and RunKeepsInvariant state its value |
| LSystem.RunConcat | src/lib/lsystem.ts:93-167 | scanning s then u is scanning s + u |
| LSystem.HaltedIsFinal | src/lib/lsystem.ts:119-121 | after the segment-cap break no further character is processed |
| LSystem.HaltedRunIsInterpretation | src/lib/lsystem.ts:119-177 | once the cap halts the turtle after a prefix, the result is that turtle finished with the trailing leaf and bounds |
| LSystem.RunSnoc | src/lib/lsystem.ts:93-167 | one more character is one step unless the loop has left |
| LSystem.InterpretSentence | src/lib/lsystem.ts:75-184 | the scan loop with its stack, depth, moved flag and cap computes Interpret |
| LSystem.SegmentsCounted | src/lib/lsystem.ts:94-122 | segments number min(#F, max(maxSegments, 1)), and the loop leaves exactly when that cap is reached |
| LSystem.MovedTracksForward | src/lib/lsystem.ts:118-166 | between brackets `moved` is set exactly when an F was drawn, and no leaf appears |
| LSystem.LeafAtCloseIffDrawn | src/lib/lsystem.ts:155-166 | `]` emits a leaf exactly when an F was drawn since the last bracket, and clears moved |
| LSystem.BoxGrows | src/lib/lsystem.ts:116-117 | widening the box with min/max keeps old points inside and takes in the new one |
| LSystem.ForwardKeepsInvariant | src/lib/lsystem.ts:94-122 | F keeps depth == stack height, the bounds enclosing everything and segment shapes |
| LSystem.CloseBranchKeepsInvariant | src/lib/lsystem.ts:155-166 | `]` keeps the turtle invariant, including depth == stack height |
| LSystem.OpenBranchKeepsInvariant | src/lib/lsystem.ts:149-154 | `[` keeps the turtle invariant |
| LSystem.RotateKeepsInvariant | src/lib/lsystem.ts:125-148 | rotations keep the turtle invariant |
| LSystem.StepKeepsInvariant | src/lib/lsystem.ts:93-167 | every character keeps the turtle invariant |
| LSystem.RunKeepsInvariant | src/lib/lsystem.ts:93-167 | the invariant holds after every prefix of the sentence |
| LSystem.Finish | src/lib/lsystem.ts:169-183 | the trailing leaf and the bounds with their centre; InterpretBoundsEnclose and CappedSentenceEndsInLeaf state its value |
| LSystem.Interpret | src/lib/lsystem.ts:75-184 | interpretSentence as a function; InterpretSentence computes it, and SegmentsCounted, InterpretBoundsEnclose and SingleStemExample state its value |
| LSystem.InterpretBoundsEnclose | src/lib/lsystem.ts:169-183 | min <= 0 <= max, all segments and leaves lie in the bounds, segments are |step| long and at least 0.01 thick, leaves are width * 3.2, and center is the midpoint |
| LSystem.CappedSentenceEndsInLeaf | src/lib/lsystem.ts:119-121 | after the segment-cap break the trailing leaf is still emitted |
| LSystem.RunWithoutBrackets | src/lib/lsystem.ts:93-148 | bracket-free text leaves stack and depth alone |
| LSystem.BranchRestoresTurtle | src/lib/lsystem.ts:149-166 | `[ ... ]` restores position, rotation, depth and stack |
| LSystem.CloseWithEmptyStack | src/lib/lsystem.ts:155-166 | `]` on an empty stack keeps position, rotation and depth, still resets moved, and emits a leaf only if moved |
| LSystem.IgnoredCharacters | src/lib/lsystem.ts:133-148 | & and ^ act only with pitch, / and backslash only with roll; other characters are no-ops |
| LSystem.SingleStemExample | src/lib/lsystem.ts:94-177 | "F" gives one segment from the origin, one leaf, and center.y = 0.5, whatever the segment cap |
| UseLSystem.Occluders | src/app/hooks/useLSystem.ts:97-104 | one occluder per segment, built from its footprint, top and radius |
| UseLSystem.Projection | src/app/hooks/useLSystem.ts:52-53 | the projection parameter is clamped to [0, 1] |
| UseLSystem.DistanceSq | src/app/hooks/useLSystem.ts:40-59 | the squared distance to the clamped projection; DistanceSqAt states it is non-negative and DegenerateSegmentMeasuresStart states the degenerate case |
| UseLSystem.DistanceSqAt | src/app/hooks/useLSystem.ts:54-58 | squared distances are non-negative |
| UseLSystem.DegenerateSegmentMeasuresStart | src/app/hooks/useLSystem.ts:52-53 | a degenerate segment measures the distance to its start point |
| UseLSystem.Exposure | src/app/hooks/useLSystem.ts:61-73 | 0.15 when some occluder shades the point, else 1; ComputeExposure computes it and NoHigherOccluderFullLight states the full-light case |
| UseLSystem.ComputeExposure | src/app/hooks/useLSystem.ts:61-73 | the early-return loop gives 0.15 if some higher occluder is within 1.2 radii, else 1 |
| UseLSystem.NoHigherOccluderFullLight | src/app/hooks/useLSystem.ts:66-72 | occluders no more than 0.02 above the point are skipped, so none higher means exposure 1 |
| UseLSystem.ExposedLeaves | src/app/hooks/useLSystem.ts:106-111 | shading keeps the number of leaves |
| UseLSystem.ExposedSegments | src/app/hooks/useLSystem.ts:113-115 | shading keeps the number of segments |
| UseLSystem.ShadeLeaves | src/app/hooks/useLSystem.ts:106-111 | every leaf's exposure is overwritten in place, and exposureSum is their sum |
| UseLSystem.ShadeSegments | src/app/hooks/useLSystem.ts:113-115 | every segment's exposure is overwritten from the light at its tip |
| UseLSystem.ExposureSumBounds | src/app/hooks/useLSystem.ts:106-111 | n exposures of 0.15 or 1 sum to between 0.15 n and n |
| UseLSystem.CylinderSumNonNegative | src/app/hooks/useLSystem.ts:117-120 | the volume sum is non-negative |
| UseLSystem.AverageExposure | src/app/hooks/useLSystem.ts:123 | the mean exposure, 1 without leaves; StatsBounds and NoLeavesFullExposure state its value |
| UseLSystem.SuggestedAngle | src/app/hooks/useLSystem.ts:127 | 20 + 55 (1 - mean exposure) kept in [10, 85]; StatsBounds and NoLeavesFullExposure state its value |
| UseLSystem.StatsOf | src/app/hooks/useLSystem.ts:117-127 | the tree's statistics; Summarise computes them, and StatsBounds and HookStats state their value |
| UseLSystem.StatsBounds | src/app/hooks/useLSystem.ts:122-127 | mean exposure in [0.15, 1]; suggested angle in [20, 66.75], inside its clamp; rootDepth >= 0.5; volume >= 0 |
| UseLSystem.NoLeavesFullExposure | src/app/hooks/useLSystem.ts:123 | no leaves means mean exposure 1 and suggested angle 20 |
| UseLSystem.ExposedLeavesAreLightOrShade | src/app/hooks/useLSystem.ts:65-72 | every computed exposure is exactly 0.15 or 1 |
| UseLSystem.TurtleConfigOf | src/app/hooks/useLSystem.ts:84-95 | a missing segment cap becomes 3500 |
| UseLSystem.Compute | src/app/hooks/useLSystem.ts:75-144 | the hook generates with the default cap 12000, interprets, shades in place and summarises |
| UseLSystem.Summarise | src/app/hooks/useLSystem.ts:117-127 | from the running exposure sum the statistics are the mean exposure (1 without leaves), volume, root depth, height and suggested angle of the shaded tree |
| UseLSystem.HookStats | src/app/hooks/useLSystem.ts:122-143 | counts match the lists; mean exposure, suggested angle, root depth, height and volume lie in their ranges |
| GameData.CostMultiplier | src/lib/gameData.ts:5-73 | every season's cost multiplier is at least 0.75 |
| GameData.SeasonIndex | src/lib/gameData.ts:75 | each season sits at exactly one index of SEASON_ORDER |
| GameData.NextSeason | src/store/gameStore.ts:99-103 | the next entry of SEASON_ORDER; SeasonCycle and SeasonPeriod state its value |
| GameData.SeasonCycle | src/store/gameStore.ts:99-103 | spring -> summer -> autumn -> winter -> spring |
| GameData.SeasonPeriod | src/store/gameStore.ts:100-101 | four advances return to the same season, fewer never do |
| GameData.FindRule | src/store/gameStore.ts:137 | RULE_LIBRARY.find succeeds if and only if some rule has the id, and returns such a rule |
| GameData.FindUpgrade | src/store/gameStore.ts:189 | SEED_UPGRADES.find succeeds if and only if some upgrade has the id, and returns it |
| GameData.RuleIdsDistinct | src/lib/gameData.ts:125-192 | rule ids are distinct |
| GameData.RuleCostsNonNegative | src/lib/gameData.ts:125-192 | no rule costs a negative amount |
| GameData.Width | src/lib/gameData.ts:240-242 | getWidth; LevelIncrements states 0.08 at level 0 and 0.02 more per level |
| GameData.TickMultiplier | src/lib/gameData.ts:244-246 | getTickMultiplier; LevelIncrements states 1 at level 0 and 0.15 more per level |
| GameData.IterationCost | src/lib/gameData.ts:248-251 | getIterationCost; FirstIterationCost and CostsMonotone state its value |
| GameData.WidthCost | src/lib/gameData.ts:253-256 | getWidthCost; CostsMonotone states it is non-negative and non-decreasing |
| GameData.TickCost | src/lib/gameData.ts:258-261 | getTickCost; CostsMonotone states it is non-negative and non-decreasing |
| GameData.FruitCost | src/lib/gameData.ts:263-266 | getFruitCost; CostsMonotone states it is non-negative and non-decreasing |
| GameData.LevelIncrements | src/lib/gameData.ts:240-246 | width grows by 0.02 and tick multiplier by 0.15 per level, from 0.08 and 1 |
| GameData.FirstIterationCost | src/lib/gameData.ts:248-251 | the first iteration costs round(24 * costMultiplier): 18 in spring, 38 in winter |
| GameData.ScaledCostMonotone | src/lib/gameData.ts:248-266 | a season-scaled cost is non-negative and non-decreasing in its exponent |
| GameData.CostsMonotone | src/lib/gameData.ts:248-266 | iteration, width, tick and fruit costs are non-negative and non-decreasing in level |
| GameData.AxiomCost | src/lib/gameData.ts:268-270 | an axiom costs max(8, 6 * length), at least 8 |
| GameData.SeedYield | src/lib/gameData.ts:272-276 | a harvest yields at least one seed |
| GameData.SeedYieldExamples | src/lib/gameData.ts:268-276 | yields 1 for (100, 80, 0) and 7 for (360, 0, 2); axioms "A" and "ABC" cost 8 and 18 |
| GameData.SeedYieldMonotone | src/lib/gameData.ts:272-276 | more resources or fruit never yield fewer seeds |
| GameStore.TrimStart | src/store/gameStore.ts:172 | drops exactly the leading white space |
| GameStore.TrimEnd | src/store/gameStore.ts:172 | drops exactly the trailing white space |
| GameStore.Trim | src/store/gameStore.ts:172 | a trimmed string starts and ends with a visible character |
| GameStore.TrimEmptyIffBlank | src/store/gameStore.ts:172 | trim gives "" if and only if the axiom is all white space |
| GameStore.ToUpper | src/store/gameStore.ts:176 | upper-casing maps each character and keeps the length |
| GameStore.AddResourcesStep | src/store/gameStore.ts:87-93 | no-op for dt <= 0, else rate * dt more photosynthesis and sap, nothing else changed |
| GameStore.SetAngleStep | src/store/gameStore.ts:94-97 | the angle is stored clamped to [0, 90], nothing else changed |
| GameStore.ToggleAnalysisStep | src/store/gameStore.ts:98 | flips analysis mode only |
| GameStore.AdvanceSeasonStep | src/store/gameStore.ts:99-103 | moves to the next season only |
| GameStore.BuyIterationStep | src/store/gameStore.ts:104-114 | changes the state if and only if iterations < 7 and the cost is covered; then pays, adds one, stamps the time |
| GameStore.BuyWidthStep | src/store/gameStore.ts:115-120 | changes the state if and only if sap covers the cost; then pays and raises the level |
| GameStore.BuyTickRateStep | src/store/gameStore.ts:121-126 | changes the state if and only if sap covers the cost; then pays and raises the level |
| GameStore.BuyFruitStep | src/store/gameStore.ts:127-133 | changes the state if and only if it is autumn and sap covers the cost |
| GameStore.UnlockRuleStep | src/store/gameStore.ts:134-160 | no-op unless new, known, dimension unlocked and all three costs covered; then the whole new state: pays all three, appends the id, activates the rule for its symbol, stamps the time and records the rule as last changed; nothing else changes |
| GameStore.SetActiveRuleStep | src/store/gameStore.ts:161-169 | only unlocked ids are activated for the symbol |
| GameStore.ApplyAxiomStep | src/store/gameStore.ts:170-181 | true if and only if the axiom is not blank and affordable; then the trimmed upper-case axiom is stored and paid for, the time is stamped and the last changed rule is cleared; else nothing changes |
| GameStore.SelectGeometryStep | src/store/gameStore.ts:182-186 | only unlocked geometries are selected |
| GameStore.UnlocksAfter | src/store/gameStore.ts:193-198 | only the named dimension unlock is set |
| GameStore.GeometryAfter | src/store/gameStore.ts:194-201 | only the named geometry is unlocked |
| GameStore.BuySeedUpgradeStep | src/store/gameStore.ts:187-208 | no-op for unknown or unaffordable upgrades; else pays seeds and sets only that unlock |
| GameStore.HarvestStep | src/store/gameStore.ts:209-230 | only in winter: adds the seed yield, resets growth to the start, keeps step, analysis mode and all unlocks |
| GameStore.Initial | src/store/gameStore.ts:67-86 | the store's initial fields; InitialInvariant states that they satisfy the invariant and owe nothing, and the constructor starts there |
| GameStore.InitialInvariant | src/store/gameStore.ts:67-86 | the initial state satisfies the invariant and owes nothing |
| GameStore.UnlockRuleKeepsInvariant | src/store/gameStore.ts:134-160 | unlocked rules stay distinct library rules and active rules stay unlocked |
| GameStore.HarvestKeepsInvariant | src/store/gameStore.ts:209-230 | the harvest reset satisfies the invariant |
| GameStore.SetActiveRuleKeepsInvariant | src/store/gameStore.ts:161-169 | activating a rule keeps the invariant |
| GameStore.ApplyAxiomKeepsInvariant | src/store/gameStore.ts:170-181 | applying an axiom keeps the invariant |
| GameStore.BuySeedUpgradeKeepsInvariant | src/store/gameStore.ts:187-208 | unlocking keeps the selected geometry available |
| GameStore.ApplyKeepsInvariant | src/store/gameStore.ts:87-230 | every action keeps iterations in [0, 7], the angle in [0, 90], the rules consistent and the selected geometry unlocked |
| GameStore.ApplyKeepsSolvent | src/store/gameStore.ts:87-230 | no purchase overdraws a resource |
| GameStore.RunKeepsInvariant | src/store/gameStore.ts:67-231 | every state reached by store actions satisfies the invariant |
| GameStore.RunKeepsSolvent | src/store/gameStore.ts:67-231 | without negative rates no resource ever goes negative |
| GameStore.SeasonGates | src/store/gameStore.ts:127-230 | fruit is bought only in autumn and the harvest happens only in winter |
| GameStore.Store.constructor | src/store/gameStore.ts:67-86 | the store starts in the initial state |
| GameStore.Store.AddResources | src/store/gameStore.ts:87-93 | the new state is AddResourcesStep of the old one |
| GameStore.Store.SetAngle | src/store/gameStore.ts:94-97 | the new state is SetAngleStep of the old one |
| GameStore.Store.ToggleAnalysis | src/store/gameStore.ts:98 | the new state is ToggleAnalysisStep of the old one |
| GameStore.Store.AdvanceSeason | src/store/gameStore.ts:99-103 | the new state is AdvanceSeasonStep of the old one |
| GameStore.Store.BuyIteration | src/store/gameStore.ts:104-114 | the new state is BuyIterationStep of the old one |
| GameStore.Store.BuyWidth | src/store/gameStore.ts:115-120 | the new state is BuyWidthStep of the old one |
| GameStore.Store.BuyTickRate | src/store/gameStore.ts:121-126 | the new state is BuyTickRateStep of the old one |
| GameStore.Store.BuyFruit | src/store/gameStore.ts:127-133 | the new state is BuyFruitStep of the old one |
| GameStore.Store.UnlockRule | src/store/gameStore.ts:134-160 | the new state is UnlockRuleStep of the old one |
| GameStore.Store.SetActiveRule | src/store/gameStore.ts:161-169 | the new state is SetActiveRuleStep of the old one |
| GameStore.Store.ApplyAxiom | src/store/gameStore.ts:170-181 | state and returned flag are those of ApplyAxiomStep |
| GameStore.Store.SelectGeometry | src/store/gameStore.ts:182-186 | the new state is SelectGeometryStep of the old one |
| GameStore.Store.BuySeedUpgrade | src/store/gameStore.ts:187-208 | the new state is BuySeedUpgradeStep of the old one |
| GameStore.Store.Harvest | src/store/gameStore.ts:209-230 | the new state is HarvestStep of the old one |
| GameStore.GetActiveRuleMap | src/store/gameStore.ts:233-242 | a symbol is mapped if and only if its rule id is in the library, and then to that rule's replacement |
| GameLoop.FrameDelta | src/app/hooks/useGameLoop.ts:28 | dt is the elapsed seconds capped at 0.05, and negative exactly when the clock ran backwards |
| GameLoop.TunerStep | src/app/hooks/useGameLoop.ts:36-45 | no step exactly when the angle is within 0.2 of the target |
| GameLoop.TickStep | src/app/hooks/useGameLoop.ts:27-46 | a frame adds resources and touches nothing else but the angle; without the tuner the angle stays |
| GameLoop.TunerNeverOvershoots | src/app/hooks/useGameLoop.ts:41-42 | a step moves by min(\|delta\|, 8 dt) toward the target and never past it |
| GameLoop.TunerApproaches | src/app/hooks/useGameLoop.ts:39-42 | with dt > 0 each step strictly narrows the gap |
| GameLoop.TunerLandsWhenClose | src/app/hooks/useGameLoop.ts:41-42 | when 8 dt covers the gap the angle lands on the target |
| GameLoop.TickKeepsInvariant | src/app/hooks/useGameLoop.ts:27-46 | a frame keeps the store's invariant |
| GameLoop.TickKeepsSolvent | src/app/hooks/useGameLoop.ts:31-34 | non-negative rates keep the resources non-negative |
| GameLoop.TickKeepsAngleInSync | src/app/hooks/useGameLoop.ts:43-44 | the angle ref and the store's angle agree after a frame when the target lies in [0, 90] |
| GameLoop.FrameLoop.constructor | src/app/hooks/useGameLoop.ts:12-25 | the refs start from the current rates and angle, the clock from the start time |
| GameLoop.FrameLoop.UpdateRates | src/app/hooks/useGameLoop.ts:15-17 | only the rates ref changes |
| GameLoop.FrameLoop.SyncAngle | src/app/hooks/useGameLoop.ts:19-21 | the angle ref takes the store's angle |
| GameLoop.FrameLoop.Tick | src/app/hooks/useGameLoop.ts:27-46 | store state and angle ref become TickStep of the old ones, with dt from the frame clock |
| CosmicEvents.Caravan | src/data/cosmicEvents.ts:76-86 | the caravan's outcome; CaravanIsUngatedFallback states at least 60 data for a non-negative state |
| CosmicEvents.Storm | src/data/cosmicEvents.ts:93-102 | the storm's outcome; StormAddsOneAnomaly states one anomaly, and at least 30 data lost at non-negative depth |
| CosmicEvents.Scouts | src/data/cosmicEvents.ts:111-121 | the scouts' outcome; ScoutsCalmOnlyExistingAnomalies states its value |
| CosmicEvents.Lighthouse | src/data/cosmicEvents.ts:130-138 | the lighthouse's outcome; LighthouseRewards states its value |
| CosmicEvents.Auditors | src/data/cosmicEvents.ts:146-156 | the auditors' outcome; AuditorsRefundRemoved states its value |
| CosmicEvents.Tea | src/data/cosmicEvents.ts:165-173 | the tea trade's outcome; TeaTrade states its value |
| CosmicEvents.ApplyEvent | src/data/cosmicEvents.ts:71-173 | `event.apply` dispatched on the event; the six lemmas above state each case |
| CosmicEvents.CaravanIsUngatedFallback | src/data/cosmicEvents.ts:71-86 | the caravan is entry 0, ungated, and gains at least 60 data |
| CosmicEvents.StormAddsOneAnomaly | src/data/cosmicEvents.ts:93-102 | the storm adds exactly one anomaly and loses at least 30 data |
| CosmicEvents.ScoutsCalmOnlyExistingAnomalies | src/data/cosmicEvents.ts:111-121 | the scouts remove an anomaly only when there is one |
| CosmicEvents.LighthouseRewards | src/data/cosmicEvents.ts:130-138 | the lighthouse brings at least 97 data and, with non-negative ascension, at least 4 resonance |
| CosmicEvents.AuditorsRefundRemoved | src/data/cosmicEvents.ts:146-156 | the auditors remove min(anomalies, 2) and refund as many points, never going below zero |
| CosmicEvents.TeaTrade | src/data/cosmicEvents.ts:165-173 | tea spends min(resonance, 2) for 40 + 30 per unit data, or 22 data for nothing |
| CosmicEvents.Gates | src/data/cosmicEvents.ts:104-164 | gates: scouts depth 4, lighthouse depth and resonance 6, auditors depth 2, tea resonance 3 |
| CosmicResolver.ClampWeight | src/lib/gameplay/cosmicEventResolver.ts:14 | weights are positive, and positive weights are kept |
| CosmicResolver.MeetsRequirement | src/lib/gameplay/cosmicEventResolver.ts:20-34 | meetsRequirement; RequirementFailsIffBelowGate states both directions |
| CosmicResolver.RequirementFailsIffBelowGate | src/lib/gameplay/cosmicEventResolver.ts:20-34 | an event fails its requirement exactly when a present gate is above the snapshot |
| CosmicResolver.Eligible | src/lib/gameplay/cosmicEventResolver.ts:48-50 | the filtered list holds exactly the catalogue events meeting their requirement |
| CosmicResolver.Pool | src/lib/gameplay/cosmicEventResolver.ts:56 | the pool is non-empty and holds eligible events or the fallback |
| CosmicResolver.CumulativeWeight | src/lib/gameplay/cosmicEventResolver.ts:57-60 | the running weight is non-negative, and positive after one event |
| CosmicResolver.CumulativeIncreasing | src/lib/gameplay/cosmicEventResolver.ts:65-68 | the cumulative weight strictly increases along the pool |
| CosmicResolver.SelectFrom | src/lib/gameplay/cosmicEventResolver.ts:65-73 | the first index whose cumulative weight reaches the target; none only if the target exceeds the total |
| CosmicResolver.SelectionIsUnique | src/lib/gameplay/cosmicEventResolver.ts:65-73 | the event whose weight interval contains the target is the one selected |
| CosmicResolver.SafeTotal | src/lib/gameplay/cosmicEventResolver.ts:57-62 | for a non-empty pool the safe total is the positive total weight |
| CosmicResolver.PickEvent | src/lib/gameplay/cosmicEventResolver.ts:75 | the resolved event is from the pool or the fallback |
| CosmicResolver.Resolve | src/lib/gameplay/cosmicEventResolver.ts:44-77 | fails exactly for an empty catalogue; else the event is eligible or the first, and its outcome is its apply |
| CosmicResolver.ResolveCosmicEvent | src/lib/gameplay/cosmicEventResolver.ts:44-77 | the two loops with the break compute Resolve |
| CosmicResolver.TotalWeightPositive | src/lib/gameplay/cosmicEventResolver.ts:57-62 | the pool's total weight is positive |
| CosmicResolver.RollInRangeSelects | src/lib/gameplay/cosmicEventResolver.ts:63-74 | a roll in [0, 1] always selects from the pool, never falling through |
| CosmicResolver.ReachableTargetSelects | src/lib/gameplay/cosmicEventResolver.ts:67-73 | a target up to the total weight selects an event |
| CosmicResolver.ZeroRollPicksFirst | src/lib/gameplay/cosmicEventResolver.ts:63-74 | a roll of 0 picks the first pool event |
| CosmicResolver.CatalogueNeverFails | src/lib/gameplay/cosmicEventResolver.ts:51-54 | the game's catalogue never throws, and its caravan is always eligible |
| CosmicResolver.BaseSnapshotDrawsCaravan | src/lib/gameplay/cosmicEventResolver.ts:44-77 | a fresh snapshot with roll 0 draws the Cantor Caravan |
| CosmicResolver.EligibleKeepsFirst | src/lib/gameplay/cosmicEventResolver.ts:48-50 | filtering keeps an eligible first event first |
| GameConfig.UpgradeConfigOf | src/data/gameConfig.ts:24-49 | every upgrade has a positive base cost and growth above 1 |
| GameConfig.ZonesOrdered | src/data/gameConfig.ts:64-99 | five zones with increasing requirements and non-decreasing bonuses, starting at 0 |
| CostFormulas.UpgradeCost | src/lib/gameplay/costFormulas.ts:17-20 | calculateUpgradeCost; FirstUpgradeCostsBase, UpgradeCostExamples and UpgradeCostMonotone state its value |
| CostFormulas.ZoomCost | src/lib/gameplay/costFormulas.ts:28-30 | calculateZoomCost; ZoomCostExamples and ZoomCostMonotone state its value |
| CostFormulas.ExpeditionCost | src/lib/gameplay/costFormulas.ts:40-46 | calculateExpeditionCost; LinearCostExamples, WholeArgumentsExact and LinearCostsMonotone state its value |
| CostFormulas.ExpeditionPreview | src/lib/gameplay/costFormulas.ts:56-62 | calculateExpeditionPreview; LinearCostExamples, WholeArgumentsExact and LinearCostsMonotone state its value |
| CostFormulas.StabiliseCost | src/lib/gameplay/costFormulas.ts:71-76 | calculateStabiliseCost; LinearCostExamples, WholeArgumentsExact and LinearCostsMonotone state its value |
| CostFormulas.FirstUpgradeCostsBase | src/lib/gameplay/costFormulas.ts:17-20 | with nothing owned an upgrade costs its base: 35, 120, 220 |
| CostFormulas.UpgradeCostExamples | src/lib/gameplay/costFormulas.ts:17-20 | next copies cost 50, 73, 192 and 341 |
| CostFormulas.UpgradeCostMonotone | src/lib/gameplay/costFormulas.ts:17-20 | upgrade costs are non-negative and non-decreasing in owned count |
| CostFormulas.ZoomCostExamples | src/lib/gameplay/costFormulas.ts:28-30 | zoom levels 1, 2, 5 cost 27, 43, 161 |
| CostFormulas.ZoomCostMonotone | src/lib/gameplay/costFormulas.ts:28-30 | zoom cost is non-decreasing in level |
| CostFormulas.LinearCostExamples | src/lib/gameplay/costFormulas.ts:40-76 | expedition (5,2,1) = 305, preview (10,5,2) = 16, stabilise (3,2) = 63, and more |
| CostFormulas.WholeArgumentsExact | src/lib/gameplay/costFormulas.ts:40-76 | for whole arguments the expedition and stabilise costs are their linear formulas |
| CostFormulas.LinearCostsMonotone | src/lib/gameplay/costFormulas.ts:40-76 | expedition, preview and stabilise costs are non-decreasing in each argument |
| ProductionMath.AnomalyPenalty | src/lib/gameplay/productionMath.ts:30 | the penalty is at least 0.6, at most 1, and linear until its floor |
| ProductionMath.ParameterEfficiency | src/lib/gameplay/productionMath.ts:53-62 | efficiency lies in [0.65, 1.45] and falls linearly until its floor |
| ProductionMath.ResonanceAssist | src/lib/gameplay/productionMath.ts:95 | the assist lies in [1, 1.6], linear until capped |
| ProductionMath.ZoneBonus | src/lib/gameplay/productionMath.ts:109-111 | the multiplier is one more than the bonus |
| ProductionMath.ProductionMultiplier | src/lib/gameplay/productionMath.ts:15-44 | the product of the seven factors; NeutralMultiplier and MultiplierLowerBound state its value |
| ProductionMath.BaseProduction | src/lib/gameplay/productionMath.ts:70-79 | calculateBaseProduction; BaseProductionExamples and BaseProductionMonotone state its value |
| ProductionMath.PassiveDepthGain | src/lib/gameplay/productionMath.ts:87-101 | calculatePassiveDepthGain; PassiveDepthGainExamples, PassiveDepthGainCapped and PassiveDepthGainPositive state its value |
| ProductionMath.NeutralMultiplier | src/lib/gameplay/productionMath.ts:15-44 | all nine inputs zero give a multiplier of 1 |
| ProductionMath.PenaltyFloor | src/lib/gameplay/productionMath.ts:30 | from 40/3 anomalies on the penalty is 0.6 |
| ProductionMath.MultiplierLowerBound | src/lib/gameplay/productionMath.ts:15-44 | non-negative inputs give a multiplier of at least 0.6, at least 1 without anomalies |
| ProductionMath.FullEfficiencyAtTarget | src/lib/gameplay/productionMath.ts:53-62 | at the target the efficiency is 1.45 |
| ProductionMath.EfficiencyDecreasing | src/lib/gameplay/productionMath.ts:61 | efficiency never rises with distance |
| ProductionMath.OriginAtFloor | src/lib/gameplay/productionMath.ts:53-62 | at the origin the efficiency is at its floor 0.65 |
| ProductionMath.BaseProductionExamples | src/lib/gameplay/productionMath.ts:70-79 | no upgrades produce 0; (10,0,0) gives 9; (5,3,2) gives 18.2 |
| ProductionMath.BaseProductionMonotone | src/lib/gameplay/productionMath.ts:70-79 | base production is non-negative and grows with each count |
| ProductionMath.PassiveDepthGainExamples | src/lib/gameplay/productionMath.ts:87-101 | no stabilizers, no gain; four give 0.16, 0.224, 0.256 with growing resonance |
| ProductionMath.PassiveDepthGainCapped | src/lib/gameplay/productionMath.ts:95 | from 30 resonance on the assist is capped at 1.6 |
| ProductionMath.PassiveDepthGainPositive | src/lib/gameplay/productionMath.ts:87-101 | stabilizers with positive efficiency give a positive gain |
| ProductionMath.ZoneBonusesAtLeastOne | src/lib/gameplay/productionMath.ts:109-111 | every zone's multiplier lies in [1, 1.45] |
| GameCalculations.UnlockedZones | src/app/hooks/useGameCalculations.ts:95-98 | the filter keeps exactly the zones whose requirement the depth meets |
| GameCalculations.CurrentZone | src/app/hooks/useGameCalculations.ts:100 | the current zone is a reached zone or the first |
| GameCalculations.LastReachedEndsUnlocked | src/app/hooks/useGameCalculations.ts:95-100 | the last reached zone ends the filtered list |
| GameCalculations.CurrentZoneIsLastReached | src/app/hooks/useGameCalculations.ts:95-100 | the current zone is the last zone whose requirement is met |
| GameCalculations.CurrentZoneFallsBack | src/app/hooks/useGameCalculations.ts:100 | with no zone reached the first zone is current |
| GameCalculations.CurrentZoneExamples | src/app/hooks/useGameCalculations.ts:95-100 | depths 5, 11, 20, -1 are in Seahorse Valley, Mini-Brot Frontier, Hyperbolic Bloom, the core |
| GameCalculations.DataPerSecond | src/app/hooks/useGameCalculations.ts:88-93 | zero without base production, positive when all three factors are |
| GameCalculations.AscensionYield | src/app/hooks/useGameCalculations.ts:133-138 | the ascension yield is at least 1 |
| GameCalculations.TranscensionYield | src/app/hooks/useGameCalculations.ts:142-145 | the transcension yield is at least 1 |
| GameCalculations.JuliaFluxGain | src/app/hooks/useGameCalculations.ts:159-168 | the flux gain is at least 1 |
| GameCalculations.OmenOf | src/app/hooks/useGameCalculations.ts:173-184 | anomalies >= 4 first, then resonance >= 18, then a zone requirement >= 10, else idle |
| GameCalculations.NextUpgradeCost | src/app/hooks/useGameCalculations.ts:129 | the next upgrade never costs a negative amount |
| GameCalculations.AscendReady | src/app/hooks/useGameCalculations.ts:131 | Calculate states ascendReady if and only if depth >= 6 and data >= 1200 |
| GameCalculations.TranscensionReady | src/app/hooks/useGameCalculations.ts:140 | Calculate states transcensionReady if and only if ascendReady and at least 25 Dimensional Points |
| GameCalculations.AmplifierCost | src/app/hooks/useGameCalculations.ts:147-150 | floor(3 * 2.4^amplifiers); AmplifierCostGrows states 3, 7, 17 and monotonicity |
| GameCalculations.JuliaStudyCost | src/app/hooks/useGameCalculations.ts:154-157 | the Julia lab's study cost; JuliaLabGrows states 420 at the start and monotonicity |
| GameCalculations.JuliaBonusMultiplier | src/app/hooks/useGameCalculations.ts:170-171 | the Julia bonus; JuliaLabGrows states 1 at the start and monotonicity |
| GameCalculations.Calculate | src/app/hooks/useGameCalculations.ts:45-211 | readiness flags, yields >= 1, zero rate without base production, current zone, effective rate and efficiency bounds |
| GameCalculations.FrontierOmenNeedsDepth | src/app/hooks/useGameCalculations.ts:173-184 | the frontier omen needs depth >= 11, fewer than 4 anomalies and resonance below 18 |
| GameCalculations.AmplifierCostGrows | src/app/hooks/useGameCalculations.ts:147-150 | amplifiers cost 3, 7, 17, ... non-decreasing |
| GameCalculations.AscensionYieldExamples | src/app/hooks/useGameCalculations.ts:133-138 | a fresh game yields 1; (6, 1200, 2) yields 8 |
| GameCalculations.AscensionYieldMonotone | src/app/hooks/useGameCalculations.ts:133-138 | more depth, data or processors never yield less |
| GameCalculations.JuliaLabGrows | src/app/hooks/useGameCalculations.ts:154-171 | study cost starts at 420 and bonus at 1; both, and the flux gain, grow with their inputs |

## Left out

- `calculateZoom` (a fractional power) and `calculateSaturation` (a sine) are left out. They enter the model as opaque values: the zoom of a scene, and the saturation field of the parameter record.
- The hue, saturation and `hslToRgb` colouring of a pixel is left out. A palette function from (iterations, lightness) to RGB stands for it, so only the lightness rule and the alpha byte are modelled. The shader's smooth colouring is left out too.
- Quaternion and vector arithmetic of the turtle is left out. The rotation is the sequence of turns multiplied into it, and a `heading` parameter maps it to a unit direction.
- LSystem.Forward: a segment's length is |step| because the heading is taken to be of unit length. The normalisation itself is not modelled.
- `Math.sqrt` and `Math.hypot` are left out. Shading compares squared distances with squared radii, which is exact because radii are at least 0.01. Parameter efficiency takes the distance as an input, and `IsHypot` states what that input must be.
- UseLSystem.Projection: states only that the parameter lies in [0, 1]. That it picks the nearest point of the segment is not proved.
- Floating-point rounding, NaN and infinities are left out: numbers are exact reals.
- Owned upgrade counts and amplifiers are natural numbers, while the source accepts any number.
- GameStore.ToUpper: only the ASCII letters a-z are upper-cased. The full Unicode case mapping of `toUpperCase` is left out.
- `Date.now()` and `performance.now()` are parameters (`now`, `start`). `Math.random()` is the parameter `roll`.
- `requestAnimationFrame` scheduling, effect cancellation and React's re-rendering are left out. The two ref-copying effects are the methods `UpdateRates` and `SyncAngle`.
- `useMemo` caching is left out. Worker start-up, cancellation, transfer of buffers and concurrency between workers and the page are left out too.
- The log messages of cosmic events and the omen texts are left out; the omen is an enumeration.
- `dimensionalEfficiency` (a `toFixed` string) is left out.
- Geometry labels, season labels, names, descriptions and palettes are display data and are left out.
- FractalMath.MaxIterations, CostFormulas.UpgradeCost, CostFormulas.ZoomCost, ProductionMath.ProductionMultiplier and the event outcome functions carry only the contracts shown. Their values and monotonicity are stated by the lemmas beside them.
- Escape.ImagComponent and Escape.RealComponent require a positive zoom and canvas. calculateZoom is always positive, and an empty canvas posts no pixel.
- LSystem.Generate: `|s|` counts characters, while JavaScript's `.length` in the cap tests (src/lib/lsystem.ts:63 and 68) counts UTF-16 code units, so a sentence with characters outside the Basic Multilingual Plane reaches the cap later in the model than in the source. The iteration count is an `int`; the source's loop also accepts a fractional count (2.5 runs three generations), which the store never passes.
- GameData.AxiomCost: the length is a count of characters, not of UTF-16 code units, so an axiom with a character outside the Basic Multilingual Plane costs less in the model (a single emoji costs max(8, 6) = 8 here and max(8, 12) = 12 in the source).
- UseLSystem.StatsOf: `sentenceLength` is `|sentence|`, a count of characters, while the hook reports `sentence.length` in UTF-16 code units. A sentence with characters outside the Basic Multilingual Plane reports a shorter length in the model. UseLSystem.Summarise, UseLSystem.Compute and UseLSystem.HookStats inherit this.

## Findings

| source | as written | input that shows it | evidently intended | confidence | as-written member | corrected member |
|---|---|---|---|---|---|---|
| src/lib/fractal/workerCodeGenerator.ts:75 | the real pixel offset is divided by `0.5 * zoom * width`, while the imaginary offset (line 73) uses `height` | width 200, height 100, zoom 1: one pixel is 0.01 wide but 0.02 tall in the complex plane | divide by `0.5 * zoom * height`, so pixels are square on every canvas (tests/unit/workerCodeGenerator.test.ts:14-19 asks for it) | high; not executed | Escape.AsWrittenStretchesWideCanvas | Escape.IntendedPixelsAreSquare |
| src/workers/fractalCpu.worker.ts:95-96 | the same width divisor in the module worker | the same 200x100 canvas at zoom 1 | the same height divisor | high; not executed | Escape.AsWrittenSquareOnlyWhenSquare | Escape.IntendedPixelsAreSquare |

The two workers' scenes use the divisor as written (`WidthAsWritten`). Every pixel, tile and message lemma in `Escape` and `TileRender` is stated for either divisor, so all of them also hold for the corrected mapping (`HeightIntended`).
