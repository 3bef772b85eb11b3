# TerraFlow core in Dafny

TerraFlow reads a terrain point cloud (x y z samples laid out as a row-major
grid), links every cell to its four grid neighbours, and runs a simple
watershed simulation. In each step, water flows between neighbouring cells
in proportion to their difference in head (terrain plus water), and then
evaporates. The result is rendered as a grey height map or as a blue water
map on an 800 x 800 canvas.

This project models the computational core of `pointcloud.c`, together with
the growable list, the 2D allocator and the row-major index macro of
`util.c` / `util.h`. Each piece is proved against a value-level
specification.

| file | module | what it models |
|---|---|---|
| `wrappers.dfy` | `Wrappers` | `Option`, standing in for a NULL pointer result |
| `util.dfy` | `Util` | `ACCESS_2D`, `allocateArray`, and the `List` record with `listInit`, `listAddEnd`, `listGet` |
| `statistics.dfy` | `Statistics` | the running minimum, maximum and sum of the reader, as folds over the values read so far |
| `grid.dfy` | `Grid` | the cell record, neighbour links as list indices, and the grid after `initializeWatershed` |
| `watershed.dfy` | `Watershed`, `WatershedScenario` | the coefficient range, uniform water addition, the double-buffered step and its order independence, and the depression test |
| `raster.dfy` | `Raster` | pixel mapping with C truncation, per-pixel sums and counts, the running-average contrast range, and the grey and blue blend |
| `pointcloud.dfy` | `PointCloudModel` | the `PointCloud` object and the imperative operations: reading, lookup, coefficients, initialisation, water, the step and both renderers |

Modelling choices:
- A C `double` is a Dafny `real`.
- The C `(int)` conversion is `Raster.Trunc`, which truncates toward zero.
- `DBL_MAX` is written out exactly.
- Neighbour pointers are indices into the list of cells (`Option<nat>`). The source only ever obtains them through `listGet` of a computed index, so a link is present exactly when `listGet` would return non-NULL.
- An allocation that may fail (`malloc`, `calloc`, `realloc`, `bm_create`) takes its outcome as a boolean parameter, except where "## Left out" says otherwise: the reader's list growth and the renderers' accumulation buffers.
- The input stream is a header (present or not) followed by the triples that parse.
- The bitmap is a `Size x Size` array of `Option<Rgb>`: `None` is a pixel that was never written.

The methods of `PointCloudModel.PointCloud` update the cells in place, as the
C code does. Each method's postcondition ties the new contents to a
function of the old contents. The properties the source promises are lemmas
about those functions:
- `Grid.InitCells`
- `Watershed.AddWater`
- `Watershed.StepCells`
- `Raster.GreyPixel`
- `Raster.WaterPixel`

Points where the code may surprise a reader; the model follows the code:
- Pixel positions and intensities are truncated, not rounded.
- The height map's contrast range is the least and greatest *running* pixel average seen during accumulation (pointcloud.c:235-237), not the range of the final averages. `Raster.AverageWithinMapped` shows that the final averages still lie inside it.
- The water factor is capped at 1 but not clamped below 0.
- The blend truncates each channel separately: r = g = (int)(T(1 - wf)) and b = (int)(T(1 - wf) + (int)(255 wf)).
- The reader does not reject degenerate inputs, and it ignores the header count.
- An invalid coefficient update or step is a no-op that only prints a diagnostic to stderr; no error reaches the caller (the diagnostics are left out, see "## Left out").

## Model

| member | source | states |
|---|---|---|
| Util.Access2D | util.h:8 | defines ACCESS_2D(row, col, n) = row * n + col, the row-major index |
| Statistics.RunMin | pointcloud.c:81-106 | defines a running minimum: it starts at DBL_MAX and takes a value only when it is strictly smaller, in input order |
| Statistics.RunMax | pointcloud.c:81-106 | defines a running maximum: it starts at -DBL_MAX and takes a value only when it is strictly larger, in input order |
| Statistics.Sum | pointcloud.c:87-108 | defines height_sum: it starts at 0 and adds every value in input order |
| Statistics.Average | pointcloud.c:121 | defines avg_height as height_sum / point_count, with 0.0 for no samples |
| Statistics.StatsOf | pointcloud.c:81-121 | defines the statistics record: running min/max of z, x and y, and the average height |
| Grid.CellOf | pointcloud.c:93-98 | defines the cell the reader appends for a triple: its coordinates, no water, four NULL links |
| Grid.ListLink | util.c:60-66 | defines listGet(j) as a link: j when 0 <= j < size, otherwise absent |
| Grid.LinkedCell | pointcloud.c:313-342 | defines what the loop body writes at (row, col): wd 0, and each link set to the listGet of the neighbour index when its boundary guard holds, otherwise NULL |
| Grid.InitCells | pointcloud.c:306-354 | defines the cells after initializeWatershed: every index the row/col loops reach becomes its linked cell, and every other cell is untouched |
| Watershed.CoefsInRange | pointcloud.c:277-284 | defines the accepted range: water_coef in [0, 0.2] and evap_coef in [0.9, 1.0] |
| Watershed.AddWater | pointcloud.c:370-376 | defines the cells after adding amount to every wd |
| Watershed.Head | pointcloud.c:407-446 | defines a cell's head t + w, its terrain height plus its water depth, on both sides of every flow |
| Watershed.Flow | pointcloud.c:407-446 | defines one neighbour's flow (t2 + w2) - (t1 + w1), or 0 for a NULL link |
| Watershed.TotalChange | pointcloud.c:405-446 | defines total_change as the west, east, north and south flows summed |
| Watershed.Staged | pointcloud.c:396-461 | defines the new_water array: every entry is the staged depth from the same snapshot |
| Watershed.StepCells | pointcloud.c:396-469 | defines the cells after a step: each wd is replaced by its staged value, and nothing else changes |
| Watershed.Commit | pointcloud.c:463-469 | defines the commit loop run over any sequence of indices |
| Watershed.SweepInPlace | pointcloud.c:401-469 | defines the single-buffer alternative that the staging array avoids: each new depth is written straight back, so later cells read updated neighbours |
| Raster.PixelX | pointcloud.c:228 | defines the column as (int)((x - min_x) * scale) |
| Raster.PixelY | pointcloud.c:229 | defines the row as size - 1 - (int)((y - min_y) * scale), so north is up |
| Raster.Lands | pointcloud.c:231 | defines a cell landing on the canvas: both pixel coordinates in [0, size) |
| Raster.Hits | pointcloud.c:227-233 | defines a cell contributing to pixel (x, y): it lands there |
| Raster.CountAt | pointcloud.c:224-239 | defines heightCount[y][x] after the loop: the number of cells that hit the pixel |
| Raster.HeightAt | pointcloud.c:224-239 | defines heightSum[y][x] after the loop: the heights of the cells that hit the pixel, summed in order |
| Raster.WaterAt | pointcloud.c:509-521 | defines water[y][x] after the loop: the water depths of the cells that hit the pixel, summed in order |
| Raster.RunningAverages | pointcloud.c:231-237 | defines the sequence of pixel averages the loop compares, one per landing cell, each taken just after that cell is added |
| Raster.MappedMin | pointcloud.c:221-237 | defines mappedMin as the running minimum of the running averages |
| Raster.MappedMax | pointcloud.c:222-237 | defines mappedMax as the running maximum of the running averages |
| Raster.GreyPixel | pointcloud.c:242-256 | a pixel is written iff its count > 0, and then with equal r, g and b in [0, 255], the grey of its average on [mappedMin, mappedMax] |
| Raster.Shade | pointcloud.c:542-544 | defines the shared term terrain * (1 - water_factor) of all three channels, before truncation |
| Raster.TintOf | pointcloud.c:539-544 | defines the blend channels: blue = (int)(255 wf), and each channel is truncated separately |
| Raster.Channels | pointcloud.c:542-544 | defines r = g = (int)shade and b = (int)(shade + blue) |
| Raster.Blend | pointcloud.c:527-544 | the water map's colour for a pixel's average height and water has r == g; it is the terrain grey on [min_height, max_height] blended by the capped water factor |
| Raster.WaterPixel | pointcloud.c:524-550 | a pixel is written iff its count > 0, and then with r == g and the blend of its average height and average water |
| Util.Access2DInverse | util.h:8 | row-major indexing is invertible: for 0 <= col < numCols, index / numCols is the row and index % numCols is the column |
| Util.Access2DBounds | util.h:8 | every in-grid (row, col) maps inside [0, rows * cols) |
| Util.RowOfIndex | util.h:8 | every index below rows * cols is ACCESS_2D of a row in [0, rows) and its remainder |
| Util.Access2DExample | tests/test_util.c:35-39 | ACCESS_2D(1, 2, 4) is 6, as the macro test asserts |
| Util.AllocateArray | util.c:10-32 | the result is null iff the row-pointer allocation or some row allocation fails; otherwise it has `rows` distinct fresh rows of `columns` entries, all 0.0 |
| Util.List.constructor | util.h:10-15 | a list record before listInit holds no buffer and no elements |
| Util.List.Init | util.c:34-41 | size 0, capacity 10, element size recorded, the list is empty and valid; the result is true iff the buffer was allocated |
| Util.List.AddEnd | util.c:43-58 | below capacity, x is appended and the capacity is kept; when full, the capacity doubles and x is appended; when full and the reallocation fails, the list is left exactly as it was; 0 <= size <= capacity is preserved |
| Util.List.Get | util.c:60-66 | None iff index < 0 or index >= size; otherwise the element stored at that index |
| Util.ListScenario | tests/test_util.c:71-91 | after appending 0..14 the capacity has doubled from 10 to 20 and listGet(i) == i for every i < 15 |
| Statistics.RunStep | pointcloud.c:100-108 | folding one more value updates the running min and max only on a strict improvement, and adds it to the sum |
| Statistics.PrefixStep | pointcloud.c:92-112 | one iteration of the read loop: the value at position n joins the folds over the first n values |
| Statistics.RunMinBelow | pointcloud.c:80-101 | the running minimum is at most DBL_MAX and at most every value read |
| Statistics.RunMinAttained | pointcloud.c:80-101 | over finite values, the running minimum is one of the values |
| Statistics.RunMaxAbove | pointcloud.c:80-102 | the running maximum is at least -DBL_MAX and at least every value read |
| Statistics.RunMaxAttained | pointcloud.c:80-102 | over finite values, the running maximum is one of the values |
| Statistics.StatsBoundSamples | pointcloud.c:80-108 | every sample's z lies in [min_height, max_height], its x in [min_x, max_x] and its y in [min_y, max_y] |
| Statistics.StatsHeightsAttained | pointcloud.c:80-108 | on a non-empty finite input, min_height and max_height are heights of samples |
| Statistics.SmallGridStats | tests/test_pointcloud.c:6-48 | the 3 x 3 test grid with heights 1..9 has min_height 1.0 and max_height 9.0 |
| Grid.CellsOf | pointcloud.c:93-98 | one cell per sample, in input order: same coordinates, no water, no links |
| Grid.CellsOfPrefix | pointcloud.c:92-111 | reading one more sample appends exactly its cell |
| Grid.InitLinks | pointcloud.c:306-342 | on a full rows x cols grid, cell i is dry, keeps its coordinates, and links north to i - cols iff row > 0, south to i + cols iff row < rows - 1, east to i + 1 iff col < cols - 1, and west to i - 1 iff col > 0 |
| Grid.InitLinkCount | pointcloud.c:316-342 | a cell's link count is 4 minus the number of grid borders it lies on |
| Grid.InitNorthSouthMutual | pointcloud.c:316-328 | after initialisation, i links north to j iff j links south to i |
| Grid.InitEastWestMutual | pointcloud.c:330-342 | after initialisation, i links east to j iff j links west to i |
| Grid.InitCellAt | pointcloud.c:309-342 | the loop body at (row, col) writes the linked form of the cell at ACCESS_2D(row, col) |
| Grid.InitIdempotent | pointcloud.c:300-357 | running initializeWatershed twice gives the same cells as running it once |
| Grid.InitKeepsShape | pointcloud.c:300-357 | initialisation keeps every coordinate, and every link names a stored cell |
| Grid.CoversSamePositions | pointcloud.c:80-108 | the statistics keep bounding the cells when only water and links change |
| Grid.ThreeByThreeLinks | tests/test_pointcloud.c:120-217 | on 3 x 3: the centre has all four links; the top-left corner has only south and east; the bottom-right corner has only north and west; every cell is dry |
| Watershed.UpdatedCoefs | pointcloud.c:274-288 | both coefficients become the new pair iff the new pair is in range (or equals the old pair), otherwise both stay as they were; in-range coefficients stay in range |
| Watershed.OnlyDepthsDifferKeepsShape | pointcloud.c:366-377 | grids that differ only in water depth have the same coordinates and the same valid links |
| Watershed.AddWaterEffect | pointcloud.c:366-377 | adding water changes nothing but depths, and every depth grows by exactly the amount |
| Watershed.AddWaterTwice | tests/test_pointcloud.c:255-281 | adding a and then b is the same as adding a + b (2.5 twice is 5.0) |
| Watershed.AddWaterNonNegative | pointcloud.c:366-377 | adding a non-negative amount keeps depths non-negative |
| Watershed.StagedDepth | pointcloud.c:448-460 | a staged depth is never negative, and it is either 0 or (wd + water_coef * total_change) * evap_coef |
| Watershed.StagedDepthValue | pointcloud.c:448-460 | the source's order of operations (total_change scaled first, then added, then evaporated, then raised to 0) gives the staged depth |
| Watershed.HighestNeverGains | pointcloud.c:405-446 | a cell whose head is at least every head has total change <= 0 |
| Watershed.LowestNeverLoses | pointcloud.c:405-446 | a cell whose head is at most every head has total change >= 0 |
| Watershed.StepEffect | pointcloud.c:396-469 | a step changes only depths, and every depth it leaves is non-negative |
| Watershed.StepPureEvaporation | pointcloud.c:448-460 | with flow coefficient 0 and non-negative depths, each depth is multiplied by evap_coef |
| Watershed.CommitAt | pointcloud.c:464-469 | after committing over a sequence of indices, exactly the visited cells hold their staged depth |
| Watershed.CommitInAnyOrder | pointcloud.c:401-469 | staging every depth from the snapshot and then committing in any order that visits every cell gives the same grid, the step |
| Watershed.SweepStep | pointcloud.c:401-460 | an in-place update of one cell changes only its depth, to the value computed from the current grid |
| Watershed.PairFlows | pointcloud.c:405-446 | on two cells linked east-west, each cell's total change is the other's head minus its own |
| Watershed.TwoCellsFlows | pointcloud.c:405-446 | on the two-cell example the total changes are +15 and -15 |
| Watershed.StepTwoCells | pointcloud.c:401-469 | the staged step on the two-cell example gives 1.5 and 3.5, both read from the snapshot |
| Watershed.SweepWestFirst | pointcloud.c:401-469 | an in-place sweep visiting cell 0 first leaves it at 1.5 |
| Watershed.SweepEastFirst | pointcloud.c:401-469 | an in-place sweep visiting cell 1 first leaves cell 0 at 1.35 |
| Watershed.InPlaceSweepDependsOnOrder | pointcloud.c:396-469 | without the staging array, the two visiting orders give different grids, which is why the source stages |
| WatershedScenario.DepressionScenario | tests/test_pointcloud.c:303-387 | 3 x 3 at height 10 with a centre at 5, initialised, 2.0 water added, one step with the default coefficients: the centre ends above 2.0 and every other cell below 2.0 |
| Raster.Trunc | pointcloud.c:228-229 | (int) truncates toward zero: for v >= 0, t <= v < t + 1; for v < 0, t - 1 < v <= t |
| Raster.Clamp | pointcloud.c:249-250 | the result lies in [0, 255], is the value itself inside that range, and is 0 below it and 255 above it |
| Raster.ProjectionOf | pointcloud.c:203-205 | the scale is the smaller of (size - 1) / x extent and (size - 1) / y extent |
| Raster.Grey | pointcloud.c:248-250 | a grey level always lies in [0, 255] |
| Raster.WaterFactor | pointcloud.c:537-538 | the water factor is at most 1, and it is either 1 or avg_water / maxwd |
| Raster.Tint | pointcloud.c:539-544 | r == g; with wf in [0, 1] every channel is in [0, 255] and blue is at least (int)(255 wf); wf = 0 gives the terrain grey and wf = 1 gives pure blue |
| Raster.TintChannels | pointcloud.c:539-544 | for a grey in [0, 255] and wf in [0, 1], the blend's channels are in [0, 255] |
| Raster.ShadeBounds | pointcloud.c:542-544 | terrain * (1 - wf) lies between 0 and 255 (1 - wf) |
| Raster.BlueBounds | pointcloud.c:539-544 | adding the blue share to the faded terrain keeps the blue channel in [blue, 255] |
| Raster.AccumulateStep | pointcloud.c:224-239 | one iteration of the accumulation loop adds the cell to exactly the pixel it hits and appends that pixel's new average to the running averages |
| Raster.CountAtPositive | pointcloud.c:227-232 | a pixel's count is positive iff some cell hits it, and only pixels on the canvas can be hit |
| Raster.SingleHitExact | pointcloud.c:509-521 | a pixel hit by exactly one cell holds that cell's height and water |
| Raster.NoHitsNothing | pointcloud.c:209-212 | a pixel no cell hits keeps count 0 and sums 0 |
| Raster.FinalAverageIsRunning | pointcloud.c:224-239 | every counted pixel's final average is one of the running averages |
| Raster.AverageWithinMapped | pointcloud.c:221-239 | every counted pixel's average lies between mappedMin and mappedMax |
| Raster.GreyNeedsNoClamp | pointcloud.c:242-256 | in the height map the clamp never acts: the truncated level is already in [0, 255], and the pixel shows exactly that grey |
| Raster.BlendInRange | pointcloud.c:527-544 | with non-negative water and a positive maxwd every channel is in [0, 255], and water at or above maxwd saturates to pure blue |
| PointCloudModel.PointCloud.constructor | pointcloud.c:56-63 | a new cloud has water_coef 0.1 and evap_coef 0.95, which are in range |
| PointCloudModel.PointCloud.GetPoint | pointcloud.c:168-175 | None iff row or col is outside the grid or the index is past the stored cells; otherwise the cell at row * cols + col |
| PointCloudModel.PointCloud.UpdateWatershedCoefficients | pointcloud.c:274-288 | the new coefficients are exactly UpdatedCoefs of the old ones and the arguments |
| PointCloudModel.PointCloud.LinkTo | pointcloud.c:316-342 | a neighbour pointer taken from listGet(j) (List.Get) is present exactly when listGet returns non-NULL, i.e. when 0 <= j < size, and then names index j |
| PointCloudModel.PointCloud.InitializeWatershed | pointcloud.c:300-357 | -1 with nothing changed when there is no buffer; otherwise 0, and the cells become InitCells of the old cells |
| PointCloudModel.PointCloud.LinkCell | pointcloud.c:313-342 | the loop body writes exactly the linked, dried cell for (row, col) |
| PointCloudModel.PointCloud.InitializeRow | pointcloud.c:307-354 | after row `row`, every cell before (row + 1) * cols is initialised and every later cell is untouched |
| PointCloudModel.PointCloud.AddUniformWater | pointcloud.c:366-377 | unchanged for a negative amount or a missing buffer; otherwise the cells become AddWater(old cells, amount); the cloud stays valid |
| PointCloudModel.PointCloud.NeighbourFlow | pointcloud.c:407-416 | the flow f(t1, w1, t2, w2) from one link, or 0 when the link is NULL |
| PointCloudModel.PointCloud.TotalChangeAt | pointcloud.c:405-446 | total_change is the sum of the west, east, north and south flows |
| PointCloudModel.PointCloud.NewDepth | pointcloud.c:448-460 | the staged depth of cell i from the unchanged cells |
| PointCloudModel.PointCloud.StageDepths | pointcloud.c:396-461 | every new_water entry is the staged depth computed from the pre-step snapshot |
| PointCloudModel.PointCloud.CommitDepths | pointcloud.c:463-469 | after the commit loop the cells are the step of the snapshot |
| PointCloudModel.PointCloud.WatershedStep | pointcloud.c:384-473 | unchanged when there is no buffer, the coefficients are out of range or the staging calloc fails; otherwise the cells become StepCells of the old cells |
| PointCloudModel.ReadSamples | pointcloud.c:80-121 | the list holds exactly one cell per sample, in input order, and the statistics are the running minima, maxima and average of the samples |
| PointCloudModel.ReadPointCloudData | pointcloud.c:50-130 | null iff the stream is NULL, the record allocation fails, the count is unreadable or listInit fails; otherwise a fresh cloud with a fresh list buffer, one cell per sample, the samples' statistics, which bound every cell, and the default coefficients |
| PointCloudModel.Scale | pointcloud.c:203-205 | the renderer's scale is ProjectionOf the statistics |
| PointCloudModel.AccumulateHeight | pointcloud.c:224-239 | one iteration keeps the sums, counts and running min/max equal to their definitions over one more cell |
| PointCloudModel.AccumulateHeights | pointcloud.c:207-239 | after the loop every pixel holds its height sum and count, and mappedMin/mappedMax are the min/max of the running averages |
| PointCloudModel.ImagePointCloud | pointcloud.c:183-272 | no image without a buffer or bitmap; otherwise a fresh Size x Size canvas where every pixel with count > 0 shows the truncated, clamped grey of its average, and every other pixel is left unwritten |
| PointCloudModel.AccumulateWaterAt | pointcloud.c:509-521 | one iteration keeps the height sums, water sums and counts equal to their definitions over one more cell |
| PointCloudModel.AccumulateWater | pointcloud.c:497-521 | after the loop every pixel holds its height sum, water sum and count |
| PointCloudModel.ImagePointCloudWater | pointcloud.c:478-569 | no image without a buffer or bitmap; otherwise a fresh Size x Size canvas where every pixel with count > 0 shows the blend of its terrain grey and water factor, and every other pixel is left unwritten |
| PointCloudModel.WaterColour | pointcloud.c:527-544 | the colour computed step by step from the average height and water is the water map's blend of terrain grey and capped water factor |
| PointCloudModel.InitWaterStep | tests/test_pointcloud.c:303-387 | initialise, add 2.0 water and step once leaves the cells equal to the step of the watered, initialised cells read before |
| PointCloudModel.Depths | util.c:60-66 | listGet over every index reads back each stored cell's water depth, in list order |
| PointCloudModel.DepressionRun | tests/test_pointcloud.c:303-387 | reading 3 x 3 samples at height 10 with a centre at 5, then initialising, adding 2.0 water and stepping once through the cloud's own methods, leaves the centre above 2.0 and every other cell below 2.0 |

## Left out

- Grid dimensions (pointcloud.c:115-119): the `sqrt`-based inference of rows and cols is floating-point; `ReadPointCloudData` takes `rows` and `cols` as parameters.
- `stat1`, `pointcloud_print_stats`, `pointcloud_free` and every diagnostic `printf`/`fprintf`: output and deallocation only.
- Parsing: `fscanf` is replaced by a `Stream` holding the parsed header and the triples. The header value is ignored, as in the source.
- Bitmap library: `bm_create`, `bm_set_color`, `bm_clear`, `bm_putpixel`, `bm_save` and `bm_free` are foreign calls. The canvas is an array of optional colours. A failed `bm_create` is the `bitmapOk` parameter. The saved file is not modelled.
- Pixels of the water map that no cell hits are `None`; the source never clears that bitmap, so their colour is whatever `bm_create` produced.
- Allocation failures of the height map's buffers (pointcloud.c:207-218): the source fills the rows before its NULL check, so a failed allocation is dereferenced first. The model assumes the buffers are allocated.
- Allocation failures of the water map's buffers (pointcloud.c:497-507): the source has no NULL check there at all. The model assumes the buffers are allocated.
- `ReadSamples`: each `listAddEnd` is modelled with a successful reallocation. When `realloc` fails in the source, that sample is silently dropped while its statistics are still counted.
- `Statistics.Average`: with no samples the source divides 0 by 0; the model yields 0.0.
- IEEE edge cases are preconditions of the renderers, when a bitmap is created, rather than modelled behaviour: zero x or y extent (pointcloud.c:203-204, 493-494), a zero contrast range (pointcloud.c:242), equal min and max height, and `maxwd == 0` (pointcloud.c:537). NaN and infinities are not represented. Rounding error is not modelled, since `real` arithmetic is exact.
- The NULL `pc` and NULL `filename` checks: the model's methods take a non-null cloud and have no file name.
- Util.List.AddEnd: requires a buffer. After a failed `listInit`, the source's `listAddEnd` would write through a NULL buffer (util.c:56). No caller in the source appends to a list whose `listInit` failed.
- Memory layout: neighbour pointers into the list buffer are replaced by indices, and freeing of rows (util.c:23-26) is not modelled.
- `Watershed.SweepWestFirst`, `Watershed.SweepEastFirst`, `Watershed.StepTwoCells` and `Watershed.InPlaceSweepDependsOnOrder` are stated for every pair of cells satisfying `TwoCellsAt`, and `Watershed.TwoCells` shows that such a pair exists.
- watershed.c (command-line driver), display.c and utility_scripts/ (data generation): outside the core.
