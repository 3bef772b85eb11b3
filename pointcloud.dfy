/**
  The point cloud object of pointcloud.c: the reader that fills it
  (readPointCloudData), point lookup by grid position (pointcloud_get_point),
  the coefficient setter, the three watershed operations that update the
  cells in place, and the two renderers. Each method is tied to the
  value-level definitions of Statistics, Grid, Watershed and Raster.
 */
module PointCloudModel {
  import opened Wrappers
  import opened Util
  import opened Statistics
  import opened Grid
  import opened Watershed
  import opened Raster
  import opened WatershedScenario

  /** sizeof(pcd_t) on a 64-bit target: four doubles and four pointers. */
  const CellSize: int := 64

  /**
    A point cloud: the list of cells in row-major order, the grid
    dimensions, the two watershed coefficients and the statistics of the
    samples read.
   */
  class PointCloud {
    var points: List<Cell>
    var rows: int
    var cols: int
    var waterCoef: real
    var evapCoef: real
    var stats: Stats

    /**
      The list is well formed, every neighbour link names a stored cell and
      the statistics bound every stored cell.
     */
    ghost predicate Valid()
      reads this, points, points.data
    {
      points.Valid() && 0 <= rows && 0 <= cols &&
      LinksInRange(points.Elements()) && Covers(stats, points.Elements())
    }

    /** The stored cells. */
    function Cells(): seq<Cell>
      reads this, points, points.data
      requires Valid()
    {
      points.Elements()
    }

    /** A cloud as the reader leaves it: the default coefficients 0.1 and 0.95. */
    constructor (points: List<Cell>, rows: int, cols: int, stats: Stats)
      ensures this.points == points && this.rows == rows && this.cols == cols && this.stats == stats
      ensures waterCoef == DefaultWaterCoef && evapCoef == DefaultEvapCoef
      ensures CoefsInRange(waterCoef, evapCoef)
    {
      this.points := points;
      this.rows := rows;
      this.cols := cols;
      this.stats := stats;
      waterCoef := DefaultWaterCoef;
      evapCoef := DefaultEvapCoef;
    }

    /**
      pointcloud_get_point: the cell at (row, col), or None when the position
      is outside the rows x cols grid or past the stored cells.
     */
    function GetPoint(row: int, col: int): (r: Option<Cell>)
      reads this, points, points.data
      requires Valid()
      ensures r.None? <==>
        row < 0 || row >= rows || col < 0 || col >= cols || Access2D(row, col, cols) >= |Cells()|
      ensures r.Some? ==> 0 <= Access2D(row, col, cols) && r.value == Cells()[Access2D(row, col, cols)]
    {
      if row < 0 || row >= rows || col < 0 || col >= cols then None
      else points.Get(Access2D(row, col, cols))
    }

    /**
      update_watershed_coefficients: both coefficients are replaced when both
      are in range, otherwise neither is.
     */
    method UpdateWatershedCoefficients(wcoef: real, ecoef: real)
      modifies this`waterCoef, this`evapCoef
      ensures (waterCoef, evapCoef) == UpdatedCoefs(old(waterCoef), old(evapCoef), wcoef, ecoef)
    {
      if wcoef < 0.0 || wcoef > 0.2 {
        return;
      }
      if ecoef < 0.9 || ecoef > 1.0 {
        return;
      }
      waterCoef := wcoef;
      evapCoef := ecoef;
    }

    /** listGet(j) as a neighbour pointer: the index j when it names a stored cell, else None. */
    function LinkTo(j: int): (link: Option<nat>)
      reads this, points, points.data
      requires points.Valid()
      ensures link == ListLink(j, points.size)
    {
      if points.Get(j).Some? then Some(j) else None
    }

    /**
      initializeWatershed: -1 when the list has no buffer; otherwise 0, with
      every visited cell dry and linked to its grid neighbours.
     */
    method InitializeWatershed() returns (status: int)
      requires Valid()
      modifies points.data
      ensures Valid()
      ensures status == (if points.data == null then -1 else 0)
      ensures Cells() == InitCells(old(Cells()), rows, cols)
    {
      if points.data == null {
        return -1;
      }
      ghost var cells := Cells();
      var row := 0;
      while row < rows
        invariant 0 <= row <= rows
        invariant points.Valid() && points.data != null && points.size == |cells|
        invariant forall k :: 0 <= k < points.size ==>
          points.data[k] == if k < row * cols then InitCells(cells, rows, cols)[k] else cells[k]
      {
        InitializeRow(row, cells);
        row := row + 1;
      }
      assert Cells() == InitCells(cells, rows, cols);
      InitKeepsShape(cells, rows, cols);
      CoversSamePositions(stats, cells, Cells());
      return 0;
    }

    /** The body of the column loop of initializeWatershed: the cell at (row, col) dried and linked. */
    method LinkCell(c: Cell, row: int, col: int) returns (r: Cell)
      requires points.Valid()
      ensures r == LinkedCell(c, row, col, rows, cols, points.size)
    {
      var north := if row > 0 then LinkTo(Access2D(row - 1, col, cols)) else None;
      var south := if row < rows - 1 then LinkTo(Access2D(row + 1, col, cols)) else None;
      var east := if col < cols - 1 then LinkTo(Access2D(row, col + 1, cols)) else None;
      var west := if col > 0 then LinkTo(Access2D(row, col - 1, cols)) else None;
      r := c.(wd := 0.0, north := north, south := south, east := east, west := west);
    }

    /** One pass of the column loop of initializeWatershed: row row of the grid is initialised. */
    method InitializeRow(row: int, ghost cells: seq<Cell>)
      requires points.Valid() && points.data != null && points.size == |cells|
      requires 0 <= row < rows && 0 <= cols
      requires forall k :: 0 <= k < points.size ==>
        points.data[k] == if k < row * cols then InitCells(cells, rows, cols)[k] else cells[k]
      modifies points.data
      ensures points.Valid()
      ensures forall k :: 0 <= k < points.size ==>
        points.data[k] == if k < (row + 1) * cols then InitCells(cells, rows, cols)[k] else cells[k]
    {
      var data := points.data;
      var col := 0;
      var index := row * cols;
      while col < cols
        invariant 0 <= col <= cols && index == row * cols + col
        invariant forall k :: 0 <= k < points.size ==>
          data[k] == if k < index then InitCells(cells, rows, cols)[k] else cells[k]
      {
        var current := points.Get(index);
        if current.Some? {
          var linked := LinkCell(current.value, row, col);
          InitCellAt(cells, rows, cols, row, col);
          data[index] := linked;
        }
        col := col + 1;
        index := index + 1;
      }
      assert row * cols + cols == (row + 1) * cols;
    }

    /**
      watershedAddUniformWater: a negative amount, or a list with no buffer,
      leaves the cells alone; otherwise every cell gains amount of water.
     */
    method AddUniformWater(amount: real)
      requires Valid()
      modifies points.data
      ensures Valid()
      ensures Cells() == if amount < 0.0 || points.data == null then old(Cells()) else AddWater(old(Cells()), amount)
    {
      if points.data == null || amount < 0.0 {
        return;
      }
      ghost var cells := Cells();
      var data := points.data;
      var i := 0;
      while i < points.size
        invariant 0 <= i <= points.size && data == points.data && points.Valid()
        invariant forall k :: 0 <= k < points.size ==>
          data[k] == if k < i then AddWater(cells, amount)[k] else cells[k]
      {
        var point := points.Get(i);
        if point.Some? {
          data[i] := point.value.(wd := point.value.wd + amount);
        }
        i := i + 1;
      }
      assert Cells() == AddWater(cells, amount);
      AddWaterEffect(cells, amount);
      OnlyDepthsDifferKeepsShape(cells, Cells());
      CoversSamePositions(stats, cells, Cells());
    }

    /**
      One neighbour block of watershedStep: the flow
      f(t1, w1, t2, w2) = (t2 + w2) - (t1 + w1) from the linked cell into
      cell i, or 0 when the link is NULL.
     */
    method NeighbourFlow(i: int, link: Option<nat>) returns (flow: real)
      requires Valid() && 0 <= i < |Cells()| && LinkOk(link, |Cells()|)
      ensures flow == Flow(Cells(), i, link)
    {
      flow := 0.0;
      if link.Some? {
        var t1 := points.data[i].z;
        var w1 := points.data[i].wd;
        var t2 := points.data[link.value].z;
        var w2 := points.data[link.value].wd;
        flow := (t2 + w2) - (t1 + w1);
      }
    }

    /** total_change of watershedStep for cell i: the flows from the west, east, north and south neighbours. */
    method TotalChangeAt(i: int) returns (totalChange: real)
      requires Valid() && 0 <= i < |Cells()|
      ensures totalChange == TotalChange(Cells(), i)
    {
      var cell := points.data[i];
      assert cell == Cells()[i];
      totalChange := 0.0;
      var flow := NeighbourFlow(i, cell.west);
      totalChange := totalChange + flow;
      flow := NeighbourFlow(i, cell.east);
      totalChange := totalChange + flow;
      flow := NeighbourFlow(i, cell.north);
      totalChange := totalChange + flow;
      flow := NeighbourFlow(i, cell.south);
      totalChange := totalChange + flow;
    }

    /**
      The body of watershedStep's first loop for cell i: the total change,
      scaled by the flow coefficient, added to the depth, evaporated and
      raised to 0 when negative.
     */
    method NewDepth(i: int) returns (w: real)
      requires Valid() && 0 <= i < |Cells()|
      ensures w == StagedDepth(Cells(), i, waterCoef, evapCoef)
    {
      ghost var cells := Cells();
      var totalChange := TotalChangeAt(i);
      var wd := points.data[i].wd;
      assert wd == cells[i].wd;
      totalChange := totalChange * waterCoef;
      w := (wd + totalChange) * evapCoef;
      StagedDepthValue(cells, i, waterCoef, evapCoef, w);
      if w < 0.0 {
        w := 0.0;
      }
    }

    /** The first loop of watershedStep: every new depth computed from the unchanged cells. */
    method StageDepths() returns (newWater: array<real>)
      requires Valid() && points.data != null
      ensures fresh(newWater) && newWater.Length == points.size
      ensures forall k :: 0 <= k < points.size ==> newWater[k] == StagedDepth(Cells(), k, waterCoef, evapCoef)
    {
      newWater := new real[points.size];
      var i := 0;
      while i < points.size
        invariant 0 <= i <= points.size
        invariant forall k :: 0 <= k < i ==> newWater[k] == StagedDepth(Cells(), k, waterCoef, evapCoef)
      {
        var c := points.Get(i);
        if c.Some? {
          newWater[i] := NewDepth(i);
        }
        i := i + 1;
      }
    }

    /** The second loop of watershedStep: every cell takes its staged depth. */
    method CommitDepths(newWater: array<real>, ghost cells: seq<Cell>)
      requires Valid() && points.data != null && cells == Cells() && LinksInRange(cells)
      requires newWater.Length == points.size
      requires forall k :: 0 <= k < points.size ==> newWater[k] == StagedDepth(cells, k, waterCoef, evapCoef)
      modifies points.data
      ensures points.Valid() && points.Elements() == StepCells(cells, waterCoef, evapCoef)
    {
      var data := points.data;
      var i := 0;
      while i < points.size
        invariant 0 <= i <= points.size && data == points.data && points.Valid()
        invariant forall k :: 0 <= k < points.size ==>
          data[k] == if k < i then StepCells(cells, waterCoef, evapCoef)[k] else cells[k]
      {
        var point := points.Get(i);
        if point.Some? {
          data[i] := point.value.(wd := newWater[i]);
        }
        i := i + 1;
      }
      assert points.Elements() == StepCells(cells, waterCoef, evapCoef);
    }

    /**
      watershedStep: with a buffer, coefficients in range and the staging
      array allocated (stagingOk), every depth is replaced by the value staged
      from the cells before the call; otherwise nothing changes.
     */
    method WatershedStep(stagingOk: bool)
      requires Valid()
      modifies points.data
      ensures Valid()
      ensures Cells() ==
        if points.data == null || !CoefsInRange(waterCoef, evapCoef) || !stagingOk then old(Cells())
        else StepCells(old(Cells()), waterCoef, evapCoef)
    {
      if points.data == null {
        return;
      }
      if waterCoef < 0.0 || waterCoef > 0.2 || evapCoef < 0.9 || evapCoef > 1.0 {
        return;
      }
      if !stagingOk {
        return;
      }
      ghost var cells := Cells();
      var newWater := StageDepths();
      CommitDepths(newWater, cells);
      assert points.Elements() == StepCells(cells, waterCoef, evapCoef);
      StepEffect(cells, waterCoef, evapCoef);
      OnlyDepthsDifferKeepsShape(cells, Cells());
      CoversSamePositions(stats, cells, Cells());
    }
  }

  /**
    An input stream: the leading point count, when one can be parsed, and
    the x y z samples that follow it up to the first unparsable triple.
   */
  datatype Stream = Stream(header: Option<int>, samples: seq<Triple>)

  /**
    The reading loop of readPointCloudData: each sample is appended as a dry,
    unlinked cell and folded into the running minima, maxima and height sum;
    the average is taken after the loop.
   */
  method ReadSamples(points: List<Cell>, samples: seq<Triple>) returns (stats: Stats)
    requires points.Valid() && points.data != null && points.Elements() == []
    modifies points, points.data
    ensures points.Valid() && points.data != null && points.Elements() == CellsOf(samples)
    ensures fresh(points.data) || points.data == old(points.data)
    ensures stats == StatsOf(samples)
  {
    var minHeight, maxHeight := DblMax, -DblMax;
    var minX, maxX := DblMax, -DblMax;
    var minY, maxY := DblMax, -DblMax;
    var heightSum := 0.0;
    var pointCount := 0;
    ghost var zs, xs, ys := Zs(samples), Xs(samples), Ys(samples);
    while pointCount < |samples|
      invariant 0 <= pointCount <= |samples|
      invariant points.Valid() && points.data != null
      invariant fresh(points.data) || points.data == old(points.data)
      invariant points.Elements() == CellsOf(samples[..pointCount])
      invariant minHeight == RunMin(zs[..pointCount]) && maxHeight == RunMax(zs[..pointCount])
      invariant minX == RunMin(xs[..pointCount]) && maxX == RunMax(xs[..pointCount])
      invariant minY == RunMin(ys[..pointCount]) && maxY == RunMax(ys[..pointCount])
      invariant heightSum == Sum(zs[..pointCount])
    {
      var t := samples[pointCount];
      var point := Cell(t.x, t.y, t.z, 0.0, None, None, None, None);
      if t.z < minHeight { minHeight := t.z; }
      if t.z > maxHeight { maxHeight := t.z; }
      if t.x < minX { minX := t.x; }
      if t.x > maxX { maxX := t.x; }
      if t.y < minY { minY := t.y; }
      if t.y > maxY { maxY := t.y; }
      heightSum := heightSum + t.z;
      assert zs[pointCount] == t.z && xs[pointCount] == t.x && ys[pointCount] == t.y;
      PrefixStep(zs, pointCount);
      PrefixStep(xs, pointCount);
      PrefixStep(ys, pointCount);
      CellsOfPrefix(samples, pointCount);
      pointCount := pointCount + 1;
      points.AddEnd(point, true);
    }
    assert samples[..pointCount] == samples;
    assert zs[..pointCount] == Zs(samples);
    assert xs[..pointCount] == Xs(samples);
    assert ys[..pointCount] == Ys(samples);
    var avgHeight := if pointCount == 0 then 0.0 else heightSum / (pointCount as real);
    stats := Stats(minHeight, maxHeight, avgHeight, minX, maxX, minY, maxY);
  }

  /**
    readPointCloudData: null when there is no stream, the cloud record cannot
    be allocated (cloudOk false), the header is missing or listInit fails
    (listOk false); otherwise a cloud holding one dry, unlinked cell per
    sample in input order, with the statistics of the samples and the
    default coefficients. The grid dimensions are given.
   */
  method ReadPointCloudData(stream: Option<Stream>, rows: nat, cols: nat, cloudOk: bool, listOk: bool)
    returns (pc: PointCloud?)
    ensures pc == null <==> stream.None? || !cloudOk || stream.value.header.None? || !listOk
    ensures pc != null ==> fresh(pc) && fresh(pc.points) && fresh(pc.points.data)
    ensures pc != null ==> pc.Valid() && pc.points.data != null
    ensures pc != null ==> pc.Cells() == CellsOf(stream.value.samples)
    ensures pc != null ==> pc.stats == StatsOf(stream.value.samples)
    ensures pc != null ==> pc.rows == rows && pc.cols == cols
    ensures pc != null ==> pc.waterCoef == DefaultWaterCoef && pc.evapCoef == DefaultEvapCoef
  {
    if stream.None? || !cloudOk {
      return null;
    }
    if stream.value.header.None? {
      return null;
    }
    var points := new List<Cell>();
    var ok := points.Init(CellSize, listOk);
    if !ok {
      return null;
    }
    var stats := ReadSamples(points, stream.value.samples);
    StatsBoundSamples(stream.value.samples);
    pc := new PointCloud(points, rows, cols, stats);
  }

  /** The projection the renderers compute: scaleX, scaleY and their fmin. */
  method Scale(pc: PointCloud) returns (p: Projection)
    requires pc.stats.maxX != pc.stats.minX && pc.stats.maxY != pc.stats.minY
    ensures p == ProjectionOf(pc.stats)
  {
    var scaleX := (Size - 1) as real / (pc.stats.maxX - pc.stats.minX);
    var scaleY := (Size - 1) as real / (pc.stats.maxY - pc.stats.minY);
    var scale := if scaleX <= scaleY then scaleX else scaleY;
    p := Projection(pc.stats.minX, pc.stats.minY, scale);
  }

  /** The height sums and counts of every pixel after the first n cells of ps. */
  ghost predicate HeightsAfter(heightSum: array2<real>, heightCount: array2<int>, ps: seq<Cell>, p: Projection, n: int)
    reads heightSum, heightCount
  {
    heightSum.Length0 == Size && heightSum.Length1 == Size &&
    heightCount.Length0 == Size && heightCount.Length1 == Size && 0 <= n <= |ps| &&
    forall y, x :: 0 <= y < Size && 0 <= x < Size ==>
      heightSum[y, x] == HeightAt(ps[..n], p, x, y) && heightCount[y, x] == CountAt(ps[..n], p, x, y)
  }

  /**
    One iteration of imagePointCloud's accumulation loop: cell i of the list
    is added to the pixel it lands on, and that pixel's new average is folded
    into the running minimum and maximum.
   */
  method AccumulateHeight(pc: PointCloud, p: Projection, i: int, heightSum: array2<real>, heightCount: array2<int>,
                          mappedMin: real, mappedMax: real, ghost ps: seq<Cell>)
    returns (newMin: real, newMax: real)
    requires pc.Valid() && ps == pc.Cells() && 0 <= i < |ps|
    requires HeightsAfter(heightSum, heightCount, ps, p, i)
    requires mappedMin == RunMin(RunningAverages(ps[..i], p))
    requires mappedMax == RunMax(RunningAverages(ps[..i], p))
    modifies heightSum, heightCount
    ensures HeightsAfter(heightSum, heightCount, ps, p, i + 1)
    ensures newMin == RunMin(RunningAverages(ps[..i + 1], p))
    ensures newMax == RunMax(RunningAverages(ps[..i + 1], p))
  {
    AccumulateStep(ps, i, p);
    newMin, newMax := mappedMin, mappedMax;
    var point := pc.points.Get(i);
    if point.Some? {
      assert point.value == ps[i];
      var x := PixelX(point.value, p);
      var y := PixelY(point.value, p);
      if 0 <= x < Size && 0 <= y < Size {
        assert Lands(ps[i], p);
        heightSum[y, x] := heightSum[y, x] + point.value.z;
        heightCount[y, x] := heightCount[y, x] + 1;
        assert HeightsAfter(heightSum, heightCount, ps, p, i + 1);
        var avgHeight := heightSum[y, x] / (heightCount[y, x] as real);
        assert RunningAverages(ps[..i + 1], p) == RunningAverages(ps[..i], p) + [avgHeight];
        RunStep(RunningAverages(ps[..i], p), avgHeight);
        if avgHeight < newMin { newMin := avgHeight; }
        if avgHeight > newMax { newMax := avgHeight; }
      } else {
        assert !Lands(ps[i], p);
        assert RunningAverages(ps[..i + 1], p) == RunningAverages(ps[..i], p);
      }
    }
  }

  /**
    The accumulation loop of imagePointCloud: per-pixel height sums and
    counts over the cells in list order, and the least and greatest running
    pixel average seen along the way.
   */
  method AccumulateHeights(pc: PointCloud, p: Projection)
    returns (heightSum: array2<real>, heightCount: array2<int>, mappedMin: real, mappedMax: real)
    requires pc.Valid()
    ensures fresh(heightSum) && fresh(heightCount)
    ensures heightSum.Length0 == Size && heightSum.Length1 == Size
    ensures heightCount.Length0 == Size && heightCount.Length1 == Size
    ensures forall y, x :: 0 <= y < Size && 0 <= x < Size ==>
      heightSum[y, x] == HeightAt(pc.Cells(), p, x, y) && heightCount[y, x] == CountAt(pc.Cells(), p, x, y)
    ensures mappedMin == MappedMin(pc.Cells(), p) && mappedMax == MappedMax(pc.Cells(), p)
  {
    ghost var ps := pc.Cells();
    heightSum := new real[Size, Size]((y, x) => 0.0);
    heightCount := new int[Size, Size]((y, x) => 0);
    mappedMin, mappedMax := DblMax, -DblMax;
    var i := 0;
    while i < pc.points.size
      invariant 0 <= i <= |ps|
      invariant HeightsAfter(heightSum, heightCount, ps, p, i)
      invariant mappedMin == RunMin(RunningAverages(ps[..i], p))
      invariant mappedMax == RunMax(RunningAverages(ps[..i], p))
    {
      mappedMin, mappedMax := AccumulateHeight(pc, p, i, heightSum, heightCount, mappedMin, mappedMax, ps);
      i := i + 1;
    }
    assert ps[..i] == ps;
  }

  /**
    imagePointCloud: no image when the list has no buffer or the bitmap
    cannot be created (bitmapOk false); otherwise the 800 x 800 height map,
    in which every pixel hit by some cell shows the grey of its average
    height on the range of running averages, and every other pixel keeps
    the black background (None: not written).
   */
  method ImagePointCloud(pc: PointCloud, bitmapOk: bool) returns (canvas: array2?<Option<Rgb>>)
    requires pc.Valid()
    requires pc.points.data != null && bitmapOk ==>
      pc.stats.maxX != pc.stats.minX && pc.stats.maxY != pc.stats.minY &&
      MappedMax(pc.Cells(), ProjectionOf(pc.stats)) != MappedMin(pc.Cells(), ProjectionOf(pc.stats))
    ensures canvas == null <==> pc.points.data == null || !bitmapOk
    ensures canvas != null ==> fresh(canvas) && canvas.Length0 == Size && canvas.Length1 == Size
    ensures canvas != null ==> forall y, x :: 0 <= y < Size && 0 <= x < Size ==>
      canvas[y, x] == GreyPixel(pc.Cells(), ProjectionOf(pc.stats), x, y)
  {
    if pc.points.data == null || !bitmapOk {
      return null;
    }
    canvas := new Option<Rgb>[Size, Size]((y, x) => None);
    var p := Scale(pc);
    ghost var ps := pc.Cells();
    var heightSum, heightCount, mappedMin, mappedMax := AccumulateHeights(pc, p);
    var heightRange := mappedMax - mappedMin;
    var y := 0;
    while y < Size
      modifies canvas
      invariant 0 <= y <= Size
      invariant forall yy, xx :: 0 <= yy < Size && 0 <= xx < Size ==>
        canvas[yy, xx] == if yy < y then GreyPixel(ps, p, xx, yy) else None
    {
      var x := 0;
      while x < Size
        modifies canvas
        invariant 0 <= x <= Size
        invariant forall yy, xx :: 0 <= yy < Size && 0 <= xx < Size ==>
          canvas[yy, xx] == if yy < y || (yy == y && xx < x) then GreyPixel(ps, p, xx, yy) else None
      {
        if heightCount[y, x] > 0 {
          var avgHeight := heightSum[y, x] / (heightCount[y, x] as real);
          var intensity := Trunc((avgHeight - mappedMin) / heightRange * 255.0);
          intensity := if intensity < 0 then 0 else if intensity > 255 then 255 else intensity;
          canvas[y, x] := Some(Rgb(intensity, intensity, intensity));
        }
        x := x + 1;
      }
      y := y + 1;
    }
  }

  /** The water sums of every pixel after the first n cells of ps. */
  ghost predicate WaterAfter(water: array2<real>, ps: seq<Cell>, p: Projection, n: int)
    reads water
  {
    water.Length0 == Size && water.Length1 == Size && 0 <= n <= |ps| &&
    forall y, x :: 0 <= y < Size && 0 <= x < Size ==> water[y, x] == WaterAt(ps[..n], p, x, y)
  }

  /** One pass of the accumulation loop of imagePointCloudWater, for cell i. */
  method AccumulateWaterAt(pc: PointCloud, p: Projection, i: int,
                           heights: array2<real>, water: array2<real>, counts: array2<int>, ghost ps: seq<Cell>)
    requires pc.Valid() && ps == pc.Cells() && 0 <= i < |ps|
    requires HeightsAfter(heights, counts, ps, p, i) && WaterAfter(water, ps, p, i) && heights != water
    modifies heights, water, counts
    ensures HeightsAfter(heights, counts, ps, p, i + 1)
    ensures WaterAfter(water, ps, p, i + 1)
  {
    AccumulateStep(ps, i, p);
    var point := pc.points.Get(i);
    if point.Some? {
      assert point.value == ps[i];
      var x := PixelX(point.value, p);
      var y := PixelY(point.value, p);
      if 0 <= x < Size && 0 <= y < Size {
        assert Lands(ps[i], p);
        heights[y, x] := heights[y, x] + point.value.z;
        water[y, x] := water[y, x] + point.value.wd;
        counts[y, x] := counts[y, x] + 1;
        assert HeightsAfter(heights, counts, ps, p, i + 1);
      } else {
        assert !Lands(ps[i], p);
      }
    }
  }

  /**
    The colour arithmetic of imagePointCloudWater for one pixel: the terrain
    grey on the height range, truncated and clamped; the water factor capped
    at 1; blue as its truncated share of 255; and the three blended channels,
    each truncated.
   */
  method WaterColour(avgHeight: real, avgWater: real, st: Stats, maxwd: real) returns (c: Rgb)
    requires maxwd != 0.0 && st.maxHeight != st.minHeight
    ensures c == Blend(avgHeight, avgWater, st, maxwd)
  {
    var heightFactor := (avgHeight - st.minHeight) / (st.maxHeight - st.minHeight);
    var terrain := Trunc(heightFactor * 255.0);
    terrain := if terrain < 0 then 0 else if terrain > 255 then 255 else terrain;
    assert terrain == Grey(avgHeight, st.minHeight, st.maxHeight - st.minHeight);
    var waterFactor := avgWater / maxwd;
    waterFactor := if waterFactor > 1.0 then 1.0 else waterFactor;
    assert waterFactor == WaterFactor(avgWater, maxwd);
    var blue := Trunc(waterFactor * 255.0);
    var shade := terrain as real * (1.0 - waterFactor);
    assert shade == Shade(terrain, waterFactor);
    var r := Trunc(shade);
    var g := Trunc(shade);
    var b := Trunc(shade + blue as real);
    c := Rgb(r, g, b);
    assert c == Channels(shade, blue);
  }

  /** The accumulation loop of imagePointCloudWater: per-pixel height sums, water sums and counts. */
  method AccumulateWater(pc: PointCloud, p: Projection)
    returns (heights: array2<real>, water: array2<real>, counts: array2<int>)
    requires pc.Valid()
    ensures fresh(heights) && fresh(water) && fresh(counts)
    ensures heights.Length0 == Size && heights.Length1 == Size && water.Length0 == Size && water.Length1 == Size
    ensures counts.Length0 == Size && counts.Length1 == Size
    ensures forall y, x :: 0 <= y < Size && 0 <= x < Size ==>
      heights[y, x] == HeightAt(pc.Cells(), p, x, y) && water[y, x] == WaterAt(pc.Cells(), p, x, y) &&
      counts[y, x] == CountAt(pc.Cells(), p, x, y)
  {
    ghost var ps := pc.Cells();
    heights := new real[Size, Size]((y, x) => 0.0);
    water := new real[Size, Size]((y, x) => 0.0);
    counts := new int[Size, Size]((y, x) => 0);
    var i := 0;
    while i < pc.points.size
      invariant 0 <= i <= |ps|
      invariant HeightsAfter(heights, counts, ps, p, i) && WaterAfter(water, ps, p, i)
    {
      AccumulateWaterAt(pc, p, i, heights, water, counts, ps);
      i := i + 1;
    }
    assert ps[..i] == ps;
  }

  /**
    imagePointCloudWater: no image when the list has no buffer or the bitmap
    cannot be created; otherwise the 800 x 800 water map, in which every
    pixel hit by some cell shows its terrain grey (on the height range of the
    statistics) blended towards blue by its average water over maxwd, and
    every other pixel is not written (None).
   */
  method ImagePointCloudWater(pc: PointCloud, maxwd: real, bitmapOk: bool) returns (canvas: array2?<Option<Rgb>>)
    requires pc.Valid()
    requires pc.points.data != null && bitmapOk ==>
      pc.stats.maxX != pc.stats.minX && pc.stats.maxY != pc.stats.minY &&
      pc.stats.maxHeight != pc.stats.minHeight && maxwd != 0.0
    ensures canvas == null <==> pc.points.data == null || !bitmapOk
    ensures canvas != null ==> fresh(canvas) && canvas.Length0 == Size && canvas.Length1 == Size
    ensures canvas != null ==> forall y, x :: 0 <= y < Size && 0 <= x < Size ==>
      canvas[y, x] == WaterPixel(pc.Cells(), ProjectionOf(pc.stats), pc.stats, maxwd, x, y)
  {
    if pc.points.data == null || !bitmapOk {
      return null;
    }
    canvas := new Option<Rgb>[Size, Size]((y, x) => None);
    var p := Scale(pc);
    ghost var ps := pc.Cells();
    var heights, water, counts := AccumulateWater(pc, p);
    var y := 0;
    while y < Size
      modifies canvas
      invariant 0 <= y <= Size
      invariant forall yy, xx :: 0 <= yy < Size && 0 <= xx < Size ==>
        canvas[yy, xx] == if yy < y then WaterPixel(ps, p, pc.stats, maxwd, xx, yy) else None
    {
      var x := 0;
      while x < Size
        modifies canvas
        invariant 0 <= x <= Size
        invariant forall yy, xx :: 0 <= yy < Size && 0 <= xx < Size ==>
          canvas[yy, xx] == if yy < y || (yy == y && xx < x) then WaterPixel(ps, p, pc.stats, maxwd, xx, yy) else None
      {
        if counts[y, x] > 0 {
          var avgHeight := heights[y, x] / (counts[y, x] as real);
          var avgWater := water[y, x] / (counts[y, x] as real);
          var colour := WaterColour(avgHeight, avgWater, pc.stats, maxwd);
          canvas[y, x] := Some(colour);
        }
        x := x + 1;
      }
      y := y + 1;
    }
  }

  /** initializeWatershed, watershedAddUniformWater(2.0) and one watershedStep, in that order. */
  method InitWaterStep(pc: PointCloud)
    requires pc.Valid() && pc.points.data != null
    requires pc.waterCoef == DefaultWaterCoef && pc.evapCoef == DefaultEvapCoef
    modifies pc.points.data
    ensures pc.Valid()
    ensures pc.Cells() ==
      StepCells(AddWater(InitCells(old(pc.Cells()), pc.rows, pc.cols), 2.0), DefaultWaterCoef, DefaultEvapCoef)
  {
    var status := pc.InitializeWatershed();
    pc.AddUniformWater(2.0);
    pc.WatershedStep(true);
  }

  /** listGet(i) for every stored cell: the water depths in list order. */
  method Depths(pc: PointCloud) returns (depths: seq<real>)
    requires pc.Valid()
    ensures |depths| == |pc.Cells()|
    ensures forall k :: 0 <= k < |depths| ==> depths[k] == pc.Cells()[k].wd
  {
    depths := [];
    var i := 0;
    while i < pc.points.size
      invariant 0 <= i <= pc.points.size && |depths| == i
      invariant forall k :: 0 <= k < i ==> depths[k] == pc.Cells()[k].wd
    {
      var cell := pc.points.Get(i);
      depths := depths + [cell.value.wd];
      i := i + 1;
    }
  }

  /**
    The watershed-step test run through the cloud's own operations: a 3 x 3
    grid at height 10 with a centre at 5 is read, initialised, given 2.0
    water and stepped once with the default coefficients; listGet then
    reads back each cell's water. The centre gains, every other cell loses.
   */
  method DepressionRun(samples: seq<Triple>) returns (depths: seq<real>)
    requires |samples| == 9
    requires forall i :: 0 <= i < 9 ==> samples[i].z == if i == 4 then 5.0 else 10.0
    ensures |depths| == 9
    ensures depths[4] > 2.0
    ensures forall i :: 0 <= i < 9 && i != 4 ==> depths[i] < 2.0
  {
    var pc := ReadPointCloudData(Some(Stream(Some(9), samples)), 3, 3, true, true);
    ghost var read := pc.Cells();
    assert |read| == 9 && LinksInRange(read);
    assert forall i :: 0 <= i < 9 ==> read[i].z == samples[i].z;
    DepressionScenario(read);
    InitWaterStep(pc);
    depths := Depths(pc);
  }
}
