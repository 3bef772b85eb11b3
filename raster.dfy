/**
  The accumulation-buffer rasterisation of imagePointCloud
  (pointcloud.c:183-272) and imagePointCloudWater (pointcloud.c:478-569):
  how a cell maps to a pixel of the 800 x 800 canvas, what the per-pixel
  sums and counts are after the accumulation loop, and which colour the
  normalisation loop writes.
 */
module Raster {
  import opened Wrappers
  import opened Statistics
  import opened Grid

  /** Width and height of the canvas. */
  const Size: int := 800

  /** A colour as handed to bm_rgb. */
  datatype Rgb = Rgb(r: int, g: int, b: int)

  /** C's (int) conversion of a double: truncation toward zero. */
  function Trunc(v: real): (t: int)
    ensures v >= 0.0 ==> 0 <= t && t as real <= v < t as real + 1.0
    ensures v < 0.0 ==> t <= 0 && t as real - 1.0 < v <= t as real
  {
    if v >= 0.0 then v.Floor else -((-v).Floor)
  }

  /** The clamp of an intensity to [0, 255]. */
  function Clamp(v: int): (c: int)
    ensures 0 <= c <= 255
    ensures 0 <= v <= 255 ==> c == v
    ensures v < 0 ==> c == 0
    ensures v > 255 ==> c == 255
  {
    if v < 0 then 0 else if v > 255 then 255 else v
  }

  /** Where the canvas starts in data coordinates and how many pixels a unit spans. */
  datatype Projection = Projection(minX: real, minY: real, scale: real)

  /** The uniform scale fmin((size - 1) / x extent, (size - 1) / y extent). */
  function ProjectionOf(st: Stats): (p: Projection)
    requires st.maxX != st.minX && st.maxY != st.minY
    ensures p.minX == st.minX && p.minY == st.minY
    ensures p.scale <= (Size - 1) as real / (st.maxX - st.minX)
    ensures p.scale <= (Size - 1) as real / (st.maxY - st.minY)
    ensures p.scale == (Size - 1) as real / (st.maxX - st.minX) ||
            p.scale == (Size - 1) as real / (st.maxY - st.minY)
  {
    var scaleX := (Size - 1) as real / (st.maxX - st.minX);
    var scaleY := (Size - 1) as real / (st.maxY - st.minY);
    Projection(st.minX, st.minY, if scaleY < scaleX then scaleY else scaleX)
  }

  /** Column of a cell: the truncated scaled x offset. */
  function PixelX(c: Cell, p: Projection): int
  {
    Trunc((c.x - p.minX) * p.scale)
  }

  /** Row of a cell: the truncated scaled y offset, flipped so north is up. */
  function PixelY(c: Cell, p: Projection): int
  {
    Size - 1 - Trunc((c.y - p.minY) * p.scale)
  }

  /** The cell maps onto the canvas. */
  predicate Lands(c: Cell, p: Projection)
  {
    0 <= PixelX(c, p) < Size && 0 <= PixelY(c, p) < Size
  }

  /** The cell contributes to pixel (x, y). */
  predicate Hits(c: Cell, p: Projection, x: int, y: int)
  {
    Lands(c, p) && PixelX(c, p) == x && PixelY(c, p) == y
  }

  /** heightCount[y][x] after accumulating the cells ps in order. */
  function CountAt(ps: seq<Cell>, p: Projection, x: int, y: int): nat
    decreases |ps|
  {
    if ps == [] then 0
    else CountAt(ps[..|ps| - 1], p, x, y) + if Hits(ps[|ps| - 1], p, x, y) then 1 else 0
  }

  /** heightSum[y][x]: the heights of the cells that hit the pixel, summed in order. */
  function HeightAt(ps: seq<Cell>, p: Projection, x: int, y: int): real
    decreases |ps|
  {
    if ps == [] then 0.0
    else HeightAt(ps[..|ps| - 1], p, x, y) + if Hits(ps[|ps| - 1], p, x, y) then ps[|ps| - 1].z else 0.0
  }

  /** water[y][x]: the water depths of the cells that hit the pixel, summed in order. */
  function WaterAt(ps: seq<Cell>, p: Projection, x: int, y: int): real
    decreases |ps|
  {
    if ps == [] then 0.0
    else WaterAt(ps[..|ps| - 1], p, x, y) + if Hits(ps[|ps| - 1], p, x, y) then ps[|ps| - 1].wd else 0.0
  }

  /**
    The running averages the height map compares while accumulating: one per
    cell that lands, the average of its pixel just after adding it.
   */
  function RunningAverages(ps: seq<Cell>, p: Projection): seq<real>
    decreases |ps|
  {
    if ps == [] then []
    else
      var c := ps[|ps| - 1];
      RunningAverages(ps[..|ps| - 1], p) +
        if Lands(c, p) then
          [HeightAt(ps, p, PixelX(c, p), PixelY(c, p)) / (CountAt(ps, p, PixelX(c, p), PixelY(c, p)) as real)]
        else []
  }

  /** mappedMin and mappedMax after the accumulation loop. */
  function MappedMin(ps: seq<Cell>, p: Projection): real
  {
    RunMin(RunningAverages(ps, p))
  }

  function MappedMax(ps: seq<Cell>, p: Projection): real
  {
    RunMax(RunningAverages(ps, p))
  }

  /** The grey level of an average on the range [lo, lo + range], truncated and clamped. */
  function Grey(avg: real, lo: real, range: real): (level: int)
    requires range != 0.0
    ensures 0 <= level <= 255
  {
    Clamp(Trunc((avg - lo) / range * 255.0))
  }

  /** What the height map writes at (x, y): a grey from the pixel average, or nothing. */
  function GreyPixel(ps: seq<Cell>, p: Projection, x: int, y: int): (r: Option<Rgb>)
    requires MappedMax(ps, p) != MappedMin(ps, p)
    ensures r.Some? <==> CountAt(ps, p, x, y) > 0
    ensures r.Some? ==> r.value.r == r.value.g == r.value.b && 0 <= r.value.r <= 255
  {
    var n := CountAt(ps, p, x, y);
    if n > 0 then
      var level := Grey(HeightAt(ps, p, x, y) / (n as real), MappedMin(ps, p), MappedMax(ps, p) - MappedMin(ps, p));
      Some(Rgb(level, level, level))
    else None
  }

  /** The water factor avgWater / maxWater, capped at 1. */
  function WaterFactor(avgWater: real, maxWater: real): (wf: real)
    requires maxWater != 0.0
    ensures wf <= 1.0
    ensures wf == 1.0 || wf == avgWater / maxWater
  {
    var wf := avgWater / maxWater;
    if wf > 1.0 then 1.0 else wf
  }

  /**
    The blend of a terrain grey t with blue by the factor wf:
    (T(1 - wf), T(1 - wf), T(1 - wf) + blue) with blue = 255 wf, each truncated.
   */
  function Tint(t: int, wf: real): (c: Rgb)
    requires 0 <= t <= 255 && wf <= 1.0
    ensures c.r == c.g
    ensures 0.0 <= wf ==> 0 <= c.r <= 255 && 0 <= c.b <= 255 && c.b >= Trunc(wf * 255.0)
    ensures wf == 0.0 ==> c == Rgb(t, t, t)
    ensures wf == 1.0 ==> c == Rgb(0, 0, 255)
  {
    if 0.0 <= wf then TintChannels(t, wf); TintOf(t, wf) else TintOf(t, wf)
  }

  function TintOf(t: int, wf: real): Rgb
  {
    Channels(Shade(t, wf), Trunc(wf * 255.0))
  }

  /** The grey t scaled by the dry share 1 - wf. */
  function Shade(t: int, wf: real): real
  {
    t as real * (1.0 - wf)
  }

  /** The three truncated channels of a shade of grey with blue added to the blue channel. */
  function Channels(shade: real, blue: int): Rgb
  {
    Rgb(Trunc(shade), Trunc(shade), Trunc(shade + blue as real))
  }

  /** The channel arithmetic of the blend, for a grey t and a factor wf in [0, 1]. */
  lemma TintChannels(t: int, wf: real)
    requires 0 <= t <= 255 && 0.0 <= wf <= 1.0
    ensures var c := TintOf(t, wf);
      0 <= c.r <= 255 && 0 <= c.b <= 255 && c.b >= Trunc(wf * 255.0)
  {
    ShadeBounds(t, wf);
    BlueBounds(Shade(t, wf), wf);
  }

  /** A grey level scaled by the dry share stays between 0 and 255 times that share. */
  lemma ShadeBounds(t: int, wf: real)
    requires 0 <= t <= 255 && wf <= 1.0
    ensures 0.0 <= Shade(t, wf) <= 255.0 * (1.0 - wf)
  {
    var tr, k := t as real, 1.0 - wf;
    MulMonotone(tr, 255.0, k);
    MulNonNegative(tr, k);
  }

  /** Adding the blue share of wf to a shade below 255 (1 - wf) keeps every channel in [0, 255]. */
  lemma BlueBounds(shade: real, wf: real)
    requires 0.0 <= wf <= 1.0 && 0.0 <= shade <= 255.0 * (1.0 - wf)
    ensures var blue := Trunc(wf * 255.0);
      var c := Channels(shade, blue);
      0 <= c.r <= 255 && blue <= c.b <= 255
  {
    var blue := Trunc(wf * 255.0);
    assert 0.0 <= blue as real <= wf * 255.0;
    assert blue as real <= shade + blue as real <= 255.0;
  }

  lemma MulMonotone(a: real, b: real, c: real)
    requires a <= b && c >= 0.0
    ensures a * c <= b * c
  {
    assert (b - a) * c >= 0.0;
  }

  lemma MulNonNegative(a: real, c: real)
    requires a >= 0.0 && c >= 0.0
    ensures a * c >= 0.0
  {
  }

  /** The colour imagePointCloudWater writes for a pixel's average height and water. */
  function Blend(avgHeight: real, avgWater: real, st: Stats, maxWater: real): (c: Rgb)
    requires maxWater != 0.0 && st.maxHeight != st.minHeight
    ensures c.r == c.g
  {
    Tint(Grey(avgHeight, st.minHeight, st.maxHeight - st.minHeight), WaterFactor(avgWater, maxWater))
  }

  /** What the water map writes at (x, y): the blend of the pixel averages, or nothing. */
  function WaterPixel(ps: seq<Cell>, p: Projection, st: Stats, maxWater: real, x: int, y: int): (r: Option<Rgb>)
    requires maxWater != 0.0 && st.maxHeight != st.minHeight
    ensures r.Some? <==> CountAt(ps, p, x, y) > 0
    ensures r.Some? ==> r.value.r == r.value.g
  {
    var n := CountAt(ps, p, x, y);
    if n > 0 then
      Some(Blend(HeightAt(ps, p, x, y) / (n as real), WaterAt(ps, p, x, y) / (n as real), st, maxWater))
    else None
  }

  /**
    One iteration of the accumulation loop: cell i adds itself to the pixel
    it hits and, when it lands, appends that pixel's new average to the
    running averages.
   */
  lemma AccumulateStep(ps: seq<Cell>, i: int, p: Projection)
    requires 0 <= i < |ps|
    ensures forall x, y ::
      CountAt(ps[..i + 1], p, x, y) == CountAt(ps[..i], p, x, y) + (if Hits(ps[i], p, x, y) then 1 else 0)
    ensures forall x, y ::
      HeightAt(ps[..i + 1], p, x, y) == HeightAt(ps[..i], p, x, y) + (if Hits(ps[i], p, x, y) then ps[i].z else 0.0)
    ensures forall x, y ::
      WaterAt(ps[..i + 1], p, x, y) == WaterAt(ps[..i], p, x, y) + (if Hits(ps[i], p, x, y) then ps[i].wd else 0.0)
    ensures var x, y := PixelX(ps[i], p), PixelY(ps[i], p);
      RunningAverages(ps[..i + 1], p) == RunningAverages(ps[..i], p) +
        if Lands(ps[i], p) then [HeightAt(ps[..i + 1], p, x, y) / (CountAt(ps[..i + 1], p, x, y) as real)] else []
  {
    assert ps[..i + 1][..i] == ps[..i];
  }

  /** A pixel is counted iff some cell hits it; cells off the canvas hit nothing. */
  lemma {:induction false} CountAtPositive(ps: seq<Cell>, p: Projection, x: int, y: int)
    ensures CountAt(ps, p, x, y) > 0 <==> exists i :: 0 <= i < |ps| && Hits(ps[i], p, x, y)
    ensures CountAt(ps, p, x, y) > 0 ==> 0 <= x < Size && 0 <= y < Size
    decreases |ps|
  {
    if ps != [] {
      var init := ps[..|ps| - 1];
      CountAtPositive(init, p, x, y);
      assert forall i :: 0 <= i < |init| ==> init[i] == ps[i];
      if CountAt(init, p, x, y) > 0 {
        var i :| 0 <= i < |init| && Hits(init[i], p, x, y);
        assert Hits(ps[i], p, x, y);
      }
    }
  }

  /** A pixel hit by exactly one cell shows that cell's height and water, undistorted. */
  lemma {:induction false} SingleHitExact(ps: seq<Cell>, p: Projection, k: int)
    requires 0 <= k < |ps| && Lands(ps[k], p)
    requires forall i :: 0 <= i < |ps| && i != k ==> !Hits(ps[i], p, PixelX(ps[k], p), PixelY(ps[k], p))
    ensures var x, y := PixelX(ps[k], p), PixelY(ps[k], p);
      CountAt(ps, p, x, y) == 1 && HeightAt(ps, p, x, y) == ps[k].z && WaterAt(ps, p, x, y) == ps[k].wd
    decreases |ps|
  {
    var x, y := PixelX(ps[k], p), PixelY(ps[k], p);
    var init := ps[..|ps| - 1];
    if k == |ps| - 1 {
      NoHitsNothing(init, p, x, y);
    } else {
      SingleHitExact(init, p, k);
    }
  }

  /** A pixel that no cell hits has count and sums 0. */
  lemma {:induction false} NoHitsNothing(ps: seq<Cell>, p: Projection, x: int, y: int)
    requires forall i :: 0 <= i < |ps| ==> !Hits(ps[i], p, x, y)
    ensures CountAt(ps, p, x, y) == 0 && HeightAt(ps, p, x, y) == 0.0 && WaterAt(ps, p, x, y) == 0.0
    decreases |ps|
  {
    if ps != [] {
      NoHitsNothing(ps[..|ps| - 1], p, x, y);
    }
  }

  /** The final average of every counted pixel is one of the running averages. */
  lemma {:induction false} FinalAverageIsRunning(ps: seq<Cell>, p: Projection, x: int, y: int)
    requires CountAt(ps, p, x, y) > 0
    ensures exists k :: (0 <= k < |RunningAverages(ps, p)| &&
      RunningAverages(ps, p)[k] == HeightAt(ps, p, x, y) / (CountAt(ps, p, x, y) as real))
    decreases |ps|
  {
    var init := ps[..|ps| - 1];
    var c := ps[|ps| - 1];
    var ra := RunningAverages(ps, p);
    if Hits(c, p, x, y) {
      assert ra[|ra| - 1] == HeightAt(ps, p, x, y) / (CountAt(ps, p, x, y) as real);
    } else {
      FinalAverageIsRunning(init, p, x, y);
      var k :| 0 <= k < |RunningAverages(init, p)| &&
        RunningAverages(init, p)[k] == HeightAt(init, p, x, y) / (CountAt(init, p, x, y) as real);
      assert ra[k] == RunningAverages(init, p)[k];
    }
  }

  /** Every counted pixel's average lies between mappedMin and mappedMax. */
  lemma AverageWithinMapped(ps: seq<Cell>, p: Projection, x: int, y: int)
    requires CountAt(ps, p, x, y) > 0
    ensures var avg := HeightAt(ps, p, x, y) / (CountAt(ps, p, x, y) as real);
      MappedMin(ps, p) <= avg <= MappedMax(ps, p)
  {
    FinalAverageIsRunning(ps, p, x, y);
    RunMinBelow(RunningAverages(ps, p));
    RunMaxAbove(RunningAverages(ps, p));
  }

  /**
    In the height map the clamp never acts: on a non-zero range every written
    pixel's truncated level is already in [0, 255].
   */
  lemma GreyNeedsNoClamp(ps: seq<Cell>, p: Projection, x: int, y: int)
    requires MappedMax(ps, p) != MappedMin(ps, p) && CountAt(ps, p, x, y) > 0
    ensures var avg := HeightAt(ps, p, x, y) / (CountAt(ps, p, x, y) as real);
      var v := Trunc((avg - MappedMin(ps, p)) / (MappedMax(ps, p) - MappedMin(ps, p)) * 255.0);
      0 <= v <= 255 && GreyPixel(ps, p, x, y) == Some(Rgb(v, v, v))
  {
    AverageWithinMapped(ps, p, x, y);
    var avg := HeightAt(ps, p, x, y) / (CountAt(ps, p, x, y) as real);
    UnitFraction(avg - MappedMin(ps, p), MappedMax(ps, p) - MappedMin(ps, p));
  }

  /** A part of a positive whole, scaled to 255, stays within [0, 255]. */
  lemma UnitFraction(part: real, whole: real)
    requires 0.0 <= part <= whole && whole != 0.0
    ensures 0.0 <= part / whole * 255.0 <= 255.0
    ensures 0 <= Trunc(part / whole * 255.0) <= 255
  {
    assert part / whole <= 1.0 by {
      assert part / whole * whole == part;
    }
  }

  /** Non-negative water on a positive scale keeps every channel in [0, 255]; at or above the scale it is pure blue. */
  lemma BlendInRange(avgHeight: real, avgWater: real, st: Stats, maxWater: real)
    requires maxWater > 0.0 && avgWater >= 0.0 && st.maxHeight != st.minHeight
    ensures var c := Blend(avgHeight, avgWater, st, maxWater);
      0 <= c.r <= 255 && 0 <= c.g <= 255 && 0 <= c.b <= 255
    ensures avgWater >= maxWater ==> Blend(avgHeight, avgWater, st, maxWater) == Rgb(0, 0, 255)
  {
    assert 0.0 <= avgWater / maxWater;
    if avgWater >= maxWater {
      assert avgWater / maxWater >= 1.0;
    }
  }
}
