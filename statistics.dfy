/**
  The running statistics that readPointCloudData gathers while it reads the
  samples (pointcloud.c:80-121), written as folds over the values read so far.
  The renderer's running minimum and maximum over pixel averages
  (pointcloud.c:221-238) are the same folds.
 */
module Statistics {

  /** DBL_MAX, the largest finite C double, written out exactly. */
  const DblMax: real := 179769313486231570814527423731704356798070567525844996598917476803157260780028538760589558632766878171540458953514382464234321326889464182768467546703537516986049910576551282076245490090389328944075868508455133942304583236903222948165808559332123348274797826204144723168738177180919299881250404026184124858368.0

  /** One sample of the input stream. */
  datatype Triple = Triple(x: real, y: real, z: real)

  /** The statistics record of a point cloud. */
  datatype Stats = Stats(
    minHeight: real, maxHeight: real, avgHeight: real,
    minX: real, maxX: real, minY: real, maxY: real)

  /** A running minimum: starts at DBL_MAX and takes every strictly smaller value. */
  function RunMin(vs: seq<real>): real
    decreases |vs|
  {
    if vs == [] then DblMax
    else
      var m := RunMin(vs[..|vs| - 1]);
      if vs[|vs| - 1] < m then vs[|vs| - 1] else m
  }

  /** A running maximum: starts at -DBL_MAX and takes every strictly larger value. */
  function RunMax(vs: seq<real>): real
    decreases |vs|
  {
    if vs == [] then -DblMax
    else
      var m := RunMax(vs[..|vs| - 1]);
      if vs[|vs| - 1] > m then vs[|vs| - 1] else m
  }

  /** The running sum, added in input order. */
  function Sum(vs: seq<real>): real
    decreases |vs|
  {
    if vs == [] then 0.0 else Sum(vs[..|vs| - 1]) + vs[|vs| - 1]
  }

  /** Folding one more value into the running minimum and maximum. */
  lemma RunStep(vs: seq<real>, v: real)
    ensures RunMin(vs + [v]) == if v < RunMin(vs) then v else RunMin(vs)
    ensures RunMax(vs + [v]) == if v > RunMax(vs) then v else RunMax(vs)
    ensures Sum(vs + [v]) == Sum(vs) + v
  {
    assert (vs + [v])[..|vs|] == vs;
  }

  /** The same step on prefixes: the value at n joins the folds of the first n values. */
  lemma PrefixStep(vs: seq<real>, n: int)
    requires 0 <= n < |vs|
    ensures RunMin(vs[..n + 1]) == if vs[n] < RunMin(vs[..n]) then vs[n] else RunMin(vs[..n])
    ensures RunMax(vs[..n + 1]) == if vs[n] > RunMax(vs[..n]) then vs[n] else RunMax(vs[..n])
    ensures Sum(vs[..n + 1]) == Sum(vs[..n]) + vs[n]
  {
    assert vs[..n + 1] == vs[..n] + [vs[n]];
    RunStep(vs[..n], vs[n]);
  }

  /** The running minimum is a lower bound of every value and of DBL_MAX. */
  lemma {:induction false} RunMinBelow(vs: seq<real>)
    ensures RunMin(vs) <= DblMax
    ensures forall i :: 0 <= i < |vs| ==> RunMin(vs) <= vs[i]
  {
    if vs != [] {
      var init := vs[..|vs| - 1];
      RunMinBelow(init);
      assert forall i :: 0 <= i < |vs| - 1 ==> vs[i] == init[i];
    }
  }

  /** On finite doubles the running minimum is one of the values. */
  lemma {:induction false} RunMinAttained(vs: seq<real>)
    requires |vs| > 0
    requires forall i :: 0 <= i < |vs| ==> vs[i] <= DblMax
    ensures exists i :: 0 <= i < |vs| && RunMin(vs) == vs[i]
  {
    var init := vs[..|vs| - 1];
    if init == [] {
      assert RunMin(vs) == vs[0];
    } else if vs[|vs| - 1] >= RunMin(init) {
      RunMinAttained(init);
      var i :| 0 <= i < |init| && RunMin(init) == init[i];
      assert RunMin(vs) == vs[i];
    }
  }

  /** The running maximum is an upper bound of every value and of -DBL_MAX. */
  lemma {:induction false} RunMaxAbove(vs: seq<real>)
    ensures RunMax(vs) >= -DblMax
    ensures forall i :: 0 <= i < |vs| ==> RunMax(vs) >= vs[i]
  {
    if vs != [] {
      var init := vs[..|vs| - 1];
      RunMaxAbove(init);
      assert forall i :: 0 <= i < |vs| - 1 ==> vs[i] == init[i];
    }
  }

  /** On finite doubles the running maximum is one of the values. */
  lemma {:induction false} RunMaxAttained(vs: seq<real>)
    requires |vs| > 0
    requires forall i :: 0 <= i < |vs| ==> vs[i] >= -DblMax
    ensures exists i :: 0 <= i < |vs| && RunMax(vs) == vs[i]
  {
    var init := vs[..|vs| - 1];
    if init == [] {
      assert RunMax(vs) == vs[0];
    } else if vs[|vs| - 1] <= RunMax(init) {
      RunMaxAttained(init);
      var i :| 0 <= i < |init| && RunMax(init) == init[i];
      assert RunMax(vs) == vs[i];
    }
  }

  function Xs(ts: seq<Triple>): (r: seq<real>)
    ensures |r| == |ts| && forall i :: 0 <= i < |ts| ==> r[i] == ts[i].x
  {
    seq(|ts|, i requires 0 <= i < |ts| => ts[i].x)
  }

  function Ys(ts: seq<Triple>): (r: seq<real>)
    ensures |r| == |ts| && forall i :: 0 <= i < |ts| ==> r[i] == ts[i].y
  {
    seq(|ts|, i requires 0 <= i < |ts| => ts[i].y)
  }

  function Zs(ts: seq<Triple>): (r: seq<real>)
    ensures |r| == |ts| && forall i :: 0 <= i < |ts| ==> r[i] == ts[i].z
  {
    seq(|ts|, i requires 0 <= i < |ts| => ts[i].z)
  }

  /**
    The average height height_sum / point_count. With no samples the source
    divides 0 by 0; the model gives 0.0 there.
   */
  function Average(vs: seq<real>): real
  {
    if |vs| == 0 then 0.0 else Sum(vs) / (|vs| as real)
  }

  /** The statistics the reader leaves after reading the samples ts. */
  function StatsOf(ts: seq<Triple>): Stats
  {
    Stats(RunMin(Zs(ts)), RunMax(Zs(ts)), Average(Zs(ts)),
          RunMin(Xs(ts)), RunMax(Xs(ts)), RunMin(Ys(ts)), RunMax(Ys(ts)))
  }

  /** Every sample lies inside the box and height range of the statistics. */
  lemma StatsBoundSamples(ts: seq<Triple>)
    ensures forall i :: 0 <= i < |ts| ==>
      StatsOf(ts).minHeight <= ts[i].z <= StatsOf(ts).maxHeight &&
      StatsOf(ts).minX <= ts[i].x <= StatsOf(ts).maxX &&
      StatsOf(ts).minY <= ts[i].y <= StatsOf(ts).maxY
  {
    RunMinBelow(Zs(ts)); RunMaxAbove(Zs(ts));
    RunMinBelow(Xs(ts)); RunMaxAbove(Xs(ts));
    RunMinBelow(Ys(ts)); RunMaxAbove(Ys(ts));
  }

  /** With finite samples, the minimum and maximum height are heights of samples. */
  lemma StatsHeightsAttained(ts: seq<Triple>)
    requires |ts| > 0
    requires forall i :: 0 <= i < |ts| ==> -DblMax <= ts[i].z <= DblMax
    ensures exists i :: 0 <= i < |ts| && StatsOf(ts).minHeight == ts[i].z
    ensures exists i :: 0 <= i < |ts| && StatsOf(ts).maxHeight == ts[i].z
  {
    RunMinAttained(Zs(ts));
    RunMaxAttained(Zs(ts));
  }

  /** The 3 x 3 sample grid of the reader test, heights 1 to 9 in row-major order. */
  function SmallGrid(): seq<Triple>
  {
    [Triple(0.0, 0.0, 1.0), Triple(1.0, 0.0, 2.0), Triple(2.0, 0.0, 3.0),
     Triple(0.0, 1.0, 4.0), Triple(1.0, 1.0, 5.0), Triple(2.0, 1.0, 6.0),
     Triple(0.0, 2.0, 7.0), Triple(1.0, 2.0, 8.0), Triple(2.0, 2.0, 9.0)]
  }

  /** The reader test: minimum height 1.0 and maximum height 9.0. */
  lemma SmallGridStats()
    ensures StatsOf(SmallGrid()).minHeight == 1.0
    ensures StatsOf(SmallGrid()).maxHeight == 9.0
  {
    var ts := SmallGrid();
    StatsBoundSamples(ts);
    StatsHeightsAttained(ts);
    assert forall i :: 0 <= i < 9 ==> 1.0 <= ts[i].z <= 9.0;
    assert ts[0].z == 1.0 && ts[8].z == 9.0;
  }
}
