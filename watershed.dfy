/**
  The water model of pointcloud.c: uniform water addition
  (watershedAddUniformWater, lines 366-377), the coefficient range
  (update_watershed_coefficients, lines 274-288) and the double-buffered
  step (watershedStep, lines 384-473), as functions of the cells before the
  call.
 */
module Watershed {
  import opened Wrappers
  import opened Grid

  /** Default flow and evaporation coefficients of a freshly read cloud. */
  const DefaultWaterCoef: real := 0.1
  const DefaultEvapCoef: real := 0.95

  /** The accepted range: flow coefficient in [0, 0.2], evaporation coefficient in [0.9, 1.0]. */
  predicate CoefsInRange(waterCoef: real, evapCoef: real)
  {
    0.0 <= waterCoef <= 0.2 && 0.9 <= evapCoef <= 1.0
  }

  /** The coefficients after update_watershed_coefficients: both new values, or both old ones. */
  function UpdatedCoefs(oldWater: real, oldEvap: real, wcoef: real, ecoef: real): (r: (real, real))
    ensures CoefsInRange(oldWater, oldEvap) ==> CoefsInRange(r.0, r.1)
    ensures r == (wcoef, ecoef) || r == (oldWater, oldEvap)
    ensures r == (wcoef, ecoef) <==> CoefsInRange(wcoef, ecoef) || (wcoef, ecoef) == (oldWater, oldEvap)
  {
    if wcoef < 0.0 || wcoef > 0.2 then (oldWater, oldEvap)
    else if ecoef < 0.9 || ecoef > 1.0 then (oldWater, oldEvap)
    else (wcoef, ecoef)
  }

  /** Every cell holds a non-negative water depth. */
  predicate DepthsNonNegative(cells: seq<Cell>)
  {
    forall i :: 0 <= i < |cells| ==> cells[i].wd >= 0.0
  }

  /** Two grids that differ at most in the water depth of their cells. */
  predicate OnlyDepthsDiffer(a: seq<Cell>, b: seq<Cell>)
  {
    |a| == |b| && forall i :: 0 <= i < |a| ==> a[i].(wd := 0.0) == b[i].(wd := 0.0)
  }

  lemma OnlyDepthsDifferKeepsShape(a: seq<Cell>, b: seq<Cell>)
    requires OnlyDepthsDiffer(a, b)
    ensures SamePositions(a, b)
    ensures LinksInRange(a) ==> LinksInRange(b)
  {
    forall i | 0 <= i < |a|
      ensures a[i].x == b[i].x && a[i].y == b[i].y && a[i].z == b[i].z
      ensures a[i].north == b[i].north && a[i].south == b[i].south
      ensures a[i].east == b[i].east && a[i].west == b[i].west
    {
      assert a[i].(wd := 0.0) == b[i].(wd := 0.0);
    }
  }

  /** The cells after adding amount to every water depth. */
  function AddWater(cells: seq<Cell>, amount: real): (r: seq<Cell>)
    ensures |r| == |cells|
  {
    seq(|cells|, i requires 0 <= i < |cells| => cells[i].(wd := cells[i].wd + amount))
  }

  /** Adding water touches nothing but depths, and each depth grows by exactly amount. */
  lemma AddWaterEffect(cells: seq<Cell>, amount: real)
    ensures OnlyDepthsDiffer(cells, AddWater(cells, amount))
    ensures forall i :: 0 <= i < |cells| ==> AddWater(cells, amount)[i].wd - cells[i].wd == amount
  {
  }

  /** Adding a then b is adding a + b. */
  lemma AddWaterTwice(cells: seq<Cell>, a: real, b: real)
    ensures AddWater(AddWater(cells, a), b) == AddWater(cells, a + b)
  {
  }

  /** Adding a non-negative amount keeps depths non-negative. */
  lemma AddWaterNonNegative(cells: seq<Cell>, amount: real)
    requires amount >= 0.0 && DepthsNonNegative(cells)
    ensures DepthsNonNegative(AddWater(cells, amount))
  {
  }

  /** Head of a cell: terrain plus water. */
  function Head(c: Cell): real
  {
    c.z + c.wd
  }

  /** The flow f(t1, w1, t2, w2) = (t2 + w2) - (t1 + w1) from one neighbour link, 0 when absent. */
  function Flow(cells: seq<Cell>, i: nat, link: Option<nat>): real
    requires i < |cells| && LinkOk(link, |cells|)
  {
    match link
    case None => 0.0
    case Some(j) => Head(cells[j]) - Head(cells[i])
  }

  /** Sum of the flows from the west, east, north and south neighbours of cell i. */
  function TotalChange(cells: seq<Cell>, i: nat): real
    requires i < |cells| && LinksInRange(cells)
  {
    Flow(cells, i, cells[i].west) + Flow(cells, i, cells[i].east) +
    Flow(cells, i, cells[i].north) + Flow(cells, i, cells[i].south)
  }

  /** new_water[i]: (wd + waterCoef * total change) * evapCoef, raised to 0 when negative. */
  function StagedDepth(cells: seq<Cell>, i: nat, waterCoef: real, evapCoef: real): (w: real)
    requires i < |cells| && LinksInRange(cells)
    ensures w >= 0.0
    ensures w == 0.0 || w == (cells[i].wd + waterCoef * TotalChange(cells, i)) * evapCoef
  {
    var w := (cells[i].wd + waterCoef * TotalChange(cells, i)) * evapCoef;
    if w < 0.0 then 0.0 else w
  }

  /** StagedDepth unfolded: a raw value computed as the source does, kept when non-negative, else 0. */
  lemma StagedDepthValue(cells: seq<Cell>, i: nat, waterCoef: real, evapCoef: real, raw: real)
    requires i < |cells| && LinksInRange(cells)
    requires raw == (cells[i].wd + TotalChange(cells, i) * waterCoef) * evapCoef
    ensures StagedDepth(cells, i, waterCoef, evapCoef) == if raw < 0.0 then 0.0 else raw
  {
    assert TotalChange(cells, i) * waterCoef == waterCoef * TotalChange(cells, i);
  }

  /** The staging array new_water, every entry computed from the same snapshot. */
  function Staged(cells: seq<Cell>, waterCoef: real, evapCoef: real): (s: seq<real>)
    requires LinksInRange(cells)
    ensures |s| == |cells|
  {
    seq(|cells|, i requires 0 <= i < |cells| => StagedDepth(cells, i, waterCoef, evapCoef))
  }

  /** The cells after one step: each depth replaced by its staged value. */
  function StepCells(cells: seq<Cell>, waterCoef: real, evapCoef: real): (r: seq<Cell>)
    requires LinksInRange(cells)
    ensures |r| == |cells|
  {
    var staged := Staged(cells, waterCoef, evapCoef);
    seq(|cells|, i requires 0 <= i < |cells| => cells[i].(wd := staged[i]))
  }

  /** A cell whose head is at least every other head gains nothing from its neighbours. */
  lemma HighestNeverGains(cells: seq<Cell>, i: nat)
    requires LinksInRange(cells) && i < |cells|
    requires forall k :: 0 <= k < |cells| ==> Head(cells[k]) <= Head(cells[i])
    ensures TotalChange(cells, i) <= 0.0
  {
  }

  /** A cell whose head is at most every other head loses nothing to its neighbours. */
  lemma LowestNeverLoses(cells: seq<Cell>, i: nat)
    requires LinksInRange(cells) && i < |cells|
    requires forall k :: 0 <= k < |cells| ==> Head(cells[i]) <= Head(cells[k])
    ensures TotalChange(cells, i) >= 0.0
  {
  }

  /** A step changes only depths, and every depth it produces is non-negative. */
  lemma StepEffect(cells: seq<Cell>, waterCoef: real, evapCoef: real)
    requires LinksInRange(cells)
    ensures OnlyDepthsDiffer(cells, StepCells(cells, waterCoef, evapCoef))
    ensures DepthsNonNegative(StepCells(cells, waterCoef, evapCoef))
  {
  }

  /** With no flow the step is pure evaporation of non-negative depths. */
  lemma StepPureEvaporation(cells: seq<Cell>, evapCoef: real)
    requires LinksInRange(cells) && DepthsNonNegative(cells) && evapCoef >= 0.0
    ensures forall i :: 0 <= i < |cells| ==> StepCells(cells, 0.0, evapCoef)[i].wd == cells[i].wd * evapCoef
  {
    forall i | 0 <= i < |cells|
      ensures StepCells(cells, 0.0, evapCoef)[i].wd == cells[i].wd * evapCoef
    {
      assert cells[i].wd * evapCoef >= 0.0;
    }
  }

  /**
    The commit loop run over an arbitrary sequence of indices: each visited
    cell takes its staged value.
   */
  function Commit(cells: seq<Cell>, staged: seq<real>, order: seq<nat>): (r: seq<Cell>)
    requires |staged| == |cells| && forall k :: 0 <= k < |order| ==> order[k] < |cells|
    ensures |r| == |cells|
    decreases |order|
  {
    if order == [] then cells
    else
      var i := order[0];
      Commit(cells[i := cells[i].(wd := staged[i])], staged, order[1..])
  }

  /** After a commit, exactly the visited cells hold their staged depth. */
  lemma {:induction false} CommitAt(cells: seq<Cell>, staged: seq<real>, order: seq<nat>, k: nat)
    requires |staged| == |cells| && forall p :: 0 <= p < |order| ==> order[p] < |cells|
    requires k < |cells|
    ensures Commit(cells, staged, order)[k] ==
      if k in order then cells[k].(wd := staged[k]) else cells[k]
    decreases |order|
  {
    if order != [] {
      var i := order[0];
      var next := cells[i := cells[i].(wd := staged[i])];
      CommitAt(next, staged, order[1..], k);
      assert k in order <==> k == i || k in order[1..];
    }
  }

  /**
    Order independence: staging every value from the snapshot and then
    committing them in ANY order that visits every cell gives the same
    grid, the step.
   */
  lemma CommitInAnyOrder(cells: seq<Cell>, waterCoef: real, evapCoef: real, order: seq<nat>)
    requires LinksInRange(cells)
    requires forall p :: 0 <= p < |order| ==> order[p] < |cells|
    requires forall k :: 0 <= k < |cells| ==> k in order
    ensures Commit(cells, Staged(cells, waterCoef, evapCoef), order) == StepCells(cells, waterCoef, evapCoef)
  {
    var staged := Staged(cells, waterCoef, evapCoef);
    forall k | 0 <= k < |cells|
      ensures Commit(cells, staged, order)[k] == StepCells(cells, waterCoef, evapCoef)[k]
    {
      CommitAt(cells, staged, order, k);
    }
  }

  /** One in-place update: cell i takes the depth staged from the current grid. */
  function SweepStep(cells: seq<Cell>, i: nat, waterCoef: real, evapCoef: real): (r: seq<Cell>)
    requires LinksInRange(cells) && i < |cells|
    ensures OnlyDepthsDiffer(cells, r) && LinksInRange(r)
    ensures r[i].wd == StagedDepth(cells, i, waterCoef, evapCoef)
    ensures forall k :: 0 <= k < |cells| && k != i ==> r[k] == cells[k]
  {
    var r := cells[i := cells[i].(wd := StagedDepth(cells, i, waterCoef, evapCoef))];
    assert forall k :: 0 <= k < |r| ==> r[k].(wd := 0.0) == cells[k].(wd := 0.0);
    OnlyDepthsDifferKeepsShape(cells, r);
    r
  }

  /**
    A single-buffer sweep that writes each new depth straight into the grid,
    so later cells read already-updated neighbours. The source does not do
    this; it is the alternative the staging array avoids.
   */
  function SweepInPlace(cells: seq<Cell>, order: seq<nat>, waterCoef: real, evapCoef: real): (r: seq<Cell>)
    requires LinksInRange(cells) && forall k :: 0 <= k < |order| ==> order[k] < |cells|
    ensures |r| == |cells| && LinksInRange(r)
    decreases |order|
  {
    if order == [] then cells
    else SweepInPlace(SweepStep(cells, order[0], waterCoef, evapCoef), order[1..], waterCoef, evapCoef)
  }

  /** Two cells linked to each other only: cell 0 east to cell 1, cell 1 west to cell 0. */
  predicate EastWestPair(cells: seq<Cell>)
  {
    |cells| == 2 &&
    cells[0].west == None && cells[0].east == Some(1) && cells[0].north == None && cells[0].south == None &&
    cells[1].west == Some(0) && cells[1].east == None && cells[1].north == None && cells[1].south == None
  }

  /** On such a pair each cell changes by the other's head minus its own. */
  lemma PairFlows(cells: seq<Cell>)
    requires EastWestPair(cells)
    ensures LinksInRange(cells)
    ensures TotalChange(cells, 0) == Head(cells[1]) - Head(cells[0])
    ensures TotalChange(cells, 1) == Head(cells[0]) - Head(cells[1])
  {
  }

  /**
    The two-cell example: a dry cell at height 0 east-linked to a cell at
    height 10 holding 5.
   */
  predicate TwoCellsAt(cells: seq<Cell>)
  {
    EastWestPair(cells) && LinksInRange(cells) &&
    cells[0].z == 0.0 && cells[0].wd == 0.0 && cells[1].z == 10.0 && cells[1].wd == 5.0
  }

  /** The example exists. */
  function TwoCells(): (c: seq<Cell>)
    ensures TwoCellsAt(c)
  {
    var c := [Cell(0.0, 0.0, 0.0, 0.0, None, None, Some(1), None),
              Cell(1.0, 0.0, 10.0, 5.0, None, None, None, Some(0))];
    PairFlows(c);
    c
  }

  /** The total change of each of the two cells: +15 into the low dry cell, -15 out of the high wet one. */
  lemma TwoCellsFlows(cells: seq<Cell>)
    requires TwoCellsAt(cells)
    ensures TotalChange(cells, 0) == 15.0 && TotalChange(cells, 1) == -15.0
  {
    PairFlows(cells);
  }

  /** Unfolding the sweep once: the first index is updated, then the rest is swept. */
  lemma SweepUnfold(cells: seq<Cell>, order: seq<nat>, waterCoef: real, evapCoef: real)
    requires LinksInRange(cells) && order != [] && forall k :: 0 <= k < |order| ==> order[k] < |cells|
    ensures SweepInPlace(cells, order, waterCoef, evapCoef) ==
      SweepInPlace(SweepStep(cells, order[0], waterCoef, evapCoef), order[1..], waterCoef, evapCoef)
  {
  }

  /** Sweeping a single index is one in-place update. */
  lemma SweepSingle(cells: seq<Cell>, i: nat, waterCoef: real, evapCoef: real)
    requires LinksInRange(cells) && i < |cells|
    ensures SweepInPlace(cells, [i], waterCoef, evapCoef) == SweepStep(cells, i, waterCoef, evapCoef)
  {
    assert [i][1..] == [];
  }

  /** Sweeping cell 0 first: cell 0 takes 0.1 * 15 = 1.5, and updating cell 1 afterwards leaves it. */
  lemma SweepWestFirst(cells: seq<Cell>)
    requires TwoCellsAt(cells)
    ensures SweepInPlace(cells, [0, 1], 0.1, 1.0)[0].wd == 1.5
  {
    TwoCellsFlows(cells);
    StagedDepthValue(cells, 0, 0.1, 1.0, 1.5);
    var a := SweepStep(cells, 0, 0.1, 1.0);
    SweepUnfold(cells, [0, 1], 0.1, 1.0);
    assert [0, 1][1..] == [1];
    SweepSingle(a, 1, 0.1, 1.0);
  }

  /** Sweeping cell 1 first: it drops to 3.5, and cell 0 then sees the lowered neighbour and takes 1.35. */
  lemma SweepEastFirst(cells: seq<Cell>)
    requires TwoCellsAt(cells)
    ensures SweepInPlace(cells, [1, 0], 0.1, 1.0)[0].wd == 1.35
  {
    TwoCellsFlows(cells);
    StagedDepthValue(cells, 1, 0.1, 1.0, 3.5);
    var b := SweepStep(cells, 1, 0.1, 1.0);
    SweepUnfold(cells, [1, 0], 0.1, 1.0);
    assert [1, 0][1..] == [0];
    SweepLastCellZero(b);
  }

  /** The second half of the east-first sweep, on the grid the first half left: cell 1 at head 13.5. */
  lemma SweepLastCellZero(b: seq<Cell>)
    requires EastWestPair(b) && LinksInRange(b)
    requires b[0].z == 0.0 && b[0].wd == 0.0 && Head(b[1]) == 13.5
    ensures SweepInPlace(b, [0], 0.1, 1.0)[0].wd == 1.35
  {
    PairFlows(b);
    StagedDepthValue(b, 0, 0.1, 1.0, 1.35);
    SweepSingle(b, 0, 0.1, 1.0);
  }

  /** The staged step on the two cells: 1.5 and 3.5, both read from the snapshot. */
  lemma StepTwoCells(cells: seq<Cell>)
    requires TwoCellsAt(cells)
    ensures StepCells(cells, 0.1, 1.0)[0].wd == 1.5
    ensures StepCells(cells, 0.1, 1.0)[1].wd == 3.5
  {
    TwoCellsFlows(cells);
    StagedDepthValue(cells, 0, 0.1, 1.0, 1.5);
    StagedDepthValue(cells, 1, 0.1, 1.0, 3.5);
  }

  /**
    Why the step is staged: on two linked cells, an in-place sweep gives
    different grids for the two visiting orders.
   */
  lemma InPlaceSweepDependsOnOrder(cells: seq<Cell>)
    requires TwoCellsAt(cells)
    ensures SweepInPlace(cells, [0, 1], 0.1, 1.0) != SweepInPlace(cells, [1, 0], 0.1, 1.0)
  {
    SweepWestFirst(cells);
    SweepEastFirst(cells);
  }
}

module WatershedScenario {
  import opened Wrappers
  import opened Grid
  import opened Watershed

  /**
    The watershed-step test: a 3 x 3 grid at height 10 with a centre at
    height 5, initialised, given 2.0 water everywhere and stepped once with
    the default coefficients. The centre gains water, every other cell loses.
   */
  lemma DepressionScenario(cells: seq<Cell>)
    requires |cells| == 9 && LinksInRange(cells)
    requires forall i :: 0 <= i < 9 ==> cells[i].z == if i == 4 then 5.0 else 10.0
    ensures var g := AddWater(InitCells(cells, 3, 3), 2.0);
      && LinksInRange(g)
      && StepCells(g, DefaultWaterCoef, DefaultEvapCoef)[4].wd > 2.0
      && forall i :: 0 <= i < 9 && i != 4 ==> StepCells(g, DefaultWaterCoef, DefaultEvapCoef)[i].wd < 2.0
  {
    var init := InitCells(cells, 3, 3);
    InitKeepsShape(cells, 3, 3);
    ThreeByThreeLinks(cells);
    var g := AddWater(init, 2.0);
    AddWaterEffect(init, 2.0);
    OnlyDepthsDifferKeepsShape(init, g);
    assert forall i :: 0 <= i < 9 ==> g[i].wd == 2.0 && g[i].z == cells[i].z;
    assert forall i :: 0 <= i < 9 ==> Head(g[i]) == if i == 4 then 7.0 else 12.0;
    assert g[4].north == Some(1) && g[4].south == Some(7) && g[4].east == Some(5) && g[4].west == Some(3);
    assert TotalChange(g, 4) == 20.0;
    forall i | 0 <= i < 9 && i != 4
      ensures StepCells(g, DefaultWaterCoef, DefaultEvapCoef)[i].wd < 2.0
    {
      HighestNeverGains(g, i);
      assert StepCells(g, DefaultWaterCoef, DefaultEvapCoef)[i].wd == StagedDepth(g, i, DefaultWaterCoef, DefaultEvapCoef);
    }
  }
}
