/**
 * The skyline generator (`make_cityscape`): a row of buildings from x = 2
 * to the right edge, whose heights follow one of six slope modes, plus the
 * round's wind.  Every `random` call of the generator is an input: a
 * `Draws` value gives the draw made at each call site, indexed by the
 * building it belongs to.
 */
module Skyline {
  import opened Geometry

  datatype Window = Window(wx: int, wy: int, color: int)

  datatype Building = Building(x: int, width: int, height: int, color: int, windows: seq<Window>)

  /** The roof row of a building. */
  function Top(b: Building): int { Ground - b.height }

  /**
   * The draws of one skyline: `width(k)` is `randint(37, 74)` for building k,
   * `extra(k)` is `randint(0, 120)`, `color(k)` is `choice([4, 5, 6, 7])`,
   * and `lit(k, wx, wy)` is the `randint(1, 4)` made for the window at
   * (wx, wy) of building k.
   */
  datatype Draws = Draws(width: nat -> int, extra: nat -> int, color: nat -> int, lit: (nat, int, int) -> int)

  ghost predicate DrawsInRange(d: Draws) {
    && (forall k: nat :: 37 <= d.width(k) <= 74)
    && (forall k: nat :: 0 <= d.extra(k) <= 120)
    && (forall k: nat :: 4 <= d.color(k) <= 7)
    && (forall k: nat, wx: int, wy: int :: 1 <= d.lit(k, wx, wy) <= 4)
  }

  /** Baseline before the first building, per slope mode 1..6. */
  function StartHeight(slope: int): int {
    if slope == 1 then 15
    else if slope == 2 then 130
    else if slope <= 5 then 15
    else 130
  }

  /**
   * The baseline update made before each building at x: mode 1 rises by
   * 10, mode 2 falls by 10, modes 3-5 rise by 20 up to the middle and then
   * fall, mode 6 falls by 20 up to the middle and then rises.
   */
  function StepHeight(slope: int, x: int, ht: int): int {
    if slope == 1 then ht + 10
    else if slope == 2 then ht - 10
    else if slope <= 5 then (if x > ScreenWidth / 2 then ht - 20 else ht + 20)
    else (if x > ScreenWidth / 2 then ht + 20 else ht - 20)
  }

  /** A drawn width, cut back when it would pass the right edge. */
  function FitWidth(x: int, w: int): int {
    if x + w > ScreenWidth then ScreenWidth - x - 2 else w
  }

  function ClampHeight(h: int): int { Max(10, Min(h, 200)) }

  /** Three draws in four light a window. */
  function WindowColor(draw: int): int { if draw > 1 then WindowLit else WindowDark }

  /** One column of windows at wx, rows every 15 from wy while above bottom - 3. */
  function Column(k: nat, wx: int, wy: int, bottom: int, lit: (nat, int, int) -> int): seq<Window>
    decreases bottom - wy
  {
    if wy < bottom - 3 then [Window(wx, wy, WindowColor(lit(k, wx, wy)))] + Column(k, wx, wy + 15, bottom, lit)
    else []
  }

  /** The window grid of building k: columns every 10 from wx while left of right - 3. */
  function Grid(k: nat, wx: int, right: int, top: int, bottom: int, lit: (nat, int, int) -> int): seq<Window>
    decreases right - wx
  {
    if wx < right - 3 then Column(k, wx, top + 3, bottom, lit) + Grid(k, wx + 10, right, top, bottom, lit)
    else []
  }

  /** The outline of building k (its windows not yet laid out), at x, for the updated baseline. */
  function Outline(k: nat, x: int, baseline: int, d: Draws): Building {
    Building(x, FitWidth(x, d.width(k)), ClampHeight(d.extra(k) + baseline), d.color(k), [])
  }

  /** The outlines from building k at x onwards, `ht` being the previous baseline. */
  function Outlines(slope: int, k: nat, x: int, ht: int, d: Draws): seq<Building>
    requires DrawsInRange(d)
    decreases ScreenWidth - x
  {
    if x < ScreenWidth - 10 then
      var nh := StepHeight(slope, x, ht);
      var b := Outline(k, x, nh, d);
      [b] + Outlines(slope, k + 1, x + b.width + 2, nh, d)
    else []
  }

  /** Building b, the k-th of its row, with its window grid from its left side + 3 down from its roof + 3. */
  function Furnished(b: Building, k: nat, lit: (nat, int, int) -> int): Building {
    b.(windows := Grid(k, b.x + 3, b.x + b.width, Top(b), Ground, lit))
  }

  /** Every building of a row with its windows. */
  function Furnish(bs: seq<Building>, lit: (nat, int, int) -> int): seq<Building> {
    seq(|bs|, k requires 0 <= k < |bs| => Furnished(bs[k], k, lit))
  }

  /** The skyline of one round. */
  function City(slope: int, d: Draws): seq<Building>
    requires DrawsInRange(d)
  {
    Furnish(Outlines(slope, 0, 2, StartHeight(slope), d), d.lit)
  }

  // ---------------------------------------------------------------------
  // What a skyline is

  /** A window on the building's grid: 10 apart across, 15 apart down, inside the margins. */
  predicate WindowOnGrid(b: Building, w: Window) {
    && b.x + 3 <= w.wx < b.x + b.width - 3
    && (w.wx - b.x - 3) % 10 == 0
    && Top(b) + 3 <= w.wy < Ground - 3
    && (w.wy - Top(b) - 3) % 15 == 0
    && (w.color == WindowLit || w.color == WindowDark)
  }

  predicate WindowsOnGrid(b: Building) {
    forall j :: 0 <= j < |b.windows| ==> WindowOnGrid(b, b.windows[j])
  }

  /** The shape of a building: its height, colour, width and place on the screen. */
  predicate Shaped(b: Building) {
    && 10 <= b.height <= 200
    && 4 <= b.color <= 7
    && 9 <= b.width <= 74
    && b.x < ScreenWidth - 10
    && b.x + b.width <= ScreenWidth
  }

  /**
   * A row of buildings starting at x0: every building shaped, each next
   * one 2 cells after the previous one's right side, every building but
   * the last at full drawn width (37..74), and the last one reaching the
   * point where the generator stops.
   */
  predicate ValidRow(bs: seq<Building>, x0: int) {
    && |bs| > 0
    && bs[0].x == x0
    && (forall k :: 0 <= k < |bs| ==> Shaped(bs[k]))
    && (forall k :: 0 <= k < |bs| - 1 ==> 37 <= bs[k].width && bs[k + 1].x == bs[k].x + bs[k].width + 2)
    && bs[|bs| - 1].x + bs[|bs| - 1].width + 2 >= ScreenWidth - 10
  }

  /** A valid row from x = 2 whose buildings all have their windows on their grids. */
  predicate ValidSkyline(bs: seq<Building>) {
    ValidRow(bs, 2) && forall k :: 0 <= k < |bs| ==> WindowsOnGrid(bs[k])
  }

  // ---------------------------------------------------------------------
  // Lemmas

  lemma {:induction false} ColumnOnGrid(k: nat, wx: int, wy: int, bottom: int, lit: (nat, int, int) -> int)
    requires forall wx': int, wy': int :: 1 <= lit(k, wx', wy') <= 4
    ensures forall j :: 0 <= j < |Column(k, wx, wy, bottom, lit)| ==>
      var w := Column(k, wx, wy, bottom, lit)[j];
      w.wx == wx && wy <= w.wy < bottom - 3 && (w.wy - wy) % 15 == 0 && (w.color == WindowLit || w.color == WindowDark)
    decreases bottom - wy
  {
    if wy < bottom - 3 {
      ColumnOnGrid(k, wx, wy + 15, bottom, lit);
    }
  }

  /** A window of the grid whose first column is at wx. */
  predicate GridCell(w: Window, wx: int, right: int, top: int, bottom: int) {
    && wx <= w.wx < right - 3 && (w.wx - wx) % 10 == 0
    && top + 3 <= w.wy < bottom - 3 && (w.wy - top - 3) % 15 == 0
    && (w.color == WindowLit || w.color == WindowDark)
  }

  lemma {:induction false} GridOnGrid(k: nat, wx: int, right: int, top: int, bottom: int, lit: (nat, int, int) -> int)
    requires forall wx': int, wy': int :: 1 <= lit(k, wx', wy') <= 4
    ensures forall j :: 0 <= j < |Grid(k, wx, right, top, bottom, lit)| ==>
      GridCell(Grid(k, wx, right, top, bottom, lit)[j], wx, right, top, bottom)
    decreases right - wx
  {
    if wx < right - 3 {
      var col := Column(k, wx, top + 3, bottom, lit);
      var rest := Grid(k, wx + 10, right, top, bottom, lit);
      ColumnOnGrid(k, wx, top + 3, bottom, lit);
      GridOnGrid(k, wx + 10, right, top, bottom, lit);
      var g := col + rest;
      assert Grid(k, wx, right, top, bottom, lit) == g;
      forall j | 0 <= j < |g|
        ensures GridCell(g[j], wx, right, top, bottom)
      {
        if j < |col| {
          assert g[j] == col[j];
        } else {
          var w := rest[j - |col|];
          assert g[j] == w;
          assert GridCell(w, wx + 10, right, top, bottom);
        }
      }
    }
  }

  /** A furnished building has all its windows on its grid. */
  lemma FurnishedOnGrid(b: Building, k: nat, lit: (nat, int, int) -> int)
    requires forall wx: int, wy: int :: 1 <= lit(k, wx, wy) <= 4
    ensures WindowsOnGrid(Furnished(b, k, lit))
  {
    GridOnGrid(k, b.x + 3, b.x + b.width, Top(b), Ground, lit);
  }

  /** Every outline the generator makes left of the stop point is shaped; only one ending at the edge is cut back. */
  lemma OutlineShaped(k: nat, x: int, baseline: int, d: Draws)
    requires DrawsInRange(d) && x < ScreenWidth - 10
    ensures Shaped(Outline(k, x, baseline, d))
    ensures Outline(k, x, baseline, d).x + Outline(k, x, baseline, d).width + 2 < ScreenWidth - 10
      ==> Outline(k, x, baseline, d).width == d.width(k)
  {
  }

  /** The first outline of a row, and the row after it. */
  lemma OutlinesUnfold(slope: int, k: nat, x: int, ht: int, d: Draws, b: Building, rest: seq<Building>)
    requires DrawsInRange(d) && x < ScreenWidth - 10
    requires b == Outline(k, x, StepHeight(slope, x, ht), d)
    requires rest == Outlines(slope, k + 1, x + b.width + 2, StepHeight(slope, x, ht), d)
    ensures Outlines(slope, k, x, ht, d) == [b] + rest
  {
  }

  /** A shaped building in front of a valid row that starts 2 cells after it. */
  lemma ValidRowCons(b: Building, rest: seq<Building>, x: int)
    requires Shaped(b) && b.x == x && 37 <= b.width
    requires ValidRow(rest, x + b.width + 2)
    ensures ValidRow([b] + rest, x)
  {
    var bs := [b] + rest;
    assert forall j :: 1 <= j < |bs| ==> bs[j] == rest[j - 1];
    forall j | 0 <= j < |bs| - 1
      ensures 37 <= bs[j].width && bs[j + 1].x == bs[j].x + bs[j].width + 2
    {
      if j > 0 {
        assert bs[j] == rest[j - 1] && bs[j + 1] == rest[j];
      }
    }
  }

  /** The generator's row from any start left of the stop point is a valid row. */
  lemma {:induction false} OutlinesValid(slope: int, k: nat, x: int, ht: int, d: Draws)
    requires DrawsInRange(d) && x < ScreenWidth - 10
    ensures ValidRow(Outlines(slope, k, x, ht, d), x)
    decreases ScreenWidth - x
  {
    var nh := StepHeight(slope, x, ht);
    var b := Outline(k, x, nh, d);
    OutlineShaped(k, x, nh, d);
    var x' := x + b.width + 2;
    var rest := Outlines(slope, k + 1, x', nh, d);
    OutlinesUnfold(slope, k, x, ht, d, b, rest);
    if x' < ScreenWidth - 10 {
      OutlinesValid(slope, k + 1, x', nh, d);
      ValidRowCons(b, rest, x);
    } else {
      assert rest == [];
      assert [b] + rest == [b];
    }
  }

  /** Laying out the windows keeps a valid row valid and puts every window on its building's grid. */
  lemma FurnishValid(bs: seq<Building>, d: Draws)
    requires DrawsInRange(d) && ValidRow(bs, 2)
    ensures ValidSkyline(Furnish(bs, d.lit))
  {
    var fs := Furnish(bs, d.lit);
    forall k | 0 <= k < |fs|
      ensures WindowsOnGrid(fs[k])
    {
      FurnishedOnGrid(bs[k], k, d.lit);
    }
  }

  /** The generated row, starting at x = 2, is a valid skyline. */
  lemma CityValid(slope: int, d: Draws)
    requires DrawsInRange(d)
    ensures ValidSkyline(City(slope, d))
  {
    OutlinesValid(slope, 0, 2, StartHeight(slope), d);
    FurnishValid(Outlines(slope, 0, 2, StartHeight(slope), d), d);
  }

  lemma {:induction false} RowReach(bs: seq<Building>, x0: int, k: nat)
    requires ValidRow(bs, x0) && k < |bs|
    ensures bs[k].x <= x0 + 76 * k
  {
    if k > 0 {
      RowReach(bs, x0, k - 1);
    }
  }

  /**
   * A skyline has at least nine buildings: each building advances x by at
   * most 76 from 2, and the row runs until x reaches 630.
   */
  lemma AtLeastNine(bs: seq<Building>)
    requires ValidSkyline(bs)
    ensures |bs| >= 9
  {
    var n := |bs|;
    RowReach(bs, 2, n - 1);
  }

  /** In a valid row every building lies wholly left of every later one, with a gap of at least 2. */
  lemma {:induction false} RowOrdered(bs: seq<Building>, x0: int, k: nat, m: nat)
    requires ValidRow(bs, x0) && k < m < |bs|
    ensures bs[k].x + bs[k].width + 2 <= bs[m].x
    decreases m - k
  {
    if k + 1 < m {
      RowOrdered(bs, x0, k + 1, m);
    }
  }

  /** Only the last building can have been cut back at the right edge. */
  lemma OnlyLastTruncated(slope: int, d: Draws, k: nat)
    requires DrawsInRange(d) && k + 1 < |City(slope, d)|
    ensures City(slope, d)[k].width == d.width(k)
  {
    OutlinesTruncation(slope, 0, 2, StartHeight(slope), d, k);
  }

  lemma {:induction false} OutlinesTruncation(slope: int, k0: nat, x: int, ht: int, d: Draws, j: nat)
    requires DrawsInRange(d) && j + 1 < |Outlines(slope, k0, x, ht, d)|
    ensures Outlines(slope, k0, x, ht, d)[j].width == d.width(k0 + j)
    decreases j
  {
    var nh := StepHeight(slope, x, ht);
    var b := Outline(k0, x, nh, d);
    var rest := Outlines(slope, k0 + 1, x + b.width + 2, nh, d);
    OutlinesUnfold(slope, k0, x, ht, d, b, rest);
    if j == 0 {
      assert rest != [];
    } else {
      OutlinesTruncation(slope, k0 + 1, x + b.width + 2, nh, d, j - 1);
      assert Outlines(slope, k0, x, ht, d)[j] == rest[j - 1];
    }
  }

  /** The baseline each building of a row stands on, from building k at x onwards, `ht` being the previous one. */
  function Baselines(slope: int, k: nat, x: int, ht: int, d: Draws): (hs: seq<int>)
    requires DrawsInRange(d)
    ensures |hs| == |Outlines(slope, k, x, ht, d)|
    decreases ScreenWidth - x
  {
    if x < ScreenWidth - 10 then
      var nh := StepHeight(slope, x, ht);
      var b := Outline(k, x, nh, d);
      [nh] + Baselines(slope, k + 1, x + b.width + 2, nh, d)
    else []
  }

  /**
   * Building j of a row is its random offset above its baseline, clamped,
   * and its baseline is the previous one after the update for its x.
   */
  lemma {:induction false} BaselineHeights(slope: int, k0: nat, x: int, ht: int, d: Draws, j: nat)
    requires DrawsInRange(d) && j < |Outlines(slope, k0, x, ht, d)|
    ensures var bs := Outlines(slope, k0, x, ht, d);
      var hs := Baselines(slope, k0, x, ht, d);
      && bs[j].height == ClampHeight(d.extra(k0 + j) + hs[j])
      && hs[j] == StepHeight(slope, bs[j].x, if j == 0 then ht else hs[j - 1])
    decreases j
  {
    var nh := StepHeight(slope, x, ht);
    var b := Outline(k0, x, nh, d);
    var rest := Outlines(slope, k0 + 1, x + b.width + 2, nh, d);
    var hrest := Baselines(slope, k0 + 1, x + b.width + 2, nh, d);
    OutlinesUnfold(slope, k0, x, ht, d, b, rest);
    BaselinesUnfold(slope, k0, x, ht, d, b, hrest);
    var bs := Outlines(slope, k0, x, ht, d);
    var hs := Baselines(slope, k0, x, ht, d);
    if j == 0 {
      assert bs[0] == b && hs[0] == nh;
    } else {
      BaselineHeights(slope, k0 + 1, x + b.width + 2, nh, d, j - 1);
      assert bs[j] == rest[j - 1] && hs[j] == hrest[j - 1];
      assert hs[j - 1] == if j == 1 then nh else hrest[j - 2];
      assert k0 + j == (k0 + 1) + (j - 1);
    }
  }

  lemma BaselinesUnfold(slope: int, k: nat, x: int, ht: int, d: Draws, b: Building, hrest: seq<int>)
    requires DrawsInRange(d) && x < ScreenWidth - 10
    requires b == Outline(k, x, StepHeight(slope, x, ht), d)
    requires hrest == Baselines(slope, k + 1, x + b.width + 2, StepHeight(slope, x, ht), d)
    ensures Baselines(slope, k, x, ht, d) == [StepHeight(slope, x, ht)] + hrest
  {
  }

  /** In modes 1 and 2 the baseline moves by the same 10 rows for every building: up in mode 1, down in mode 2. */
  lemma {:induction false} SteadyBaselines(slope: int, k0: nat, x: int, ht: int, d: Draws, j: nat)
    requires DrawsInRange(d) && (slope == 1 || slope == 2) && j < |Outlines(slope, k0, x, ht, d)|
    ensures Baselines(slope, k0, x, ht, d)[j] == ht + (if slope == 1 then 10 else -10) * (j + 1)
    decreases j
  {
    var nh := StepHeight(slope, x, ht);
    var b := Outline(k0, x, nh, d);
    OutlinesUnfold(slope, k0, x, ht, d, b, Outlines(slope, k0 + 1, x + b.width + 2, nh, d));
    if j > 0 {
      SteadyBaselines(slope, k0 + 1, x + b.width + 2, nh, d, j - 1);
    }
  }

  /** Building j of a skyline is building j of its row with its windows laid out. */
  lemma CityOutlines(slope: int, d: Draws, j: nat)
    requires DrawsInRange(d) && j < |City(slope, d)|
    ensures var b := Outlines(slope, 0, 2, StartHeight(slope), d)[j];
      City(slope, d)[j].x == b.x && City(slope, d)[j].height == b.height
  {
  }

  /**
   * In slope mode 1 (rising), building j stands on the
   * baseline 15 + 10 (j + 1), before the random offset and the clamp.
   */
  lemma SlopeOneCity(d: Draws, j: nat)
    requires DrawsInRange(d) && j < |City(1, d)|
    ensures City(1, d)[j].height == ClampHeight(d.extra(j) + 15 + 10 * (j + 1))
  {
    CityOutlines(1, d, j);
    BaselineHeights(1, 0, 2, 15, d, j);
    SteadyBaselines(1, 0, 2, 15, d, j);
  }

  /**
   * In slope mode 2 (falling), building j stands on the
   * baseline 130 - 10 (j + 1), before the random offset and the clamp.
   */
  lemma SlopeTwoCity(d: Draws, j: nat)
    requires DrawsInRange(d) && j < |City(2, d)|
    ensures City(2, d)[j].height == ClampHeight(d.extra(j) + 130 - 10 * (j + 1))
  {
    CityOutlines(2, d, j);
    BaselineHeights(2, 0, 2, 130, d, j);
    SteadyBaselines(2, 0, 2, 130, d, j);
  }

  /**
   * In slope modes 3 to 6 building j stands on a baseline 20 rows from the
   * previous one: up while its x is left of the middle and down past it in
   * modes 3-5 (a hill), the other way round in mode 6 (a valley).
   */
  lemma HillCity(slope: int, d: Draws, j: nat)
    requires DrawsInRange(d) && 3 <= slope <= 6 && j < |City(slope, d)|
    ensures var hs := Baselines(slope, 0, 2, StartHeight(slope), d);
      var bs := City(slope, d);
      && bs[j].height == ClampHeight(d.extra(j) + hs[j])
      && hs[j] == (if j == 0 then StartHeight(slope) else hs[j - 1]) +
                  (if bs[j].x > ScreenWidth / 2 then -20 else 20) * (if slope <= 5 then 1 else -1)
  {
    CityOutlines(slope, d, j);
    BaselineHeights(slope, 0, 2, StartHeight(slope), d, j);
  }

  // ---------------------------------------------------------------------
  // The generator as the source runs it

  /**
   * make_cityscape's loop: buildings are appended while x < 630; each
   * building's windows are laid out column by column.
   */
  method Generate(slope: int, d: Draws) returns (bs: seq<Building>)
    requires 1 <= slope <= 6 && DrawsInRange(d)
    ensures bs == City(slope, d)
  {
    ghost var outlines := Outlines(slope, 0, 2, StartHeight(slope), d);
    ghost var done: seq<Building> := [];
    bs := [];
    var x := 2;
    var newHt := StartHeight(slope);
    while x < ScreenWidth - 10
      invariant done + Outlines(slope, |done|, x, newHt, d) == outlines
      invariant bs == Furnish(done, d.lit)
      decreases ScreenWidth - x
    {
      ghost var previous := newHt;
      newHt := StepHeight(slope, x, newHt);
      var b := LayBuilding(|bs|, x, newHt, d);
      ghost var o := Outline(|done|, x, newHt, d);
      OutlinesStep(done, slope, x, previous, d, o, newHt);
      FurnishSnoc(done, o, d.lit);
      bs := bs + [b];
      done := done + [o];
      x := x + b.width + 2;
    }
    assert Outlines(slope, |done|, x, newHt, d) == [];
    assert done + [] == done;
  }

  /** One iteration of the generator's loop moves the next outline of the row to the done part. */
  lemma OutlinesStep(done: seq<Building>, slope: int, x: int, ht: int, d: Draws, o: Building, nh: int)
    requires DrawsInRange(d) && x < ScreenWidth - 10
    requires nh == StepHeight(slope, x, ht) && o == Outline(|done|, x, nh, d)
    ensures done + Outlines(slope, |done|, x, ht, d) == (done + [o]) + Outlines(slope, |done| + 1, x + o.width + 2, nh, d)
  {
    var rest := Outlines(slope, |done| + 1, x + o.width + 2, nh, d);
    OutlinesUnfold(slope, |done|, x, ht, d, o, rest);
    SeqAssoc(done, [o], rest);
  }

  lemma SeqAssoc<T>(a: seq<T>, b: seq<T>, c: seq<T>)
    ensures a + (b + c) == (a + b) + c
  {
  }

  /** Furnishing one more outline appends that building, furnished as the last of the row. */
  lemma FurnishSnoc(bs: seq<Building>, b: Building, lit: (nat, int, int) -> int)
    ensures Furnish(bs + [b], lit) == Furnish(bs, lit) + [Furnished(b, |bs|, lit)]
  {
    var l := Furnish(bs + [b], lit);
    var r := Furnish(bs, lit) + [Furnished(b, |bs|, lit)];
    assert |l| == |r|;
    forall k | 0 <= k < |l|
      ensures l[k] == r[k]
    {
      if k < |bs| {
        assert (bs + [b])[k] == bs[k];
      }
    }
  }

  /** One pass of make_cityscape's loop body: building k at x for the updated baseline, with its windows. */
  method LayBuilding(k: nat, x: int, baseline: int, d: Draws) returns (b: Building)
    requires DrawsInRange(d)
    ensures b == Furnished(Outline(k, x, baseline, d), k, d.lit)
  {
    var width := d.width(k);
    if x + width > ScreenWidth {
      width := ScreenWidth - x - 2;
    }
    var height := d.extra(k) + baseline;
    height := Max(10, Min(height, 200));
    var color := d.color(k);
    var bottom := Ground;
    var top := bottom - height;
    var windows := LayWindows(k, x, width, top, bottom, d.lit);
    b := Building(x, width, height, color, windows);
  }

  /** The inner window loop of make_cityscape: one column at wx, from top + 3 down. */
  method LayColumn(k: nat, wx: int, top: int, bottom: int, lit: (nat, int, int) -> int)
    returns (column: seq<Window>)
    ensures column == Column(k, wx, top + 3, bottom, lit)
  {
    column := [];
    var wy := top + 3;
    while wy < bottom - 3
      invariant column + Column(k, wx, wy, bottom, lit) == Column(k, wx, top + 3, bottom, lit)
      decreases bottom - wy
    {
      var winColor := if lit(k, wx, wy) > 1 then WindowLit else WindowDark;
      assert Column(k, wx, wy, bottom, lit) == [Window(wx, wy, winColor)] + Column(k, wx, wy + 15, bottom, lit);
      column := column + [Window(wx, wy, winColor)];
      wy := wy + 15;
    }
  }

  /** The window loops of make_cityscape for building k at x, of the given width, between top and bottom. */
  method LayWindows(k: nat, x: int, width: int, top: int, bottom: int, lit: (nat, int, int) -> int)
    returns (windows: seq<Window>)
    ensures windows == Grid(k, x + 3, x + width, top, bottom, lit)
  {
    windows := [];
    var wx := x + 3;
    while wx < x + width - 3
      invariant windows + Grid(k, wx, x + width, top, bottom, lit) == Grid(k, x + 3, x + width, top, bottom, lit)
      decreases x + width - wx
    {
      var column := LayColumn(k, wx, top, bottom, lit);
      assert Grid(k, wx, x + width, top, bottom, lit) == column + Grid(k, wx + 10, x + width, top, bottom, lit);
      windows := windows + column;
      wx := wx + 10;
    }
  }

  // ---------------------------------------------------------------------
  // Wind

  /**
   * The round's wind: `draw` is randint(-10, 10); when `roll` (randint(1, 3))
   * is 1 a gust `gust` (randint(1, 10)) is added away from zero for a
   * positive draw and subtracted otherwise, so a zero draw turns negative.
   */
  function Wind(draw: int, roll: int, gust: int): (w: int)
    requires -10 <= draw <= 10 && 1 <= roll <= 3 && 1 <= gust <= 10
    ensures -20 <= w <= 20
    ensures roll != 1 ==> w == draw
    ensures roll == 1 ==> Abs(w) == Abs(draw) + gust && (w > 0 <==> draw > 0) && w != 0
  {
    if roll == 1 then
      if draw > 0 then draw + gust else draw - gust
    else draw
  }
}
