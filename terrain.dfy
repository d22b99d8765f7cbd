/**
 * The damageable city raster (`rebuild_city_surface` and the carve made
 * when a banana hits a building).  The surface is a 640 x 350 grid of
 * cells, true where the surface is opaque; `a[x, y]` is the cell at
 * column x and row y.  Rectangles are half open, as pygame fills them:
 * (x, y, w, h) covers columns x .. x + w - 1 and rows y .. y + h - 1,
 * clipped to the surface.
 */
module Terrain {
  import opened Geometry
  import opened Skyline

  predicate InRect(rx: int, ry: int, rw: int, rh: int, i: int, j: int) {
    rx <= i < rx + rw && ry <= j < ry + rh
  }

  /** The body rectangle of a building: from its roof row down to the row above the ground line. */
  predicate InBody(b: Building, i: int, j: int) {
    InRect(b.x, Top(b), b.width, b.height, i, j)
  }

  /** The 3 x 6 rectangle of a window. */
  predicate InWindow(w: Window, i: int, j: int) {
    InRect(w.wx, w.wy, 3, 6, i, j)
  }

  /** The lowest window row of a building (the largest y). */
  function MaxWy(ws: seq<Window>): (m: int)
    requires |ws| > 0
    ensures forall k :: 0 <= k < |ws| ==> ws[k].wy <= m
    ensures exists k :: 0 <= k < |ws| && ws[k].wy == m
  {
    if |ws| == 1 then ws[0].wy
    else
      var rest := MaxWy(ws[1..]);
      assert forall k :: 1 <= k < |ws| ==> ws[k] == ws[1..][k - 1];
      Max(ws[0].wy, rest)
  }

  /** The cells painted by the first n windows of a list, the windows of row m being skipped. */
  predicate PaintedWindows(ws: seq<Window>, m: int, n: nat, i: int, j: int)
    requires n <= |ws|
  {
    n > 0 && (PaintedWindows(ws, m, n - 1, i, j) || (ws[n - 1].wy != m && InWindow(ws[n - 1], i, j)))
  }

  /** The cells the rebuild paints for one building: its body and every window not on its lowest row. */
  predicate PaintedBy(b: Building, i: int, j: int) {
    || InBody(b, i, j)
    || (|b.windows| > 0 && PaintedWindows(b.windows, MaxWy(b.windows), |b.windows|, i, j))
  }

  /** The cells the rebuild paints for the first n buildings. */
  predicate Painted(bs: seq<Building>, n: nat, i: int, j: int)
    requires n <= |bs|
  {
    n > 0 && (Painted(bs, n - 1, i, j) || PaintedBy(bs[n - 1], i, j))
  }

  /** The union of the first n bodies. */
  predicate Covered(bs: seq<Building>, n: nat, i: int, j: int)
    requires n <= |bs|
  {
    exists k :: 0 <= k < n && InBody(bs[k], i, j)
  }

  predicate InSurface(a: array2<bool>, i: int, j: int) {
    0 <= i < a.Length0 && 0 <= j < a.Length1
  }

  // ---------------------------------------------------------------------
  // Lemmas

  /** Two rows of the same window grid that differ are at least 15 apart. */
  lemma RowsApart(top: int, wy: int, m: int)
    requires (wy - top - 3) % 15 == 0 && (m - top - 3) % 15 == 0 && wy < m
    ensures wy + 15 <= m
  {
    var p := (wy - top - 3) / 15;
    var q := (m - top - 3) / 15;
    assert wy - top - 3 == 15 * p;
    assert m - top - 3 == 15 * q;
  }

  /** A window of a grid above the lowest row lies inside the building's body. */
  lemma {:induction false} WindowsInsideBody(b: Building, m: int, n: nat, i: int, j: int)
    requires WindowsOnGrid(b) && n <= |b.windows|
    requires Top(b) + 3 <= m < Ground - 3 && (m - Top(b) - 3) % 15 == 0
    requires forall k :: 0 <= k < |b.windows| ==> b.windows[k].wy <= m
    ensures PaintedWindows(b.windows, m, n, i, j) ==> InBody(b, i, j)
    decreases n
  {
    if n > 0 {
      WindowsInsideBody(b, m, n - 1, i, j);
      var w := b.windows[n - 1];
      assert WindowOnGrid(b, w);
      if w.wy != m {
        RowsApart(Top(b), w.wy, m);
      }
    }
  }

  /** On a grid-laid building, the rebuild paints exactly the body. */
  lemma PaintedByIsBody(b: Building, i: int, j: int)
    requires WindowsOnGrid(b)
    ensures PaintedBy(b, i, j) <==> InBody(b, i, j)
  {
    if |b.windows| > 0 {
      var m := MaxWy(b.windows);
      var k :| 0 <= k < |b.windows| && b.windows[k].wy == m;
      assert WindowOnGrid(b, b.windows[k]);
      WindowsInsideBody(b, m, |b.windows|, i, j);
    }
  }

  /**
   * When every window is on its building's
   * grid, the rebuilt surface is the union of the body rectangles.
   */
  lemma {:induction false} PaintedIsCovered(bs: seq<Building>, n: nat, i: int, j: int)
    requires n <= |bs| && forall k :: 0 <= k < |bs| ==> WindowsOnGrid(bs[k])
    ensures Painted(bs, n, i, j) <==> Covered(bs, n, i, j)
  {
    if n > 0 {
      PaintedIsCovered(bs, n - 1, i, j);
      PaintedByIsBody(bs[n - 1], i, j);
      if InBody(bs[n - 1], i, j) {
        assert Covered(bs, n, i, j);
      }
      if Covered(bs, n, i, j) && !InBody(bs[n - 1], i, j) {
        var k :| 0 <= k < n && InBody(bs[k], i, j);
        assert Covered(bs, n - 1, i, j);
      }
    }
  }

  // ---------------------------------------------------------------------
  // The surface operations

  /** pygame.draw.rect with an opaque colour: the rectangle's cells on the surface become opaque. */
  method PaintRect(a: array2<bool>, rx: int, ry: int, rw: int, rh: int)
    modifies a
    ensures forall i, j :: InSurface(a, i, j) ==> a[i, j] == (old(a[i, j]) || InRect(rx, ry, rw, rh, i, j))
  {
    var i := Max(rx, 0);
    var iEnd := Min(rx + rw, a.Length0);
    while i < iEnd
      invariant forall i', j' :: InSurface(a, i', j') ==>
        a[i', j'] == (old(a[i', j']) || (InRect(rx, ry, rw, rh, i', j') && i' < i))
      decreases iEnd - i
    {
      var j := Max(ry, 0);
      var jEnd := Min(ry + rh, a.Length1);
      while j < jEnd
        invariant forall i', j' :: InSurface(a, i', j') ==>
          a[i', j'] == (old(a[i', j']) || (InRect(rx, ry, rw, rh, i', j') && (i' < i || (i' == i && j' < j))))
        decreases jEnd - j
      {
        a[i, j] := true;
        j := j + 1;
      }
      i := i + 1;
    }
  }

  /** The body of one building, then its windows but the lowest row. */
  method PaintBuilding(a: array2<bool>, b: Building)
    modifies a
    ensures forall i, j :: InSurface(a, i, j) ==> a[i, j] == (old(a[i, j]) || PaintedBy(b, i, j))
  {
    PaintRect(a, b.x, Top(b), b.width, b.height);
    if |b.windows| > 0 {
      var m := MaxWy(b.windows);
      var n := 0;
      while n < |b.windows|
        invariant 0 <= n <= |b.windows|
        invariant forall i, j :: InSurface(a, i, j) ==>
          a[i, j] == (old(a[i, j]) || InBody(b, i, j) || PaintedWindows(b.windows, m, n, i, j))
      {
        var w := b.windows[n];
        if w.wy != m {
          PaintRect(a, w.wx, w.wy, 3, 6);
        }
        n := n + 1;
      }
    }
  }

  /** rebuild_city_surface: a fresh transparent surface with every building painted on it. */
  method Rasterize(bs: seq<Building>) returns (a: array2<bool>)
    ensures fresh(a) && a.Length0 == ScreenWidth && a.Length1 == ScreenHeight
    ensures forall i, j :: InSurface(a, i, j) ==> a[i, j] == Painted(bs, |bs|, i, j)
  {
    a := new bool[ScreenWidth, ScreenHeight]((i, j) => false);
    var n := 0;
    while n < |bs|
      invariant 0 <= n <= |bs|
      invariant forall i, j :: InSurface(a, i, j) ==> a[i, j] == Painted(bs, n, i, j)
    {
      PaintBuilding(a, bs[n]);
      n := n + 1;
    }
  }

  /**
   * The carve: pygame.draw.circle with a transparent colour.  `hole` is the
   * set of cells the circle covers; every covered cell becomes transparent
   * and every other cell keeps its state.
   */
  method ClearWhere(a: array2<bool>, hole: (int, int) -> bool)
    modifies a
    ensures forall i, j :: InSurface(a, i, j) ==> a[i, j] == (old(a[i, j]) && !hole(i, j))
  {
    var i := 0;
    while i < a.Length0
      invariant 0 <= i <= a.Length0
      invariant forall i', j' :: InSurface(a, i', j') ==>
        a[i', j'] == (old(a[i', j']) && !(hole(i', j') && i' < i))
    {
      var j := 0;
      while j < a.Length1
        invariant 0 <= j <= a.Length1
        invariant forall i', j' :: InSurface(a, i', j') ==>
          a[i', j'] == (old(a[i', j']) && !(hole(i', j') && (i' < i || (i' == i && j' < j))))
      {
        if hole(i, j) {
          a[i, j] := false;
        }
        j := j + 1;
      }
      i := i + 1;
    }
  }

  /** The same carve made twice leaves the surface as one carve does: carving is idempotent. */
  method ClearTwice(a: array2<bool>, hole: (int, int) -> bool)
    modifies a
    ensures forall i, j :: InSurface(a, i, j) ==> a[i, j] == (old(a[i, j]) && !hole(i, j))
  {
    ClearWhere(a, hole);
    ClearWhere(a, hole);
  }
}
