/** What a thread walk does to the grid, knot by knot: it visits the knots of a
    trace that depends only on the frame and the knot kinds, sets the thread's
    color on the input sides it enters, recomputes the knot colors there, and
    leaves every other knot as it was. */
module WalkFacts {
  import opened Wrappers
  import opened Colors
  import opened Knots
  import opened Layout
  import opened Topology
  import opened Propagation

  /** The knots and input sides a thread entering `c` by `dir` passes through. */
  function Trace(g: Grid, p: Params, c: Co, dir: Dir): (t: seq<(Co, Dir)>)
    requires ValidParams(p) && Routed(g, p) && InGrid(c, p.w, p.l) && IsIn(dir)
    ensures |t| >= 1 && t[0] == (c, dir)
    ensures forall i :: 0 <= i < |t| ==>
      InGrid(t[i].0, p.w, p.l) && IsIn(t[i].1) && LayoutRow(p, t[i].0) >= LayoutRow(p, c)
    ensures forall i :: 1 <= i < |t| ==> LayoutRow(p, t[i].0) > LayoutRow(p, c)
    decreases RowBound(p) - LayoutRow(p, c)
  {
    RowRange(p, c);
    assert RoutedKnot(p, c, g[c.x][c.y]);
    HopAdvances(p, c, g[c.x][c.y], dir);
    match Hop(g[c.x][c.y], dir)
    case Next(n, nd) => [(c, dir)] + Trace(g, p, n, nd)
    case _ => [(c, dir)]
  }

  /** A knot after a thread of color `col` entered it on the sides marked hit. */
  function Visit(k: Knot, hitL: bool, hitR: bool, col: Color): (r: Knot)
    ensures SameTopology(r, k) && r.kind == k.kind && r.leftVis == k.leftVis
    ensures r.colorInLeft == (if hitL then col else k.colorInLeft)
    ensures r.colorInRight == (if hitR then col else k.colorInRight)
    ensures r.knotColor == (if hitL || hitR then Some(Display(r)) else k.knotColor)
  {
    if !hitL && !hitR then k
    else ShowKnot(k.(colorInLeft := if hitL then col else k.colorInLeft,
                     colorInRight := if hitR then col else k.colorInRight))
  }

  /** The trace does not depend on colors or visibility. */
  lemma {:induction false} TraceSameWeave(g: Grid, h: Grid, p: Params, c: Co, dir: Dir)
    requires ValidParams(p) && Routed(g, p) && SameWeave(g, h, p) && InGrid(c, p.w, p.l) && IsIn(dir)
    ensures Routed(h, p)
    ensures Trace(g, p, c, dir) == Trace(h, p, c, dir)
    decreases RowBound(p) - LayoutRow(p, c)
  {
    RoutedFrame(g, h, p);
    RowRange(p, c);
    HopIgnoresColors(g[c.x][c.y], h[c.x][c.y], dir);
    assert RoutedKnot(p, c, g[c.x][c.y]);
    HopAdvances(p, c, g[c.x][c.y], dir);
    match Hop(g[c.x][c.y], dir)
    case Next(n, nd) => TraceSameWeave(g, h, p, n, nd);
    case _ =>
  }

  /** A color already pre-set on a side the thread enters anyway makes no difference. */
  lemma VisitAbsorbsReceive(k: Knot, d: Dir, hitL: bool, hitR: bool, col: Color)
    requires d == LeftIn ==> hitL
    requires d != LeftIn ==> hitR
    ensures Visit(Receive(k, d, col), hitL, hitR, col) == Visit(k, hitL, hitR, col)
  {
  }

  /** The knots a thread reaches after leaving `c` lie further down the drawing,
      so `c` is not among them. */
  lemma TraceBelow(g: Grid, p: Params, c: Co, n: Co, nd: Dir)
    requires ValidParams(p) && Routed(g, p) && InGrid(n, p.w, p.l) && IsIn(nd)
    requires LayoutRow(p, n) > LayoutRow(p, c)
    ensures (c, LeftIn) !in Trace(g, p, n, nd) && (c, RightIn) !in Trace(g, p, n, nd)
  {
    var t := Trace(g, p, n, nd);
    forall i | 0 <= i < |t| ensures t[i].0 != c {
      assert LayoutRow(p, t[i].0) >= LayoutRow(p, n);
    }
  }

  /** One step of the walk, knot by knot: the knot entered records the color,
      the next inner knot gets its input side pre-set, and nothing else changes. */
  lemma StepGridAt(g: Grid, p: Params, c: Co, dir: Dir, col: Color, q: Co)
    requires ValidParams(p) && Routed(g, p) && InGrid(c, p.w, p.l) && IsIn(dir) && InGrid(q, p.w, p.l)
    ensures q == c ==> StepGrid(g, p, c, dir, col)[q.x][q.y] == Record(g[c.x][c.y], dir, col)
    ensures q != c && Hop(g[c.x][c.y], dir).Next? && q == Hop(g[c.x][c.y], dir).at && !g[c.x][c.y].endK ==>
      StepGrid(g, p, c, dir, col)[q.x][q.y] == Receive(g[q.x][q.y], Hop(g[c.x][c.y], dir).dir, col)
    ensures q != c && (Hop(g[c.x][c.y], dir).Next? ==> q != Hop(g[c.x][c.y], dir).at || g[c.x][c.y].endK) ==>
      StepGrid(g, p, c, dir, col)[q.x][q.y] == g[q.x][q.y]
  {
    var k := Record(g[c.x][c.y], dir, col);
    HopIgnoresColors(g[c.x][c.y], k, dir);
  }

  /** The walk, knot by knot: a knot changes exactly when the trace enters it,
      and then takes the thread's color on the sides entered. */
  lemma {:induction false} WalkAt(g: Grid, p: Params, c: Co, dir: Dir, col: Color, q: Co)
    requires ValidParams(p) && Routed(g, p) && InGrid(c, p.w, p.l) && IsIn(dir) && InGrid(q, p.w, p.l)
    ensures Walk(g, p, c, dir, col)[q.x][q.y] ==
      Visit(g[q.x][q.y], (q, LeftIn) in Trace(g, p, c, dir), (q, RightIn) in Trace(g, p, c, dir), col)
    decreases RowBound(p) - LayoutRow(p, c)
  {
    RowRange(p, c);
    assert RoutedKnot(p, c, g[c.x][c.y]);
    HopAdvances(p, c, g[c.x][c.y], dir);
    var t := Trace(g, p, c, dir);
    var g1 := StepGrid(g, p, c, dir, col);
    StepGridAt(g, p, c, dir, col, q);
    match Hop(g[c.x][c.y], dir)
    case Stop =>
      assert t == [(c, dir)];
    case Next(n, nd) =>
      var t' := Trace(g1, p, n, nd);
      TraceSameWeave(g, g1, p, n, nd);
      assert t == [(c, dir)] + t';
      WalkAt(g1, p, n, nd, col, q);
      TraceBelow(g1, p, c, n, nd);
      assert t'[0] == (n, nd);
      if q == n && q != c && !g[c.x][c.y].endK {
        VisitAbsorbsReceive(g[q.x][q.y], nd, (q, LeftIn) in t', (q, RightIn) in t', col);
      }
  }

  /** Walking the same thread twice with the same color changes nothing more. */
  lemma WalkIdempotent(g: Grid, p: Params, c: Co, dir: Dir, col: Color)
    requires ValidParams(p) && Routed(g, p) && InGrid(c, p.w, p.l) && IsIn(dir)
    ensures Walk(Walk(g, p, c, dir, col), p, c, dir, col) == Walk(g, p, c, dir, col)
  {
    WalkRecolor(g, p, c, dir, col, col);
  }

  /** Walking a thread again in another color leaves the grid as if only the last
      walk had happened: the earlier color is overwritten everywhere it went. */
  lemma WalkRecolor(g: Grid, p: Params, c: Co, dir: Dir, a: Color, b: Color)
    requires ValidParams(p) && Routed(g, p) && InGrid(c, p.w, p.l) && IsIn(dir)
    ensures Walk(Walk(g, p, c, dir, a), p, c, dir, b) == Walk(g, p, c, dir, b)
  {
    var h := Walk(g, p, c, dir, a);
    TraceSameWeave(g, h, p, c, dir);
    var t := Trace(g, p, c, dir);
    forall x, y | 0 <= x < p.w && 0 <= y < p.l
      ensures Walk(h, p, c, dir, b)[x][y] == Walk(g, p, c, dir, b)[x][y]
    {
      WalkAt(g, p, c, dir, a, Co(x, y));
      WalkAt(h, p, c, dir, b, Co(x, y));
      WalkAt(g, p, c, dir, b, Co(x, y));
    }
    GridExt(Walk(h, p, c, dir, b), Walk(g, p, c, dir, b), p.w, p.l);
  }

  /** A knot the thread does not enter keeps everything, in particular every knot
      drawn above the start of the thread. */
  lemma WalkLocal(g: Grid, p: Params, c: Co, dir: Dir, col: Color, q: Co)
    requires ValidParams(p) && Routed(g, p) && InGrid(c, p.w, p.l) && IsIn(dir) && InGrid(q, p.w, p.l)
    requires (q, LeftIn) !in Trace(g, p, c, dir) && (q, RightIn) !in Trace(g, p, c, dir)
    ensures Walk(g, p, c, dir, col)[q.x][q.y] == g[q.x][q.y]
  {
    WalkAt(g, p, c, dir, col, q);
  }

  lemma WalkKeepsAbove(g: Grid, p: Params, c: Co, dir: Dir, col: Color, q: Co)
    requires ValidParams(p) && Routed(g, p) && InGrid(c, p.w, p.l) && IsIn(dir) && InGrid(q, p.w, p.l)
    requires LayoutRow(p, q) < LayoutRow(p, c)
    ensures Walk(g, p, c, dir, col)[q.x][q.y] == g[q.x][q.y]
  {
    var t := Trace(g, p, c, dir);
    assert (q, LeftIn) !in t && (q, RightIn) !in t by {
      forall i | 0 <= i < |t| ensures t[i].0 != q {
      }
    }
    WalkLocal(g, p, c, dir, col, q);
  }

  /** Every input side the thread enters carries its color afterwards, and every
      knot it enters shows the color of its visible input. */
  lemma WalkColorsTrace(g: Grid, p: Params, c: Co, dir: Dir, col: Color, i: int)
    requires ValidParams(p) && Routed(g, p) && InGrid(c, p.w, p.l) && IsIn(dir)
    requires 0 <= i < |Trace(g, p, c, dir)|
    ensures var (q, side) := Trace(g, p, c, dir)[i];
      var k := Walk(g, p, c, dir, col)[q.x][q.y];
      (if side == LeftIn then k.colorInLeft else k.colorInRight) == col &&
      k.knotColor == Some(Display(k))
  {
    var (q, side) := Trace(g, p, c, dir)[i];
    WalkAt(g, p, c, dir, col, q);
  }
}
