/** How a thread runs through the ribbon: `change_knot_type` (which way a knot
    sends an incoming thread), `next_no_end_knot` / `next_end_knot` (the hop to the
    next knot), `next_direction` / `set_knot_color` (what a knot records), and
    `set_thread` (the whole walk) as the function `Walk`. */
module Propagation {
  import opened Wrappers
  import opened Colors
  import opened Knots
  import opened Layout
  import opened Topology

  /** Where the walk goes after one knot: stop, continue at a knot entering from a
      side, or fail. `Fault` stands for the Python run-time errors of `next_direction`:
      following a `None` link, the attributes `self.right` / `self.left` that do
      not exist, an input direction `change_knot_type` has no branch for. */
  datatype Outcome = Stop | Next(at: Co, dir: Dir) | Fault

  /** The result of `change_knot_type`: the side the thread leaves by, the side it
      enters the next knot by, and the link it follows. */
  datatype Route = Route(out: Dir, nextIn: Dir, target: Option<Co>)

  /** `change_knot_type`: a normal knot sends a thread across (in on the left, out
      on the right), a reverse knot sends it back to the side it came from; the
      thread enters the next knot on the side facing the one it left. */
  function ChangeKnotType(k: Knot, dir: Dir): (r: Route)
    requires IsIn(dir)
    ensures r.out == RightOut || r.out == LeftOut
    ensures r.out == RightOut <==> ((k.kind == Nk) == (dir == LeftIn))
    ensures r.nextIn == (if r.out == RightOut then LeftIn else RightIn)
    ensures r.target == (if r.out == RightOut then k.toR else k.toL)
  {
    match k.kind
    case Nk => if dir == LeftIn then Route(RightOut, LeftIn, k.toR) else Route(LeftOut, RightIn, k.toL)
    case Rk => if dir == LeftIn then Route(LeftOut, RightIn, k.toL) else Route(RightOut, LeftIn, k.toR)
  }

  /** The two inputs of a knot always leave by different sides. */
  lemma InputsLeaveApart(k: Knot)
    ensures ChangeKnotType(k, LeftIn).out != ChangeKnotType(k, RightIn).out
    ensures ChangeKnotType(k, LeftIn).target != ChangeKnotType(k, RightIn).target || k.toL == k.toR
  {
  }

  /** Changing the kind of a knot swaps the routes of its two inputs. */
  lemma ToggleSwapsRoutes(k: Knot)
    ensures ChangeKnotType(k.(kind := Toggled(k.kind)), LeftIn) == ChangeKnotType(k, RightIn)
    ensures ChangeKnotType(k.(kind := Toggled(k.kind)), RightIn) == ChangeKnotType(k, LeftIn)
  {
  }

  /** An edge arc: the thread leaves an inner edge knot towards the border and
      comes back into the knot straight below on the same side. */
  predicate Arc(k: Knot, out: Dir) {
    (k.edgeKR && out == RightOut) || (k.edgeKL && out == LeftOut)
  }

  /** `next_no_end_knot`: follow the link chosen by `change_knot_type`; along an
      edge arc the thread re-enters on the side it left. */
  function NoEndHop(k: Knot, dir: Dir): (r: Outcome)
    requires IsIn(dir)
    ensures !r.Stop?
    ensures r.Fault? <==> ChangeKnotType(k, dir).target.None?
    ensures r.Next? ==> Some(r.at) == ChangeKnotType(k, dir).target
    ensures r.Next? ==> (r.dir == RightIn <==>
      (if Arc(k, ChangeKnotType(k, dir).out) then ChangeKnotType(k, dir).out == RightOut
       else ChangeKnotType(k, dir).out == LeftOut))
  {
    var rt := ChangeKnotType(k, dir);
    var nextIn :=
      if k.edgeKR && rt.target == k.toR && rt.out == RightOut then RightIn
      else if k.edgeKL && rt.target == k.toL && rt.out == LeftOut then LeftIn
      else rt.nextIn;
    if rt.target.None? then Fault else Next(rt.target.value, nextIn)
  }

  /** Follow link `link` if there is one: a missing link the code dereferences is a failure. */
  function Follow(link: Option<Co>, nextIn: Dir): Outcome {
    if link.None? then Fault else Next(link.value, nextIn)
  }

  /** `next_end_knot`: on the last row an edge knot stops when the link it would
      take is missing; an inner end knot moves sideways only in the direction
      its end type allows. */
  function EndHop(k: Knot, dir: Dir): (r: Outcome)
    requires IsIn(dir)
    ensures !k.edgeKL && !k.edgeKR ==>
      (r.Stop? <==> !((ChangeKnotType(k, dir).out == LeftOut && LinksLeft(k.endType)) ||
                      (ChangeKnotType(k, dir).out == RightOut && LinksRight(k.endType))))
    ensures r.Next? ==> Some(r.at) == ChangeKnotType(k, dir).target
  {
    var rt := ChangeKnotType(k, dir);
    if k.edgeKR then
      if rt.out == LeftOut then (if k.toL.None? then Stop else Next(k.toL.value, rt.nextIn))
      else (if k.toR.None? then Stop else Fault)
    else if k.edgeKL then
      if rt.out == RightOut then (if k.toR.None? then Stop else Next(k.toR.value, rt.nextIn))
      else (if k.toL.None? || k.toR.None? then Stop else Fault)
    else
      match k.endType
      case EndLikeTypeR => if rt.out == LeftOut then Follow(k.toL, rt.nextIn) else Stop
      case EndLikeTypeL => if rt.out == RightOut then Follow(k.toR, rt.nextIn) else Stop
      case EndBoth => if rt.out == RightOut then Follow(k.toR, rt.nextIn) else Follow(k.toL, rt.nextIn)
      case _ => Stop
  }

  /** The routing half of `next_direction`: inner knots use `next_no_end_knot`, end knots `next_end_knot`. */
  function Hop(k: Knot, dir: Dir): (r: Outcome)
    requires IsIn(dir)
    ensures r.Next? ==> IsIn(r.dir) && (Some(r.at) == k.toL || Some(r.at) == k.toR)
    ensures Unstuck(k) ==> !r.Fault?
  {
    if k.endK then EndHop(k, dir) else NoEndHop(k, dir)
  }

  /** The recording half of `next_direction`: the incoming color is stored on the
      input side and the knot color is recomputed (`set_knot_color`). */
  function Record(k: Knot, dir: Dir, color: Color): (r: Knot)
    ensures SameTopology(r, k) && r.kind == k.kind && r.leftVis == k.leftVis
    ensures (if dir == LeftIn then r.colorInLeft else r.colorInRight) == color
    ensures r.knotColor == Some(Display(r))
  {
    ShowKnot(Receive(k, dir, color))
  }

  /** Same frame, and also the same kinds and visibility: what a thread walk keeps. */
  predicate SameWeave(g: Grid, h: Grid, p: Params) {
    SameFrame(g, h, p) &&
    forall x, y :: 0 <= x < p.w && 0 <= y < p.l ==> g[x][y].kind == h[x][y].kind && g[x][y].leftVis == h[x][y].leftVis
  }

  lemma SameWeaveTrans(g: Grid, h: Grid, f: Grid, p: Params)
    requires SameWeave(g, h, p) && SameWeave(h, f, p)
    ensures SameWeave(g, f, p)
  {
  }

  /** Following a hop from a routed knot lands on a knot of the grid drawn further down. */
  lemma HopAdvances(p: Params, c: Co, k: Knot, dir: Dir)
    requires IsIn(dir) && RoutedKnot(p, c, k)
    ensures !Hop(k, dir).Fault?
    ensures Hop(k, dir).Next? ==>
      InGrid(Hop(k, dir).at, p.w, p.l) && LayoutRow(p, Hop(k, dir).at) > LayoutRow(p, c)
  {
  }

  /** The hop only depends on the knot's frame and kind, not on its colors or visibility. */
  lemma HopIgnoresColors(k: Knot, k': Knot, dir: Dir)
    requires IsIn(dir) && SameTopology(k, k') && k.kind == k'.kind
    ensures Hop(k, dir) == Hop(k', dir)
  {
  }

  /** Replacing one knot by one with the same frame, kind and visibility keeps the weave. */
  lemma PutKeepsWeave(g: Grid, p: Params, c: Co, k: Knot)
    requires Shaped(g, p.w, p.l) && InGrid(c, p.w, p.l)
    requires SameTopology(g[c.x][c.y], k) && g[c.x][c.y].kind == k.kind && g[c.x][c.y].leftVis == k.leftVis
    ensures SameWeave(g, Put(g, c, k), p)
  {
  }

  /** One call of `next_direction` at knot `c`: the knot records the color and, when the
      thread goes on from an inner knot, the next knot's input side is pre-set. */
  function StepGrid(g: Grid, p: Params, c: Co, dir: Dir, color: Color): (r: Grid)
    requires ValidParams(p) && Routed(g, p) && InGrid(c, p.w, p.l) && IsIn(dir)
    ensures SameWeave(g, r, p) && Routed(r, p)
  {
    var k := Record(g[c.x][c.y], dir, color);
    var g1 := Put(g, c, k);
    PutKeepsWeave(g, p, c, k);
    assert RoutedKnot(p, c, g[c.x][c.y]);
    HopAdvances(p, c, k, dir);
    match Hop(k, dir)
    case Next(n, nd) =>
      if k.endK then RoutedFrame(g, g1, p); g1
      else
        var g2 := Put(g1, n, Receive(g1[n.x][n.y], nd, color));
        PutKeepsWeave(g1, p, n, Receive(g1[n.x][n.y], nd, color));
        SameWeaveTrans(g, g1, g2, p);
        RoutedFrame(g, g2, p);
        g2
    case _ => RoutedFrame(g, g1, p); g1
  }

  /** `set_thread`: starting at knot `c` entering by `dir`, record the color at each
      knot, pre-set it on the next inner knot's input side, and follow the route
      until an end knot stops the thread. */
  function Walk(g: Grid, p: Params, c: Co, dir: Dir, color: Color): (r: Grid)
    requires ValidParams(p) && Routed(g, p) && InGrid(c, p.w, p.l) && IsIn(dir)
    ensures SameWeave(g, r, p) && Routed(r, p)
    decreases RowBound(p) - LayoutRow(p, c)
  {
    RowRange(p, c);
    assert RoutedKnot(p, c, g[c.x][c.y]);
    HopAdvances(p, c, g[c.x][c.y], dir);
    var g1 := StepGrid(g, p, c, dir, color);
    match Hop(g[c.x][c.y], dir)
    case Stop => g1
    case Next(n, nd) =>
      var r := Walk(g1, p, n, nd, color);
      SameWeaveTrans(g, g1, r, p);
      r
  }
}
