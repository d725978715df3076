/** The links between knots: the per-knot rules the builders apply, the
    finished knot of each family as a reference table, and the routing
    conditions under which a thread walk always moves down the drawing and
    never reaches a missing or impossible link. */
module Topology {
  import opened Wrappers
  import opened Knots
  import opened Layout

  /** A knot of the empty ribbon: start knots on row 0, end knots on row `l - 1`,
      edge flags on the first and last column (`make_empty_ribbon` and the
      edge loops of the constructor). */
  function BlankKnot(x: int, y: int, w: int, l: int): (k: Knot)
    ensures k.strtK <==> y == 0
    ensures k.endK <==> y == l - 1
    ensures k.edgeKL <==> x == 0
    ensures k.edgeKR <==> x == w - 1
    ensures k.(strtK := false, endK := false, edgeKL := false, edgeKR := false) == FreshKnot
  {
    FreshKnot.(strtK := y == 0, endK := y == l - 1, edgeKL := x == 0, edgeKR := x == w - 1)
  }

  /** The pair `(nKtoR, nKtoL)` that `make_knot_links` gives a non-end knot at `c`,
      for a column running like type L (`ascending`) or like type R. */
  function SlopeLinks(ascending: bool, k: Knot, c: Co, w: int): (Co, Co) {
    var x, y := c.x, c.y;
    if ascending then
      if k.edgeKL then (Co(x + 1, y), Co(x, y + 1))
      else if k.edgeKR then (Co(x, y + 1), Co(PyPrev(x, w), y + 1))
      else (Co(x + 1, y), Co(PyPrev(x, w), y + 1))
    else
      if k.edgeKL then (Co(x + 1, y + 1), Co(x, y + 1))
      else if k.edgeKR then (Co(x, y + 1), Co(PyPrev(x, w), y))
      else (Co(x + 1, y + 1), Co(PyPrev(x, w), y))
  }

  /** `make_knot_links` applied to one knot: end knots are left alone. */
  function LinkRule(ascending: bool, k: Knot, c: Co, w: int): (r: Knot)
    ensures k.endK ==> r == k
    ensures !k.endK ==> r.toL.Some? && r.toR.Some?
    ensures r.(toL := k.toL, toR := k.toR) == k
  {
    if k.endK then k
    else
      var links := SlopeLinks(ascending, k, c, w);
      k.(toR := Some(links.0), toL := Some(links.1))
  }

  /** The two shapes of a middle column: `"M"` (both links one row down) and `"A"` (both on the same row). */
  datatype Seam = SeamM | SeamA

  /** `fix_middle_knot_links` applied to one knot. */
  function MiddleRule(seam: Seam, k: Knot, c: Co, w: int): (r: Knot)
    ensures k.endK ==> r == k
    ensures !k.endK ==> r.toL.Some? && r.toR.Some? && r.toL.value.y == r.toR.value.y
    ensures r.(toL := k.toL, toR := k.toR) == k
  {
    if k.endK then k
    else
      var x, y := c.x, c.y;
      match seam
      case SeamM => k.(toR := Some(Co(x + 1, y + 1)), toL := Some(Co(PyPrev(x, w), y + 1)))
      case SeamA => k.(toR := Some(Co(x + 1, y)), toL := Some(Co(PyPrev(x, w), y)))
  }

  /** `set_end_knots` applied to one knot of the last row: like type L it links to
      the right neighbour (unless it is the right edge knot), otherwise to the left one. */
  function EndRule(likeTypeL: bool, k: Knot, c: Co, w: int): (r: Knot)
    ensures r.endType == EndLikeTypeL || r.endType == EndLikeTypeR
    ensures r.endType == EndLikeTypeL <==> likeTypeL && !k.edgeKR
    ensures r.endType == EndLikeTypeL ==> r.toR == Some(Co(c.x + 1, c.y)) && r.toL == k.toL
    ensures r.endType == EndLikeTypeR ==> r.toL == Some(Co(PyPrev(c.x, w), c.y)) && r.toR == k.toR
    ensures r.(endType := k.endType, toL := k.toL, toR := k.toR) == k
  {
    if likeTypeL && !k.edgeKR then k.(endType := EndLikeTypeL, toR := Some(Co(c.x + 1, c.y)))
    else k.(endType := EndLikeTypeR, toL := Some(Co(PyPrev(c.x, w), c.y)))
  }

  // ---------------------------------------------------------------------------
  // The finished knot of every family
  // ---------------------------------------------------------------------------

  /** How the links of a column run once its family builder is done. */
  datatype Slope = Ascending | Descending | Middle(seam: Seam)

  function ColumnSlope(p: Params, x: int): Slope {
    match p.fam
    case L => Ascending
    case R => Descending
    case M => if x < Mid(p) then Ascending else if x == Mid(p) then Middle(SeamM) else Descending
    case A => if x < Mid(p) then Descending else if x == Mid(p) then Middle(SeamA) else Ascending
    case W =>
      var d := Quarter(p);
      if x < d then Ascending
      else if x == d then Middle(SeamM)
      else if x < 2 * d then Descending
      else if x == 2 * d then Middle(SeamA)
      else if x < 3 * d then Ascending
      else if x == 3 * d then Middle(SeamM)
      else Descending
  }

  /** The knot kind a builder leaves: the middle columns of M and A and the
      three turning columns of W are reverse knots. */
  function BuiltKind(p: Params, x: int): Kind {
    if ColumnSlope(p, x).Middle? then Rk else Nk
  }

  /** Which input a knot shows after `set_visible`. */
  function BuiltVis(p: Params, x: int): bool {
    match p.fam
    case L => true
    case R => false
    case M => x <= Mid(p)
    case A => x >= Mid(p)
    case W =>
      var d := Quarter(p);
      !(d <= x < 2 * d || 3 * d < x)
  }

  /** The `endKtype` the builders leave on the last row. */
  function BuiltEndType(p: Params, x: int): EndType {
    match p.fam
    case L => if x < p.w - 1 then EndLikeTypeL else EndUndefined
    case R => if 1 <= x then EndLikeTypeR else EndUndefined
    case M => if x < Mid(p) then EndLikeTypeL else if x == Mid(p) then EndUndefined else EndLikeTypeR
    case A =>
      if x == 0 || x == p.w - 1 then EndUndefined
      else if x < Mid(p) then EndLikeTypeR
      else if x == Mid(p) then EndBoth
      else EndLikeTypeL
    case W =>
      var d := Quarter(p);
      if x < d then EndLikeTypeL
      else if x == d then EndNone
      else if x <= 2 * d - 1 then EndLikeTypeR
      else if x == 2 * d then EndBoth
      else if x < 3 * d then EndLikeTypeL
      else if x == 3 * d then EndNone
      else EndLikeTypeR
  }

  predicate LinksLeft(e: EndType) {
    e == EndLikeTypeR || e == EndBoth
  }

  predicate LinksRight(e: EndType) {
    e == EndLikeTypeL || e == EndBoth
  }

  /** The knot at `(x, y)` of a freshly built ribbon (before any thread is drawn). */
  function BuiltKnot(p: Params, x: int, y: int): Knot {
    var k := BlankKnot(x, y, p.w, p.l).(kind := BuiltKind(p, x), leftVis := BuiltVis(p, x));
    if y == p.l - 1 then
      var e := BuiltEndType(p, x);
      k.(endType := e,
         toL := if LinksLeft(e) then Some(Co(x - 1, y)) else None,
         toR := if LinksRight(e) then Some(Co(x + 1, y)) else None)
    else
      match ColumnSlope(p, x)
      case Ascending =>
        var links := SlopeLinks(true, k, Co(x, y), p.w);
        k.(toR := Some(links.0), toL := Some(links.1))
      case Descending =>
        var links := SlopeLinks(false, k, Co(x, y), p.w);
        k.(toR := Some(links.0), toL := Some(links.1))
      case Middle(SeamM) => k.(toR := Some(Co(x + 1, y + 1)), toL := Some(Co(x - 1, y + 1)))
      case Middle(SeamA) => k.(toR := Some(Co(x + 1, y)), toL := Some(Co(x - 1, y)))
  }

  function BuiltGrid(p: Params): (g: Grid)
    requires ValidParams(p)
    ensures Shaped(g, p.w, p.l)
    ensures forall x, y :: 0 <= x < p.w && 0 <= y < p.l ==> g[x][y] == BuiltKnot(p, x, y)
  {
    seq(p.w, x => seq(p.l, y => BuiltKnot(p, x, y)))
  }

  // ---------------------------------------------------------------------------
  // Routing conditions
  // ---------------------------------------------------------------------------

  /** A link, if present, names a knot of the grid drawn further down. */
  predicate LinkAdvances(p: Params, c: Co, link: Option<Co>) {
    link.Some? ==> InGrid(link.value, p.w, p.l) && LayoutRow(p, link.value) > LayoutRow(p, c)
  }

  /** The link shape under which `next_direction` cannot fail, whatever the knot
      kind: inner knots have both links; a right edge end knot has no right link
      (`self.right` does not exist); a left edge end knot lacks one of its links
      (`self.left` does not exist); an end knot has the links its end type follows. */
  predicate Unstuck(k: Knot) {
    if !k.endK then k.toL.Some? && k.toR.Some?
    else if k.edgeKR then k.toR.None?
    else if k.edgeKL then k.toL.None? || k.toR.None?
    else (LinksLeft(k.endType) ==> k.toL.Some?) && (LinksRight(k.endType) ==> k.toR.Some?)
  }

  predicate RoutedKnot(p: Params, c: Co, k: Knot) {
    LinkAdvances(p, c, k.toL) && LinkAdvances(p, c, k.toR) && Unstuck(k)
  }

  /** Every knot of the grid satisfies the routing conditions. */
  predicate Routed(g: Grid, p: Params) {
    Shaped(g, p.w, p.l) &&
    forall x, y :: 0 <= x < p.w && 0 <= y < p.l ==> RoutedKnot(p, Co(x, y), g[x][y])
  }

  /** Grids of the same shape whose knots agree on flags, end types and links. */
  predicate SameFrame(g: Grid, h: Grid, p: Params) {
    Shaped(g, p.w, p.l) && Shaped(h, p.w, p.l) &&
    forall x, y :: 0 <= x < p.w && 0 <= y < p.l ==> SameTopology(g[x][y], h[x][y])
  }

  /** The routing conditions only look at the frame: colors, kinds and visibility do not matter. */
  lemma RoutedFrame(g: Grid, h: Grid, p: Params)
    requires Routed(g, p) && SameFrame(g, h, p)
    ensures Routed(h, p)
  {
    forall x, y | 0 <= x < p.w && 0 <= y < p.l
      ensures RoutedKnot(p, Co(x, y), h[x][y])
    {
      assert RoutedKnot(p, Co(x, y), g[x][y]);
    }
  }

  /** Every knot of a freshly built ribbon meets the routing conditions: each link
      names a knot of the grid drawn further down, and no knot lacks a link a
      thread could ask for. */
  lemma BuiltKnotRouted(p: Params, x: int, y: int)
    requires ValidParams(p) && 0 <= x < p.w && 0 <= y < p.l
    ensures RoutedKnot(p, Co(x, y), BuiltKnot(p, x, y))
  {
    if y == p.l - 1 {
      BuiltEndKnotRouted(p, x, y);
    } else {
      match ColumnSlope(p, x)
      case Ascending => BuiltAscendingRouted(p, x, y);
      case Descending => BuiltDescendingRouted(p, x, y);
      case Middle(_) => BuiltMiddleRouted(p, x, y);
    }
  }

  lemma BuiltEndKnotRouted(p: Params, x: int, y: int)
    requires ValidParams(p) && 0 <= x < p.w && y == p.l - 1
    ensures RoutedKnot(p, Co(x, y), BuiltKnot(p, x, y))
  {
    if p.fam == W {
      assert p.w == 4 * Quarter(p) + 1;
    }
  }

  lemma BuiltAscendingRouted(p: Params, x: int, y: int)
    requires ValidParams(p) && 0 <= x < p.w && 0 <= y < p.l - 1
    requires ColumnSlope(p, x) == Ascending
    ensures RoutedKnot(p, Co(x, y), BuiltKnot(p, x, y))
  {
    if p.fam == W {
      assert p.w == 4 * Quarter(p) + 1;
    }
  }

  lemma BuiltDescendingRouted(p: Params, x: int, y: int)
    requires ValidParams(p) && 0 <= x < p.w && 0 <= y < p.l - 1
    requires ColumnSlope(p, x) == Descending
    ensures RoutedKnot(p, Co(x, y), BuiltKnot(p, x, y))
  {
    if p.fam == W {
      assert p.w == 4 * Quarter(p) + 1;
    }
  }

  lemma BuiltMiddleRouted(p: Params, x: int, y: int)
    requires ValidParams(p) && 0 <= x < p.w && 0 <= y < p.l - 1
    requires ColumnSlope(p, x).Middle?
    ensures RoutedKnot(p, Co(x, y), BuiltKnot(p, x, y))
  {
    if p.fam == W {
      assert p.w == 4 * Quarter(p) + 1;
    }
  }

  lemma BuiltRouted(p: Params)
    requires ValidParams(p)
    ensures Routed(BuiltGrid(p), p)
  {
    forall x, y | 0 <= x < p.w && 0 <= y < p.l
      ensures RoutedKnot(p, Co(x, y), BuiltGrid(p)[x][y])
    {
      BuiltKnotRouted(p, x, y);
    }
  }

  /** A link, if present, leads exactly one layout row down to a neighbouring
      column, or two rows down its own column. */
  predicate LinkStepsExactly(p: Params, c: Co, link: Option<Co>) {
    link.Some? ==> LayoutRow(p, link.value) - LayoutRow(p, c) == (if link.value.x == c.x then 2 else 1)
  }

  /** The links a builder lays are exactly the knot arcs of the drawing: a thread
      passes from a knot to one a row further down in a neighbouring column, or,
      at an edge, to the knot two rows further down the same column. */
  lemma BuiltStepExact(p: Params, x: int, y: int)
    requires ValidParams(p) && 0 <= x < p.w && 0 <= y < p.l
    ensures LinkStepsExactly(p, Co(x, y), BuiltKnot(p, x, y).toL)
    ensures LinkStepsExactly(p, Co(x, y), BuiltKnot(p, x, y).toR)
  {
    if y == p.l - 1 {
      EndKnotStepExact(p, x, y);
    } else {
      match ColumnSlope(p, x)
      case Ascending => AscendingStepExact(p, x, y);
      case Descending => DescendingStepExact(p, x, y);
      case Middle(_) => MiddleStepExact(p, x, y);
    }
  }

  lemma EndKnotStepExact(p: Params, x: int, y: int)
    requires ValidParams(p) && 0 <= x < p.w && y == p.l - 1
    ensures LinkStepsExactly(p, Co(x, y), BuiltKnot(p, x, y).toL)
    ensures LinkStepsExactly(p, Co(x, y), BuiltKnot(p, x, y).toR)
  {
    if p.fam == W {
      assert p.w == 4 * Quarter(p) + 1;
    }
  }

  lemma AscendingStepExact(p: Params, x: int, y: int)
    requires ValidParams(p) && 0 <= x < p.w && 0 <= y < p.l - 1
    requires ColumnSlope(p, x) == Ascending
    ensures LinkStepsExactly(p, Co(x, y), BuiltKnot(p, x, y).toL)
    ensures LinkStepsExactly(p, Co(x, y), BuiltKnot(p, x, y).toR)
  {
    if p.fam == W {
      assert p.w == 4 * Quarter(p) + 1;
    }
  }

  lemma DescendingStepExact(p: Params, x: int, y: int)
    requires ValidParams(p) && 0 <= x < p.w && 0 <= y < p.l - 1
    requires ColumnSlope(p, x) == Descending
    ensures LinkStepsExactly(p, Co(x, y), BuiltKnot(p, x, y).toL)
    ensures LinkStepsExactly(p, Co(x, y), BuiltKnot(p, x, y).toR)
  {
    if p.fam == W {
      assert p.w == 4 * Quarter(p) + 1;
    }
  }

  lemma MiddleStepExact(p: Params, x: int, y: int)
    requires ValidParams(p) && 0 <= x < p.w && 0 <= y < p.l - 1
    requires ColumnSlope(p, x).Middle?
    ensures LinkStepsExactly(p, Co(x, y), BuiltKnot(p, x, y).toL)
    ensures LinkStepsExactly(p, Co(x, y), BuiltKnot(p, x, y).toR)
  {
    if p.fam == W {
      assert p.w == 4 * Quarter(p) + 1;
    }
  }
}
