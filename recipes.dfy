/** The family builders as seen from one knot: each builder call either leaves
    the knot at `c` alone or applies its rule to it, and the calls of each
    `set_type_*` method, in their order, turn the blank knot into the finished
    one of the reference table. */
module Recipes {
  import opened Knots
  import opened Layout
  import opened Topology

  /** `make_knot_links(ascending, start, stop)` seen from the knot at `c`. */
  function Links(ascending: bool, start: int, stop: int, k: Knot, c: Co, w: int): Knot {
    if start <= c.x < stop then LinkRule(ascending, k, c, w) else k
  }

  /** `fix_middle_knot_links(seam, column)` seen from the knot at `c`. */
  function MiddleLinks(seam: Seam, column: int, k: Knot, c: Co, w: int): Knot {
    if c.x == column then MiddleRule(seam, k, c, w) else k
  }

  /** `set_end_knots(likeTypeL, start, stop)` seen from the knot at `c`. */
  function Ends(likeTypeL: bool, start: int, stop: int, k: Knot, c: Co, w: int, l: int): Knot {
    if start <= c.x < stop && c.y == l - 1 then EndRule(likeTypeL, k, c, w) else k
  }

  /** `K[column][l - 1].endKtype = e` seen from the knot at `c`. */
  function EndTypeAt(column: int, e: EndType, k: Knot, c: Co, l: int): Knot {
    if c.x == column && c.y == l - 1 then k.(endType := e) else k
  }

  /** `set_type(column, kind)` seen from the knot at `c`. */
  function KindAt(column: int, kind: Kind, k: Knot, c: Co): Knot {
    if c.x == column then k.(kind := kind) else k
  }

  /** `set_visible(start, stop, ...)` seen from the knot at `c`. */
  function Visible(start: int, stop: int, leftVisible: bool, k: Knot, c: Co): Knot {
    if start <= c.x < stop then k.(leftVis := leftVisible) else k
  }

  /** `set_type_L` builds the L ribbon of the reference table. */
  lemma BuildsL(p: Params, x: int, y: int)
    requires p.fam == L && ValidParams(p) && 0 <= x < p.w && 0 <= y < p.l
    ensures
      var w, c := p.w, Co(x, y);
      var k := BlankKnot(x, y, p.w, p.l);
      var k := Links(true, 0, w, k, c, w);
      var k := Visible(0, w, true, k, c);
      var k := Ends(true, 0, w - 1, k, c, w, p.l);
      k == BuiltKnot(p, x, y)
  {
  }

  /** `set_type_R` builds the R ribbon of the reference table. */
  lemma BuildsR(p: Params, x: int, y: int)
    requires p.fam == R && ValidParams(p) && 0 <= x < p.w && 0 <= y < p.l
    ensures
      var w, c := p.w, Co(x, y);
      var k := BlankKnot(x, y, p.w, p.l);
      var k := Links(false, 0, w, k, c, w);
      var k := Visible(0, w, false, k, c);
      var k := Ends(false, 1, w, k, c, w, p.l);
      k == BuiltKnot(p, x, y)
  {
  }

  /** `set_type_M` builds the M ribbon of the reference table. */
  lemma BuildsM(p: Params, x: int, y: int)
    requires p.fam == M && ValidParams(p) && 0 <= x < p.w && 0 <= y < p.l
    ensures
      var w, c, mid := p.w, Co(x, y), Mid(p);
      var k := BlankKnot(x, y, p.w, p.l);
      var k := Links(true, 0, mid, k, c, w);
      var k := Links(false, mid + 1, w, k, c, w);
      var k := KindAt(mid, Rk, k, c);
      var k := Visible(mid + 1, w, false, k, c);
      var k := MiddleLinks(SeamM, mid, k, c, w);
      var k := Ends(true, 0, mid, k, c, w, p.l);
      var k := Ends(false, mid + 1, w, k, c, w, p.l);
      k == BuiltKnot(p, x, y)
  {
  }

  /** `set_type_A` builds the A ribbon of the reference table. */
  lemma BuildsA(p: Params, x: int, y: int)
    requires p.fam == A && ValidParams(p) && 0 <= x < p.w && 0 <= y < p.l
    ensures
      var w, c, mid := p.w, Co(x, y), Mid(p);
      var k := BlankKnot(x, y, p.w, p.l);
      var k := Links(false, 0, mid, k, c, w);
      var k := Links(true, mid + 1, w, k, c, w);
      var k := KindAt(mid, Rk, k, c);
      var k := Visible(0, mid, false, k, c);
      var k := MiddleLinks(SeamA, mid, k, c, w);
      var k := Ends(false, 1, mid + 1, k, c, w, p.l);
      var k := Ends(true, mid, w - 1, k, c, w, p.l);
      var k := EndTypeAt(mid, EndBoth, k, c, p.l);
      k == BuiltKnot(p, x, y)
  {
  }

  /** The link and kind calls that open `set_type_W`, seen from the knot at `c`. */
  function WLinksAndKinds(p: Params, k: Knot, c: Co): Knot {
    var w, d := p.w, Quarter(p);
    var k := Links(true, 0, d + 1, k, c, w);
    var k := Links(false, d, 2 * d + 1, k, c, w);
    var k := Links(true, 2 * d, 3 * d + 1, k, c, w);
    var k := Links(false, 3 * d, 4 * d + 1, k, c, w);
    var k := KindAt(d, Rk, k, c);
    var k := KindAt(2 * d, Rk, k, c);
    KindAt(3 * d, Rk, k, c)
  }

  /** The visibility and middle column calls of `set_type_W`. */
  function WVisibleAndMiddles(p: Params, k: Knot, c: Co): Knot {
    var w, d := p.w, Quarter(p);
    var k := Visible(0, d + 1, true, k, c);
    var k := Visible(d, 2 * d + 1, false, k, c);
    var k := Visible(2 * d, 3 * d, true, k, c);
    var k := Visible(3 * d + 1, 4 * d + 1, false, k, c);
    var k := MiddleLinks(SeamM, d, k, c, w);
    var k := MiddleLinks(SeamA, 2 * d, k, c, w);
    MiddleLinks(SeamM, 3 * d, k, c, w)
  }

  /** The end knot calls of `set_type_W` for its left half. */
  function WEndsLeft(p: Params, k: Knot, c: Co): Knot {
    var w, l, d := p.w, p.l, Quarter(p);
    var k := EndTypeAt(d, EndNone, k, c, l);
    var k := Ends(true, 0, d, k, c, w, l);
    Ends(false, d + 1, 2 * d + 1, k, c, w, l)
  }

  /** The end knot calls that close `set_type_W`, for its right half. */
  function WEndsRight(p: Params, k: Knot, c: Co): Knot {
    var w, l, d := p.w, p.l, Quarter(p);
    var k := Ends(true, 2 * d, 3 * d, k, c, w, l);
    var k := EndTypeAt(2 * d, EndBoth, k, c, l);
    var k := EndTypeAt(3 * d, EndNone, k, c, l);
    Ends(false, 3 * d + 1, 4 * d + 1, k, c, w, l)
  }

  /** `set_type_W` builds the W ribbon of the reference table. */
  lemma BuildsW(p: Params, x: int, y: int)
    requires p.fam == W && ValidParams(p) && 0 <= x < p.w && 0 <= y < p.l
    ensures
      var c := Co(x, y);
      var k := WLinksAndKinds(p, BlankKnot(x, y, p.w, p.l), c);
      WEndsRight(p, WEndsLeft(p, WVisibleAndMiddles(p, k, c), c), c) == BuiltKnot(p, x, y)
  {
    var d := Quarter(p);
    assert p.w == 4 * d + 1;
    if x < d {
    } else if x == d {
    } else if x < 2 * d {
    } else if x == 2 * d {
    } else if x < 3 * d {
    } else if x == 3 * d {
    } else {
    }
  }
}
