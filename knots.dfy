/** The knot record and the grid of knots `K[x][y]` (column x, row y). */
module Knots {
  import opened Wrappers
  import opened Colors

  /** The four thread directions of `Const` (LeftIn, RightIn, LeftOut, RightOut). */
  datatype Dir = LeftIn | RightIn | LeftOut | RightOut

  predicate IsIn(d: Dir) {
    d == LeftIn || d == RightIn
  }

  /** Knot kind: normal (`Nk`) or reverse (`Rk`). */
  datatype Kind = Nk | Rk

  /** `endKtype` of a knot: `undefined` until a builder sets it, then one of the
      four end-knot categories of the last row. */
  datatype EndType = EndUndefined | EndLikeTypeL | EndLikeTypeR | EndBoth | EndNone

  /** A grid coordinate `co = [x, y]`; links between knots are coordinates. */
  datatype Co = Co(x: int, y: int)

  /** One knot. `toL`/`toR` are the links `nKtoL`/`nKtoR` (None while unset). */
  datatype Knot = Knot(
    strtK: bool, endK: bool, edgeKL: bool, edgeKR: bool,
    kind: Kind, endType: EndType, leftVis: bool,
    colorInLeft: Color, colorInRight: Color, knotColor: Option<Color>,
    toL: Option<Co>, toR: Option<Co>)

  /** A knot as `Knot.__init__` creates it. */
  const FreshKnot: Knot :=
    Knot(false, false, false, false, Nk, EndUndefined, true, Lightgrey, Lightgrey, None, None, None)

  /** `K`: a list of `w` columns, each a list of `l` knots. */
  type Grid = seq<seq<Knot>>

  predicate Shaped(g: Grid, w: int, l: int) {
    |g| == w && forall x :: 0 <= x < |g| ==> |g[x]| == l
  }

  predicate InGrid(c: Co, w: int, l: int) {
    0 <= c.x < w && 0 <= c.y < l
  }

  /** The column Python reaches with `K[x - 1]`: a negative index wraps to the last column. */
  function PyPrev(x: int, w: int): int {
    if x == 0 then w - 1 else x - 1
  }

  function At(g: Grid, c: Co): Knot
    requires 0 <= c.x < |g| && 0 <= c.y < |g[c.x]|
  {
    g[c.x][c.y]
  }

  /** The grid with knot `c` replaced by `k`; every other knot is the same. */
  function Put(g: Grid, c: Co, k: Knot): (r: Grid)
    requires 0 <= c.x < |g| && 0 <= c.y < |g[c.x]|
    ensures |r| == |g| && forall x :: 0 <= x < |g| ==> |r[x]| == |g[x]|
    ensures r[c.x][c.y] == k
    ensures forall x, y :: 0 <= x < |g| && 0 <= y < |g[x]| && (x != c.x || y != c.y) ==> r[x][y] == g[x][y]
  {
    g[c.x := g[c.x][c.y := k]]
  }

  /** Writing a knot back unchanged leaves the grid as it was. */
  lemma PutSame(g: Grid, c: Co)
    requires 0 <= c.x < |g| && 0 <= c.y < |g[c.x]|
    ensures Put(g, c, g[c.x][c.y]) == g
  {
    assert g[c.x][c.y := g[c.x][c.y]] == g[c.x];
  }

  /** A second write to the same knot replaces the first. */
  lemma PutPut(g: Grid, c: Co, k1: Knot, k2: Knot)
    requires 0 <= c.x < |g| && 0 <= c.y < |g[c.x]|
    ensures Put(Put(g, c, k1), c, k2) == Put(g, c, k2)
  {
    assert g[c.x][c.y := k1][c.y := k2] == g[c.x][c.y := k2];
  }

  /** Two grids of the same shape are equal when they agree knot by knot. */
  lemma {:induction false} GridExt(g: Grid, h: Grid, w: int, l: int)
    requires Shaped(g, w, l) && Shaped(h, w, l)
    requires forall x, y :: 0 <= x < w && 0 <= y < l ==> g[x][y] == h[x][y]
    ensures g == h
  {
    forall x | 0 <= x < w ensures g[x] == h[x] {
      assert |g[x]| == |h[x]| == l;
    }
  }

  /** The color a knot shows: the left input when the left thread is visible, else the right one. */
  function Display(k: Knot): Color {
    if k.leftVis then k.colorInLeft else k.colorInRight
  }

  /** `Knot.set_knot_color`: the knot color becomes the visible input color. */
  function ShowKnot(k: Knot): (r: Knot)
    ensures r.knotColor == Some(Display(r))
    ensures r.(knotColor := k.knotColor) == k
  {
    k.(knotColor := Some(Display(k)))
  }

  /** Recording `color` on the input side named by `dir` (any direction other than
      LeftIn writes the right input, as `next_direction` does). */
  function Receive(k: Knot, dir: Dir, color: Color): (r: Knot)
    ensures dir == LeftIn ==> r.colorInLeft == color && r.colorInRight == k.colorInRight
    ensures dir != LeftIn ==> r.colorInRight == color && r.colorInLeft == k.colorInLeft
    ensures r.(colorInLeft := k.colorInLeft, colorInRight := k.colorInRight) == k
  {
    if dir == LeftIn then k.(colorInLeft := color) else k.(colorInRight := color)
  }

  /** The other knot kind (`Rk if type == Nk else Nk`). */
  function Toggled(kind: Kind): (r: Kind)
    ensures r != kind
  {
    if kind == Nk then Rk else Nk
  }

  /** The fields the walk routes by and that no edit changes: row/edge flags, end type, links. */
  predicate SameTopology(a: Knot, b: Knot) {
    a.strtK == b.strtK && a.endK == b.endK && a.edgeKL == b.edgeKL && a.edgeKR == b.edgeKR &&
    a.endType == b.endType && a.toL == b.toL && a.toR == b.toR
  }
}
