// What one pass of the two-pass loops of `__init__` and `restore_from_dict`
// (ribbon.py:83-98, 1054-1073) does to the colors, knot by knot, and why a
// second pass over the same grid changes nothing.

module Passes {
  import opened Wrappers
  import opened Colors
  import opened Knots
  import opened Layout
  import opened Topology
  import opened Propagation
  import opened WalkFacts
  import opened Threads

  /** One thread's visit of a knot: whether it enters the left input, whether it
      enters the right input, and the thread's color. */
  datatype Hit = Hit(left: bool, right: bool, color: Color)

  /** A knot after the visits `hs`, in order. */
  function Fold(k: Knot, hs: seq<Hit>): (r: Knot)
    ensures SameTopology(r, k) && r.kind == k.kind && r.leftVis == k.leftVis
    decreases |hs|
  {
    if |hs| == 0 then k
    else
      var h := hs[|hs| - 1];
      Visit(Fold(k, hs[..|hs| - 1]), h.left, h.right, h.color)
  }

  /** The color of the last visit entering the left input, or `d` when none does. */
  function LastLeft(hs: seq<Hit>, d: Color): Color
    decreases |hs|
  {
    if |hs| == 0 then d
    else if hs[|hs| - 1].left then hs[|hs| - 1].color
    else LastLeft(hs[..|hs| - 1], d)
  }

  /** The color of the last visit entering the right input, or `d` when none does. */
  function LastRight(hs: seq<Hit>, d: Color): Color
    decreases |hs|
  {
    if |hs| == 0 then d
    else if hs[|hs| - 1].right then hs[|hs| - 1].color
    else LastRight(hs[..|hs| - 1], d)
  }

  /** Some visit enters the left input. */
  predicate EntersLeft(hs: seq<Hit>)
    decreases |hs|
  {
    |hs| > 0 && (hs[|hs| - 1].left || EntersLeft(hs[..|hs| - 1]))
  }

  /** Some visit enters the right input. */
  predicate EntersRight(hs: seq<Hit>)
    decreases |hs|
  {
    |hs| > 0 && (hs[|hs| - 1].right || EntersRight(hs[..|hs| - 1]))
  }

  /** Once a visit has entered a side, the color the side had before is forgotten. */
  lemma {:induction false} LastSettles(hs: seq<Hit>, d: Color, e: Color)
    ensures EntersLeft(hs) ==> LastLeft(hs, d) == LastLeft(hs, e)
    ensures !EntersLeft(hs) ==> LastLeft(hs, d) == d
    ensures EntersRight(hs) ==> LastRight(hs, d) == LastRight(hs, e)
    ensures !EntersRight(hs) ==> LastRight(hs, d) == d
    decreases |hs|
  {
    if |hs| > 0 {
      LastSettles(hs[..|hs| - 1], d, e);
    }
  }

  /** The visits, summed up: each input side ends with the color of the last visit
      entering it (or keeps its own), a knot some visit entered shows its visible
      input, and a knot no visit entered keeps its knot color. */
  lemma {:induction false} FoldShape(k: Knot, hs: seq<Hit>)
    ensures Fold(k, hs).colorInLeft == LastLeft(hs, k.colorInLeft)
    ensures Fold(k, hs).colorInRight == LastRight(hs, k.colorInRight)
    ensures Fold(k, hs).knotColor ==
      if EntersLeft(hs) || EntersRight(hs) then Some(Display(Fold(k, hs))) else k.knotColor
    decreases |hs|
  {
    if |hs| > 0 {
      FoldShape(k, hs[..|hs| - 1]);
    }
  }

  /** Applying the same visits twice leaves the knot as one round of them did. */
  lemma FoldTwice(k: Knot, hs: seq<Hit>)
    ensures Fold(Fold(k, hs), hs) == Fold(k, hs)
  {
    var r := Fold(k, hs);
    FoldShape(k, hs);
    FoldShape(r, hs);
    LastSettles(hs, k.colorInLeft, r.colorInLeft);
    LastSettles(hs, k.colorInRight, r.colorInRight);
    LastSettles(hs, r.colorInLeft, r.colorInLeft);
  }

  /** Two knots that show the same input and meet the same visits end with the same
      color on every side a visit entered, and show the same color when a visit
      entered the visible side. */
  lemma FoldAgrees(a: Knot, b: Knot, hs: seq<Hit>)
    requires a.leftVis == b.leftVis
    ensures EntersLeft(hs) ==> Fold(a, hs).colorInLeft == Fold(b, hs).colorInLeft
    ensures EntersRight(hs) ==> Fold(a, hs).colorInRight == Fold(b, hs).colorInRight
    ensures (if a.leftVis then EntersLeft(hs) else EntersRight(hs)) ==>
      Fold(a, hs).knotColor == Fold(b, hs).knotColor
  {
    FoldShape(a, hs);
    FoldShape(b, hs);
    LastSettles(hs, a.colorInLeft, b.colorInLeft);
    LastSettles(hs, a.colorInRight, b.colorInRight);
  }

  /** The visits the threads `s` pay knot `q` of grid `g`, in thread order: each
      enters the sides its trace enters, in its own color. */
  function Hits(g: Grid, p: Params, s: seq<StartKnot>, q: Co): (hs: seq<Hit>)
    requires ValidParams(p) && Routed(g, p) && ValidStarts(s, p)
    ensures |hs| == |s|
    decreases |s|
  {
    if |s| == 0 then []
    else
      var t := s[|s| - 1];
      var tr := Trace(g, p, t.at, t.dir);
      Hits(g, p, s[..|s| - 1], q) + [Hit((q, LeftIn) in tr, (q, RightIn) in tr, t.color)]
  }

  /** The visits depend on the weave only, not on the colors already drawn. */
  lemma {:induction false} HitsSameWeave(g: Grid, h: Grid, p: Params, s: seq<StartKnot>, q: Co)
    requires ValidParams(p) && Routed(g, p) && SameWeave(g, h, p) && ValidStarts(s, p)
    ensures Routed(h, p)
    ensures Hits(g, p, s, q) == Hits(h, p, s, q)
    decreases |s|
  {
    RoutedFrame(g, h, p);
    if |s| > 0 {
      var t := s[|s| - 1];
      HitsSameWeave(g, h, p, s[..|s| - 1], q);
      TraceSameWeave(g, h, p, t.at, t.dir);
    }
  }

  /** A pass, knot by knot: every knot meets the visits of the threads in order. */
  lemma {:induction false} PassAt(g: Grid, p: Params, s: seq<StartKnot>, q: Co)
    requires ValidParams(p) && Routed(g, p) && ValidStarts(s, p) && InGrid(q, p.w, p.l)
    ensures Pass(g, p, s)[q.x][q.y] == Fold(g[q.x][q.y], Hits(g, p, s, q))
    decreases |s|
  {
    if |s| > 0 {
      var s' := s[..|s| - 1];
      var t := s[|s| - 1];
      var h := Pass(g, p, s');
      PassAt(g, p, s', q);
      WalkAt(h, p, t.at, t.dir, t.color, q);
      TraceSameWeave(g, h, p, t.at, t.dir);
      var hs := Hits(g, p, s, q);
      assert hs[..|hs| - 1] == Hits(g, p, s', q);
    }
  }

  /** The colors a pass writes: each input side some thread enters holds the color
      of the last thread entering it, every knot a thread enters shows its visible
      input, and the other knots keep their colors. */
  lemma PassColors(g: Grid, p: Params, s: seq<StartKnot>, q: Co)
    requires ValidParams(p) && Routed(g, p) && ValidStarts(s, p) && InGrid(q, p.w, p.l)
    ensures var k, hs := Pass(g, p, s)[q.x][q.y], Hits(g, p, s, q);
      k.colorInLeft == LastLeft(hs, g[q.x][q.y].colorInLeft) &&
      k.colorInRight == LastRight(hs, g[q.x][q.y].colorInRight) &&
      k.knotColor == (if EntersLeft(hs) || EntersRight(hs) then Some(Display(k)) else g[q.x][q.y].knotColor)
  {
    PassAt(g, p, s, q);
    FoldShape(g[q.x][q.y], Hits(g, p, s, q));
  }

  /** A second pass of the same threads over a grid changes nothing: every color
      it writes is already there. */
  lemma PassIdempotent(g: Grid, p: Params, s: seq<StartKnot>)
    requires ValidParams(p) && Routed(g, p) && ValidStarts(s, p)
    ensures Pass(Pass(g, p, s), p, s) == Pass(g, p, s)
  {
    var g1 := Pass(g, p, s);
    forall x, y | 0 <= x < p.w && 0 <= y < p.l
      ensures Pass(g1, p, s)[x][y] == g1[x][y]
    {
      var q := Co(x, y);
      PassAt(g, p, s, q);
      PassAt(g1, p, s, q);
      HitsSameWeave(g, g1, p, s, q);
      FoldTwice(g[x][y], Hits(g, p, s, q));
    }
    GridExt(Pass(g1, p, s), g1, p.w, p.l);
  }

  /** The second of the two passes `__init__` makes draws nothing new: a fresh
      ribbon is the seeded grid after one pass, and a further pass leaves it alone. */
  lemma DrawnSettled(p: Params)
    requires ValidParams(p)
    ensures ValidStarts(StartList(p), p)
    ensures Drawn(p) == Pass(Seeded(p), p, StartList(p))
    ensures Pass(Drawn(p), p, StartList(p)) == Drawn(p)
  {
    StartListValid(p);
    PassIdempotent(Seeded(p), p, StartList(p));
  }
}
