/** The three edits a user makes on a finished ribbon, as grid functions:
    showing the other input of a knot, changing a knot's kind and re-running both
    of its threads (redo of a kind change), and putting a kind and the two input
    colors back before re-running the threads (undo of a kind change). */
module Edits {
  import opened Wrappers
  import opened Colors
  import opened Knots
  import opened Layout
  import opened Topology
  import opened Propagation
  import opened WalkFacts

  /** `left_thread_vis = v` followed by `set_knot_color` on knot `c`. */
  function SetVisibility(g: Grid, c: Co, v: bool): (r: Grid)
    requires 0 <= c.x < |g| && 0 <= c.y < |g[c.x]|
    ensures |r| == |g| && |r[c.x]| == |g[c.x]|
    ensures r[c.x][c.y].leftVis == v
    ensures r[c.x][c.y].knotColor.Some?
    ensures r[c.x][c.y].knotColor.value ==
      (if v then g[c.x][c.y].colorInLeft else g[c.x][c.y].colorInRight)
    ensures r[c.x][c.y].(leftVis := g[c.x][c.y].leftVis, knotColor := g[c.x][c.y].knotColor) == g[c.x][c.y]
    ensures forall x, y :: 0 <= x < |g| && 0 <= y < |g[x]| && (x != c.x || y != c.y) ==>
      y < |r[x]| && r[x][y] == g[x][y]
  {
    Put(g, c, ShowKnot(g[c.x][c.y].(leftVis := v)))
  }

  /** Toggling twice puts the visibility back; the knot then shows what its
      visibility selects, so a knot that already did is restored exactly. */
  lemma ToggleTwice(g: Grid, c: Co)
    requires 0 <= c.x < |g| && 0 <= c.y < |g[c.x]|
    ensures var v := g[c.x][c.y].leftVis;
      SetVisibility(SetVisibility(g, c, !v), c, v) == Put(g, c, ShowKnot(g[c.x][c.y]))
    ensures var v := g[c.x][c.y].leftVis;
      g[c.x][c.y].knotColor == Some(Display(g[c.x][c.y])) ==> SetVisibility(SetVisibility(g, c, !v), c, v) == g
  {
    var v := g[c.x][c.y].leftVis;
    var k := g[c.x][c.y];
    PutPut(g, c, ShowKnot(k.(leftVis := !v)), ShowKnot(ShowKnot(k.(leftVis := !v)).(leftVis := v)));
    assert ShowKnot(ShowKnot(k.(leftVis := !v)).(leftVis := v)) == ShowKnot(k);
    if k.knotColor == Some(Display(k)) {
      assert ShowKnot(k) == k;
      PutSame(g, c);
    }
  }

  /** Setting the same visibility again changes nothing. */
  lemma SetVisibilityIdempotent(g: Grid, c: Co, v: bool)
    requires 0 <= c.x < |g| && 0 <= c.y < |g[c.x]|
    ensures SetVisibility(SetVisibility(g, c, v), c, v) == SetVisibility(g, c, v)
  {
    var k := g[c.x][c.y];
    PutPut(g, c, ShowKnot(k.(leftVis := v)), ShowKnot(ShowKnot(k.(leftVis := v)).(leftVis := v)));
  }

  /** Replacing one knot by one with the same frame keeps the routing conditions. */
  lemma PutRouted(g: Grid, p: Params, c: Co, k: Knot)
    requires Routed(g, p) && InGrid(c, p.w, p.l) && SameTopology(g[c.x][c.y], k)
    ensures Routed(Put(g, c, k), p) && SameFrame(g, Put(g, c, k), p)
  {
    RoutedFrame(g, Put(g, c, k), p);
  }

  /** Changing the visibility of a knot keeps the links and flags of the grid. */
  lemma SetVisibilityFrame(g: Grid, p: Params, c: Co, v: bool)
    requires Routed(g, p) && InGrid(c, p.w, p.l)
    ensures Routed(SetVisibility(g, c, v), p) && SameFrame(g, SetVisibility(g, c, v), p)
  {
    PutRouted(g, p, c, ShowKnot(g[c.x][c.y].(leftVis := v)));
  }

  /** The two calls `set_thread(color_in_right, RightIn)` and then
      `set_thread(color_in_left, LeftIn)` on knot `c`, each reading the knot's
      input color at the moment of the call. */
  function RunBoth(g: Grid, p: Params, c: Co): (r: Grid)
    requires ValidParams(p) && Routed(g, p) && InGrid(c, p.w, p.l)
    ensures SameWeave(g, r, p) && Routed(r, p)
  {
    var g2: Grid := Walk(g, p, c, RightIn, g[c.x][c.y].colorInRight);
    var r := Walk(g2, p, c, LeftIn, g2[c.x][c.y].colorInLeft);
    SameWeaveTrans(g, g2, r, p);
    r
  }

  /** `ChangeKnotTypeCommand.redo` and the fallback of `change_thread_direction`:
      give knot `c` the kind `kind`, then re-run both of its threads. */
  function Retype(g: Grid, p: Params, c: Co, kind: Kind): (r: Grid)
    requires ValidParams(p) && Routed(g, p) && InGrid(c, p.w, p.l)
    ensures SameWeave(Put(g, c, g[c.x][c.y].(kind := kind)), r, p) && Routed(r, p)
  {
    PutRouted(g, p, c, g[c.x][c.y].(kind := kind));
    RunBoth(Put(g, c, g[c.x][c.y].(kind := kind)), p, c)
  }

  /** `ChangeKnotTypeCommand.undo`: put back the kind and both input colors of
      knot `c`, then re-run its two threads with the saved colors. */
  function Restore(g: Grid, p: Params, c: Co, kind: Kind, inL: Color, inR: Color): (r: Grid)
    requires ValidParams(p) && Routed(g, p) && InGrid(c, p.w, p.l)
    ensures SameWeave(Put(g, c, g[c.x][c.y].(kind := kind, colorInLeft := inL, colorInRight := inR)), r, p)
    ensures Routed(r, p)
  {
    var g1 := Put(g, c, g[c.x][c.y].(kind := kind, colorInLeft := inL, colorInRight := inR));
    PutRouted(g, p, c, g[c.x][c.y].(kind := kind, colorInLeft := inL, colorInRight := inR));
    var g2: Grid := Walk(g1, p, c, RightIn, inR);
    var r := Walk(g2, p, c, LeftIn, inL);
    SameWeaveTrans(g1, g2, r, p);
    r
  }

  /** A thread started at `c` enters `c` only once: by the side it started on. */
  lemma TraceAtStart(g: Grid, p: Params, c: Co, dir: Dir, side: Dir)
    requires ValidParams(p) && Routed(g, p) && InGrid(c, p.w, p.l) && IsIn(dir)
    ensures (c, side) in Trace(g, p, c, dir) <==> side == dir
  {
    var t := Trace(g, p, c, dir);
    if (c, side) in t {
      var i :| 0 <= i < |t| && t[i] == (c, side);
      assert i == 0;
    }
  }

  /** The first walk of `RunBoth` leaves the left input of `c` alone, so both
      walks start with the colors the knot had. */
  lemma RunBothFirstWalk(g: Grid, p: Params, c: Co)
    requires ValidParams(p) && Routed(g, p) && InGrid(c, p.w, p.l)
    ensures Walk(g, p, c, RightIn, g[c.x][c.y].colorInRight)[c.x][c.y] == ShowKnot(g[c.x][c.y])
  {
    WalkAt(g, p, c, RightIn, g[c.x][c.y].colorInRight, c);
    TraceAtStart(g, p, c, RightIn, LeftIn);
    TraceAtStart(g, p, c, RightIn, RightIn);
  }

  /** Re-running the threads of a knot leaves its own inputs as they were. */
  lemma RunBothKeepsInputs(g: Grid, p: Params, c: Co)
    requires ValidParams(p) && Routed(g, p) && InGrid(c, p.w, p.l)
    ensures RunBoth(g, p, c)[c.x][c.y] == ShowKnot(g[c.x][c.y])
  {
    var g2: Grid := Walk(g, p, c, RightIn, g[c.x][c.y].colorInRight);
    RunBothFirstWalk(g, p, c);
    WalkAt(g2, p, c, LeftIn, g2[c.x][c.y].colorInLeft, c);
    TraceAtStart(g2, p, c, LeftIn, LeftIn);
    TraceAtStart(g2, p, c, LeftIn, RightIn);
  }

  /** After a kind change the knot has the new kind, the same input colors, and
      shows its visible input. */
  lemma RetypeKeepsInputs(g: Grid, p: Params, c: Co, kind: Kind)
    requires ValidParams(p) && Routed(g, p) && InGrid(c, p.w, p.l)
    ensures Retype(g, p, c, kind)[c.x][c.y] == ShowKnot(g[c.x][c.y].(kind := kind))
  {
    PutRouted(g, p, c, g[c.x][c.y].(kind := kind));
    RunBothKeepsInputs(Put(g, c, g[c.x][c.y].(kind := kind)), p, c);
  }

  /** Two visits along the same two traces in the same colors, repeated, change nothing more. */
  lemma VisitPairAbsorb(k: Knot, rl: bool, rr: bool, a: Color, ll: bool, lr: bool, b: Color)
    ensures Visit(Visit(Visit(Visit(k, rl, rr, a), ll, lr, b), rl, rr, a), ll, lr, b) ==
            Visit(Visit(k, rl, rr, a), ll, lr, b)
  {
  }

  /** Knot by knot: walking the right thread in `a` and the left thread in `b`
      a second time, along the same traces, changes nothing more. */
  lemma WalkPairTwiceAt(g: Grid, p: Params, c: Co, a: Color, b: Color, q: Co)
    requires ValidParams(p) && Routed(g, p) && InGrid(c, p.w, p.l) && InGrid(q, p.w, p.l)
    ensures var g2 := Walk(g, p, c, RightIn, a);
      var h := Walk(g2, p, c, LeftIn, b);
      var h2 := Walk(h, p, c, RightIn, a);
      Walk(h2, p, c, LeftIn, b)[q.x][q.y] == h[q.x][q.y]
  {
    var g2 := Walk(g, p, c, RightIn, a);
    var h := Walk(g2, p, c, LeftIn, b);
    var h2 := Walk(h, p, c, RightIn, a);
    SameWeaveTrans(g, g2, h, p);
    TraceSameWeave(g, h, p, c, RightIn);
    SameWeaveTrans(g2, h, h2, p);
    TraceSameWeave(g2, h2, p, c, LeftIn);
    var tr := Trace(g, p, c, RightIn);
    var tl := Trace(g2, p, c, LeftIn);
    WalkAt(g, p, c, RightIn, a, q);
    WalkAt(g2, p, c, LeftIn, b, q);
    WalkAt(h, p, c, RightIn, a, q);
    WalkAt(h2, p, c, LeftIn, b, q);
    VisitPairAbsorb(g[q.x][q.y], (q, LeftIn) in tr, (q, RightIn) in tr, a, (q, LeftIn) in tl, (q, RightIn) in tl, b);
  }

  /** Re-running both threads of a knot a second time changes nothing more. */
  lemma RunBothIdempotent(g: Grid, p: Params, c: Co)
    requires ValidParams(p) && Routed(g, p) && InGrid(c, p.w, p.l)
    ensures RunBoth(RunBoth(g, p, c), p, c) == RunBoth(g, p, c)
  {
    var a := g[c.x][c.y].colorInRight;
    var g2: Grid := Walk(g, p, c, RightIn, a);
    var b := g2[c.x][c.y].colorInLeft;
    var h: Grid := Walk(g2, p, c, LeftIn, b);
    RunBothKeepsInputs(g, p, c);
    RunBothFirstWalk(g, p, c);
    assert h[c.x][c.y].colorInRight == a && b == g[c.x][c.y].colorInLeft;
    var h2: Grid := Walk(h, p, c, RightIn, a);
    RunBothFirstWalk(h, p, c);
    assert h2[c.x][c.y].colorInLeft == b;
    var h3: Grid := Walk(h2, p, c, LeftIn, b);
    forall x, y | 0 <= x < p.w && 0 <= y < p.l
      ensures h3[x][y] == h[x][y]
    {
      WalkPairTwiceAt(g, p, c, a, b, Co(x, y));
    }
    GridExt(h3, h, p.w, p.l);
  }

  /** Redoing a kind change a second time changes nothing more. */
  lemma RetypeIdempotent(g: Grid, p: Params, c: Co, kind: Kind)
    requires ValidParams(p) && Routed(g, p) && InGrid(c, p.w, p.l)
    ensures Retype(Retype(g, p, c, kind), p, c, kind) == Retype(g, p, c, kind)
  {
    var g1 := Put(g, c, g[c.x][c.y].(kind := kind));
    PutRouted(g, p, c, g[c.x][c.y].(kind := kind));
    var h: Grid := RunBoth(g1, p, c);
    RunBothKeepsInputs(g1, p, c);
    assert h[c.x][c.y].(kind := kind) == h[c.x][c.y];
    PutSame(h, c);
    RunBothIdempotent(g1, p, c);
  }

  /** Undo is a redo of the saved kind on the knot with its saved input colors put back. */
  lemma RestoreIsRetype(g: Grid, p: Params, c: Co, kind: Kind, inL: Color, inR: Color)
    requires ValidParams(p) && Routed(g, p) && InGrid(c, p.w, p.l)
    ensures Routed(Put(g, c, g[c.x][c.y].(colorInLeft := inL, colorInRight := inR)), p)
    ensures Restore(g, p, c, kind, inL, inR) ==
      Retype(Put(g, c, g[c.x][c.y].(colorInLeft := inL, colorInRight := inR)), p, c, kind)
  {
    var k := g[c.x][c.y].(colorInLeft := inL, colorInRight := inR);
    PutRouted(g, p, c, k);
    var k1 := g[c.x][c.y].(kind := kind, colorInLeft := inL, colorInRight := inR);
    PutPut(g, c, k, k1);
    assert k.(kind := kind) == k1;
    PutRouted(g, p, c, k1);
    RunBothFirstWalk(Put(g, c, k1), p, c);
  }

  /** After an undo the knot has its saved kind and input colors, and shows its visible input. */
  lemma RestoreResetsKnot(g: Grid, p: Params, c: Co, kind: Kind, inL: Color, inR: Color)
    requires ValidParams(p) && Routed(g, p) && InGrid(c, p.w, p.l)
    ensures Restore(g, p, c, kind, inL, inR)[c.x][c.y] ==
      ShowKnot(g[c.x][c.y].(kind := kind, colorInLeft := inL, colorInRight := inR))
  {
    RestoreIsRetype(g, p, c, kind, inL, inR);
    RetypeKeepsInputs(Put(g, c, g[c.x][c.y].(colorInLeft := inL, colorInRight := inR)), p, c, kind);
  }

  /** Same frame, and the same kind and visibility everywhere except perhaps at knot `c`. */
  predicate SameWeaveBut(g: Grid, h: Grid, p: Params, c: Co) {
    SameFrame(g, h, p) &&
    forall x, y :: 0 <= x < p.w && 0 <= y < p.l && (x != c.x || y != c.y) ==>
      g[x][y].kind == h[x][y].kind && g[x][y].leftVis == h[x][y].leftVis
  }

  lemma PutThenWeave(g: Grid, h: Grid, p: Params, c: Co, k: Knot)
    requires Shaped(g, p.w, p.l) && InGrid(c, p.w, p.l) && SameTopology(g[c.x][c.y], k)
    requires SameWeave(Put(g, c, k), h, p)
    ensures SameWeaveBut(g, h, p, c)
  {
  }

  lemma SameWeaveButTrans(g: Grid, h: Grid, f: Grid, p: Params, c: Co)
    requires SameWeaveBut(g, h, p, c) && SameWeaveBut(h, f, p, c)
    ensures SameWeaveBut(g, f, p, c)
  {
  }

  /** Undo right after redo: the knot is back to its kind and input colors, and no
      knot anywhere has a different kind or visibility than before the redo. */
  lemma UndoAfterRedo(g: Grid, p: Params, c: Co, kind: Kind)
    requires ValidParams(p) && Routed(g, p) && InGrid(c, p.w, p.l)
    ensures Routed(Retype(g, p, c, kind), p)
    ensures var k := g[c.x][c.y];
      var u := Restore(Retype(g, p, c, kind), p, c, k.kind, k.colorInLeft, k.colorInRight);
      u[c.x][c.y] == ShowKnot(k) &&
      forall x, y :: 0 <= x < p.w && 0 <= y < p.l ==> u[x][y].kind == g[x][y].kind && u[x][y].leftVis == g[x][y].leftVis
  {
    var k := g[c.x][c.y];
    var h := Retype(g, p, c, kind);
    var u := Restore(h, p, c, k.kind, k.colorInLeft, k.colorInRight);
    UndoAfterRedoKnot(g, p, c, kind);
    PutThenWeave(g, h, p, c, k.(kind := kind));
    PutThenWeave(h, u, p, c, h[c.x][c.y].(kind := k.kind, colorInLeft := k.colorInLeft, colorInRight := k.colorInRight));
    SameWeaveButTrans(g, h, u, p, c);
    assert u[c.x][c.y] == ShowKnot(k);
    forall x, y | 0 <= x < p.w && 0 <= y < p.l
      ensures u[x][y].kind == g[x][y].kind && u[x][y].leftVis == g[x][y].leftVis
    {
      if x == c.x && y == c.y {
        assert u[x][y] == ShowKnot(k);
      }
    }
  }

  lemma UndoAfterRedoKnot(g: Grid, p: Params, c: Co, kind: Kind)
    requires ValidParams(p) && Routed(g, p) && InGrid(c, p.w, p.l)
    ensures Routed(Retype(g, p, c, kind), p)
    ensures var k := g[c.x][c.y];
      Restore(Retype(g, p, c, kind), p, c, k.kind, k.colorInLeft, k.colorInRight)[c.x][c.y] == ShowKnot(k)
  {
    var k := g[c.x][c.y];
    var h := Retype(g, p, c, kind);
    RetypeKeepsInputs(g, p, c, kind);
    RestoreResetsKnot(h, p, c, k.kind, k.colorInLeft, k.colorInRight);
    assert h[c.x][c.y].(kind := k.kind, colorInLeft := k.colorInLeft, colorInRight := k.colorInRight) ==
      k.(knotColor := h[c.x][c.y].knotColor);
  }

  /** Knot by knot: re-running both threads of `c` visits the knots of the right
      thread's trace in the right input color, then those of the left thread's
      trace in the left input color. */
  lemma RunBothAt(g: Grid, p: Params, c: Co, q: Co)
    requires ValidParams(p) && Routed(g, p) && InGrid(c, p.w, p.l) && InGrid(q, p.w, p.l)
    ensures var tr := Trace(g, p, c, RightIn);
      var tl := Trace(g, p, c, LeftIn);
      RunBoth(g, p, c)[q.x][q.y] ==
        Visit(Visit(g[q.x][q.y], (q, LeftIn) in tr, (q, RightIn) in tr, g[c.x][c.y].colorInRight),
              (q, LeftIn) in tl, (q, RightIn) in tl, g[c.x][c.y].colorInLeft)
  {
    var a := g[c.x][c.y].colorInRight;
    var g2: Grid := Walk(g, p, c, RightIn, a);
    RunBothFirstWalk(g, p, c);
    TraceSameWeave(g, g2, p, c, LeftIn);
    WalkAt(g, p, c, RightIn, a, q);
    WalkAt(g2, p, c, LeftIn, g2[c.x][c.y].colorInLeft, q);
  }

  /** Undo re-runs the threads of the knot with its saved kind and inputs put back. */
  lemma RestoreIsRunBoth(g: Grid, p: Params, c: Co, kind: Kind, inL: Color, inR: Color)
    requires ValidParams(p) && Routed(g, p) && InGrid(c, p.w, p.l)
    ensures Routed(Put(g, c, g[c.x][c.y].(kind := kind, colorInLeft := inL, colorInRight := inR)), p)
    ensures Restore(g, p, c, kind, inL, inR) ==
      RunBoth(Put(g, c, g[c.x][c.y].(kind := kind, colorInLeft := inL, colorInRight := inR)), p, c)
  {
    var g1 := Put(g, c, g[c.x][c.y].(kind := kind, colorInLeft := inL, colorInRight := inR));
    PutRouted(g, p, c, g[c.x][c.y].(kind := kind, colorInLeft := inL, colorInRight := inR));
    RunBothFirstWalk(g1, p, c);
  }

  /** A thread starting below knot `c` never comes back to it, so its trace does not
      depend on the kind of `c`. */
  lemma {:induction false} TraceBelowSame(g: Grid, h: Grid, p: Params, c: Co, n: Co, dir: Dir)
    requires ValidParams(p) && Routed(g, p) && Routed(h, p) && SameWeaveBut(g, h, p, c)
    requires InGrid(n, p.w, p.l) && IsIn(dir) && LayoutRow(p, n) > LayoutRow(p, c)
    ensures Trace(g, p, n, dir) == Trace(h, p, n, dir)
    decreases RowBound(p) - LayoutRow(p, n)
  {
    RowRange(p, n);
    HopIgnoresColors(g[n.x][n.y], h[n.x][n.y], dir);
    assert RoutedKnot(p, n, g[n.x][n.y]);
    HopAdvances(p, n, g[n.x][n.y], dir);
    match Hop(g[n.x][n.y], dir)
    case Next(m, md) => TraceBelowSame(g, h, p, c, m, md);
    case _ =>
  }

  /** The other input side. */
  function OtherIn(dir: Dir): Dir {
    if dir == LeftIn then RightIn else LeftIn
  }

  /** A knot of the other kind sends each input on the way the other input took. */
  lemma HopToggled(k: Knot, dir: Dir)
    requires IsIn(dir)
    ensures Hop(k.(kind := Toggled(k.kind)), dir) == Hop(k, OtherIn(dir))
  {
    ToggleSwapsRoutes(k);
  }

  /** After the kind of `c` is switched, the thread entering `c` by one input runs on
      exactly where the thread entering by the other input ran before. */
  lemma TraceToggled(g: Grid, p: Params, c: Co, dir: Dir)
    requires ValidParams(p) && Routed(g, p) && InGrid(c, p.w, p.l) && IsIn(dir)
    ensures var k := g[c.x][c.y];
      Routed(Put(g, c, k.(kind := Toggled(k.kind))), p) &&
      Trace(Put(g, c, k.(kind := Toggled(k.kind))), p, c, dir)[1..] == Trace(g, p, c, OtherIn(dir))[1..]
  {
    var k := g[c.x][c.y];
    var k' := k.(kind := Toggled(k.kind));
    var g1 := Put(g, c, k');
    var other := OtherIn(dir);
    PutRouted(g, p, c, k');
    PutThenWeave(g, g1, p, c, k');
    HopToggled(k, dir);
    RowRange(p, c);
    assert RoutedKnot(p, c, k);
    HopAdvances(p, c, k, other);
    var t1 := Trace(g1, p, c, dir);
    var t := Trace(g, p, c, other);
    match Hop(k, other)
    case Next(n, nd) =>
      assert t1 == [(c, dir)] + Trace(g1, p, n, nd);
      assert t == [(c, other)] + Trace(g, p, n, nd);
      TraceBelowSame(g, g1, p, c, n, nd);
    case Stop =>
      assert t1 == [(c, dir)] && t == [(c, other)];
  }

  /** A settled knot, visited again on the same sides (however the two colors are
      spread over them) and then by its two threads in their order, is itself again. */
  lemma RewalkSameSides(k: Knot, al: bool, ar: bool, a: Color, bl: bool, br: bool, b: Color,
                        rl: bool, rr: bool, sl: bool, sr: bool)
    requires Visit(Visit(k, al, ar, a), bl, br, b) == k
    requires (rl || sl) == (al || bl) && (rr || sr) == (ar || br)
    ensures Visit(Visit(Visit(Visit(k, rl, rr, a), sl, sr, b), al, ar, a), bl, br, b) == k
  {
  }

  /** A trace that starts at `c` meets another knot only after its first entry. */
  lemma InTrace(t: seq<(Co, Dir)>, c: Co, q: Co, side: Dir)
    requires |t| >= 1 && t[0].0 == c && q != c
    ensures (q, side) in t <==> (q, side) in t[1..]
  {
    if (q, side) in t {
      var i :| 0 <= i < |t| && t[i] == (q, side);
      assert t[1..][i - 1] == (q, side);
    }
  }

  /** Past knot `c`, switching the kind of `c` makes its two threads enter the same
      input sides as before, each where the other went. */
  lemma ToggleSameSides(g: Grid, p: Params, c: Co, q: Co, side: Dir)
    requires ValidParams(p) && Routed(g, p) && InGrid(c, p.w, p.l) && q != c
    ensures var g1 := Put(g, c, g[c.x][c.y].(kind := Toggled(g[c.x][c.y].kind)));
      Routed(g1, p) &&
      ((q, side) in Trace(g1, p, c, RightIn) <==> (q, side) in Trace(g, p, c, LeftIn)) &&
      ((q, side) in Trace(g1, p, c, LeftIn) <==> (q, side) in Trace(g, p, c, RightIn))
  {
    var k := g[c.x][c.y];
    var g1 := Put(g, c, k.(kind := Toggled(k.kind)));
    TraceToggled(g, p, c, RightIn);
    TraceToggled(g, p, c, LeftIn);
    InTrace(Trace(g, p, c, RightIn), c, q, side);
    InTrace(Trace(g, p, c, LeftIn), c, q, side);
    InTrace(Trace(g1, p, c, RightIn), c, q, side);
    InTrace(Trace(g1, p, c, LeftIn), c, q, side);
  }

  /** Past knot `c`, a redo enters the same input sides as the two threads of `c` did
      before it, whichever kind it gives `c`. */
  lemma RetypeSameSides(g: Grid, p: Params, c: Co, kind: Kind, q: Co, side: Dir)
    requires ValidParams(p) && Routed(g, p) && InGrid(c, p.w, p.l) && q != c
    ensures var g1 := Put(g, c, g[c.x][c.y].(kind := kind));
      Routed(g1, p) &&
      (((q, side) in Trace(g1, p, c, RightIn) || (q, side) in Trace(g1, p, c, LeftIn)) <==>
       ((q, side) in Trace(g, p, c, RightIn) || (q, side) in Trace(g, p, c, LeftIn)))
  {
    var k := g[c.x][c.y];
    if kind == k.kind {
      assert k.(kind := kind) == k;
      PutSame(g, c);
    } else {
      assert kind == Toggled(k.kind);
      ToggleSameSides(g, p, c, q, side);
    }
  }

  /** Putting back a knot of the old weave at the one place two grids differ gives the old weave. */
  lemma PutBackWeave(g: Grid, h: Grid, p: Params, c: Co, k: Knot)
    requires SameWeaveBut(g, h, p, c) && InGrid(c, p.w, p.l)
    requires SameTopology(g[c.x][c.y], k) && k.kind == g[c.x][c.y].kind && k.leftVis == g[c.x][c.y].leftVis
    ensures SameWeave(g, Put(h, c, k), p)
  {
  }

  /** The two visits `RunBoth` pays knot `q`, written with the sides each trace enters. */
  function RewalkKnot(k: Knot, tr: seq<(Co, Dir)>, tl: seq<(Co, Dir)>, q: Co, a: Color, b: Color): Knot {
    Visit(Visit(k, (q, LeftIn) in tr, (q, RightIn) in tr, a), (q, LeftIn) in tl, (q, RightIn) in tl, b)
  }

  /** Knot by knot, away from `c`: redo with kind `kind` visits the sides the new traces enter. */
  lemma RedoAt(g: Grid, p: Params, c: Co, kind: Kind, q: Co)
    requires ValidParams(p) && Routed(g, p) && InGrid(c, p.w, p.l) && InGrid(q, p.w, p.l) && q != c
    ensures var k := g[c.x][c.y];
      var g1 := Put(g, c, k.(kind := kind));
      Routed(g1, p) &&
      Retype(g, p, c, kind)[q.x][q.y] ==
        RewalkKnot(g[q.x][q.y], Trace(g1, p, c, RightIn), Trace(g1, p, c, LeftIn), q, k.colorInRight, k.colorInLeft)
  {
    var k := g[c.x][c.y];
    PutRouted(g, p, c, k.(kind := kind));
    RunBothAt(Put(g, c, k.(kind := kind)), p, c, q);
  }

  /** Knot by knot, away from `c`: the undo walks the old traces again, in the saved colors. */
  lemma UndoAt(g: Grid, h: Grid, p: Params, c: Co, q: Co)
    requires ValidParams(p) && Routed(g, p) && Routed(h, p) && SameWeaveBut(g, h, p, c)
    requires InGrid(c, p.w, p.l) && InGrid(q, p.w, p.l) && q != c
    requires h[c.x][c.y].leftVis == g[c.x][c.y].leftVis
    ensures var k := g[c.x][c.y];
      Restore(h, p, c, k.kind, k.colorInLeft, k.colorInRight)[q.x][q.y] ==
        RewalkKnot(h[q.x][q.y], Trace(g, p, c, RightIn), Trace(g, p, c, LeftIn), q, k.colorInRight, k.colorInLeft)
  {
    var k := g[c.x][c.y];
    var ku := h[c.x][c.y].(kind := k.kind, colorInLeft := k.colorInLeft, colorInRight := k.colorInRight);
    RestoreIsRunBoth(h, p, c, k.kind, k.colorInLeft, k.colorInRight);
    var u1 := Put(h, c, ku);
    PutBackWeave(g, h, p, c, ku);
    TraceSameWeave(g, u1, p, c, RightIn);
    TraceSameWeave(g, u1, p, c, LeftIn);
    RunBothAt(u1, p, c, q);
  }

  /** Knot by knot, away from `c`: undo after redo on a settled knot `c` gives back
      every knot the two threads of `c` run through. */
  lemma UndoAfterRedoAt(g: Grid, p: Params, c: Co, kind: Kind, q: Co)
    requires ValidParams(p) && Routed(g, p) && InGrid(c, p.w, p.l) && RunBoth(g, p, c) == g
    requires InGrid(q, p.w, p.l) && q != c
    ensures Routed(Retype(g, p, c, kind), p)
    ensures var k := g[c.x][c.y];
      Restore(Retype(g, p, c, kind), p, c, k.kind, k.colorInLeft, k.colorInRight)[q.x][q.y] == g[q.x][q.y]
  {
    var k := g[c.x][c.y];
    var a, b := k.colorInRight, k.colorInLeft;
    var g1: Grid := Put(g, c, k.(kind := kind));
    var h: Grid := Retype(g, p, c, kind);
    PutThenWeave(g, h, p, c, k.(kind := kind));
    RetypeKeepsInputs(g, p, c, kind);
    RedoAt(g, p, c, kind, q);
    UndoAt(g, h, p, c, q);
    RunBothAt(g, p, c, q);
    RetypeSameSides(g, p, c, kind, q, LeftIn);
    RetypeSameSides(g, p, c, kind, q, RightIn);
    var tr, tl := Trace(g, p, c, RightIn), Trace(g, p, c, LeftIn);
    var tr1, tl1 := Trace(g1, p, c, RightIn), Trace(g1, p, c, LeftIn);
    RewalkSameSides(g[q.x][q.y], (q, LeftIn) in tr, (q, RightIn) in tr, a, (q, LeftIn) in tl, (q, RightIn) in tl, b,
                    (q, LeftIn) in tr1, (q, RightIn) in tr1, (q, LeftIn) in tl1, (q, RightIn) in tl1);
  }

  /** Undo right after redo on a grid whose knot `c` is settled (re-running its two
      threads changes nothing) gives back the whole grid: the kind and inputs of `c`,
      and every color the redo rewrote further down. */
  lemma UndoAfterRedoSettled(g: Grid, p: Params, c: Co, kind: Kind)
    requires ValidParams(p) && Routed(g, p) && InGrid(c, p.w, p.l) && RunBoth(g, p, c) == g
    ensures Routed(Retype(g, p, c, kind), p)
    ensures var k := g[c.x][c.y];
      Restore(Retype(g, p, c, kind), p, c, k.kind, k.colorInLeft, k.colorInRight) == g
  {
    var k := g[c.x][c.y];
    var u: Grid := Restore(Retype(g, p, c, kind), p, c, k.kind, k.colorInLeft, k.colorInRight);
    UndoAfterRedoKnot(g, p, c, kind);
    RunBothKeepsInputs(g, p, c);
    forall x, y | 0 <= x < p.w && 0 <= y < p.l
      ensures u[x][y] == g[x][y]
    {
      if Co(x, y) != c {
        UndoAfterRedoAt(g, p, c, kind, Co(x, y));
      }
    }
    GridExt(u, g, p.w, p.l);
  }

  /** A redo or an undo leaves knot `c` settled, so the whole-grid undo above applies to
      every later redo of the same command. */
  lemma EditsSettle(g: Grid, p: Params, c: Co, kind: Kind, inL: Color, inR: Color)
    requires ValidParams(p) && Routed(g, p) && InGrid(c, p.w, p.l)
    ensures Routed(Retype(g, p, c, kind), p) && Routed(Restore(g, p, c, kind, inL, inR), p)
    ensures RunBoth(Retype(g, p, c, kind), p, c) == Retype(g, p, c, kind)
    ensures RunBoth(Restore(g, p, c, kind, inL, inR), p, c) == Restore(g, p, c, kind, inL, inR)
  {
    PutRouted(g, p, c, g[c.x][c.y].(kind := kind));
    RunBothIdempotent(Put(g, c, g[c.x][c.y].(kind := kind)), p, c);
    RestoreIsRunBoth(g, p, c, kind, inL, inR);
    RunBothIdempotent(Put(g, c, g[c.x][c.y].(kind := kind, colorInLeft := inL, colorInRight := inR)), p, c);
  }
}
