/** The `Ribbon` object: the knot grid `K`, the start thread list and the
    `changed` flag, with the methods that build, draw, edit, save and restore it. */
module Ribbons {
  import opened Wrappers
  import opened Colors
  import opened Knots
  import opened Layout
  import opened Topology
  import opened Propagation
  import opened Threads
  import opened Recipes
  import opened Edits
  import opened Persistence

  /** Flipping the visibility of a knot keeps a grid a ribbon can hold. */
  lemma SetVisibilityGridOk(g: Grid, p: Params, c: Co, v: bool)
    requires GridOk(g, p) && InGrid(c, p.w, p.l)
    ensures GridOk(SetVisibility(g, c, v), p)
  {
    SetVisibilityFrame(g, p, c, v);
    GridOkFrame(g, SetVisibility(g, c, v), p);
  }

  /** Giving a knot another kind and re-running its threads keeps a grid a ribbon can hold. */
  lemma RetypeGridOk(g: Grid, p: Params, c: Co, kind: Kind)
    requires ValidParams(p) && GridOk(g, p) && InGrid(c, p.w, p.l)
    ensures GridOk(Retype(g, p, c, kind), p)
  {
    var k := g[c.x][c.y].(kind := kind);
    PutRouted(g, p, c, k);
    GridOkFrame(g, Put(g, c, k), p);
    GridOkFrame(Put(g, c, k), Retype(g, p, c, kind), p);
  }

  /** Putting back a kind and two input colors and re-running the threads keeps a
      grid a ribbon can hold. */
  lemma RestoreGridOk(g: Grid, p: Params, c: Co, kind: Kind, inL: Color, inR: Color)
    requires ValidParams(p) && GridOk(g, p) && InGrid(c, p.w, p.l)
    ensures GridOk(Restore(g, p, c, kind, inL, inR), p)
  {
    var k := g[c.x][c.y].(kind := kind, colorInLeft := inL, colorInRight := inR);
    PutRouted(g, p, c, k);
    GridOkFrame(g, Put(g, c, k), p);
    GridOkFrame(Put(g, c, k), Restore(g, p, c, kind, inL, inR), p);
  }

  /** Walking a thread keeps a grid a ribbon can hold. */
  lemma WalkGridOk(g: Grid, p: Params, c: Co, dir: Dir, color: Color)
    requires ValidParams(p) && GridOk(g, p) && InGrid(c, p.w, p.l) && IsIn(dir)
    ensures GridOk(Walk(g, p, c, dir, color), p)
  {
    GridOkFrame(g, Walk(g, p, c, dir, color), p);
  }

  /** Reading saved knots back and running both passes keeps a grid a ribbon can hold. */
  lemma ReloadGridOk(g: Grid, p: Params, data: seq<seq<KnotRecord>>, s: seq<StartKnot>)
    requires ValidParams(p) && GridOk(g, p) && ValidStarts(s, p)
    ensures Routed(RestoreKnots(g, p.w, p.l, data), p)
    ensures GridOk(Pass(Pass(RestoreKnots(g, p.w, p.l, data), p, s), p, s), p)
  {
    var h := RestoreKnots(g, p.w, p.l, data);
    RestoreKnotsRouted(g, p, data);
    GridOkFrame(g, h, p);
    GridOkFrame(h, Pass(h, p, s), p);
    GridOkFrame(Pass(h, p, s), Pass(Pass(h, p, s), p, s), p);
  }

  /** A new color for one thread keeps a start list a ribbon can hold. */
  lemma RecolorStartsOk(s: seq<StartKnot>, p: Params, i: int, color: Color)
    requires StartsOk(s, p) && 0 <= i < |s|
    ensures StartsOk(s[i := s[i].(color := color)], p)
  {
  }

  /** Reading saved colors back keeps a start list a ribbon can hold. */
  lemma RestoreColorsStartsOk(s: seq<StartKnot>, p: Params, colors: seq<Color>)
    requires StartsOk(s, p)
    ensures StartsOk(RestoreColors(s, colors), p)
  {
  }

  class Ribbon {
    const fam: Family
    const w: nat
    const l: nat
    var K: Grid
    var starts: seq<StartKnot>
    var changed: bool

    function P(): Params {
      Params(fam, w, l)
    }

    /** The ribbon invariant the edits need: valid sizes, every link leading
        further down the drawing, and one start thread per bar position that the
        walk can run from. That the links, flags and start knots stay those of
        the family builder (`GridOk`, `StartsOk`) follows from each method's
        postcondition and the lemmas above. */
    ghost predicate Valid()
      reads this
    {
      ValidParams(P()) && Routed(K, P()) && |starts| == w + 1 && ValidStarts(starts, P())
    }

    /** `Ribbon.__init__`: the empty ribbon with its edge knots, the family
        builder, the color bar with its start threads, and two passes of every
        thread. */
    constructor (family: Family, width: nat, length: nat)
      requires ValidParams(Params(family, width, length))
      ensures fam == family && w == width && l == length && !changed
      ensures starts == StartList(P())
      ensures K == Drawn(P())
      ensures Valid() && GridOk(K, P()) && StartsOk(starts, P())
    {
      fam, w, l := family, width, length;
      K, starts, changed := [], [], false;
      new;
      BuildGrid();
      DrawThreads();
      StartListValid(P());
    }

    /** The first half of `__init__`: the empty ribbon, its edge knots and the
        family builder `set_type_<family>`. */
    method BuildGrid()
      requires ValidParams(P())
      modifies this
      ensures K == BuiltGrid(P()) && starts == old(starts) && changed == old(changed)
    {
      MakeEmptyRibbon();
      MarkEdges();
      match fam {
        case L => SetTypeL();
        case R => SetTypeR();
        case M => SetTypeM();
        case A => SetTypeA();
        case W => SetTypeW();
      }
      GridExt(K, BuiltGrid(P()), w, l);
    }

    /** The second half of `__init__`: the color bar with its start threads, then
        two passes of every thread. */
    method DrawThreads()
      requires ValidParams(P()) && K == BuiltGrid(P()) && starts == []
      modifies this
      ensures K == Drawn(P()) && starts == StartList(P()) && changed == old(changed)
    {
      DrawColorBar();
      assert starts == StartList(P());
      assert K == Seeded(P());
      StartListValid(P());
      RunPass();
      RunPass();
    }

    /** Every knot `K[x][y]` as the empty ribbon has it before a family builder runs. */
    ghost predicate Blank()
      reads this
    {
      Shaped(K, w, l) &&
      forall x, y :: 0 <= x < w && 0 <= y < l ==> K[x][y] == BlankKnot(x, y, w, l)
    }

    /** Every knot as the family builder leaves it. */
    ghost predicate Built()
      reads this
    {
      Shaped(K, w, l) &&
      forall x, y :: 0 <= x < w && 0 <= y < l ==> K[x][y] == BuiltKnot(P(), x, y)
    }

    /** Apply `f` to every knot of columns `xs .. xe - 1` and rows `ys .. ye - 1`
        (the nested `for y ... for x ...` loops of the builders). */
    method UpdateBlock(xs: int, xe: int, ys: int, ye: int, f: (Knot, Co) -> Knot)
      requires Shaped(K, w, l) && 0 <= xs <= xe <= w && 0 <= ys <= ye <= l
      modifies this
      ensures Shaped(K, w, l) && starts == old(starts) && changed == old(changed)
      ensures forall x, y :: 0 <= x < w && 0 <= y < l ==>
        K[x][y] == if xs <= x < xe && ys <= y < ye then f(old(K)[x][y], Co(x, y)) else old(K)[x][y]
    {
      var y := ys;
      while y < ye
        invariant ys <= y <= ye && Shaped(K, w, l) && starts == old(starts) && changed == old(changed)
        invariant forall x, y' :: 0 <= x < w && 0 <= y' < l ==>
          K[x][y'] == if xs <= x < xe && ys <= y' < y then f(old(K)[x][y'], Co(x, y')) else old(K)[x][y']
      {
        var x := xs;
        while x < xe
          invariant xs <= x <= xe && Shaped(K, w, l) && starts == old(starts) && changed == old(changed)
          invariant forall x', y' :: 0 <= x' < w && 0 <= y' < l ==>
            K[x'][y'] == if xs <= x' < xe && (ys <= y' < y || (y' == y && x' < x))
                         then f(old(K)[x'][y'], Co(x', y')) else old(K)[x'][y']
        {
          K := Put(K, Co(x, y), f(K[x][y], Co(x, y)));
          x := x + 1;
        }
        y := y + 1;
      }
    }

    /** `make_empty_ribbon`: `w` columns of `l` fresh knots, row 0 marked as start
        knots and row `l - 1` as end knots. */
    method MakeEmptyRibbon()
      requires w >= 1 && l >= 1
      modifies this
      ensures Shaped(K, w, l) && starts == old(starts) && changed == old(changed)
      ensures forall x, y :: 0 <= x < w && 0 <= y < l ==>
        K[x][y] == FreshKnot.(strtK := y == 0, endK := y == l - 1)
    {
      K := seq(w, x => seq(l, y => FreshKnot));
      UpdateBlock(0, w, 0, 1, (k: Knot, c: Co) => k.(strtK := true));
      UpdateBlock(0, w, l - 1, l, (k: Knot, c: Co) => k.(endK := true));
    }

    /** The two edge loops of the constructor: column 0 holds left edge knots,
        column `w - 1` right edge knots. */
    method MarkEdges()
      requires w >= 1 && Shaped(K, w, l)
      requires forall x, y :: 0 <= x < w && 0 <= y < l ==>
        K[x][y] == FreshKnot.(strtK := y == 0, endK := y == l - 1)
      modifies this
      ensures Blank() && starts == old(starts) && changed == old(changed)
    {
      UpdateBlock(0, 1, 0, l, (k: Knot, c: Co) => k.(edgeKL := true));
      UpdateBlock(w - 1, w, 0, l, (k: Knot, c: Co) => k.(edgeKR := true));
    }

    /** `make_knot_links`: link the inner knots of columns `start .. stop - 1`,
        running like type L (`likeTypeL`) or like type R. */
    method MakeKnotLinks(likeTypeL: bool, start: int, stop: int)
      requires Shaped(K, w, l) && 0 <= start <= stop <= w
      modifies this
      ensures Shaped(K, w, l) && starts == old(starts) && changed == old(changed)
      ensures forall x, y :: 0 <= x < w && 0 <= y < l ==>
        K[x][y] == Links(likeTypeL, start, stop, old(K)[x][y], Co(x, y), w)
    {
      var width := w;
      UpdateBlock(start, stop, 0, l, (k: Knot, c: Co) => LinkRule(likeTypeL, k, c, width));
    }

    /** `fix_middle_knot_links`: relink the inner knots of one middle column. */
    method FixMiddleKnotLinks(seam: Seam, column: int)
      requires Shaped(K, w, l) && 0 <= column < w
      modifies this
      ensures Shaped(K, w, l) && starts == old(starts) && changed == old(changed)
      ensures forall x, y :: 0 <= x < w && 0 <= y < l ==>
        K[x][y] == MiddleLinks(seam, column, old(K)[x][y], Co(x, y), w)
    {
      var width := w;
      UpdateBlock(column, column + 1, 0, l, (k: Knot, c: Co) => MiddleRule(seam, k, c, width));
    }

    /** `set_end_knots`: give the end knots of columns `start .. stop - 1` their end type and side link. */
    method SetEndKnots(likeTypeL: bool, start: int, stop: int)
      requires Shaped(K, w, l) && l >= 1 && 0 <= start <= stop <= w
      modifies this
      ensures Shaped(K, w, l) && starts == old(starts) && changed == old(changed)
      ensures forall x, y :: 0 <= x < w && 0 <= y < l ==>
        K[x][y] == Ends(likeTypeL, start, stop, old(K)[x][y], Co(x, y), w, l)
    {
      var width := w;
      UpdateBlock(start, stop, l - 1, l, (k: Knot, c: Co) => EndRule(likeTypeL, k, c, width));
    }

    /** `K[column][l - 1].endKtype = e`: a direct end type assignment of the W and A builders. */
    method SetEndType(column: int, e: EndType)
      requires Shaped(K, w, l) && l >= 1 && 0 <= column < w
      modifies this
      ensures Shaped(K, w, l) && starts == old(starts) && changed == old(changed)
      ensures forall x, y :: 0 <= x < w && 0 <= y < l ==>
        K[x][y] == EndTypeAt(column, e, old(K)[x][y], Co(x, y), l)
    {
      K := Put(K, Co(column, l - 1), K[column][l - 1].(endType := e));
    }

    /** `toggle_type`: every knot of the column switches between Nk and Rk. */
    method ToggleType(column: int)
      requires Shaped(K, w, l) && 0 <= column < w
      modifies this
      ensures Shaped(K, w, l) && starts == old(starts) && changed == old(changed)
      ensures forall x, y :: 0 <= x < w && 0 <= y < l ==>
        K[x][y] == if x == column then old(K)[x][y].(kind := Toggled(old(K)[x][y].kind)) else old(K)[x][y]
    {
      UpdateBlock(column, column + 1, 0, l, (k: Knot, c: Co) => k.(kind := Toggled(k.kind)));
    }

    /** `set_type`: every knot of the column gets the kind `kind`. */
    method SetType(column: int, kind: Kind)
      requires Shaped(K, w, l) && 0 <= column < w
      modifies this
      ensures Shaped(K, w, l) && starts == old(starts) && changed == old(changed)
      ensures forall x, y :: 0 <= x < w && 0 <= y < l ==>
        K[x][y] == KindAt(column, kind, old(K)[x][y], Co(x, y))
    {
      UpdateBlock(column, column + 1, 0, l, (k: Knot, c: Co) => k.(kind := kind));
    }

    /** `set_visible`: the knots of columns `start .. stop - 1` show their left
        input (`LeftThrdVis`, `leftVisible`) or their right input (`RightThrdVis`). */
    method SetVisible(start: int, stop: int, leftVisible: bool)
      requires Shaped(K, w, l) && 0 <= start <= stop <= w
      modifies this
      ensures Shaped(K, w, l) && starts == old(starts) && changed == old(changed)
      ensures forall x, y :: 0 <= x < w && 0 <= y < l ==>
        K[x][y] == Visible(start, stop, leftVisible, old(K)[x][y], Co(x, y))
    {
      UpdateBlock(start, stop, 0, l, (k: Knot, c: Co) => k.(leftVis := leftVisible));
    }

    /** `set_type_L`: every column runs like type L and shows its left input. */
    method SetTypeL()
      requires fam == L && ValidParams(P()) && Blank()
      modifies this
      ensures Built() && starts == old(starts) && changed == old(changed)
    {
      MakeKnotLinks(true, 0, w);
      SetVisible(0, w, true);
      SetEndKnots(true, 0, w - 1);
      forall x, y | 0 <= x < w && 0 <= y < l ensures K[x][y] == BuiltKnot(P(), x, y) {
        BuildsL(P(), x, y);
      }
    }

    /** `set_type_R`: every column runs like type R and shows its right input. */
    method SetTypeR()
      requires fam == R && ValidParams(P()) && Blank()
      modifies this
      ensures Built() && starts == old(starts) && changed == old(changed)
    {
      MakeKnotLinks(false, 0, w);
      SetVisible(0, w, false);
      SetEndKnots(false, 1, w);
      forall x, y | 0 <= x < w && 0 <= y < l ensures K[x][y] == BuiltKnot(P(), x, y) {
        BuildsR(P(), x, y);
      }
    }

    /** `set_type_M`: like type L left of the middle column, like type R right
        of it, reverse knots joining the halves in the middle column. */
    method SetTypeM()
      requires fam == M && ValidParams(P()) && Blank()
      modifies this
      ensures Built() && starts == old(starts) && changed == old(changed)
    {
      var mid := w / 2;
      MakeKnotLinks(true, 0, mid);
      MakeKnotLinks(false, mid + 1, w);
      SetType(mid, Rk);
      SetVisible(mid + 1, w, false);
      FixMiddleKnotLinks(SeamM, mid);
      SetEndKnots(true, 0, mid);
      SetEndKnots(false, mid + 1, w);
      forall x, y | 0 <= x < w && 0 <= y < l ensures K[x][y] == BuiltKnot(P(), x, y) {
        BuildsM(P(), x, y);
      }
    }

    /** `set_type_A`: like type R left of the middle column, like type L right
        of it, the middle end knot linked both ways. */
    method SetTypeA()
      requires fam == A && ValidParams(P()) && Blank()
      modifies this
      ensures Built() && starts == old(starts) && changed == old(changed)
    {
      var mid := w / 2;
      MakeKnotLinks(false, 0, mid);
      MakeKnotLinks(true, mid + 1, w);
      SetType(mid, Rk);
      SetVisible(0, mid, false);
      FixMiddleKnotLinks(SeamA, mid);
      SetEndKnots(false, 1, mid + 1);
      SetEndKnots(true, mid, w - 1);
      SetEndType(mid, EndBoth);
      forall x, y | 0 <= x < w && 0 <= y < l ensures K[x][y] == BuiltKnot(P(), x, y) {
        BuildsA(P(), x, y);
      }
    }

    /** `set_type_W`: four slopes of width `d = w / 4` (L, R, L, R) joined by
        reverse knot columns at `d` (like M), `2d` (like A) and `3d` (like M).
        Its calls run in three groups below. */
    method SetTypeW()
      requires fam == W && ValidParams(P()) && Blank()
      modifies this
      ensures Built() && starts == old(starts) && changed == old(changed)
    {
      ghost var K0 := K;
      SetTypeWLinks();
      ghost var K1 := K;
      SetTypeWVisibility();
      ghost var K2 := K;
      SetTypeWEnds();
      forall x, y | 0 <= x < w && 0 <= y < l ensures K[x][y] == BuiltKnot(P(), x, y) {
        assert K1[x][y] == WLinksAndKinds(P(), K0[x][y], Co(x, y));
        assert K2[x][y] == WVisibleAndMiddles(P(), K1[x][y], Co(x, y));
        BuildsW(P(), x, y);
      }
    }

    /** The first group of `set_type_W`: the four slopes' links and the three reverse columns. */
    method SetTypeWLinks()
      requires fam == W && ValidParams(P()) && Shaped(K, w, l)
      modifies this
      ensures Shaped(K, w, l) && starts == old(starts) && changed == old(changed)
      ensures forall x, y :: 0 <= x < w && 0 <= y < l ==> K[x][y] == WLinksAndKinds(P(), old(K)[x][y], Co(x, y))
    {
      var d := w / 4;
      var x0, x1, x2, x3, x4 := 0, d, 2 * d, 3 * d, 4 * d;
      assert w == x4 + 1;
      MakeKnotLinks(true, x0, x1 + 1);
      MakeKnotLinks(false, x1, x2 + 1);
      MakeKnotLinks(true, x2, x3 + 1);
      MakeKnotLinks(false, x3, x4 + 1);
      SetType(x1, Rk);
      SetType(x2, Rk);
      SetType(x3, Rk);
    }

    /** The second group of `set_type_W`: visible inputs and the three middle columns' links. */
    method SetTypeWVisibility()
      requires fam == W && ValidParams(P()) && Shaped(K, w, l)
      modifies this
      ensures Shaped(K, w, l) && starts == old(starts) && changed == old(changed)
      ensures forall x, y :: 0 <= x < w && 0 <= y < l ==> K[x][y] == WVisibleAndMiddles(P(), old(K)[x][y], Co(x, y))
    {
      var d := w / 4;
      var x0, x1, x2, x3, x4 := 0, d, 2 * d, 3 * d, 4 * d;
      assert w == x4 + 1;
      SetVisible(x0, x1 + 1, true);
      SetVisible(x1, x2 + 1, false);
      SetVisible(x2, x3, true);
      SetVisible(x3 + 1, x4 + 1, false);
      FixMiddleKnotLinks(SeamM, x1);
      FixMiddleKnotLinks(SeamA, x2);
      FixMiddleKnotLinks(SeamM, x3);
    }

    /** The last group of `set_type_W`: end types and the end knots' links. */
    method SetTypeWEnds()
      requires fam == W && ValidParams(P()) && Shaped(K, w, l)
      modifies this
      ensures Shaped(K, w, l) && starts == old(starts) && changed == old(changed)
      ensures forall x, y :: 0 <= x < w && 0 <= y < l ==>
        K[x][y] == WEndsRight(P(), WEndsLeft(P(), old(K)[x][y], Co(x, y)), Co(x, y))
    {
      var d := w / 4;
      var x0, x1, x2, x3, x4 := 0, d, 2 * d, 3 * d, 4 * d;
      assert w == x4 + 1;
      SetEndType(x1, EndNone);
      SetEndKnots(true, x0, x1);
      SetEndKnots(false, x1 + 1, x2 + 1);
      SetEndKnots(true, x2, x3);
      SetEndType(x2, EndBoth);
      SetEndType(x3, EndNone);
      SetEndKnots(false, x3 + 1, x4 + 1);
    }

    // -------------------------------------------------------------------------
    // Color bar and start threads
    // -------------------------------------------------------------------------

    /** The `colors` list `draw_color_bar` fills, one color per thread. */
    method BarColors() returns (colors: seq<Color>)
      requires ValidParams(P())
      ensures |colors| == w + 1
      ensures forall i :: 0 <= i <= w ==> colors[i] == BarColor(P(), i)
    {
      colors := [];
      match fam
      case L =>
        colors := CycleColors();
      case R =>
        colors := CycleColors();
      case M =>
        colors := MirrorColors();
      case A =>
        colors := MirrorColors();
      case W =>
        colors := WColors();
    }

    /** The L and R bar: the palette in order, `w + 1` times. */
    method CycleColors() returns (colors: seq<Color>)
      requires ValidParams(P()) && (fam == L || fam == R)
      ensures |colors| == w + 1
      ensures forall i :: 0 <= i <= w ==> colors[i] == BarColor(P(), i)
    {
      colors := [];
      var j := 0;
      for i := 0 to w + 1
        invariant |colors| == i && j == i
        invariant forall k :: 0 <= k < i ==> colors[k] == BarColor(P(), k)
      {
        colors := colors + [PaletteColor(j)];
        j := j + 1;
      }
    }

    /** The M and A bar: counting up to the middle thread, then down again. */
    method MirrorColors() returns (colors: seq<Color>)
      requires ValidParams(P()) && (fam == M || fam == A)
      ensures |colors| == w + 1
      ensures forall i :: 0 <= i <= w ==> colors[i] == BarColor(P(), i)
    {
      var mid := w / 2;
      colors := [];
      var j := 0;
      for i := 0 to mid + 1
        invariant |colors| == i && j == i
        invariant forall k :: 0 <= k < i ==> colors[k] == BarColor(P(), k)
      {
        colors := colors + [PaletteColor(j)];
        j := j + 1;
      }
      j := mid;
      // `for i in range(w + 1, mid + 1, -1)` runs `w - mid` times; `n` counts them.
      for n := 0 to w - mid
        invariant |colors| == mid + 1 + n && j == mid - n
        invariant forall k :: 0 <= k < mid + 1 + n ==> colors[k] == BarColor(P(), k)
      {
        colors := colors + [PaletteColor(j)];
        j := j - 1;
      }
    }

    /** The W bar: a repeat pattern of `d + 1` colors run up, down, up from its
        third entry, and down. */
    method WColors() returns (colors: seq<Color>)
      requires ValidParams(P()) && fam == W
      ensures |colors| == w + 1
      ensures forall i :: 0 <= i <= w ==> colors[i] == BarColor(P(), i)
    {
      var d := w / 4;
      var x1, x2, x3, x4 := d, 2 * d, 3 * d, 4 * d;
      assert w == x4 + 1;
      var pattern := [PaletteColor(0), PaletteColor(0)];
      for i := 1 to d
        invariant |pattern| == i + 1
        invariant forall k :: 0 <= k < |pattern| ==> pattern[k] == WPattern(k)
      {
        pattern := pattern + [PaletteColor(i)];
      }
      colors := [];
      for i := 0 to x1 + 1
        invariant |colors| == i
        invariant forall k :: 0 <= k < i ==> colors[k] == BarColor(P(), k)
      {
        colors := colors + [pattern[i]];
      }
      var j := d;
      for i := x1 + 1 to x2 + 2
        invariant |colors| == i && j == x2 + 1 - i
        invariant forall k :: 0 <= k < i ==> colors[k] == BarColor(P(), k)
      {
        colors := colors + [pattern[j]];
        j := j - 1;
      }
      j := 2;
      for i := x2 + 2 to x3 + 1
        invariant |colors| == i && j == i - x2
        invariant forall k :: 0 <= k < i ==> colors[k] == BarColor(P(), k)
      {
        colors := colors + [pattern[j]];
        j := j + 1;
      }
      j := d;
      for i := x3 + 1 to x4 + 2
        invariant |colors| == i && j == x4 + 1 - i
        invariant forall k :: 0 <= k < i ==> colors[k] == BarColor(P(), k)
      {
        colors := colors + [pattern[j]];
        j := j - 1;
      }
    }

    /** `get_start_knot(i, fill)`: the start knot and input side of thread `i`,
        pre-setting the thread color on the input side `get_start_knot` sets. */
    method GetStartKnot(i: int, fill: Color) returns (at: Co, dir: Dir)
      requires ValidParams(P()) && Shaped(K, w, l) && 0 <= i <= w
      modifies this
      ensures (at, dir) == StartEntry(P(), i)
      ensures K == ApplySeed(old(K), Seed(P(), i), fill)
      ensures starts == old(starts) && changed == old(changed)
    {
      StartEntryOnTopRow(P(), i);
      at, dir := StartEntry(P(), i).0, StartEntry(P(), i).1;
      match Seed(P(), i)
      case None =>
      case Some((c, side)) =>
        K := Put(K, c, Receive(K[c.x][c.y], side, fill));
    }

    /** One round of the `draw_color_bar` loop: find thread `i`'s start knot
        (pre-setting its color there) and append the thread to the start list.
        `K0` and `s0` are the grid and the start list before the loop. */
    method AddStartThread(i: int, fill: Color, ghost K0: Grid, ghost s0: seq<StartKnot>)
      requires ValidParams(P()) && Shaped(K0, w, l) && 0 <= i <= w && fill == BarColor(P(), i)
      requires K == SeedAll(K0, SeedList(P())[..i]) && starts == s0 + StartList(P())[..i]
      modifies this
      ensures K == SeedAll(K0, SeedList(P())[..i + 1]) && starts == s0 + StartList(P())[..i + 1]
      ensures changed == old(changed)
    {
      SeedPrefixStep(K0, P(), i);
      StartListPrefix(P(), i);
      var at, dir := GetStartKnot(i, fill);
      starts := starts + [StartKnot(fill, at, dir)];
    }

    /** `draw_color_bar`: one start thread per bar color appended to the start
        list, each pre-setting its color on its start knot. */
    method DrawColorBar()
      requires ValidParams(P()) && Shaped(K, w, l)
      modifies this
      ensures starts == old(starts) + StartList(P())
      ensures K == SeedAll(old(K), SeedList(P()))
      ensures changed == old(changed)
    {
      var colors := BarColors();
      ghost var K0, s0 := K, starts;
      for i := 0 to w + 1
        invariant changed == old(changed)
        invariant starts == s0 + StartList(P())[..i]
        invariant K == SeedAll(K0, SeedList(P())[..i])
      {
        AddStartThread(i, colors[i], K0, s0);
      }
      assert StartList(P())[..w + 1] == StartList(P());
      assert SeedList(P())[..w + 1] == SeedList(P());
    }

    // -------------------------------------------------------------------------
    // Thread propagation
    // -------------------------------------------------------------------------

    /** `Knot.set_thread` on knot `c`: let the knot take the thread, then go on
        from the knot it names until an end knot stops the thread. */
    method SetThread(c: Co, dir: Dir, color: Color)
      requires ValidParams(P()) && Routed(K, P()) && InGrid(c, w, l) && IsIn(dir)
      modifies this
      ensures K == Walk(old(K), P(), c, dir, color)
      ensures starts == old(starts) && changed == old(changed)
      decreases RowBound(P()) - LayoutRow(P(), c)
    {
      RowRange(P(), c);
      var h := NextDirection(c, dir, color);
      if h.Next? {
        SetThread(h.at, h.dir, color);
      }
    }

    /** Assigning the kind or the input colors of knot `c`: the knot becomes `k`,
        which has the same links and flags. */
    method ReplaceKnot(c: Co, k: Knot)
      requires Valid() && InGrid(c, w, l) && SameTopology(K[c.x][c.y], k)
      modifies this
      ensures K == Put(old(K), c, k)
      ensures starts == old(starts) && changed == old(changed) && Valid()
    {
      PutRouted(K, P(), c, k);
      K := Put(K, c, k);
    }

    /** `set_thread(color_in_right, RightIn)` then `set_thread(color_in_left,
        LeftIn)` on knot `c`, each reading the knot's input color at the call. */
    method RunBothThreads(c: Co)
      requires Valid() && InGrid(c, w, l)
      modifies this
      ensures K == RunBoth(old(K), P(), c)
      ensures starts == old(starts) && changed == old(changed) && Valid()
    {
      SetThread(c, RightIn, K[c.x][c.y].colorInRight);
      SetThread(c, LeftIn, K[c.x][c.y].colorInLeft);
    }

    /** `Knot.next_direction` on knot `c`: record the color entering by `dir`, show
        the visible input, pre-set the next inner knot's input side, and name the
        next knot and side (or stop at an end knot). */
    method NextDirection(c: Co, dir: Dir, color: Color) returns (h: Outcome)
      requires ValidParams(P()) && Routed(K, P()) && InGrid(c, w, l) && IsIn(dir)
      modifies this
      ensures K == StepGrid(old(K), P(), c, dir, color) && Routed(K, P())
      ensures h == Hop(old(K)[c.x][c.y], dir) && !h.Fault?
      ensures h.Next? ==> InGrid(h.at, w, l) && LayoutRow(P(), h.at) > LayoutRow(P(), c) && IsIn(h.dir)
      ensures starts == old(starts) && changed == old(changed)
    {
      assert RoutedKnot(P(), c, K[c.x][c.y]);
      var k := Record(K[c.x][c.y], dir, color);
      HopIgnoresColors(k, K[c.x][c.y], dir);
      HopAdvances(P(), c, k, dir);
      K := Put(K, c, k);
      h := Hop(k, dir);
      if h.Next? && !k.endK {
        K := Put(K, h.at, Receive(K[h.at.x][h.at.y], h.dir, color));
      }
    }

    /** One pass over the start list: every thread, in list order, from its start knot. */
    method RunPass()
      requires ValidParams(P()) && Routed(K, P()) && ValidStarts(starts, P())
      modifies this
      ensures starts == old(starts) && changed == old(changed)
      ensures K == Pass(old(K), P(), starts)
    {
      for i := 0 to |starts|
        invariant Routed(K, P()) && starts == old(starts) && changed == old(changed)
        invariant K == Pass(old(K), P(), starts[..i])
      {
        assert starts[..i + 1][..i] == starts[..i];
        var cs := starts[i];
        SetThread(cs.at, cs.dir, cs.color);
      }
      assert starts[..|starts|] == starts;
    }
  
    /** `toggle_knot_color` without an undo stack: mark the ribbon changed, flip
        which input knot `c` shows, and show it. */
    method ToggleKnotColor(c: Co)
      requires Valid() && InGrid(c, w, l)
      modifies this
      ensures K == SetVisibility(old(K), c, !old(K)[c.x][c.y].leftVis)
      ensures starts == old(starts) && changed
      ensures Valid()
    {
      changed := true;
      SetVisibilityFrame(K, P(), c, !K[c.x][c.y].leftVis);
      K := SetVisibility(K, c, !K[c.x][c.y].leftVis);
    }

    /** `change_thread_direction` without an undo stack: mark the ribbon changed,
        switch knot `c` between normal and reverse, and re-run its right and then
        its left input thread. */
    method ChangeThreadDirection(c: Co)
      requires Valid() && InGrid(c, w, l)
      modifies this
      ensures K == Retype(old(K), P(), c, Toggled(old(K)[c.x][c.y].kind))
      ensures starts == old(starts) && changed
      ensures Valid()
    {
      changed := true;
      var kind := if K[c.x][c.y].kind == Nk then Rk else Nk;
      ReplaceKnot(c, K[c.x][c.y].(kind := kind));
      RunBothThreads(c);
    }

    /** `select_new_color` without an undo stack: a cancelled color dialog
        (`None`) changes nothing; otherwise the ribbon is marked changed and
        thread `i` is recolored. */
    method SelectNewColor(i: int, choice: Option<Color>)
      requires Valid() && 0 <= i < |starts|
      modifies this
      ensures choice.None? ==> K == old(K) && starts == old(starts) && changed == old(changed)
      ensures choice.Some? ==> changed && starts == old(starts)[i := old(starts)[i].(color := choice.value)]
      ensures choice.Some? ==> K == Walk(old(K), P(), old(starts)[i].at, old(starts)[i].dir, choice.value)
      ensures Valid()
    {
      if choice.None? {
        return;
      }
      changed := true;
      starts := starts[i := starts[i].(color := choice.value)];
      SetThread(starts[i].at, starts[i].dir, choice.value);
    }

    /** `to_dict`: the header, the color of every start thread and the type name
        and visibility flag of every knot. Reading the file back into this ribbon
        gives back its start list and its grid. */
    function ToDict(): (d: Saved)
      reads this
      requires Shaped(K, w, l)
      ensures FamilyOf(d.header.family) == Some(fam) && d.header.width == w && d.header.length == l
      ensures d.threadColors.Some? && d.knots.Some?
      ensures RestoreColors(starts, d.threadColors.value) == starts
      ensures RestoreKnots(K, w, l, d.knots.value) == K
    {
      FamilyNameRoundTrip(fam);
      SaveRestoreColors(starts, starts);
      SaveRestoreKnots(K, K, w, l);
      GridExt(RestoreKnots(K, w, l, SaveKnots(K, w, l)), K, w, l);
      Saved(Header(w, l, FamilyName(fam)), Some(SaveColors(starts)), Some(SaveKnots(K, w, l)))
    }

    /** `extract_KnPar`: column by column, the coordinate, visibility, type and
        end flag of every knot. */
    method ExtractKnPar() returns (all: seq<seq<KnPar>>)
      requires Shaped(K, w, l)
      ensures |all| == w && forall x :: 0 <= x < w ==> |all[x]| == l
      ensures forall x, y :: 0 <= x < w && 0 <= y < l ==>
        all[x][y].at == Co(x, y) && all[x][y].leftVis == K[x][y].leftVis &&
        all[x][y].kind == K[x][y].kind && all[x][y].endK == K[x][y].endK
    {
      all := [];
      for x := 0 to w
        invariant |all| == x && forall x' :: 0 <= x' < x ==> |all[x']| == l
        invariant forall x', y :: 0 <= x' < x && 0 <= y < l ==>
          all[x'][y] == KnPar(Co(x', y), K[x'][y].leftVis, K[x'][y].kind, K[x'][y].endK)
      {
        var column := [];
        for y := 0 to l
          invariant |column| == y
          invariant forall y' :: 0 <= y' < y ==>
            column[y'] == KnPar(Co(x, y'), K[x][y'].leftVis, K[x][y'].kind, K[x][y'].endK)
        {
          column := column + [KnPar(Co(x, y), K[x][y].leftVis, K[x][y].kind, K[x][y].endK)];
        }
        all := all + [column];
      }
    }

    /** `restore_from_dict`: the saved thread colors go to the start list (as many
        as both have), the saved type and visibility go to every knot the saved
        columns reach, and every thread then runs twice. */
    method RestoreFromDict(data: Saved)
      requires Valid()
      modifies this
      ensures starts == RestoreColors(old(starts), data.threadColors.GetOr([]))
      ensures K == Pass(Pass(RestoreKnots(old(K), w, l, data.knots.GetOr([])), P(), starts), P(), starts)
      ensures changed == old(changed) && Valid()
    {
      RestoreColorsLoop(data.threadColors.GetOr([]));
      RestoreKnotsLoop(data.knots.GetOr([]));
      RestoreKnotsRouted(old(K), P(), data.knots.GetOr([]));
      RunPass();
      RunPass();
    }

    /** The color loop of `restore_from_dict`. */
    method RestoreColorsLoop(colors: seq<Color>)
      requires Valid()
      modifies this
      ensures starts == RestoreColors(old(starts), colors)
      ensures K == old(K) && changed == old(changed) && Valid()
    {
      for i := 0 to |colors|
        invariant starts == RestoreColors(old(starts), colors[..i])
        invariant K == old(K) && changed == old(changed) && Valid()
      {
        if i < |starts| {
          starts := starts[i := starts[i].(color := colors[i])];
        }
      }
      assert colors[..|colors|] == colors;
    }

    /** The knot loop of `restore_from_dict`: `x` below `min(w, len(knots))`, `y`
        below `min(l, len(knots[x]))`. */
    method RestoreKnotsLoop(knots: seq<seq<KnotRecord>>)
      requires Shaped(K, w, l)
      modifies this
      ensures K == RestoreKnots(old(K), w, l, knots)
      ensures starts == old(starts) && changed == old(changed)
    {
      var xe := if w < |knots| then w else |knots|;
      for x := 0 to xe
        invariant Shaped(K, w, l) && starts == old(starts) && changed == old(changed)
        invariant forall x', y :: 0 <= x' < w && 0 <= y < l ==>
          K[x'][y] == if x' < x && Covered(knots, x', y) then RestoreKnot(old(K)[x'][y], knots[x'][y]) else old(K)[x'][y]
      {
        var ye := if l < |knots[x]| then l else |knots[x]|;
        for y := 0 to ye
          invariant Shaped(K, w, l) && starts == old(starts) && changed == old(changed)
          invariant forall x', y' :: 0 <= x' < w && 0 <= y' < l ==>
            K[x'][y'] == if (x' < x || (x' == x && y' < y)) && Covered(knots, x', y')
                         then RestoreKnot(old(K)[x'][y'], knots[x'][y']) else old(K)[x'][y']
        {
          var rec := knots[x][y];
          K := Put(K, Co(x, y), K[x][y].(kind := KindFromName(rec.typeName.GetOr("Nk"))));
          K := Put(K, Co(x, y), K[x][y].(leftVis := rec.leftVis.GetOr(true)));
        }
      }
      GridExt(K, RestoreKnots(old(K), w, l, knots), w, l);
    }
  }
}
