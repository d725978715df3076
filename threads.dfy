/** The color bar and the start threads: which color each of the `w + 1`
    threads gets (`draw_color_bar`), which start knot and input side it enters
    by (`get_start_knot`), and the passes that run every thread in turn. */
module Threads {
  import opened Wrappers
  import opened Colors
  import opened Knots
  import opened Layout
  import opened Topology
  import opened Propagation

  /** An entry of `StartKnot_list`: the thread color, the start knot and the input side. */
  datatype StartKnot = StartKnot(color: Color, at: Co, dir: Dir)

  /** The repeat unit of a W color bar: the first palette color twice, then the next ones. */
  function WPattern(k: nat): Color {
    if k == 0 then PaletteColor(0) else PaletteColor(k - 1)
  }

  /** The color of thread `i` as `draw_color_bar` lays out the bar: L and R cycle
      through the palette; M and A count up to the middle and back down; W runs
      the pattern up, down, up from its third entry, and down again. */
  function BarColor(p: Params, i: int): Color
    requires ValidParams(p) && 0 <= i <= p.w
  {
    match p.fam
    case L => PaletteColor(i)
    case R => PaletteColor(i)
    case M => if i <= Mid(p) then PaletteColor(i) else PaletteColor(p.w - i)
    case A => if i <= Mid(p) then PaletteColor(i) else PaletteColor(p.w - i)
    case W =>
      var d := Quarter(p);
      if i <= d then WPattern(i)
      else if i <= 2 * d + 1 then WPattern(2 * d + 1 - i)
      else if i <= 3 * d then WPattern(i - 2 * d)
      else WPattern(4 * d + 1 - i)
  }

  /** Every thread gets one of the eight preset colors, never the "undefined" grey. */
  lemma BarColorPreset(p: Params, i: int)
    requires ValidParams(p) && 0 <= i <= p.w
    ensures BarColor(p, i) in Palette && BarColor(p, i) != Lightgrey
  {
  }

  /** The color bar of an M or A ribbon reads the same from both ends. */
  lemma BarColorPalindrome(p: Params, i: int)
    requires ValidParams(p) && (p.fam == M || p.fam == A) && 0 <= i <= p.w
    ensures BarColor(p, i) == BarColor(p, p.w - i)
  {
  }

  /** A W color bar reads the same from both ends: the second half repeats the
      first backwards, because the repeat unit starts with the same color twice. */
  lemma BarColorWMirror(p: Params, i: int)
    requires ValidParams(p) && p.fam == W && 0 <= i <= p.w
    ensures BarColor(p, i) == BarColor(p, p.w - i)
  {
  }

  /** The start knot and input side of thread `i` (`get_start_knot`). */
  function StartEntry(p: Params, i: int): (Co, Dir)
    requires ValidParams(p) && 0 <= i <= p.w
  {
    match p.fam
    case L =>
      if i == 0 then (Co(0, 0), LeftIn)
      else if i == 1 then (Co(0, 0), RightIn)
      else (Co(i - 1, 0), RightIn)
    case R =>
      if i < p.w then (Co(i, 0), LeftIn) else (Co(p.w - 1, 0), RightIn)
    case M =>
      var mid := (p.w - 1) / 2;
      if i == 0 then (Co(0, 0), LeftIn)
      else if i == 1 then (Co(0, 0), RightIn)
      else if i <= mid then (Co(i - 1, 0), RightIn)
      else if i < p.w then (Co(i, 0), LeftIn)
      else (Co(p.w - 1, 0), RightIn)
    case A =>
      var mid := (p.w - 1) / 2;
      if i <= mid then (Co(i, 0), LeftIn)
      else if i == mid + 1 then (Co(mid, 0), RightIn)
      else (Co(i - 1, 0), RightIn)
    case W =>
      var d := Quarter(p);
      if i == 0 then (Co(0, 0), LeftIn)
      else if i == 1 then (Co(0, 0), RightIn)
      else if i <= d then (Co(i - 1, 0), RightIn)
      else if i <= 2 * d then (Co(i, 0), LeftIn)
      else if i <= 3 * d then (Co(i - 1, 0), RightIn)
      else if i <= 4 * d then (Co(i, 0), LeftIn)
      else (Co(4 * d, 0), RightIn)
  }

  /** The input side `get_start_knot` pre-sets with the thread color, if any. It is
      the thread's own entry except: in L from thread 2 on the left input of the
      entry knot is set, in A thread `mid + 1` sets the right input of the knot
      next to its entry, in W threads `3d + 1` to `4d + 1` set the other side of
      their entry, and W thread 1 sets nothing. */
  function Seed(p: Params, i: int): Option<(Co, Dir)>
    requires ValidParams(p) && 0 <= i <= p.w
  {
    var (c, dir) := StartEntry(p, i);
    match p.fam
    case L => if i >= 2 then Some((c, LeftIn)) else Some((c, dir))
    case R => Some((c, dir))
    case M => Some((c, dir))
    case A => if i == (p.w - 1) / 2 + 1 then Some((Co(c.x + 1, 0), RightIn)) else Some((c, dir))
    case W =>
      var d := Quarter(p);
      if i == 1 then None
      else if i > 3 * d then Some((c, if dir == LeftIn then RightIn else LeftIn))
      else Some((c, dir))
  }

  /** Every thread enters a knot of the first row by an input side, and so does every pre-set side. */
  lemma StartEntryOnTopRow(p: Params, i: int)
    requires ValidParams(p) && 0 <= i <= p.w
    ensures InGrid(StartEntry(p, i).0, p.w, p.l) && StartEntry(p, i).0.y == 0 && IsIn(StartEntry(p, i).1)
    ensures Seed(p, i).Some? ==>
      InGrid(Seed(p, i).value.0, p.w, p.l) && Seed(p, i).value.0.y == 0 && IsIn(Seed(p, i).value.1)
  {
    if p.fam == W {
      assert p.w == 4 * Quarter(p) + 1;
    }
  }

  /** No two threads start on the same input of the same knot. */
  lemma StartEntriesDistinct(p: Params, i: int, j: int)
    requires ValidParams(p) && 0 <= i <= p.w && 0 <= j <= p.w && i != j
    ensures StartEntry(p, i) != StartEntry(p, j)
  {
    if p.fam == W {
      assert p.w == 4 * Quarter(p) + 1;
    }
  }

  /** The start list `draw_color_bar` builds. */
  function StartList(p: Params): (s: seq<StartKnot>)
    requires ValidParams(p)
    ensures |s| == p.w + 1
  {
    seq(p.w + 1, i requires 0 <= i <= p.w && ValidParams(p) =>
      StartKnot(BarColor(p, i), StartEntry(p, i).0, StartEntry(p, i).1))
  }

  /** The start list grows one thread at a time, in thread order. */
  lemma StartListPrefix(p: Params, i: int)
    requires ValidParams(p) && 0 <= i <= p.w
    ensures StartList(p)[..i + 1] == StartList(p)[..i] + [StartKnot(BarColor(p, i), StartEntry(p, i).0, StartEntry(p, i).1)]
  {
  }

  /** Start threads the walk can run from. */
  predicate ValidStarts(s: seq<StartKnot>, p: Params) {
    forall i :: 0 <= i < |s| ==> InGrid(s[i].at, p.w, p.l) && IsIn(s[i].dir)
  }

  lemma StartListValid(p: Params)
    requires ValidParams(p)
    ensures ValidStarts(StartList(p), p)
  {
    forall i | 0 <= i <= p.w
      ensures InGrid(StartList(p)[i].at, p.w, p.l) && IsIn(StartList(p)[i].dir)
    {
      StartEntryOnTopRow(p, i);
    }
  }

  /** `get_start_knot` writing `color` on the input side `seed` names, if any. */
  function ApplySeed(g: Grid, seed: Option<(Co, Dir)>, color: Color): (r: Grid)
    ensures |r| == |g|
    ensures seed.None? ==> r == g
  {
    match seed
    case None => g
    case Some((c, side)) =>
      if 0 <= c.x < |g| && 0 <= c.y < |g[c.x]| then Put(g, c, Receive(g[c.x][c.y], side, color)) else g
  }

  /** A seed on a knot of the grid changes that knot's input color on its side
      and nothing else. */
  lemma ApplySeedAt(g: Grid, p: Params, seed: Option<(Co, Dir)>, color: Color)
    requires Shaped(g, p.w, p.l) && (seed.Some? ==> InGrid(seed.value.0, p.w, p.l))
    ensures SameWeave(g, ApplySeed(g, seed, color), p)
    ensures seed.Some? ==>
      var (c, side) := seed.value;
      var r := ApplySeed(g, seed, color);
      r[c.x][c.y] == Receive(g[c.x][c.y], side, color) &&
      forall x, y :: 0 <= x < p.w && 0 <= y < p.l && (x != c.x || y != c.y) ==> r[x][y] == g[x][y]
  {
    match seed
    case None =>
    case Some((c, side)) =>
      PutKeepsWeave(g, p, c, Receive(g[c.x][c.y], side, color));
  }

  /** Every thread's seed and bar color, in thread order. */
  function SeedList(p: Params): (s: seq<(Option<(Co, Dir)>, Color)>)
    requires ValidParams(p)
    ensures |s| == p.w + 1
  {
    seq(p.w + 1, i requires 0 <= i <= p.w && ValidParams(p) => (Seed(p, i), BarColor(p, i)))
  }

  predicate SeedsInGrid(ss: seq<(Option<(Co, Dir)>, Color)>, p: Params) {
    forall i :: 0 <= i < |ss| && ss[i].0.Some? ==> InGrid(ss[i].0.value.0, p.w, p.l)
  }

  lemma SeedListInGrid(p: Params)
    requires ValidParams(p)
    ensures SeedsInGrid(SeedList(p), p)
  {
    forall i | 0 <= i <= p.w && SeedList(p)[i].0.Some?
      ensures InGrid(SeedList(p)[i].0.value.0, p.w, p.l)
    {
      StartEntryOnTopRow(p, i);
    }
  }

  /** The grid after the seeds `ss`, applied in order. */
  function SeedAll(g: Grid, ss: seq<(Option<(Co, Dir)>, Color)>): (r: Grid)
    ensures |r| == |g|
  {
    if |ss| == 0 then g
    else ApplySeed(SeedAll(g, ss[..|ss| - 1]), ss[|ss| - 1].0, ss[|ss| - 1].1)
  }

  /** Seeding changes input colors only: the frame, the kinds and the visibility stay. */
  lemma {:induction false} SeedAllWeave(g: Grid, ss: seq<(Option<(Co, Dir)>, Color)>, p: Params)
    requires Shaped(g, p.w, p.l) && SeedsInGrid(ss, p)
    ensures SameWeave(g, SeedAll(g, ss), p)
  {
    if |ss| > 0 {
      var front := ss[..|ss| - 1];
      assert SeedsInGrid(front, p);
      SeedAllWeave(g, front, p);
      var h := SeedAll(g, front);
      ApplySeedAt(h, p, ss[|ss| - 1].0, ss[|ss| - 1].1);
      SameWeaveTrans(g, h, SeedAll(g, ss), p);
    }
  }

  /** Seeding one more entry applies its seed last. */
  lemma SeedAllSnoc(g: Grid, ss: seq<(Option<(Co, Dir)>, Color)>, i: int)
    requires 0 <= i < |ss|
    ensures SeedAll(g, ss[..i + 1]) == ApplySeed(SeedAll(g, ss[..i]), ss[i].0, ss[i].1)
  {
    assert ss[..i + 1][..i] == ss[..i];
  }

  /** `draw_color_bar` seeds thread `i` after threads `0 .. i - 1`, on a grid of
      the same shape. */
  lemma SeedPrefixStep(g: Grid, p: Params, i: int)
    requires ValidParams(p) && Shaped(g, p.w, p.l) && 0 <= i <= p.w
    ensures Shaped(SeedAll(g, SeedList(p)[..i]), p.w, p.l)
    ensures SeedAll(g, SeedList(p)[..i + 1]) == ApplySeed(SeedAll(g, SeedList(p)[..i]), Seed(p, i), BarColor(p, i))
  {
    var ss := SeedList(p);
    SeedListInGrid(p);
    assert SeedsInGrid(ss[..i], p);
    SeedAllWeave(g, ss[..i], p);
    SeedAllSnoc(g, ss, i);
  }

  /** One of the two passes of the constructor and of `restore_from_dict`: every
      start thread in list order walks from its start knot in its color. */
  function Pass(g: Grid, p: Params, s: seq<StartKnot>): (r: Grid)
    requires ValidParams(p) && Routed(g, p) && ValidStarts(s, p)
    ensures SameWeave(g, r, p) && Routed(r, p)
    decreases |s|
  {
    if |s| == 0 then g
    else
      var h := Pass(g, p, s[..|s| - 1]);
      var t := s[|s| - 1];
      var r := Walk(h, p, t.at, t.dir, t.color);
      SameWeaveTrans(g, h, r, p);
      r
  }

  /** The freshly built grid after `draw_color_bar`'s pre-sets: still routed, and
      with the built links, kinds and visibility. */
  function Seeded(p: Params): (g: Grid)
    requires ValidParams(p)
    ensures SameWeave(BuiltGrid(p), g, p) && Routed(g, p)
  {
    BuiltRouted(p);
    SeedListInGrid(p);
    SeedAllWeave(BuiltGrid(p), SeedList(p), p);
    RoutedFrame(BuiltGrid(p), SeedAll(BuiltGrid(p), SeedList(p)), p);
    SeedAll(BuiltGrid(p), SeedList(p))
  }

  /** The grid a new ribbon shows: the seeded grid after two passes over the
      start list. Drawing the threads keeps the built links, kinds and visibility. */
  function Drawn(p: Params): (g: Grid)
    requires ValidParams(p)
    ensures SameWeave(BuiltGrid(p), g, p) && Routed(g, p)
  {
    StartListValid(p);
    var g1 := Pass(Seeded(p), p, StartList(p));
    var g2 := Pass(g1, p, StartList(p));
    SameWeaveTrans(BuiltGrid(p), Seeded(p), g1, p);
    SameWeaveTrans(BuiltGrid(p), g1, g2, p);
    g2
  }

  /** A grid a ribbon can hold: the links and flags its family builder set, and
      every link leading further down the drawing. */
  ghost predicate GridOk(g: Grid, p: Params) {
    ValidParams(p) && SameFrame(BuiltGrid(p), g, p) && Routed(g, p)
  }

  /** A change that keeps links and flags keeps a grid one a ribbon can hold. */
  lemma GridOkFrame(g: Grid, h: Grid, p: Params)
    requires GridOk(g, p) && SameFrame(g, h, p)
    ensures GridOk(h, p)
  {
    RoutedFrame(g, h, p);
  }

  /** A start list a ribbon can hold: one thread per bar position, on the start
      knot and side of the `get_start_knot` table, whatever its colors. */
  ghost predicate StartsOk(s: seq<StartKnot>, p: Params) {
    ValidParams(p) && |s| == p.w + 1 && ValidStarts(s, p) &&
    forall i :: 0 <= i <= p.w ==> s[i].at == StartEntry(p, i).0 && s[i].dir == StartEntry(p, i).1
  }
}
