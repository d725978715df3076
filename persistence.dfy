/** The save file of a ribbon (`to_dict`) and how `restore_from_dict` reads it
    back: the header, one `[r, g, b]` color per start thread, and one record per
    knot with its type name and its visibility flag. */
module Persistence {
  import opened Wrappers
  import opened Colors
  import opened Knots
  import opened Layout
  import opened Topology
  import opened Propagation
  import opened Threads
  import opened Passes

  /** One knot entry of the file. A key missing from the entry is `None`. */
  datatype KnotRecord = KnotRecord(typeName: Option<string>, leftVis: Option<bool>)

  /** The `"ribbon"` entry: width, length and the family letter. */
  datatype Header = Header(width: int, length: int, family: string)

  /** The whole file; a missing `"thread_colors"` or `"knots"` key is `None`. */
  datatype Saved = Saved(header: Header, threadColors: Option<seq<Color>>, knots: Option<seq<seq<KnotRecord>>>)

  /** One entry of `extract_KnPar`: the knot's coordinate, visibility flag,
      type and end-knot flag. */
  datatype KnPar = KnPar(at: Co, leftVis: bool, kind: Kind, endK: bool)

  /** The sixteen members of the `Const` enum. */
  datatype ConstMember =
    | CLeftIn | CRightIn | CLeftOut | CRightOut
    | CNk | CRk
    | CEndKnLikeTypeR | CEndKnLikeTypeL | CEndKnBoth | CEndKnNone
    | CLeftThrdVis | CRightThrdVis | CUndefined | CNA | CArc | CLine

  /** `member.name`. */
  function ConstName(m: ConstMember): string {
    match m
    case CLeftIn => "LeftIn"
    case CRightIn => "RightIn"
    case CLeftOut => "LeftOut"
    case CRightOut => "RightOut"
    case CNk => "Nk"
    case CRk => "Rk"
    case CEndKnLikeTypeR => "EndKnLikeTypeR"
    case CEndKnLikeTypeL => "EndKnLikeTypeL"
    case CEndKnBoth => "EndKnBoth"
    case CEndKnNone => "EndKnNone"
    case CLeftThrdVis => "LeftThrdVis"
    case CRightThrdVis => "RightThrdVis"
    case CUndefined => "undefined"
    case CNA => "NA"
    case CArc => "arc"
    case CLine => "line"
  }

  /** `Const.__members__.get(s)`: the member called `s`, if there is one. */
  function ConstNamed(s: string): (r: Option<ConstMember>)
    ensures r.Some? ==> ConstName(r.value) == s
  {
    if s == "LeftIn" then Some(CLeftIn)
    else if s == "RightIn" then Some(CRightIn)
    else if s == "LeftOut" then Some(CLeftOut)
    else if s == "RightOut" then Some(CRightOut)
    else if s == "Nk" then Some(CNk)
    else if s == "Rk" then Some(CRk)
    else if s == "EndKnLikeTypeR" then Some(CEndKnLikeTypeR)
    else if s == "EndKnLikeTypeL" then Some(CEndKnLikeTypeL)
    else if s == "EndKnBoth" then Some(CEndKnBoth)
    else if s == "EndKnNone" then Some(CEndKnNone)
    else if s == "LeftThrdVis" then Some(CLeftThrdVis)
    else if s == "RightThrdVis" then Some(CRightThrdVis)
    else if s == "undefined" then Some(CUndefined)
    else if s == "NA" then Some(CNA)
    else if s == "arc" then Some(CArc)
    else if s == "line" then Some(CLine)
    else None
  }

  /** Every member is found by its own name. */
  lemma ConstNamedFindsEvery(m: ConstMember)
    ensures ConstNamed(ConstName(m)) == Some(m)
  {
    match m
    case CLeftIn =>
    case CRightIn =>
    case CLeftOut =>
    case CRightOut =>
    case CNk =>
    case CRk =>
    case CEndKnLikeTypeR =>
    case CEndKnLikeTypeL =>
    case CEndKnBoth =>
    case CEndKnNone =>
    case CLeftThrdVis =>
    case CRightThrdVis =>
    case CUndefined =>
    case CNA =>
    case CArc =>
    case CLine =>
  }

  /** The knot kind a `Const` member stands for: `change_knot_type` has a branch
      for `Nk` and for `Rk` only. */
  function KindOf(m: ConstMember): (r: Option<Kind>)
    ensures r.Some? <==> (m == CNk || m == CRk)
    ensures r == Some(Nk) <==> m == CNk
  {
    if m == CNk then Some(Nk) else if m == CRk then Some(Rk) else None
  }

  /** What `getattr(Const, s, default)` can return: a member, or one of the
      attributes the enum class carries besides its members (`__name__`,
      `__module__`, `__members__`, `mro`, ...), named by `name`. */
  datatype ConstAttr = Member(m: ConstMember) | ClassAttr(name: string)

  /** The knot kind an attribute stands for: only the members `Nk` and `Rk` are one. */
  function AttrKind(a: ConstAttr): (r: Option<Kind>)
    ensures r.Some? <==> a == Member(CNk) || a == Member(CRk)
    ensures a.Member? ==> r == KindOf(a.m)
  {
    match a
    case Member(m) => KindOf(m)
    case ClassAttr(_) => None
  }

  /** `type.name` of a knot kind, as `to_dict` writes it. */
  function KindName(k: Kind): string {
    if k == Nk then "Nk" else "Rk"
  }

  /** The knot type `restore_from_dict` reads, as written:
      `getattr(Const, type_str, Const.Nk)` returns the member of that name, else the
      class attribute of that name, and only when there is neither the default
      `Nk`. `classAttrs` is the set of the class's own attribute names, which the
      Python runtime decides. */
  function RestoredTypeAsWritten(s: string, classAttrs: set<string>): (r: ConstAttr)
    ensures ConstNamed(s).Some? ==> r.Member? && ConstName(r.m) == s
    ensures ConstNamed(s).None? && s in classAttrs ==> r == ClassAttr(s)
    ensures ConstNamed(s).None? && s !in classAttrs ==> r == Member(CNk)
  {
    match ConstNamed(s)
    case Some(m) => Member(m)
    case None => if s in classAttrs then ClassAttr(s) else Member(CNk)
  }

  /** A file whose knot type is `"LeftIn"` gives the knot a type that is not a knot
      kind, so the thread walks after the restore fail in `change_knot_type`;
      so does the name of a class attribute such as `"__name__"`. */
  lemma RestoredTypeAsWrittenAcceptsNonKind(classAttrs: set<string>)
    ensures RestoredTypeAsWritten("LeftIn", classAttrs) == Member(CLeftIn)
    ensures AttrKind(RestoredTypeAsWritten("LeftIn", classAttrs)).None?
    ensures "__name__" in classAttrs ==> RestoredTypeAsWritten("__name__", classAttrs) == ClassAttr("__name__")
    ensures "__name__" in classAttrs ==> AttrKind(RestoredTypeAsWritten("__name__", classAttrs)).None?
  {
  }

  /** The knot type read back, corrected: the name of a knot kind gives that kind,
      every other string falls back to `Nk` as the default of the lookup intends. */
  function KindFromName(s: string): (r: Kind)
    ensures r == Rk <==> s == "Rk"
  {
    if s == "Rk" then Rk else Nk
  }

  /** The corrected reading agrees with the written one wherever that one yields a
      kind, and the written one fails exactly on the names of the other members and
      on the names of class attributes that are no member. */
  lemma KindFromNameAgrees(s: string, classAttrs: set<string>)
    ensures var a := RestoredTypeAsWritten(s, classAttrs);
      AttrKind(a).Some? ==> AttrKind(a).value == KindFromName(s)
    ensures AttrKind(RestoredTypeAsWritten(s, classAttrs)).None? <==>
      (ConstNamed(s).Some? && s != "Nk" && s != "Rk") || (ConstNamed(s).None? && s in classAttrs)
  {
    if ConstNamed(s).Some? {
      assert ConstName(RestoredTypeAsWritten(s, classAttrs).m) == s;
    }
  }

  /** A saved kind is read back as the same kind. */
  lemma KindNameRoundTrip(k: Kind, classAttrs: set<string>)
    ensures KindFromName(KindName(k)) == k
    ensures AttrKind(RestoredTypeAsWritten(KindName(k), classAttrs)) == Some(k)
  {
  }

  /** The record `to_dict` writes for a knot. */
  function RecordOf(k: Knot): (r: KnotRecord)
    ensures r.typeName.Some? && r.leftVis == Some(k.leftVis)
  {
    KnotRecord(Some(KindName(k.kind)), Some(k.leftVis))
  }

  /** What the restore loop does to one knot: the type read back (`"Nk"` when the
      key is missing) and the visibility flag (`True` when missing); nothing else
      of the knot changes. */
  function RestoreKnot(k: Knot, rec: KnotRecord): (r: Knot)
    ensures r.(kind := k.kind, leftVis := k.leftVis) == k
    ensures rec.leftVis.None? ==> r.leftVis
    ensures rec.typeName.None? ==> r.kind == Nk
  {
    k.(kind := KindFromName(rec.typeName.GetOr("Nk")), leftVis := rec.leftVis.GetOr(true))
  }

  /** Restoring a knot from the record of another gives it that knot's kind and visibility. */
  lemma RestoreRecordOf(k: Knot, saved: Knot)
    ensures RestoreKnot(k, RecordOf(saved)) == k.(kind := saved.kind, leftVis := saved.leftVis)
  {
    KindNameRoundTrip(saved.kind, {});
  }

  /** The `"knots"` entry: column by column, one record per knot. */
  function SaveKnots(g: Grid, w: nat, l: nat): (r: seq<seq<KnotRecord>>)
    requires Shaped(g, w, l)
    ensures |r| == w && forall x :: 0 <= x < w ==> |r[x]| == l
    ensures forall x, y :: 0 <= x < w && 0 <= y < l ==> r[x][y].leftVis == Some(g[x][y].leftVis)
  {
    seq(w, x requires 0 <= x < w => seq(l, y requires 0 <= y < l => RecordOf(g[x][y])))
  }

  /** Whether the restore loop reaches knot (x, y): `x < min(w, len(knots))` and
      `y < min(l, len(knots[x]))`. */
  predicate Covered(data: seq<seq<KnotRecord>>, x: int, y: int) {
    0 <= x < |data| && 0 <= y < |data[x]|
  }

  /** The grid after the restore loop of `restore_from_dict`. */
  function RestoreKnots(g: Grid, w: nat, l: nat, data: seq<seq<KnotRecord>>): (r: Grid)
    requires Shaped(g, w, l)
    ensures Shaped(r, w, l)
    ensures forall x, y :: 0 <= x < w && 0 <= y < l && !Covered(data, x, y) ==> r[x][y] == g[x][y]
    ensures forall x, y :: 0 <= x < w && 0 <= y < l ==> r[x][y].(kind := g[x][y].kind, leftVis := g[x][y].leftVis) == g[x][y]
  {
    seq(w, x requires 0 <= x < w => seq(l, y requires 0 <= y < l =>
      if Covered(data, x, y) then RestoreKnot(g[x][y], data[x][y]) else g[x][y]))
  }

  /** Restoring the saved knots of `saved` into a grid `g` of the same size gives
      every knot the kind and visibility it had in `saved`, and keeps the rest of `g`. */
  lemma SaveRestoreKnots(g: Grid, saved: Grid, w: nat, l: nat)
    requires Shaped(g, w, l) && Shaped(saved, w, l)
    ensures forall x, y :: 0 <= x < w && 0 <= y < l ==>
      RestoreKnots(g, w, l, SaveKnots(saved, w, l))[x][y] == g[x][y].(kind := saved[x][y].kind, leftVis := saved[x][y].leftVis)
  {
    var data := SaveKnots(saved, w, l);
    forall x, y | 0 <= x < w && 0 <= y < l
      ensures RestoreKnots(g, w, l, data)[x][y] == g[x][y].(kind := saved[x][y].kind, leftVis := saved[x][y].leftVis)
    {
      assert Covered(data, x, y) && data[x][y] == RecordOf(saved[x][y]);
      RestoreRecordOf(g[x][y], saved[x][y]);
    }
  }

  /** The `"thread_colors"` entry: the color of every start thread, in list order. */
  function SaveColors(s: seq<StartKnot>): (r: seq<Color>)
    ensures |r| == |s| && forall i :: 0 <= i < |s| ==> r[i] == s[i].color
  {
    seq(|s|, i requires 0 <= i < |s| => s[i].color)
  }

  /** The start list after the color loop of `restore_from_dict`: entry `i` takes
      color `i` of the file when the file has one; the start knots and sides stay. */
  function RestoreColors(s: seq<StartKnot>, colors: seq<Color>): (r: seq<StartKnot>)
    ensures |r| == |s|
    ensures forall i :: 0 <= i < |s| ==> r[i].at == s[i].at && r[i].dir == s[i].dir
    ensures forall i :: 0 <= i < |s| ==> r[i].color == if i < |colors| then colors[i] else s[i].color
  {
    seq(|s|, i requires 0 <= i < |s| => if i < |colors| then s[i].(color := colors[i]) else s[i])
  }

  /** Restoring the saved colors into a start list with the same knots and sides
      gives back the saved start list. */
  lemma SaveRestoreColors(s: seq<StartKnot>, saved: seq<StartKnot>)
    requires |s| == |saved|
    requires forall i :: 0 <= i < |s| ==> s[i].at == saved[i].at && s[i].dir == saved[i].dir
    ensures RestoreColors(s, SaveColors(saved)) == saved
  {
    var r := RestoreColors(s, SaveColors(saved));
    assert forall i :: 0 <= i < |s| ==> r[i] == saved[i];
  }

  /** Restoring changes kinds and visibility only, so the frame and the routing
      conditions survive it. */
  lemma RestoreKnotsRouted(g: Grid, p: Params, data: seq<seq<KnotRecord>>)
    requires p.w >= 0 && p.l >= 0 && Routed(g, p)
    ensures SameFrame(g, RestoreKnots(g, p.w, p.l, data), p) && Routed(RestoreKnots(g, p.w, p.l, data), p)
  {
    RoutedFrame(g, RestoreKnots(g, p.w, p.l, data), p);
  }

  /** Restoring the records of `saved` into a grid with the same weave of links
      and flags gives a grid with the weave of `saved`. */
  lemma RestoreSavedWeave(g: Grid, p: Params, saved: Grid)
    requires p.w >= 0 && p.l >= 0 && Routed(g, p) && SameFrame(g, saved, p)
    ensures Routed(RestoreKnots(g, p.w, p.l, SaveKnots(saved, p.w, p.l)), p)
    ensures SameWeave(saved, RestoreKnots(g, p.w, p.l, SaveKnots(saved, p.w, p.l)), p)
  {
    RestoreKnotsRouted(g, p, SaveKnots(saved, p.w, p.l));
    SaveRestoreKnots(g, saved, p.w, p.l);
  }

  /** Grid `r` agrees with `saved` on every input side a thread of `s` enters, and
      shows the same knot color wherever a thread enters the visible input. */
  predicate ShowsEntered(r: Grid, saved: Grid, p: Params, s: seq<StartKnot>)
    requires ValidParams(p) && Routed(saved, p) && ValidStarts(s, p) && Shaped(r, p.w, p.l)
  {
    forall x, y :: 0 <= x < p.w && 0 <= y < p.l ==>
      var hs := Hits(saved, p, s, Co(x, y));
      (EntersLeft(hs) ==> r[x][y].colorInLeft == saved[x][y].colorInLeft) &&
      (EntersRight(hs) ==> r[x][y].colorInRight == saved[x][y].colorInRight) &&
      ((if saved[x][y].leftVis then EntersLeft(hs) else EntersRight(hs)) ==>
        r[x][y].knotColor == saved[x][y].knotColor)
  }

  /** One knot of a reload: when the saved grid is what its threads draw, the
      reloaded knot has the saved colors on every side a thread enters. */
  lemma ReloadShowsAt(p: Params, g: Grid, saved: Grid, s: seq<StartKnot>, q: Co)
    requires ValidParams(p) && Routed(saved, p) && SameWeave(saved, g, p) && ValidStarts(s, p)
    requires InGrid(q, p.w, p.l) && Pass(saved, p, s) == saved
    ensures Routed(g, p)
    ensures var k, hs := Pass(g, p, s)[q.x][q.y], Hits(saved, p, s, q);
      (EntersLeft(hs) ==> k.colorInLeft == saved[q.x][q.y].colorInLeft) &&
      (EntersRight(hs) ==> k.colorInRight == saved[q.x][q.y].colorInRight) &&
      ((if saved[q.x][q.y].leftVis then EntersLeft(hs) else EntersRight(hs)) ==>
        k.knotColor == saved[q.x][q.y].knotColor)
  {
    HitsSameWeave(saved, g, p, s, q);
    PassAt(g, p, s, q);
    PassAt(saved, p, s, q);
    FoldAgrees(g[q.x][q.y], saved[q.x][q.y], Hits(saved, p, s, q));
  }

  /** Loading the file of a ribbon into a ribbon with the same links and flags
      (restore, then the two passes) reproduces the weave of the saved grid: its
      links, flags, kinds and visibility, knot for knot. */
  lemma ReloadKeepsWeave(p: Params, into: Grid, saved: Grid, s: seq<StartKnot>)
    requires ValidParams(p) && Routed(into, p) && SameFrame(into, saved, p) && ValidStarts(s, p)
    ensures Routed(saved, p)
    ensures Routed(RestoreKnots(into, p.w, p.l, SaveKnots(saved, p.w, p.l)), p)
    ensures var g := RestoreKnots(into, p.w, p.l, SaveKnots(saved, p.w, p.l));
      SameWeave(saved, Pass(Pass(g, p, s), p, s), p) &&
      Pass(Pass(g, p, s), p, s) == Pass(g, p, s) &&
      (Pass(saved, p, s) == saved ==> ShowsEntered(Pass(Pass(g, p, s), p, s), saved, p, s))
  {
    RestoreSavedWeave(into, p, saved);
    RoutedFrame(into, saved, p);
    var g := RestoreKnots(into, p.w, p.l, SaveKnots(saved, p.w, p.l));
    var g1 := Pass(g, p, s);
    SameWeaveTrans(saved, g, g1, p);
    SameWeaveTrans(saved, g1, Pass(g1, p, s), p);
    PassIdempotent(g, p, s);
    if Pass(saved, p, s) == saved {
      forall x, y | 0 <= x < p.w && 0 <= y < p.l
        ensures var hs := Hits(saved, p, s, Co(x, y));
          (EntersLeft(hs) ==> g1[x][y].colorInLeft == saved[x][y].colorInLeft) &&
          (EntersRight(hs) ==> g1[x][y].colorInRight == saved[x][y].colorInRight) &&
          ((if saved[x][y].leftVis then EntersLeft(hs) else EntersRight(hs)) ==>
            g1[x][y].knotColor == saved[x][y].knotColor)
      {
        ReloadShowsAt(p, g, saved, s, Co(x, y));
      }
    }
  }

  /** In particular a new ribbon of the saved size and family, loaded with the
      file of any ribbon built like it, gets that ribbon's weave, and the colors
      it had wherever the threads run. */
  lemma ReloadNewRibbon(p: Params, saved: Grid, s: seq<StartKnot>)
    requires ValidParams(p) && SameFrame(BuiltGrid(p), saved, p) && ValidStarts(s, p)
    ensures Routed(saved, p)
    ensures Routed(RestoreKnots(Drawn(p), p.w, p.l, SaveKnots(saved, p.w, p.l)), p)
    ensures var g := RestoreKnots(Drawn(p), p.w, p.l, SaveKnots(saved, p.w, p.l));
      SameWeave(saved, Pass(Pass(g, p, s), p, s), p) &&
      (Pass(saved, p, s) == saved ==> ShowsEntered(Pass(Pass(g, p, s), p, s), saved, p, s))
  {
    var d := Drawn(p);
    assert SameFrame(d, saved, p) by {
      forall x, y | 0 <= x < p.w && 0 <= y < p.l ensures SameTopology(d[x][y], saved[x][y]) {
        assert SameTopology(BuiltGrid(p)[x][y], d[x][y]);
        assert SameTopology(BuiltGrid(p)[x][y], saved[x][y]);
      }
    }
    ReloadKeepsWeave(p, d, saved, s);
  }

  /** Saving a fresh ribbon and loading the file into another fresh ribbon of the
      same size and family gives back exactly the grid that was saved. */
  lemma ReloadFreshRibbon(p: Params)
    requires ValidParams(p)
    ensures ValidStarts(StartList(p), p)
    ensures var d := Drawn(p);
      var g := RestoreKnots(d, p.w, p.l, SaveKnots(d, p.w, p.l));
      Routed(g, p) && Pass(Pass(g, p, StartList(p)), p, StartList(p)) == d
  {
    var d := Drawn(p);
    var g := RestoreKnots(d, p.w, p.l, SaveKnots(d, p.w, p.l));
    SaveRestoreKnots(d, d, p.w, p.l);
    GridExt(g, d, p.w, p.l);
    DrawnSettled(p);
  }
}
