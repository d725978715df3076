/** Ribbon families, their parameters, and the vertical layout of the knots:
    the row `gco.y / Vd` at which a knot is drawn, which grows by one or two
    along every link a thread can follow. */
module Layout {
  import opened Wrappers
  import opened Knots

  /** The ribbon type letter: L, R, M, A or W. */
  datatype Family = L | R | M | A | W

  /** `type` as a string, as the file format and the constructor take it;
      any other string is the `case _: exit()` branch. */
  function FamilyOf(s: string): (r: Option<Family>)
    ensures r.Some? <==> s in {"L", "R", "M", "A", "W"}
    ensures r.Some? ==> FamilyName(r.value) == s
  {
    if s == "L" then Some(L)
    else if s == "R" then Some(R)
    else if s == "M" then Some(M)
    else if s == "A" then Some(A)
    else if s == "W" then Some(W)
    else None
  }

  function FamilyName(f: Family): string {
    match f
    case L => "L"
    case R => "R"
    case M => "M"
    case A => "A"
    case W => "W"
  }

  lemma FamilyNameRoundTrip(f: Family)
    ensures FamilyOf(FamilyName(f)) == Some(f)
  {
  }

  /** Width (number of columns `w`), length (number of rows `l`) and family. */
  datatype Params = Params(fam: Family, w: int, l: int)

  /** The parameters the builders can handle: at least two columns and one row;
      M and A need an odd width (a middle column), W needs `w = 4d + 1`. */
  predicate ValidParams(p: Params) {
    p.w >= 2 && p.l >= 1 &&
    (p.fam == M || p.fam == A ==> p.w % 2 == 1) &&
    (p.fam == W ==> p.w % 4 == 1)
  }

  /** `mid = w // 2`, the middle column of M and A ribbons. */
  function Mid(p: Params): int {
    p.w / 2
  }

  /** `d = int(w / 4)`, the width of one quarter of a W ribbon. */
  function Quarter(p: Params): int {
    p.w / 4
  }

  /** The row of knot `c` in units of `Vd` (`gco.y` without the offsets), per family. */
  function LayoutRow(p: Params, c: Co): int {
    var x, y := c.x, c.y;
    match p.fam
    case L => x + 2 * y
    case R => p.w - 1 - x + 2 * y
    case M => if x <= Mid(p) then x + 2 * y else p.w - 1 - x + 2 * y
    case A => if x >= Mid(p) then x + 2 * y else p.w - 1 - x + 2 * y
    case W =>
      var d := Quarter(p);
      if x <= d then 2 * y + x
      else if x <= 2 * d then 2 * y + 2 * d - x
      else if x <= 3 * d then 2 * y - 2 * d + x
      else 2 * y + 4 * d - x
  }

  /** The smallest row: an A ribbon starts at its middle column, shifted up by
      `(w - 1) / 2` rows (the negative `cBy` offset); the others start at 0. */
  function MinRow(p: Params): int {
    if p.fam == A then Mid(p) else 0
  }

  /** The height of the knot area in rows (the `hl` factor of `Vd`). */
  function Span(p: Params): int {
    match p.fam
    case L => 2 * (p.l - 1) + (p.w - 1)
    case R => 2 * (p.l - 1) + (p.w - 1)
    case M => 2 * (p.l - 1) + (p.w - 1) / 2
    case A => 2 * (p.l - 1) + (p.w - 1) / 2
    case W => 2 * (p.l - 1) + (p.w - 1) / 4
  }

  function RowBound(p: Params): int {
    MinRow(p) + Span(p)
  }

  /** Every knot lies within the drawn height: rows run from `MinRow` to `MinRow + Span`. */
  lemma RowRange(p: Params, c: Co)
    requires ValidParams(p) && InGrid(c, p.w, p.l)
    ensures MinRow(p) <= LayoutRow(p, c) <= RowBound(p)
  {
  }

  /** A knot that sits on the top row of the drawing. */
  function TopKnot(p: Params): Co {
    match p.fam
    case R => Co(p.w - 1, 0)
    case A => Co(Mid(p), 0)
    case _ => Co(0, 0)
  }

  /** A knot that sits on the bottom row of the drawing. */
  function BottomKnot(p: Params): Co {
    match p.fam
    case L => Co(p.w - 1, p.l - 1)
    case R => Co(0, p.l - 1)
    case M => Co(Mid(p), p.l - 1)
    case A => Co(0, p.l - 1)
    case W => Co(Quarter(p), p.l - 1)
  }

  /** Both ends of the range are reached, so `Span` is exactly the height of the knot area. */
  lemma RowRangeTight(p: Params)
    requires ValidParams(p)
    ensures InGrid(TopKnot(p), p.w, p.l) && LayoutRow(p, TopKnot(p)) == MinRow(p)
    ensures InGrid(BottomKnot(p), p.w, p.l) && LayoutRow(p, BottomKnot(p)) == RowBound(p)
  {
  }
}
