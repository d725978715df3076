# RibbonEditor core in Dafny

RibbonEditor is a drawing tool for friendship-bracelet ribbons. A ribbon is a
grid `K[x][y]` of knots with `w` columns and `l` rows. Each knot has:

- a kind: a normal knot `Nk` or a reverse knot `Rk`;
- two input colors, left and right;
- a flag saying which input is visible;
- links `nKtoL` and `nKtoR` to the knots its two threads run on to.

Every ribbon belongs to one of five families, L, R, M, A and W. Each family has
a builder that links the knots of the empty grid in its own pattern. A color bar
of `w + 1` start threads is then laid out. Each thread is walked knot by knot
along the links, twice over. A knot records the color of every thread that
enters it and shows the color of its visible input.

The user edits a finished ribbon in three ways:

- flip which input a knot shows;
- switch a knot between `Nk` and `Rk`, which re-walks both of its input threads;
- give a start thread a new color, which re-walks that thread.

Each edit is available both directly and as an undoable command with `undo`
and `redo`. A ribbon is saved to and restored from a dictionary of its
parameters, thread colors and knot states.

The project is organised as follows:

- `colors.dfy`: RGB colors and the eight-color palette.
- `knots.dfy`: the knot record and the grid.
- `layout.dfy`: the families and the row at which each knot is drawn.
- `topology.dfy`: the link rules of the builders and the grid they produce.
- `recipes.dfy`: each family builder, call by call, seen from one knot.
- `propagation.dfy`: `change_knot_type` and `next_direction` as functions, plus
  the thread walk `Walk`.
- `walk_facts.dfy`: what a walk does to each knot.
- `edits.dfy`: the three edits as grid functions, with idempotence and undo
  laws.
- `threads.dfy`: the color bar, the start knots, the seeding of `draw_color_bar`,
  one pass of threads, and the grid a new ribbon shows.
- `passes.dfy`: the colors a pass writes, knot by knot, and why the second pass
  of `__init__` and of `restore_from_dict` changes nothing.
- `persistence.dfy`: the save format (`to_dict`) and how `restore_from_dict`
  reads it back.
- `ribbon.dfy`: the `Ribbon` class. Its fields `K`, `starts` (for
  `StartKnot_list`) and `changed` are updated in place. Its methods are proved
  equal to the functions above.
- `undo.dfy`: the three undo command classes.

Three behaviours of the code are easy to miss:

- After a thread leaves a knot by `nKtoR`, it enters the next knot by its left
  input (`change_knot_type`, `ribbon.py:1427-1448`), except over the arc at the
  right edge, where it enters by its right input (`ribbon.py:1554-1557`).
- Some end knots keep `endKtype` undefined: the rightmost end knot of L, the
  leftmost of R, the middle one of M, and the two outer ones of A
  (`set_end_knots` ranges). Every end knot of W gets an end type.
- The W builder works for widths `w = 4d + 1` (`ribbon.py:221-232`), not for
  every multiple of four.

## Model

| member | source | states |
|---|---|---|
| Colors.PaletteColor | ribbon.py:557-568 | every preset bar color `f[j % 8]` is one of the eight palette colors, never the lightgrey "undefined" color |
| Knots.Put | undo_commands.py:75-77 | assigning one knot of `K` changes that knot only; the grid keeps its shape |
| Knots.ShowKnot | ribbon.py:1382-1388 | `set_knot_color`: the knot color becomes the left input when the left thread is visible, else the right input; nothing else changes |
| Knots.Receive | ribbon.py:1409-1412 | the incoming color is stored on the left input for `LeftIn` and on the right input otherwise; the other input is kept |
| Knots.Toggled | ribbon.py:1731-1734 | toggling a knot kind always gives the other kind |
| Layout.FamilyOf | ribbon.py:41-54 | exactly the five type letters L, R, M, A, W are accepted (anything else is the `exit()` branch), and the accepted letter names the family |
| Layout.FamilyNameRoundTrip | ribbon.py:1001-1007 | the type letter written to the file reads back as the same family |
| Layout.RowRange | ribbon.py:102-302 | every knot's `gco.y` row (per family formula) lies between the top row and top + the `hl` height of `calculate_dimensions` |
| Layout.RowRangeTight | ribbon.py:308-413 | both ends of that height are reached by a knot, so the drawn height is exact |
| Topology.BlankKnot | ribbon.py:421-439 | a knot of `make_empty_ribbon` plus the edge loops: start knot iff row 0, end knot iff row `l - 1`, edge flags iff column 0 or `w - 1`, everything else as `Knot.__init__` |
| Topology.LinkRule | ribbon.py:441-493 | `make_knot_links` gives every non-end knot both links and leaves end knots alone; only links change |
| Topology.MiddleRule | ribbon.py:495-514 | `fix_middle_knot_links` gives a non-end middle knot two links on the same row (one down for M, same row for A); only links change |
| Topology.EndRule | ribbon.py:516-530 | `set_end_knots`: like-type-L unless on the right edge, linking right; otherwise like-type-R, linking left (with Python's wrap of `x - 1`); only end type and that link change |
| Topology.BuiltGrid | ribbon.py:12-58 | the grid after the constructor's builder has the `w × l` shape and holds the reference knot at every position |
| Topology.RoutedFrame | ribbon.py:1397-1577 | the routing conditions depend only on flags, end types and links, not on colors, kinds or visibility |
| Topology.BuiltKnotRouted | ribbon.py:441-530 | every knot the builders produce is routed: each link a thread can take exists and leads to a knot drawn further down |
| Topology.BuiltEndKnotRouted | ribbon.py:516-530 | routing of the last row's end knots |
| Topology.BuiltAscendingRouted | ribbon.py:441-474 | routing of the knots of the columns linked with `make_knot_links(True, …)` |
| Topology.BuiltDescendingRouted | ribbon.py:475-493 | routing of the knots of the columns linked with `make_knot_links(False, …)` |
| Topology.BuiltMiddleRouted | ribbon.py:495-514 | routing of the middle columns of M, A and W |
| Topology.BuiltRouted | ribbon.py:102-302 | the whole grid of every family builder is routed |
| Topology.BuiltStepExact | ribbon.py:102-302 | every link a builder lays leads to a knot exactly one drawing row lower in a neighbouring column, or two rows lower in its own column at an edge |
| Recipes.BuildsL | ribbon.py:102-107 | `set_type_L`'s calls, applied in order, leave every knot equal to the reference L knot |
| Recipes.BuildsR | ribbon.py:122-127 | `set_type_R`'s calls leave the reference R knot |
| Recipes.BuildsM | ribbon.py:142-154 | `set_type_M`'s calls leave the reference M knot |
| Recipes.BuildsA | ribbon.py:181-194 | `set_type_A`'s calls, including the `EndKnBoth` assignment, leave the reference A knot |
| Recipes.BuildsW | ribbon.py:221-255 | `set_type_W`'s calls leave the reference W knot |
| Propagation.ChangeKnotType | ribbon.py:1427-1448 | the thread leaves to the right exactly when (normal knot) equals (entered from the left); it follows `nKtoR` and enters by the left, or follows `nKtoL` and enters by the right |
| Propagation.InputsLeaveApart | ribbon.py:1427-1448 | the two inputs of a knot always leave by different sides |
| Propagation.ToggleSwapsRoutes | ribbon.py:1427-1448 | switching Nk/Rk exchanges the routes of the two inputs |
| Propagation.NoEndHop | ribbon.py:1543-1577 | `next_no_end_knot` never stops; it fails exactly when the chosen link is missing and otherwise goes on along that link |
| Propagation.EndHop | ribbon.py:1450-1541 | `next_end_knot`: a non-edge end knot stops exactly when its end type has no link on the side the thread leaves by; any continuation follows the link `change_knot_type` chose |
| Propagation.Hop | ribbon.py:1416-1419 | the next knot is one of the two links, entered by an input side, and a knot with the needed links never fails |
| Propagation.Record | ribbon.py:1409-1414 | the incoming color lands on the entered side, the knot then shows its visible input, and nothing else changes |
| Propagation.SameWeaveTrans | ribbon.py:1371-1380 | keeping links, flags, kinds and visibility composes |
| Propagation.HopAdvances | ribbon.py:1397-1425 | from a routed knot the walk never fails and only goes to a knot drawn further down (so `set_thread` terminates) |
| Propagation.HopIgnoresColors | ribbon.py:1397-1425 | where a thread goes does not depend on colors or visibility |
| Propagation.PutKeepsWeave | ribbon.py:1409-1414 | replacing a knot by one with the same links, flags, kind and visibility keeps the weave |
| Propagation.StepGrid | ribbon.py:1397-1425 | one `next_direction` keeps links, kinds and visibility, and keeps the grid routed |
| Propagation.Walk | ribbon.py:1371-1380 | `set_thread` keeps links, kinds and visibility, and keeps the grid routed |
| WalkFacts.Trace | ribbon.py:1371-1380 | the knots a thread passes start at its start knot and every later one lies further down the drawing |
| WalkFacts.Visit | ribbon.py:1409-1414 | a knot entered on the marked sides holds the thread color there and shows its visible input; links, kind and visibility are kept |
| WalkFacts.TraceSameWeave | ribbon.py:1397-1448 | the path of a thread is the same on grids with the same links and kinds |
| WalkFacts.VisitAbsorbsReceive | ribbon.py:1409-1414 | a color preset on a side the thread enters anyway makes no difference |
| WalkFacts.TraceBelow | ribbon.py:1397-1425 | once a thread leaves a knot it never enters that knot again |
| WalkFacts.StepGridAt | ribbon.py:1397-1425 | knot by knot: the entered knot records the color, the next knot of an inner knot gets the color pre-set on the side it is entered by, and every other knot is unchanged |
| WalkFacts.WalkAt | ribbon.py:1371-1380 | after `set_thread` every knot equals the knot visited on exactly the sides the thread entered |
| WalkFacts.WalkIdempotent | ribbon.py:1371-1380 | walking a thread a second time in the same color changes nothing more |
| WalkFacts.WalkRecolor | ribbon.py:1810-1814 | walking a thread again in a new color gives the grid as if only the new color had been walked |
| WalkFacts.WalkLocal | ribbon.py:1371-1380 | a knot the thread does not enter is unchanged |
| WalkFacts.WalkKeepsAbove | ribbon.py:1371-1380 | every knot drawn above the start knot is unchanged |
| WalkFacts.WalkColorsTrace | ribbon.py:1371-1380 | every input side the thread enters holds its color afterwards |
| Edits.SetVisibility | ribbon.py:1715-1716 | the knot gets the visibility and shows the input it names; every other knot and every other field is unchanged |
| Edits.ToggleTwice | undo_commands.py:25-39 | flipping twice restores the visibility and the shown color |
| Edits.SetVisibilityIdempotent | undo_commands.py:33-39 | setting the same visibility again changes nothing |
| Edits.PutRouted | ribbon.py:1731-1734 | changing a knot without touching its links or flags keeps the grid routed |
| Edits.SetVisibilityFrame | ribbon.py:1715-1716 | a visibility change keeps links and flags and the routing |
| Edits.RunBoth | ribbon.py:1736-1737 | re-walking the right then the left input thread keeps links, kinds and visibility |
| Edits.Retype | ribbon.py:1731-1737 | the kind change followed by both re-walks keeps every link, flag and every other knot's kind |
| Edits.Restore | undo_commands.py:69-81 | putting back kind and both input colors, then the re-walks, keeps links, flags and the routing |
| Edits.TraceAtStart | ribbon.py:1371-1380 | a thread started at a knot enters it only by its start side |
| Edits.RunBothFirstWalk | ribbon.py:1736 | the right-thread walk leaves the knot's left input as it was |
| Edits.RunBothKeepsInputs | ribbon.py:1736-1737 | after both re-walks the knot keeps its own inputs and shows its visible one |
| Edits.RetypeKeepsInputs | ribbon.py:1731-1737 | after a kind change the knot has the new kind and the same input colors |
| Edits.VisitPairAbsorb | ribbon.py:1736-1737 | repeating two visits in the same colors changes nothing more |
| Edits.WalkPairTwiceAt | ribbon.py:1736-1737 | knot by knot, the pair of re-walks done twice equals doing it once |
| Edits.RunBothIdempotent | ribbon.py:1736-1737 | re-running both threads of a knot a second time changes nothing more |
| Edits.RetypeIdempotent | undo_commands.py:83-94 | redoing the same kind change twice equals doing it once |
| Edits.RestoreIsRetype | undo_commands.py:69-94 | undo is a redo of the saved kind on the knot with its saved input colors put back |
| Edits.RestoreResetsKnot | undo_commands.py:69-81 | after undo the knot has its saved kind and input colors and shows its visible input |
| Edits.PutThenWeave | undo_commands.py:69-94 | changing one knot's kind keeps the weave everywhere else |
| Edits.SameWeaveButTrans | undo_commands.py:69-94 | "same weave except at one knot" composes |
| Edits.UndoAfterRedo | undo_commands.py:69-94 | undo right after redo puts the knot's kind and input colors back and every other kind and visibility is as before |
| Edits.RunBothAt | ribbon.py:1736-1737 | knot by knot, re-running both threads of a knot visits the right thread's trace in the right input color, then the left thread's trace in the left input color |
| Edits.RestoreIsRunBoth | undo_commands.py:69-81 | undo re-runs both threads of the knot after its saved kind and input colors are put back |
| Edits.TraceBelowSame | ribbon.py:1371-1380 | a thread starting below a knot never comes back to it, so its path does not depend on that knot's kind |
| Edits.HopToggled | ribbon.py:1427-1448 | a knot of the other kind sends each input on the hop the other input took |
| Edits.TraceToggled | ribbon.py:1427-1448 | after a kind change, the thread entering by one input runs on exactly where the thread entering by the other input ran before |
| Edits.ToggleSameSides | undo_commands.py:83-94 | past the knot, switching its kind makes its two threads enter the same input sides as before, each where the other went |
| Edits.RetypeSameSides | undo_commands.py:83-94 | past the knot, a redo with either kind enters exactly the input sides the knot's two threads entered before |
| Edits.RedoAt | undo_commands.py:83-94 | knot by knot, a redo visits the sides the new paths of the knot's two threads enter, in the knot's input colors |
| Edits.UndoAt | undo_commands.py:69-81 | knot by knot, an undo walks the old paths of the two threads again in the saved colors |
| Edits.UndoAfterRedoAt | undo_commands.py:69-94 | on a settled knot, undo after redo gives back every other knot exactly, downstream colors included |
| Edits.UndoAfterRedoSettled | undo_commands.py:69-94 | on a grid where re-running the knot's two threads changes nothing, undo right after redo gives back the whole grid |
| Edits.EditsSettle | undo_commands.py:69-94 | after a redo or an undo, re-running the knot's two threads changes nothing, so every later undo/redo pair restores the whole grid |
| Edits.UndoAfterRedoKnot | undo_commands.py:69-94 | after undo following redo the knot is exactly its old self with its knot color refreshed |
| Threads.BarColorPreset | ribbon.py:557-642 | every start thread gets a palette color, never the undefined grey |
| Threads.BarColorPalindrome | ribbon.py:583-596 | the M and A color bar reads the same from both ends |
| Threads.BarColorWMirror | ribbon.py:597-642 | the whole W color bar reads the same from both ends: thread i and thread w - i get the same color |
| Threads.StartEntryOnTopRow | ribbon.py:674-919 | every start knot is on the first row and is entered by an input side, and so is every preset side |
| Threads.StartEntriesDistinct | ribbon.py:674-919 | no two start threads enter the same side of the same knot |
| Threads.StartList | ribbon.py:645-672 | the start list has `w + 1` entries |
| Threads.StartListPrefix | ribbon.py:645-672 | the start list grows by one thread per loop round, in order |
| Threads.StartListValid | ribbon.py:674-919 | every start thread starts at a knot of the grid on an input side |
| Threads.ApplySeed | ribbon.py:674-919 | a pre-set writes only the named side; no pre-set changes nothing |
| Threads.ApplySeedAt | ribbon.py:674-919 | a pre-set changes only the named input color and keeps the weave |
| Threads.SeedList | ribbon.py:645-649 | one seed per thread, `w + 1` in all |
| Threads.SeedListInGrid | ribbon.py:674-919 | every pre-set names a knot of the grid |
| Threads.SeedAll | ribbon.py:645-672 | applying the pre-sets keeps the number of columns |
| Threads.SeedAllWeave | ribbon.py:645-672 | the pre-sets change input colors only |
| Threads.SeedPrefixStep | ribbon.py:645-672 | round `i` of the bar loop applies thread `i`'s pre-set in its bar color |
| Threads.Pass | ribbon.py:83-90 | one pass over all start threads keeps links, kinds and visibility and the routing |
| Threads.Seeded | ribbon.py:81 | after `draw_color_bar` the built grid keeps its weave and routing |
| Threads.Drawn | ribbon.py:81-98 | the grid of a new ribbon after both passes keeps the built weave and the routing |
| Passes.PassAt | ribbon.py:83-90 | after a pass, each knot is what the start threads' visits, in list order, make of it: each thread enters the sides its trace enters, in its own color |
| Passes.PassColors | ribbon.py:83-90 | after a pass, each input side some thread enters holds the color of the last thread entering it, every knot a thread enters shows its visible input, and every other knot keeps its colors |
| Passes.PassIdempotent | ribbon.py:92-98 | a second pass of the same threads over a grid changes no knot |
| Passes.DrawnSettled | ribbon.py:81-98 | a new ribbon is the seeded grid after one pass, and another pass leaves it unchanged, so the second pass of `__init__` draws nothing new |
| Threads.GridOkFrame | ribbon.py:12-99 | a change that keeps links and flags keeps a grid a ribbon can hold |
| Persistence.ConstNamed | ribbon.py:1121-1142 | the member lookup by name finds a member only under its own name |
| Persistence.ConstNamedFindsEvery | ribbon.py:1121-1142 | every `Const` member is found by its name |
| Persistence.KindOf | ribbon.py:1427-1448 | `change_knot_type` has a branch exactly for `Nk` and `Rk` |
| Persistence.RestoredTypeAsWritten | ribbon.py:1044-1045 | as written: a `Const` member name gives that member, the name of another attribute of the enum class gives that attribute, and only a name that is neither gives `Nk` |
| Persistence.RestoredTypeAsWrittenAcceptsNonKind | ribbon.py:1044-1045 | the name "LeftIn", and the class attribute name "__name__", are read back as types that are no knot kind |
| Persistence.KindFromName | ribbon.py:1044-1045 | corrected: a knot becomes `Rk` exactly when the saved name is "Rk", else `Nk` |
| Persistence.KindFromNameAgrees | ribbon.py:1044-1045 | the corrected reading agrees with the written one wherever that one gives a kind, and the written one fails exactly on the other member names and on the names of class attributes that are no member |
| Persistence.KindNameRoundTrip | ribbon.py:1013-1045 | a kind saved by `to_dict` reads back as the same kind, both as written and corrected |
| Persistence.RecordOf | ribbon.py:1013-1019 | the saved record holds the type name and the visibility |
| Persistence.RestoreKnot | ribbon.py:1043-1046 | the restore changes kind and visibility only; a missing visibility means visible, a missing type means `Nk` |
| Persistence.RestoreRecordOf | ribbon.py:1013-1046 | restoring a saved record gives the saved kind and visibility |
| Persistence.SaveKnots | ribbon.py:1013-1019 | the knots entry has `w` columns of `l` records, each with the knot's visibility |
| Persistence.RestoreKnots | ribbon.py:1040-1049 | the knot loop keeps the shape, changes only kind and visibility, and only of the knots the file covers |
| Persistence.SaveRestoreKnots | ribbon.py:1001-1049 | saved knots restored into a grid give the saved kinds and visibilities |
| Persistence.SaveColors | ribbon.py:1009-1012 | one saved color per start thread, in order |
| Persistence.RestoreColors | ribbon.py:1025-1029 | thread `i` takes saved color `i` when there is one; knots and sides are kept |
| Persistence.SaveRestoreColors | ribbon.py:1001-1029 | saved thread colors restored into the same start list give the saved list |
| Persistence.RestoreKnotsRouted | ribbon.py:1040-1049 | the knot loop keeps links, flags and the routing |
| Persistence.RestoreSavedWeave | ribbon.py:1001-1049 | restoring saved knots into a grid with the same links gives the saved weave |
| Persistence.ReloadKeepsWeave | ribbon.py:1001-1073 | saving and restoring into a ribbon with the same links, then both passes, keeps the saved weave and the routing; the second pass changes nothing; when the saved grid is what its threads draw, the reloaded grid has the saved color on every input side a thread enters, and the saved knot color wherever a thread enters the visible input |
| Persistence.ReloadNewRibbon | ribbon.py:12-99 | the same for a new ribbon of the saved size and family: the saved weave, and the saved colors on every side a thread enters when the saved grid is what its threads draw |
| Persistence.ReloadShowsAt | ribbon.py:1050-1073 | one knot of a reload: the reloaded knot after a pass has the saved colors on every side a thread enters and the saved knot color when the visible side is entered |
| Persistence.ReloadFreshRibbon | ribbon.py:1001-1073 | saving a new ribbon and loading the file into another new ribbon of the same size and family gives back exactly the saved grid |
| Ribbons.SetVisibilityGridOk | ribbon.py:1703-1716 | the visibility flip keeps a grid a ribbon can hold |
| Ribbons.RetypeGridOk | ribbon.py:1718-1737 | the kind change keeps a grid a ribbon can hold |
| Ribbons.RestoreGridOk | undo_commands.py:69-81 | undoing a kind change keeps a grid a ribbon can hold |
| Ribbons.WalkGridOk | ribbon.py:1371-1380 | walking a thread keeps a grid a ribbon can hold |
| Ribbons.ReloadGridOk | ribbon.py:1040-1073 | restoring knots and both passes keep a grid a ribbon can hold |
| Ribbons.RecolorStartsOk | ribbon.py:1810-1811 | a new thread color keeps the start list valid |
| Ribbons.RestoreColorsStartsOk | ribbon.py:1025-1029 | restored colors keep the start list valid |
| Ribbons.Ribbon.constructor | ribbon.py:12-99 | a new ribbon has the drawn grid and the start list of its family, is unchanged, and satisfies the ribbon invariant |
| Ribbons.Ribbon.BuildGrid | ribbon.py:31-54 | the empty ribbon, its edges and its family builder give the built grid |
| Ribbons.Ribbon.DrawThreads | ribbon.py:81-98 | the color bar and both passes give the drawn grid and the start list |
| Ribbons.Ribbon.UpdateBlock | ribbon.py:441-555 | a knot in the block is transformed, every other knot is kept |
| Ribbons.Ribbon.MakeEmptyRibbon | ribbon.py:421-439 | `w` columns of `l` fresh knots, with start and end rows marked |
| Ribbons.Ribbon.MarkEdges | ribbon.py:33-38 | the edge loops give the empty ribbon of blank knots |
| Ribbons.Ribbon.MakeKnotLinks | ribbon.py:441-493 | every knot of the column range gets the link rule, every other knot is kept |
| Ribbons.Ribbon.FixMiddleKnotLinks | ribbon.py:495-514 | the middle column's knots get the middle rule |
| Ribbons.Ribbon.SetEndKnots | ribbon.py:516-530 | the last-row knots of the range get the end rule |
| Ribbons.Ribbon.SetEndType | ribbon.py:194 | one end knot gets the end type |
| Ribbons.Ribbon.ToggleType | ribbon.py:532-539 | every knot of the column switches kind, nothing else changes |
| Ribbons.Ribbon.SetType | ribbon.py:541-545 | every knot of the column gets the kind |
| Ribbons.Ribbon.SetVisible | ribbon.py:547-555 | the knots of the range show left or right as told |
| Ribbons.Ribbon.SetTypeL | ribbon.py:102-107 | the L builder gives the built L grid |
| Ribbons.Ribbon.SetTypeR | ribbon.py:122-127 | the R builder gives the built R grid |
| Ribbons.Ribbon.SetTypeM | ribbon.py:142-154 | the M builder gives the built M grid |
| Ribbons.Ribbon.SetTypeA | ribbon.py:181-194 | the A builder gives the built A grid |
| Ribbons.Ribbon.SetTypeW | ribbon.py:221-255 | the W builder gives the built W grid |
| Ribbons.Ribbon.SetTypeWLinks | ribbon.py:233-239 | the W link and kind calls |
| Ribbons.Ribbon.SetTypeWVisibility | ribbon.py:240-246 | the W visibility and middle column calls |
| Ribbons.Ribbon.SetTypeWEnds | ribbon.py:248-255 | the W end knot calls |
| Ribbons.Ribbon.BarColors | ribbon.py:576-642 | `colors` holds `w + 1` colors, the bar color of each thread |
| Ribbons.Ribbon.CycleColors | ribbon.py:576-582 | the L and R bar cycles through the palette |
| Ribbons.Ribbon.MirrorColors | ribbon.py:583-596 | the M and A bar counts up to the middle and down again |
| Ribbons.Ribbon.WColors | ribbon.py:597-642 | the W bar runs its repeat pattern up, down, up, down |
| Ribbons.Ribbon.GetStartKnot | ribbon.py:674-919 | the start knot and side of thread `i`, and only its preset side changes |
| Ribbons.Ribbon.AddStartThread | ribbon.py:646-672 | one loop round seeds thread `i` and appends it to the start list |
| Ribbons.Ribbon.DrawColorBar | ribbon.py:557-672 | the start list gains all `w + 1` threads and the grid gets all pre-sets |
| Ribbons.Ribbon.SetThread | ribbon.py:1371-1380 | the grid becomes the walk of the thread |
| Ribbons.Ribbon.ReplaceKnot | ribbon.py:1731-1734 | the knot is replaced, the invariant is kept |
| Ribbons.Ribbon.RunBothThreads | ribbon.py:1736-1737 | both input threads are re-walked, the invariant is kept |
| Ribbons.Ribbon.NextDirection | ribbon.py:1397-1425 | one step records the color, never fails, and moves to a knot drawn further down |
| Ribbons.Ribbon.RunPass | ribbon.py:83-90 | one pass over the start list walks every thread in order |
| Ribbons.Ribbon.ToggleKnotColor | ribbon.py:1703-1716 | the fallback branch: the knot's visibility flips and it shows the other input; the ribbon is marked changed |
| Ribbons.Ribbon.ChangeThreadDirection | ribbon.py:1718-1737 | the fallback branch: the knot gets the other kind and both its input threads are re-walked |
| Ribbons.Ribbon.SelectNewColor | ribbon.py:1794-1815 | a cancelled dialog changes nothing; otherwise the thread takes the color and is re-walked |
| Ribbons.Ribbon.ToDict | ribbon.py:1001-1020 | the saved family, width and length are the ribbon's, and restoring the saved colors and knots into this ribbon changes nothing |
| Ribbons.Ribbon.ExtractKnPar | ribbon.py:962-975 | one record per knot with its coordinate, visibility, type and end flag |
| Ribbons.Ribbon.RestoreFromDict | ribbon.py:1022-1073 | colors and knots are restored (missing keys are empty lists) and both passes run; the invariant is kept |
| Ribbons.Ribbon.RestoreColorsLoop | ribbon.py:1025-1037 | the color loop gives the restored start list |
| Ribbons.Ribbon.RestoreKnotsLoop | ribbon.py:1040-1049 | the knot loop gives the restored grid |
| UndoCommands.ToggleKnotColorCommand.constructor | undo_commands.py:18-23 | the command remembers the knot and the old visibility, and the new one is its negation |
| UndoCommands.ToggleKnotColorCommand.Undo | undo_commands.py:25-31 | while the ribbon is alive the knot gets its old visibility and shows it; once it is collected nothing changes |
| UndoCommands.ToggleKnotColorCommand.Redo | undo_commands.py:33-39 | while the ribbon is alive the knot gets its new visibility and shows it; once it is collected nothing changes |
| UndoCommands.ChangeKnotTypeCommand.constructor | undo_commands.py:51-67 | the command captures the knot's kind and input colors; the new kind is the other one |
| UndoCommands.ChangeKnotTypeCommand.Undo | undo_commands.py:69-81 | while the ribbon is alive the saved kind and inputs are put back and both threads re-walked; once it is collected nothing changes |
| UndoCommands.ChangeKnotTypeCommand.Redo | undo_commands.py:83-94 | while the ribbon is alive the knot gets the new kind and both threads are re-walked; once it is collected nothing changes |
| UndoCommands.ChangeThreadColorCommand.constructor | undo_commands.py:105-110 | the command remembers the thread and both colors |
| UndoCommands.ChangeThreadColorCommand.ApplyColor | undo_commands.py:112-141 | while the ribbon is alive the thread takes the color in the start list and is re-walked; once it is collected nothing changes |
| UndoCommands.ChangeThreadColorCommand.Undo | undo_commands.py:143-144 | the thread gets the old color back |
| UndoCommands.ChangeThreadColorCommand.Redo | undo_commands.py:146-147 | the thread gets the new color |
| UndoCommands.ToggleKnotColorUndoable | ribbon.py:1707-1711 | the pushed command holds the knot, its old visibility and the negation; the undo-stack branch ends in the same state as the fallback branch and marks the ribbon changed |
| UndoCommands.ChangeThreadDirectionUndoable | ribbon.py:1722-1726 | the pushed command holds the knot, its old kind, both old input colors and the other kind as the new one; the undo-stack branch ends as the fallback branch |
| UndoCommands.SelectNewColorUndoable | ribbon.py:1794-1804 | a cancelled dialog pushes nothing; otherwise the pushed command holds the thread index, the thread's old color and the chosen one, and the ribbon ends as the fallback branch |
| UndoCommands.ToggleKnotColorThenUndo | undo_commands.py:18-39 | pushing the visibility toggle and undoing it puts the visibility back; a knot that showed its visible input is restored exactly and no other knot changes |
| UndoCommands.ChangeThreadDirectionThenUndo | undo_commands.py:60-94 | pushing the kind change and undoing it restores the knot's kind and inputs and every kind and visibility; when the knot's two threads were settled, the whole grid comes back |
| UndoCommands.SelectNewColorThenUndo | undo_commands.py:105-147 | pushing a recolor and undoing it restores the start list, and the grid is the walk of the thread in its old color alone |

## Left out

- Qt rendering: scene items, pens, circles, lines and arcs, and the color rectangles. The model keeps only the colors these would show.
- Floating-point geometry (`gco`, `calculate_dimensions`, `KnotPoints`). The layout is modelled as the integer row `gco.y / Vd` without offsets.
- The `co` field that `restore_from_dict` copies when present. Coordinates are the grid position in the model.
- JSON typing. The file is modelled as typed records, so malformed entries and out-of-range RGB values are not represented.
- The Qt undo stack itself. The weak reference of a command is a nullable field `ribbon`; garbage collection, which sets it to `null`, is outside the model.
- Thread width, `row_labels`, `set_thread_color` and the debug output.
- `changed` in the save and load paths. `to_dict` and `restore_from_dict` do not touch it.
- Layout.ValidParams: a W ribbon whose width is not `4d + 1` is excluded. On such widths the program crashes with an `IndexError`, in `set_type_W` at `K[w]` or in `draw_color_bar` at `colors[i]`, and only M and A widths are adjusted before the ribbon is made.
- Persistence.RestoredTypeAsWritten: the set of attribute names the enum class carries besides its members is a parameter, since the Python runtime decides it.
- Edits.UndoAfterRedoSettled: the whole-grid undo is proved for grids where re-running the knot's two threads changes nothing; `EditsSettle` shows every grid a redo or undo of that knot leaves is such a grid. Whether each knot of a freshly drawn ribbon is settled in that sense is not proved, so for the first edit of a knot only `UndoAfterRedo` (the knot itself, every kind and visibility) is promised.
- Ribbons.Ribbon.Valid: the invariant the edits need is weaker than what a ribbon holds. That the links are the built ones (`GridOk`) and that the start list is the family's (`StartsOk`) are proved as lemmas (`SetVisibilityGridOk`, `RetypeGridOk`, `RestoreGridOk`, `WalkGridOk`, `ReloadGridOk`, `RecolorStartsOk`, `RestoreColorsStartsOk`) rather than carried by each method.
- Ribbons.Ribbon.SetTypeW: the builder is split into three groups of calls (`SetTypeWLinks`, `SetTypeWVisibility`, `SetTypeWEnds`). Together they make the same calls in the same order.
- Ribbons.Ribbon.RestoreFromDict: the knot types are read with the corrected `KindFromName` (see Findings). A file naming a non-kind `Const` member or another attribute of the enum class is not modelled as the crash it causes.
- Propagation.EndHop: for the edge end knots the contract states only that a continuation follows the chosen link, not when they stop. Their stop and fault branches are in the function body, and `HopAdvances` shows that a built grid never reaches a fault.

## Findings

| source | as written | input that shows it | evidently intended | confidence | as-written member | corrected member |
|---|---|---|---|---|---|---|
| ribbon.py:1044-1045 | `getattr(Const, type_str, Const.Nk)` accepts the name of any of the sixteen `Const` members, and of any other attribute of the enum class (`__name__`, `mro`, ...), as a knot type | a saved knot with `"type": "LeftIn"` gets type `Const.LeftIn`. `change_knot_type` has no branch for it, so the next thread that reaches the knot fails with an `UnboundLocalError` on `inDir_nKnot` (ribbon.py:1447); neither `inDir_nKnot` nor `outDir_actualKnot` is bound | only `"Nk"` and `"Rk"` name a knot kind; any other name falls back to `Nk` | not executed | Persistence.RestoredTypeAsWritten, Persistence.RestoredTypeAsWrittenAcceptsNonKind | Persistence.KindFromName, Persistence.KindNameRoundTrip |
