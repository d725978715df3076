/** The three undoable edits of the editor. Each command remembers what it needs
    to put a knot or a thread back, `redo` performs the edit and `undo` reverses
    it. Pushing a command on the undo stack runs its `redo` once; the methods at
    the end of this module are the undo-stack branches of `toggle_knot_color`,
    `change_thread_direction` and `select_new_color`. */
module UndoCommands {
  import opened Wrappers
  import opened Colors
  import opened Knots
  import opened Layout
  import opened Topology
  import opened Propagation
  import opened Threads
  import opened WalkFacts
  import opened Edits
  import opened Ribbons

  /** `ToggleKnotColorCommand`: which input color knot `at` shows. */
  class ToggleKnotColorCommand {
    /** `ribbon_ref`: a weak reference, `null` once the ribbon has been collected. */
    var ribbon: Ribbon?
    const at: Co
    const oldVis: bool
    const newVis: bool

    ghost predicate Valid()
      reads this, ribbon
    {
      ribbon != null ==> ribbon.Valid() && InGrid(at, ribbon.w, ribbon.l)
    }

    constructor (r: Ribbon, c: Co, oldLeftVis: bool)
      ensures ribbon == r && at == c && oldVis == oldLeftVis && newVis == !oldLeftVis
    {
      ribbon, at, oldVis, newVis := r, c, oldLeftVis, !oldLeftVis;
    }

    /** Put the old visibility back and show the knot (nothing, once the ribbon is collected). */
    method Undo()
      requires Valid()
      modifies ribbon
      ensures ribbon != null ==> ribbon.K == SetVisibility(old(ribbon.K), at, oldVis)
      ensures ribbon != null ==> ribbon.starts == old(ribbon.starts) && ribbon.changed == old(ribbon.changed)
      ensures Valid()
    {
      if ribbon == null {
        return;
      }
      SetVisibilityFrame(ribbon.K, ribbon.P(), at, oldVis);
      ribbon.K := SetVisibility(ribbon.K, at, oldVis);
    }

    /** Give the knot the new visibility and show it (nothing, once the ribbon is collected). */
    method Redo()
      requires Valid()
      modifies ribbon
      ensures ribbon != null ==> ribbon.K == SetVisibility(old(ribbon.K), at, newVis)
      ensures ribbon != null ==> ribbon.starts == old(ribbon.starts) && ribbon.changed == old(ribbon.changed)
      ensures Valid()
    {
      if ribbon == null {
        return;
      }
      SetVisibilityFrame(ribbon.K, ribbon.P(), at, newVis);
      ribbon.K := SetVisibility(ribbon.K, at, newVis);
    }
  }

  /** `ChangeKnotTypeCommand`: the kind of knot `at`, with the kind and both
      input colors it had when the command was made. */
  class ChangeKnotTypeCommand {
    /** `ribbon_ref`: a weak reference, `null` once the ribbon has been collected. */
    var ribbon: Ribbon?
    const at: Co
    const oldKind: Kind
    const oldInLeft: Color
    const oldInRight: Color
    const newKind: Kind

    ghost predicate Valid()
      reads this, ribbon
    {
      ribbon != null ==> ribbon.Valid() && InGrid(at, ribbon.w, ribbon.l)
    }

    /** Capture the knot as it is now; the new kind is the other one. */
    constructor (r: Ribbon, c: Co)
      requires 0 <= c.x < |r.K| && 0 <= c.y < |r.K[c.x]|
      ensures ribbon == r && at == c
      ensures oldKind == r.K[c.x][c.y].kind && newKind == Toggled(oldKind)
      ensures oldInLeft == r.K[c.x][c.y].colorInLeft && oldInRight == r.K[c.x][c.y].colorInRight
    {
      var k := r.K[c.x][c.y];
      ribbon, at := r, c;
      oldKind, oldInLeft, oldInRight := k.kind, k.colorInLeft, k.colorInRight;
      newKind := if k.kind == Nk then Rk else Nk;
    }

    /** Put back the old kind and input colors, then walk the right and the left
        input thread again in the saved colors; nothing once the ribbon is collected. */
    method Undo()
      requires Valid()
      modifies ribbon
      ensures ribbon != null ==> ribbon.K == Restore(old(ribbon.K), ribbon.P(), at, oldKind, oldInLeft, oldInRight)
      ensures ribbon != null ==> ribbon.starts == old(ribbon.starts) && ribbon.changed == old(ribbon.changed)
      ensures Valid()
    {
      if ribbon == null {
        return;
      }
      ribbon.ReplaceKnot(at, ribbon.K[at.x][at.y].(kind := oldKind, colorInLeft := oldInLeft, colorInRight := oldInRight));
      ribbon.SetThread(at, RightIn, oldInRight);
      ribbon.SetThread(at, LeftIn, oldInLeft);
    }

    /** Give the knot the new kind, then walk its right and its left input thread
        again in the colors the knot holds at each call; nothing once the ribbon is collected. */
    method Redo()
      requires Valid()
      modifies ribbon
      ensures ribbon != null ==> ribbon.K == Retype(old(ribbon.K), ribbon.P(), at, newKind)
      ensures ribbon != null ==> ribbon.starts == old(ribbon.starts) && ribbon.changed == old(ribbon.changed)
      ensures Valid()
    {
      if ribbon == null {
        return;
      }
      ribbon.ReplaceKnot(at, ribbon.K[at.x][at.y].(kind := newKind));
      ribbon.RunBothThreads(at);
    }
  }

  /** `ChangeThreadColorCommand`: the color of start thread `index`. */
  class ChangeThreadColorCommand {
    /** `ribbon_ref`: a weak reference, `null` once the ribbon has been collected. */
    var ribbon: Ribbon?
    const index: int
    const oldColor: Color
    const newColor: Color

    ghost predicate Valid()
      reads this, ribbon
    {
      ribbon != null ==> ribbon.Valid() && 0 <= index < |ribbon.starts|
    }

    constructor (r: Ribbon, i: int, before: Color, after: Color)
      ensures ribbon == r && index == i && oldColor == before && newColor == after
    {
      ribbon, index, oldColor, newColor := r, i, before, after;
    }

    /** `_apply_color`: the thread takes `color` in the start list and is walked
        again from its start knot. Once the ribbon is collected it returns at once,
        and `modifies ribbon` then names nothing it could change. */
    method ApplyColor(color: Color)
      requires Valid()
      modifies ribbon
      ensures ribbon != null ==> ribbon.starts == old(ribbon.starts)[index := old(ribbon.starts)[index].(color := color)]
      ensures ribbon != null ==> ribbon.K == Walk(old(ribbon.K), ribbon.P(), old(ribbon.starts)[index].at, old(ribbon.starts)[index].dir, color)
      ensures ribbon != null ==> ribbon.changed == old(ribbon.changed)
      ensures Valid()
    {
      if ribbon == null {
        return;
      }
      ribbon.starts := ribbon.starts[index := ribbon.starts[index].(color := color)];
      var cs := ribbon.starts[index];
      ribbon.SetThread(cs.at, cs.dir, color);
    }

    method Undo()
      requires Valid()
      modifies ribbon
      ensures ribbon != null ==> ribbon.starts == old(ribbon.starts)[index := old(ribbon.starts)[index].(color := oldColor)]
      ensures ribbon != null ==> ribbon.K == Walk(old(ribbon.K), ribbon.P(), old(ribbon.starts)[index].at, old(ribbon.starts)[index].dir, oldColor)
      ensures ribbon != null ==> ribbon.changed == old(ribbon.changed)
      ensures Valid()
    {
      ApplyColor(oldColor);
    }

    method Redo()
      requires Valid()
      modifies ribbon
      ensures ribbon != null ==> ribbon.starts == old(ribbon.starts)[index := old(ribbon.starts)[index].(color := newColor)]
      ensures ribbon != null ==> ribbon.K == Walk(old(ribbon.K), ribbon.P(), old(ribbon.starts)[index].at, old(ribbon.starts)[index].dir, newColor)
      ensures ribbon != null ==> ribbon.changed == old(ribbon.changed)
      ensures Valid()
    {
      ApplyColor(newColor);
    }
  }

  /** `toggle_knot_color` with an undo stack: push the command (which runs its
      `redo`) and mark the ribbon changed. The grid ends as in the branch without
      an undo stack. */
  method ToggleKnotColorUndoable(r: Ribbon, c: Co) returns (cmd: ToggleKnotColorCommand)
    requires r.Valid() && InGrid(c, r.w, r.l)
    modifies r
    ensures fresh(cmd) && cmd.ribbon == r && cmd.at == c && cmd.Valid()
    ensures cmd.oldVis == old(r.K)[c.x][c.y].leftVis && cmd.newVis == !cmd.oldVis
    ensures r.K == SetVisibility(old(r.K), c, !old(r.K)[c.x][c.y].leftVis)
    ensures r.starts == old(r.starts) && r.changed
  {
    cmd := new ToggleKnotColorCommand(r, c, r.K[c.x][c.y].leftVis);
    cmd.Redo();
    r.changed := true;
  }

  /** `change_thread_direction` with an undo stack: push the command and mark the
      ribbon changed. The grid ends as in the branch without an undo stack. */
  method ChangeThreadDirectionUndoable(r: Ribbon, c: Co) returns (cmd: ChangeKnotTypeCommand)
    requires r.Valid() && InGrid(c, r.w, r.l)
    modifies r
    ensures fresh(cmd) && cmd.ribbon == r && cmd.at == c && cmd.Valid()
    ensures cmd.oldKind == old(r.K)[c.x][c.y].kind && cmd.newKind == Toggled(cmd.oldKind)
    ensures cmd.oldInLeft == old(r.K)[c.x][c.y].colorInLeft && cmd.oldInRight == old(r.K)[c.x][c.y].colorInRight
    ensures r.K == Retype(old(r.K), r.P(), c, Toggled(old(r.K)[c.x][c.y].kind))
    ensures r.starts == old(r.starts) && r.changed
  {
    cmd := new ChangeKnotTypeCommand(r, c);
    cmd.Redo();
    r.changed := true;
  }

  /** `select_new_color` with an undo stack: a cancelled dialog does nothing;
      otherwise push the command and mark the ribbon changed. The ribbon ends as
      in the branch without an undo stack. */
  method SelectNewColorUndoable(r: Ribbon, i: int, choice: Option<Color>) returns (cmd: Option<ChangeThreadColorCommand>)
    requires r.Valid() && 0 <= i < |r.starts|
    modifies r
    ensures choice.None? ==> cmd.None? && r.K == old(r.K) && r.starts == old(r.starts) && r.changed == old(r.changed)
    ensures choice.Some? ==> cmd.Some? && fresh(cmd.value) && cmd.value.Valid() && r.changed
    ensures choice.Some? ==> cmd.value.ribbon == r && cmd.value.index == i
    ensures choice.Some? ==> cmd.value.oldColor == old(r.starts)[i].color && cmd.value.newColor == choice.value
    ensures choice.Some? ==> r.starts == old(r.starts)[i := old(r.starts)[i].(color := choice.value)]
    ensures choice.Some? ==> r.K == Walk(old(r.K), r.P(), old(r.starts)[i].at, old(r.starts)[i].dir, choice.value)
  {
    if choice.None? {
      return None;
    }
    var c := new ChangeThreadColorCommand(r, i, r.starts[i].color, choice.value);
    c.Redo();
    r.changed := true;
    cmd := Some(c);
  }

  /** Toggling a knot's visibility through the undo stack and then undoing it puts
      the visibility back; a knot that showed its visible input is restored exactly,
      and every other knot and the start list are untouched. */
  method ToggleKnotColorThenUndo(r: Ribbon, c: Co)
    requires r.Valid() && InGrid(c, r.w, r.l)
    modifies r
    ensures r.Valid()
    ensures r.K == Put(old(r.K), c, ShowKnot(old(r.K)[c.x][c.y]))
    ensures old(r.K)[c.x][c.y].knotColor == Some(Display(old(r.K)[c.x][c.y])) ==> r.K == old(r.K)
    ensures r.starts == old(r.starts) && r.changed
  {
    ghost var g: Grid := r.K;
    var cmd := ToggleKnotColorUndoable(r, c);
    cmd.Undo();
    ToggleTwice(g, c);
  }

  /** Changing a knot's kind through the undo stack and then undoing it gives the knot
      back its kind and input colors and leaves every kind and visibility as before;
      when re-running the knot's two threads changed nothing beforehand, the whole
      grid, downstream colors included, comes back. */
  method ChangeThreadDirectionThenUndo(r: Ribbon, c: Co)
    requires r.Valid() && InGrid(c, r.w, r.l)
    modifies r
    ensures r.Valid()
    ensures r.K[c.x][c.y] == ShowKnot(old(r.K)[c.x][c.y])
    ensures forall x, y :: 0 <= x < r.w && 0 <= y < r.l ==>
      r.K[x][y].kind == old(r.K)[x][y].kind && r.K[x][y].leftVis == old(r.K)[x][y].leftVis
    ensures RunBoth(old(r.K), r.P(), c) == old(r.K) ==> r.K == old(r.K)
    ensures r.starts == old(r.starts) && r.changed
  {
    ghost var g: Grid := r.K;
    var cmd := ChangeThreadDirectionUndoable(r, c);
    cmd.Undo();
    UndoAfterRedo(g, r.P(), c, Toggled(g[c.x][c.y].kind));
    if RunBoth(g, r.P(), c) == g {
      UndoAfterRedoSettled(g, r.P(), c, Toggled(g[c.x][c.y].kind));
    }
  }

  /** Recoloring a thread through the undo stack and then undoing it gives the thread
      its old color back, and the grid is as if only the old color had been walked. */
  method SelectNewColorThenUndo(r: Ribbon, i: int, col: Color)
    requires r.Valid() && 0 <= i < |r.starts|
    modifies r
    ensures r.Valid()
    ensures r.starts == old(r.starts)
    ensures r.K == Walk(old(r.K), r.P(), old(r.starts)[i].at, old(r.starts)[i].dir, old(r.starts)[i].color)
    ensures r.changed
  {
    ghost var g: Grid := r.K;
    ghost var s: seq<StartKnot> := r.starts;
    var cmd := SelectNewColorUndoable(r, i, Some(col));
    cmd.value.Undo();
    assert s[i].(color := col).(color := s[i].color) == s[i];
    WalkRecolor(g, r.P(), s[i].at, s[i].dir, col, s[i].color);
  }
}
