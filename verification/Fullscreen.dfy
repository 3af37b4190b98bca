/** Enabling, disabling and toggling fullscreen mode, with the focus that goes
  * along. */
module Fullscreen {
  import opened Order
  import opened Containers
  import opened Focus
  import opened Urgency
  import opened FocusUrgency
  import opened FullscreenSearch
  import opened Workspaces
  import opened Activation
  import opened Showing
  import FocusOps

  // ---------------------------------------------------------------- the functions

  /** con_disable_fullscreen */
  ghost function Disable(f: Forest, c: Con): Forest
    requires c in f
  {
    if f[c].ty == Workspace then f else WithMode(f, c, NotFullscreen)
  }

  /** The container that enabling `c` turns off: a global one anywhere, or else
    * the first one met on `c`'s workspace. */
  ghost function InTheWay(f: Forest, root: Con, c: Con): (r: Con?)
    requires WellFormed(f) && root in f && c in f && WorkspaceOf(f, c) != null
    ensures r != null ==> r in f
  {
    var global := FirstFound(f, root, Global);
    if global != null then global else FirstFound(f, WorkspaceOf(f, c), OnOutput)
  }

  ghost function Cleared(f: Forest, off: Con?): (g: Forest)
    requires off != null ==> off in f
    ensures Remoded(f, g)
  {
    if off == null then f else Disable(f, off)
  }

  /** The focus is on another workspace. */
  ghost predicate Elsewhere(s: State, c: Con)
    requires Sound(s) && c in s.tree
  {
    WorkspaceOf(s.tree, s.focused) != WorkspaceOf(s.tree, c)
  }

  /** A container below a workspace: it can be enabled. */
  ghost predicate Enabling(f: Forest, c: Con)
    requires Acyclic(f)
  {
    c in f && f[c].ty != Workspace && WorkspaceOf(f, c) != null
  }

  ghost function Shown(s: State, c: Con, mode: FullscreenMode, delayed: bool): State
    requires Sound(s) && Enabling(s.tree, c)
  {
    if mode == Global && Elsewhere(s, c) then Show(s, WorkspaceOf(s.tree, c), delayed) else s
  }

  lemma ShownKeeps(s: State, c: Con, mode: FullscreenMode, delayed: bool)
    requires Sound(s) && Enabling(s.tree, c)
    ensures var t := Shown(s, c, mode, delayed);
            Sound(t) && SameLists(s.tree, t.tree) && WindowModes(s.tree, t.tree) && (mode != Global ==> t == s)
  {
    if mode == Global && Elsewhere(s, c) {
      ShowKeeps(s, WorkspaceOf(s.tree, c), delayed);
    } else {
      SoundKept(s, s);
    }
  }

  /** con_activate */
  ghost function Activated(s: State, c: Con): State
    requires Sound(s) && c in s.tree
  {
    State(Activate(s.tree, c), c)
  }

  lemma ActivatedKeeps(s: State, c: Con)
    requires Sound(s) && c in s.tree && Attached(s.tree, c)
    ensures var t := Activated(s, c); Sound(t) && SameShape(s.tree, t.tree) && SameModes(s.tree, t.tree)
  {
    ActivateKeeps(s.tree, c);
    SoundKept(s, Activated(s, c));
  }

  lemma EnablingAttached(f: Forest, c: Con)
    requires Acyclic(f) && Enabling(f, c)
    ensures Attached(f, c)
  {
  }

  lemma StillSound(s: State, c: Con, mode: FullscreenMode, delayed: bool)
    requires Sound(s) && Enabling(s.tree, c)
    ensures Sound(Shown(s, c, mode, delayed)) && c in Shown(s, c, mode, delayed).tree
    ensures var there := Activated(Shown(s, c, mode, delayed), c);
            && Sound(there) && SameShape(s.tree, there.tree) && WindowModes(s.tree, there.tree) &&
               s.focused in there.tree
            && Attached(there.tree, s.focused) && (mode != Global ==> SameModes(s.tree, there.tree))
  {
    var t := Shown(s, c, mode, delayed);
    ShownKeeps(s, c, mode, delayed);
    EnablingAttached(s.tree, c);
    assert Attached(t.tree, c) == Attached(s.tree, c);
    ActivatedKeeps(t, c);
    var there := Activated(t, c);
    ShapeTrans(s.tree, t.tree, there.tree);
    assert Attached(there.tree, s.focused) == Attached(s.tree, s.focused);
    forall x | x in s.tree
      ensures there.tree[x].fullscreen == s.tree[x].fullscreen ||
              (s.tree[x].ty == Workspace && there.tree[x].fullscreen != Global)
    {
      assert there.tree[x].fullscreen == t.tree[x].fullscreen;
    }
  }

  /** The focus goes to `c`, with its workspace for global mode; otherwise back to
    * where it was on another workspace. */
  ghost function Focusing(s: State, c: Con, mode: FullscreenMode, delayed: bool): State
    requires Sound(s) && Enabling(s.tree, c)
  {
    ShownKeeps(s, c, mode, delayed);
    var there := Activated(Shown(s, c, mode, delayed), c);
    if mode != Global && Elsewhere(s, c) then
      StillSound(s, c, mode, delayed);
      Activated(there, s.focused)
    else there
  }

  lemma ShownAttached(s: State, c: Con, mode: FullscreenMode, delayed: bool)
    requires Sound(s) && Enabling(s.tree, c)
    ensures var t := Shown(s, c, mode, delayed); Sound(t) && c in t.tree && Attached(t.tree, c)
  {
    ShownKeeps(s, c, mode, delayed);
    EnablingAttached(s.tree, c);
    assert Attached(Shown(s, c, mode, delayed).tree, c) == Attached(s.tree, c);
  }

  /** Nobody moves but floating containers to the top. */
  lemma FocusingKeeps(s: State, c: Con, mode: FullscreenMode, delayed: bool)
    requires Sound(s) && Enabling(s.tree, c)
    ensures var t := Focusing(s, c, mode, delayed);
            && Sound(t) && SameShape(s.tree, t.tree) && WindowModes(s.tree, t.tree) &&
               (mode != Global ==> SameModes(s.tree, t.tree))
  {
    StillSound(s, c, mode, delayed);
    if mode != Global && Elsewhere(s, c) {
      var there := Activated(s, c);
      ActivatedKeeps(there, s.focused);
      ShapeTrans(s.tree, there.tree, Activated(there, s.focused).tree);
      ModesTrans(s.tree, there.tree, Activated(there, s.focused).tree);
    }
  }

  /** What activating `c`, and then the old focus again, does to floating lists. */
  ghost function RaisedFor(s: State, c: Con): (g: Forest)
    requires Sound(s) && c in s.tree
    ensures Proper(g) && SameShape(s.tree, g)
  {
    var r := Raise(s.tree, c);
    if Elsewhere(s, c) then
      ShapeTrans(s.tree, r, Raise(r, s.focused));
      Raise(r, s.focused)
    else r
  }

  lemma FocusingLists(s: State, c: Con, mode: FullscreenMode, delayed: bool)
    requires Sound(s) && Enabling(s.tree, c) && mode != Global
    ensures SameLists(RaisedFor(s, c), Focusing(s, c, mode, delayed).tree)
  {
    StillSound(s, c, mode, delayed);
    var there := Activate(s.tree, c);
    ActivateKeeps(s.tree, c);
    if Elsewhere(s, c) {
      RaiseLists(Raise(s.tree, c), there, s.focused);
      ActivateKeeps(there, s.focused);
      ListsTrans(Raise(Raise(s.tree, c), s.focused), Raise(there, s.focused), Activate(there, s.focused));
    }
  }

  lemma FocusingExact(s: State, c: Con, mode: FullscreenMode, delayed: bool)
    requires Sound(s) && Enabling(s.tree, c) && Exact(s.tree)
    ensures Acyclic(Focusing(s, c, mode, delayed).tree) && Exact(Focusing(s, c, mode, delayed).tree)
  {
    StillSound(s, c, mode, delayed);
    if mode == Global && Elsewhere(s, c) { ShowKeepsExact(s, WorkspaceOf(s.tree, c), delayed); }
    var t := Shown(s, c, mode, delayed);
    ActivateKeepsExact(t.tree, c);
    if mode != Global && Elsewhere(s, c) { ActivateKeepsExact(Activated(t, c).tree, s.focused); }
  }

  lemma ClearedKeeps(s: State, off: Con?)
    requires Sound(s) && (off != null ==> off in s.tree)
    ensures Sound(State(Cleared(s.tree, off), s.focused)) && SameLists(s.tree, Cleared(s.tree, off))
    ensures SameFlags(s.tree, Cleared(s.tree, off))
    ensures forall c :: c in s.tree ==> WorkspaceOf(Cleared(s.tree, off), c) == WorkspaceOf(s.tree, c)
    ensures forall c :: Enabling(s.tree, c) ==> Enabling(Cleared(s.tree, off), c)
  {
    var f, g := s.tree, Cleared(s.tree, off);
    RemodedLists(f, g);
    SoundKept(s, State(g, s.focused));
    forall c | c in f ensures WorkspaceOf(g, c) == WorkspaceOf(f, c) && g[c].ty == f[c].ty {
      AncestryWorkspace(f, g, c);
      assert Attached(g, c) == Attached(f, c);
    }
  }

  ghost function Moded(s: State, c: Con, mode: FullscreenMode): State
    requires c in s.tree
  {
    State(WithMode(s.tree, c, mode), s.focused)
  }

  /** The focus and the mode, with nothing in the way. */
  ghost function FocusedOn(s: State, c: Con, mode: FullscreenMode, delayed: bool): State
    requires Sound(s) && Enabling(s.tree, c)
  {
    FocusingKeeps(s, c, mode, delayed);
    Moded(Focusing(s, c, mode, delayed), c, mode)
  }

  /** con_enable_fullscreen once `off` is found to be in the way. */
  ghost function Turned(s: State, off: Con?, c: Con, mode: FullscreenMode, delayed: bool): State
    requires Sound(s) && Enabling(s.tree, c) && (off != null ==> off in s.tree)
  {
    ClearedKeeps(s, off);
    var h := State(Cleared(s.tree, off), s.focused);
    FocusedOn(h, c, mode, delayed)
  }

  /** con_enable_fullscreen */
  ghost function Enable(s: State, root: Con, c: Con, mode: FullscreenMode, delayed: bool): State
    requires Sound(s) && root in s.tree && c in s.tree && WorkspaceOf(s.tree, c) != null
  {
    if s.tree[c].ty == Workspace || s.tree[c].fullscreen == mode then s
    else Turned(s, InTheWay(s.tree, root, c), c, mode, delayed)
  }

  ghost function TurnOff(s: State, c: Con): State
    requires c in s.tree
  {
    State(Disable(s.tree, c), s.focused)
  }

  /** con_toggle_fullscreen */
  ghost function Toggle(s: State, root: Con, c: Con, mode: FullscreenMode, delayed: bool): State
    requires Sound(s) && root in s.tree && c in s.tree && WorkspaceOf(s.tree, c) != null
  {
    if s.tree[c].ty == Workspace then s
    else if s.tree[c].fullscreen == NotFullscreen then Enable(s, root, c, mode, delayed)
    else TurnOff(s, c)
  }

  // ---------------------------------------------------------------- what they change

  /** `c` gets the mode and `off` loses its own; workspaces may become visible or
    * hidden. */
  ghost predicate Turns(f: Forest, g: Forest, off: Con?, c: Con, mode: FullscreenMode) {
    && SameShape(f, g) && c in f && g[c].fullscreen == mode
    && forall x {:trigger g[x].fullscreen} :: x in f && x != c ==>
         if f[x].ty == Workspace then
           g[x].fullscreen == f[x].fullscreen || (mode == Global && g[x].fullscreen != Global)
         else g[x].fullscreen == if x == off then NotFullscreen else f[x].fullscreen
  }

  lemma TurnedModes(f: Forest, h: Forest, k: Forest, off: Con?, c: Con, mode: FullscreenMode)
    requires (off != null ==> off in f) && h == Cleared(f, off) && c in f
    requires WindowModes(h, k) && (mode != Global ==> SameModes(h, k)) && SameShape(f, WithMode(k, c, mode))
    ensures Turns(f, WithMode(k, c, mode), off, c, mode)
  {
    var g := WithMode(k, c, mode);
    forall x | x in f && x != c
      ensures if f[x].ty == Workspace then g[x].fullscreen == f[x].fullscreen ||
              (mode == Global && g[x].fullscreen != Global)
              else g[x].fullscreen == if x == off then NotFullscreen else f[x].fullscreen
    {
      assert g[x].fullscreen == k[x].fullscreen;
      assert h[x].fullscreen == if x == off && f[x].ty != Workspace then NotFullscreen else f[x].fullscreen;
    }
  }

  lemma WithModeKeeps(s: State, c: Con, mode: FullscreenMode)
    requires Sound(s) && c in s.tree
    ensures var g := WithMode(s.tree, c, mode);
            Sound(State(g, s.focused)) && SameLists(s.tree, g) && SameFlags(s.tree, g)
  {
    RemodedLists(s.tree, WithMode(s.tree, c, mode));
    SoundKept(s, State(WithMode(s.tree, c, mode), s.focused));
  }

  lemma TurnedShape(f: Forest, h: Forest, k: Forest, g: Forest)
    requires SameShape(f, h) && SameShape(h, k) && SameShape(k, g)
    ensures SameShape(f, g)
  {
    ShapeTrans(f, h, k);
    ShapeTrans(f, k, g);
  }

  lemma TurnedEffect(s: State, off: Con?, c: Con, mode: FullscreenMode, delayed: bool)
    requires Sound(s) && Enabling(s.tree, c) && (off != null ==> off in s.tree)
    ensures var t := Turned(s, off, c, mode, delayed); Sound(t) && Turns(s.tree, t.tree, off, c, mode)
  {
    var h := State(Cleared(s.tree, off), s.focused);
    ClearedKeeps(s, off);
    FocusingKeeps(h, c, mode, delayed);
    var t := Focusing(h, c, mode, delayed);
    WithModeKeeps(t, c, mode);
    TurnedShape(s.tree, h.tree, t.tree, WithMode(t.tree, c, mode));
    TurnedModes(s.tree, h.tree, t.tree, off, c, mode);
  }

  lemma TurnedExact(s: State, off: Con?, c: Con, mode: FullscreenMode, delayed: bool)
    requires Sound(s) && Enabling(s.tree, c) && (off != null ==> off in s.tree) && Exact(s.tree)
    ensures Acyclic(Turned(s, off, c, mode, delayed).tree) && Exact(Turned(s, off, c, mode, delayed).tree)
  {
    var h := State(Cleared(s.tree, off), s.focused);
    ClearedKeeps(s, off);
    ShapeExact(s.tree, h.tree);
    FocusingKeeps(h, c, mode, delayed);
    FocusingExact(h, c, mode, delayed);
    var t := Focusing(h, c, mode, delayed);
    WithModeKeeps(t, c, mode);
    ShapeExact(t.tree, WithMode(t.tree, c, mode));
  }

  lemma SameElsewhere(s: State, t: State, c: Con)
    requires Sound(s) && Sound(t) && SameShape(s.tree, t.tree) && t.focused == s.focused && c in s.tree
    ensures Elsewhere(t, c) == Elsewhere(s, c)
  {
    AncestryWorkspace(s.tree, t.tree, c);
    AncestryWorkspace(s.tree, t.tree, s.focused);
  }

  lemma RaisedForLists(s: State, t: State, c: Con)
    requires Sound(s) && Sound(t) && SameLists(s.tree, t.tree) && t.focused == s.focused && c in s.tree
    ensures SameLists(RaisedFor(s, c), RaisedFor(t, c))
  {
    SameElsewhere(s, t, c);
    RaiseLists(s.tree, t.tree, c);
    if Elsewhere(s, c) { RaiseLists(Raise(s.tree, c), Raise(t.tree, c), s.focused); }
  }

  /** The lists afterwards, when no workspace is shown. */
  lemma TurnedLists(s: State, off: Con?, c: Con, mode: FullscreenMode, delayed: bool)
    requires Sound(s) && Enabling(s.tree, c) && (off != null ==> off in s.tree) && mode != Global
    ensures SameLists(RaisedFor(s, c), Turned(s, off, c, mode, delayed).tree)
  {
    var h := State(Cleared(s.tree, off), s.focused);
    ClearedKeeps(s, off);
    RaisedForLists(s, h, c);
    FocusingLists(h, c, mode, delayed);
    FocusingKeeps(h, c, mode, delayed);
    var t := Focusing(h, c, mode, delayed);
    WithModeKeeps(t, c, mode);
    ListsTrans(RaisedFor(s, c), RaisedFor(h, c), t.tree);
    ListsTrans(RaisedFor(s, c), t.tree, WithMode(t.tree, c, mode));
  }

  // ---------------------------------------------------------------- one global container

  /** A search sees the new modes on the old tree. */
  lemma ShapeHit(f: Forest, g: Forest, top: Con, mode: FullscreenMode, x: Con)
    requires Acyclic(f) && SameShape(f, g) && x in f
    ensures Hit(g, top, mode, x) <==> StrictlyInside(f, x, top) && g[x].fullscreen == mode
    ensures Level(g, x) == Level(f, x) && g[x].ty == f[x].ty
  {
    AncestryLine(f, g, x);
    assert Attached(g, x) == Attached(f, x);
  }

  /** At most one container below the root is globally fullscreen, and it is no
    * workspace. */
  ghost predicate OneGlobal(f: Forest, root: Con)
    requires Acyclic(f)
  {
    && (forall x, y :: x in f && y in f && Hit(f, root, Global, x) && Hit(f, root, Global, y) ==> x == y)
    && (forall x :: x in f && Hit(f, root, Global, x) ==> f[x].ty != Workspace)
  }

  /** Nobody but `c` is global. */
  lemma GlobalOnly(f: Forest, g: Forest, root: Con, c: Con)
    requires Acyclic(f) && SameShape(f, g) && c in f && f[c].ty != Workspace
    requires forall x :: x in f && x != c ==> !Hit(g, root, Global, x)
    ensures OneGlobal(g, root)
  {
    ShapeHit(f, g, root, Global, c);
  }

  lemma TurnsGlobalAt(f: Forest, g: Forest, root: Con, off: Con?, c: Con, mode: FullscreenMode, x: Con)
    requires WellFormed(f) && root in f && OneGlobal(f, root) && Turns(f, g, off, c, mode)
    requires WorkspaceOf(f, c) != null && off == InTheWay(f, root, c) && x in f && x != c
    ensures !Hit(g, root, Global, x)
  {
    ShapeHit(f, g, root, Global, x);
    ShapeHit(f, f, root, Global, x);
  }

  lemma TurnsGlobal(f: Forest, g: Forest, root: Con, off: Con?, c: Con, mode: FullscreenMode)
    requires WellFormed(f) && root in f && OneGlobal(f, root) && Turns(f, g, off, c, mode) && f[c].ty != Workspace
    requires WorkspaceOf(f, c) != null && off == InTheWay(f, root, c)
    ensures OneGlobal(g, root)
  {
    forall x | x in f && x != c ensures !Hit(g, root, Global, x) {
      TurnsGlobalAt(f, g, root, off, c, mode, x);
    }
    GlobalOnly(f, g, root, c);
  }

  /** What changes no window's mode. */
  lemma WindowsGlobal(f: Forest, g: Forest, root: Con)
    requires WellFormed(f) && SameShape(f, g) && WindowModes(f, g) && OneGlobal(f, root)
    ensures OneGlobal(g, root)
  {
    forall x | x in f ensures (Hit(g, root, Global, x) ==> Hit(f, root, Global, x)) && g[x].ty == f[x].ty {
      ShapeHit(f, g, root, Global, x);
      ShapeHit(f, f, root, Global, x);
    }
  }

  /** What each of the functions keeps. */
  ghost predicate Kept(s: State, t: State, root: Con)
    requires Acyclic(s.tree)
  {
    Sound(t) && SameShape(s.tree, t.tree) && OneGlobal(t.tree, root) && (Exact(s.tree) ==> Exact(t.tree))
  }

  lemma UnchangedKept(s: State, root: Con)
    requires Sound(s) && OneGlobal(s.tree, root)
    ensures Kept(s, s, root)
  {
    SoundKept(s, s);
  }

  lemma EnableKeeps(s: State, root: Con, c: Con, mode: FullscreenMode, delayed: bool)
    requires Sound(s) && root in s.tree && OneGlobal(s.tree, root) && c in s.tree && WorkspaceOf(s.tree, c) != null
    ensures Kept(s, Enable(s, root, c, mode, delayed), root)
  {
    if s.tree[c].ty == Workspace || s.tree[c].fullscreen == mode {
      UnchangedKept(s, root);
    } else {
      var off := InTheWay(s.tree, root, c);
      TurnedEffect(s, off, c, mode, delayed);
      TurnsGlobal(s.tree, Turned(s, off, c, mode, delayed).tree, root, off, c, mode);
      if Exact(s.tree) { TurnedExact(s, off, c, mode, delayed); }
    }
  }

  lemma TurnOffHit(f: Forest, g: Forest, root: Con, c: Con, x: Con)
    requires WellFormed(f) && c in f && x in f && g == Disable(f, c) && SameShape(f, g)
    ensures (Hit(g, root, Global, x) ==> Hit(f, root, Global, x)) && g[x].ty == f[x].ty
  {
    ShapeHit(f, g, root, Global, x);
  }

  lemma TurnOffGlobal(f: Forest, root: Con, c: Con)
    requires WellFormed(f) && OneGlobal(f, root) && c in f
    ensures WellFormed(Disable(f, c)) && OneGlobal(Disable(f, c), root)
  {
    var g := Disable(f, c);
    RemodedLists(f, g);
    forall x | x in f ensures (Hit(g, root, Global, x) ==> Hit(f, root, Global, x)) && g[x].ty == f[x].ty {
      TurnOffHit(f, g, root, c, x);
    }
  }

  lemma TurnOffKeeps(s: State, root: Con, c: Con)
    requires Sound(s) && OneGlobal(s.tree, root) && c in s.tree
    ensures Kept(s, TurnOff(s, c), root)
  {
    var g := Disable(s.tree, c);
    RemodedLists(s.tree, g);
    SoundKept(s, State(g, s.focused));
    TurnOffGlobal(s.tree, root, c);
    if Exact(s.tree) { ShapeExact(s.tree, g); }
  }

  lemma ToggleKeeps(s: State, root: Con, c: Con, mode: FullscreenMode, delayed: bool)
    requires Sound(s) && root in s.tree && OneGlobal(s.tree, root) && c in s.tree && WorkspaceOf(s.tree, c) != null
    ensures Kept(s, Toggle(s, root, c, mode, delayed), root)
  {
    if s.tree[c].ty == Workspace {
      UnchangedKept(s, root);
    } else if s.tree[c].fullscreen == NotFullscreen {
      EnableKeeps(s, root, c, mode, delayed);
    } else {
      TurnOffKeeps(s, root, c);
    }
  }

  // ---------------------------------------------------------------- where the focus goes

  /** Descending from any container above the focus ends at it. */
  ghost predicate Leading(t: State) {
    && Sound(t)
    && forall a :: a in t.tree && Inside(t.tree, t.focused, a) ==> Descend(t.tree, t.focused, a) == t.focused
  }

  lemma ActivatedLeading(s: State, c: Con)
    requires Sound(s) && c in s.tree && Attached(s.tree, c)
    ensures Leading(Activated(s, c))
  {
    ActivatedKeeps(s, c);
    ActivateLeads(s.tree, c);
    AncestryLine(s.tree, Activate(s.tree, c), c);
  }

  lemma BackBeside(f: Forest, top: Con, back: Con, x: Con)
    requires Proper(f) && top in f && back in f && x in f && Inside(f, x, top) && !Inside(f, back, top)
    ensures x in Activate(f, back) && Activate(f, back)[x].focus == f[x].focus && x != back
  {
    if Inside(f, back, x) { InsideTrans(f, back, x, top); }
    ActivateBeside(f, back, x);
  }

  /** The containers from `c` up to `top` keep leading down to `c`. */
  lemma BackLeads(f: Forest, top: Con, back: Con, line: seq<Con>)
    requires Proper(f) && top in f && back in f && !Inside(f, back, top)
    requires Leads(f, line) && forall x :: x in line ==> x in f && Inside(f, x, top)
    ensures Leads(Activate(f, back), line) && forall x :: x in line ==> x != back
  {
    forall x | x in line ensures x in Activate(f, back) && Activate(f, back)[x].focus == f[x].focus && x != back {
      BackBeside(f, top, back, x);
    }
    LeadsSame(f, Activate(f, back), line);
  }

  lemma {:induction false} LineInside(f: Forest, c: Con, top: Con, i: nat)
    requires Acyclic(f) && c in f && i < |Line(f, c)| && Line(f, c)[i] == top
    ensures forall j :: 0 <= j <= i ==> Line(f, c)[j] in f && Inside(f, Line(f, c)[j], top)
    decreases i
  {
    var line := Line(f, c);
    assert line[i] in line;
    if i > 0 {
      var rest := Line(f, f[c].parent);
      LineInside(f, f[c].parent, top, i - 1);
      forall j | 0 <= j <= i ensures line[j] in f && Inside(f, line[j], top) {
        if j > 0 { assert line[j] == rest[j - 1]; }
      }
    }
  }

  /** The part of the line above `c` up to `top`. */
  lemma LeadingPart(f: Forest, c: Con, top: Con) returns (line: seq<Con>)
    requires Acyclic(f) && c in f && Inside(f, c, top) && Leads(f, Line(f, c))
    ensures Leads(f, line) && line != [] && line[0] == c && line[|line| - 1] == top
    ensures forall x :: x in line ==> x in f && Inside(f, x, top)
  {
    var i := IndexOf(Line(f, c), top);
    LineInside(f, c, top, i);
    line := Line(f, c)[..i + 1];
  }

  lemma BackThrough(f: Forest, top: Con, back: Con, line: seq<Con>)
    requires Proper(f) && top in f && back in f && !Inside(f, back, top)
    requires Leads(f, line) && forall x :: x in line ==> x in f && Inside(f, x, top)
    requires line != [] && line[|line| - 1] == top
    ensures var g := Activate(f, back); line[0] in g && Descend(g, back, top) == Descend(g, back, line[0])
  {
    BackLeads(f, top, back, line);
    DescendThrough(Activate(f, back), back, line, |line| - 1);
  }

  lemma ThereLeads(s: State, c: Con)
    requires Sound(s) && c in s.tree && Attached(s.tree, c)
    ensures Sound(Activated(s, c)) && Leads(Activated(s, c).tree, Line(Activated(s, c).tree, c))
    ensures forall x :: x in s.tree ==> Line(Activated(s, c).tree, x) == Line(s.tree, x)
  {
    ActivatedKeeps(s, c);
    ActivateLeads(s.tree, c);
    forall x | x in s.tree ensures Line(Activated(s, c).tree, x) == Line(s.tree, x) {
      AncestryLine(s.tree, Activated(s, c).tree, x);
    }
  }

  /** Going to `c` and back leaves the way down from `top` to `c`. */
  lemma BackPasses(s: State, c: Con, top: Con)
    requires Sound(s) && c in s.tree && Attached(s.tree, c) && Inside(s.tree, c, top)
    requires top in s.tree && !Inside(s.tree, s.focused, top)
    ensures Proper(Activated(s, c).tree) && s.focused in Activated(s, c).tree
    ensures var g := Activate(Activated(s, c).tree, s.focused);
            c in g && top in g && Descend(g, s.focused, top) == Descend(g, s.focused, c)
  {
    ThereLeads(s, c);
    var there := Activated(s, c).tree;
    var line := LeadingPart(there, c, top);
    BackThrough(there, top, s.focused, line);
  }

  lemma FocusingPoints(s: State, c: Con, mode: FullscreenMode, delayed: bool)
    requires Sound(s) && Enabling(s.tree, c)
    ensures var t := Focusing(s, c, mode, delayed);
            && Leading(t) && t.focused == (if mode == Global || !Elsewhere(s, c) then c else s.focused)
  {
    StillSound(s, c, mode, delayed);
    ShownAttached(s, c, mode, delayed);
    ActivatedLeading(Shown(s, c, mode, delayed), c);
    if mode != Global && Elsewhere(s, c) {
      ActivatedLeading(Activated(s, c), s.focused);
    }
  }

  lemma FocusingPasses(s: State, c: Con, mode: FullscreenMode, delayed: bool)
    requires Sound(s) && Enabling(s.tree, c) && mode != Global && !Inside(s.tree, s.focused, WorkspaceOf(s.tree, c))
    ensures var t := Focusing(s, c, mode, delayed);
            && Sound(t) && c in t.tree && WorkspaceOf(s.tree, c) in t.tree
            && Descend(t.tree, s.focused, WorkspaceOf(s.tree, c)) == Descend(t.tree, s.focused, c)
  {
    FocusingKeeps(s, c, mode, delayed);
    BelowWorkspace(s.tree, c);
    BackPasses(s, c, WorkspaceOf(s.tree, c));
  }

  lemma FocusingVisible(s: State, c: Con, delayed: bool)
    requires Sound(s) && Enabling(s.tree, c) && Elsewhere(s, c)
    ensures var t := Focusing(s, c, Global, delayed);
            WorkspaceOf(s.tree, c) in t.tree && t.tree[WorkspaceOf(s.tree, c)].fullscreen == OnOutput
  {
    ShowMeans(s, WorkspaceOf(s.tree, c), delayed);
    ShownAttached(s, c, Global, delayed);
    ActivatedKeeps(Shown(s, c, Global, delayed), c);
  }

  lemma ModedDescend(t: State, c: Con, mode: FullscreenMode, x: Con)
    requires Sound(t) && c in t.tree && x in t.tree
    ensures var g := Moded(t, c, mode).tree;
            WellFormed(g) && x in g && Descend(g, t.focused, x) == Descend(t.tree, t.focused, x)
  {
    WithModeKeeps(t, c, mode);
    DescendSame(t.tree, Moded(t, c, mode).tree, t.focused, x);
  }

  lemma ModedLeading(t: State, c: Con, mode: FullscreenMode)
    requires Leading(t) && c in t.tree
    ensures Leading(Moded(t, c, mode))
  {
    var u := Moded(t, c, mode);
    WithModeKeeps(t, c, mode);
    AncestryLine(t.tree, u.tree, t.focused);
    forall a | a in u.tree && Inside(u.tree, u.focused, a) ensures Descend(u.tree, u.focused, a) == u.focused {
      ModedDescend(t, c, mode, a);
    }
  }

  lemma TurnedFocus(s: State, off: Con?, c: Con, mode: FullscreenMode, delayed: bool)
    requires Sound(s) && Enabling(s.tree, c) && (off != null ==> off in s.tree)
    ensures var t := Turned(s, off, c, mode, delayed);
            && Leading(t) && t.focused == (if mode == Global || !Elsewhere(s, c) then c else s.focused)
  {
    ClearedKeeps(s, off);
    var h := State(Cleared(s.tree, off), s.focused);
    FocusingPoints(h, c, mode, delayed);
    FocusingKeeps(h, c, mode, delayed);
    ModedLeading(Focusing(h, c, mode, delayed), c, mode);
  }

  lemma TurnedPasses(s: State, off: Con?, c: Con, mode: FullscreenMode, delayed: bool)
    requires Sound(s) && Enabling(s.tree, c) && (off != null ==> off in s.tree) && mode != Global && Elsewhere(s, c)
    requires !Inside(s.tree, s.focused, WorkspaceOf(s.tree, c))
    ensures var t := Turned(s, off, c, mode, delayed);
            && Sound(t) && c in t.tree && WorkspaceOf(s.tree, c) in t.tree
            && Descend(t.tree, s.focused, WorkspaceOf(s.tree, c)) == Descend(t.tree, s.focused, c)
  {
    ClearedKeeps(s, off);
    var h := State(Cleared(s.tree, off), s.focused);
    AncestryLine(s.tree, h.tree, s.focused);
    FocusingPasses(h, c, mode, delayed);
    FocusingPoints(h, c, mode, delayed);
    var t := Focusing(h, c, mode, delayed);
    WithModeKeeps(t, c, mode);
    ModedDescend(t, c, mode, c);
    ModedDescend(t, c, mode, WorkspaceOf(s.tree, c));
  }

  lemma FocusedVisible(s: State, c: Con, delayed: bool)
    requires Sound(s) && Enabling(s.tree, c) && Elsewhere(s, c)
    ensures var g := FocusedOn(s, c, Global, delayed).tree;
            WorkspaceOf(s.tree, c) in g && g[WorkspaceOf(s.tree, c)].fullscreen == OnOutput
  {
    FocusingVisible(s, c, delayed);
    BelowWorkspace(s.tree, c);
    assert WorkspaceOf(s.tree, c) != c;
  }

  lemma ClearedElsewhere(s: State, off: Con?, c: Con)
    requires Sound(s) && Enabling(s.tree, c) && (off != null ==> off in s.tree)
    ensures var h := State(Cleared(s.tree, off), s.focused);
            && Sound(h) && Enabling(h.tree, c) && WorkspaceOf(h.tree, c) == WorkspaceOf(s.tree, c)
            && Elsewhere(h, c) == Elsewhere(s, c)
  {
    ClearedKeeps(s, off);
  }

  lemma TurnedVisible(s: State, off: Con?, c: Con, delayed: bool)
    requires Sound(s) && Enabling(s.tree, c) && (off != null ==> off in s.tree) && Elsewhere(s, c)
    ensures var g := Turned(s, off, c, Global, delayed).tree;
            WorkspaceOf(s.tree, c) in g && g[WorkspaceOf(s.tree, c)].fullscreen == OnOutput
  {
    ClearedElsewhere(s, off, c);
    FocusedVisible(State(Cleared(s.tree, off), s.focused), c, delayed);
  }

  /** A container enabled for all outputs, or on the workspace that has the focus,
    * gets it; otherwise the focus stays, and the container is what descending from
    * its workspace comes to.  For all outputs its workspace is made visible. */
  lemma EnableFocus(s: State, root: Con, c: Con, mode: FullscreenMode, delayed: bool)
    requires Sound(s) && root in s.tree && Enabling(s.tree, c) && s.tree[c].fullscreen != mode
    ensures var t := Enable(s, root, c, mode, delayed);
            var ws := WorkspaceOf(s.tree, c);
            && Leading(t) && t.tree.Keys == s.tree.Keys && t.tree[c].fullscreen == mode
            && t.focused == (if mode == Global || WorkspaceOf(s.tree, s.focused) == ws then c else s.focused)
            && (t.focused != c && !Inside(s.tree, s.focused, ws) ==>
                  Descend(t.tree, t.focused, ws) == Descend(t.tree, t.focused, c))
            && (mode == Global && WorkspaceOf(s.tree, s.focused) != ws ==> t.tree[ws].fullscreen == OnOutput)
  {
    var off := InTheWay(s.tree, root, c);
    TurnedEffect(s, off, c, mode, delayed);
    TurnedFocus(s, off, c, mode, delayed);
    if Elsewhere(s, c) {
      if mode == Global {
        TurnedVisible(s, off, c, delayed);
      } else if !Inside(s.tree, s.focused, WorkspaceOf(s.tree, c)) {
        TurnedPasses(s, off, c, mode, delayed);
      }
    }
  }

  /** A workspace is left alone; another container is off afterwards if it was on
    * in any mode, and that is all, and otherwise it has the mode asked for. */
  lemma ToggleMeans(s: State, root: Con, c: Con, mode: FullscreenMode, delayed: bool)
    requires Sound(s) && root in s.tree && c in s.tree && WorkspaceOf(s.tree, c) != null && mode != NotFullscreen
    ensures var t := Toggle(s, root, c, mode, delayed);
            var was := s.tree[c].fullscreen;
            && c in t.tree
            && (s.tree[c].ty == Workspace ==> t == s)
            && (s.tree[c].ty != Workspace ==>
                  t.tree[c].fullscreen == if was == NotFullscreen then mode else NotFullscreen)
            && (was != NotFullscreen ==> t.focused == s.focused && t.tree.Keys == s.tree.Keys &&
                                         forall x :: x in s.tree && x != c ==> t.tree[x] == s.tree[x])
  {
    if s.tree[c].ty != Workspace && s.tree[c].fullscreen == NotFullscreen {
      EnableFocus(s, root, c, mode, delayed);
    }
  }

  // ---------------------------------------------------------------- per workspace

  ghost predicate AtMostOne(f: Forest, top: Con, mode: FullscreenMode)
    requires Acyclic(f)
  {
    forall x, y :: x in f && y in f && Hit(f, top, mode, x) && Hit(f, top, mode, y) ==> x == y
  }

  lemma TurnsHit(f: Forest, g: Forest, off: Con?, c: Con, ws: Con, x: Con)
    requires WellFormed(f) && Turns(f, g, off, c, OnOutput) && StrictlyInside(f, c, ws) && x in f
    ensures Hit(g, ws, OnOutput, x) <==> x == c || (Hit(f, ws, OnOutput, x) && (x == off ==> f[x].ty == Workspace))
  {
    ShapeHit(f, g, ws, OnOutput, x);
    ShapeHit(f, f, ws, OnOutput, x);
  }

  lemma OutputCase(f: Forest, g: Forest, root: Con, ws: Con, off: Con?, c: Con)
    requires Acyclic(f) && Acyclic(g) && g.Keys == f.Keys && c in f && f[c].fullscreen != OnOutput &&
             AtMostOne(f, ws, OnOutput)
    requires if NoHit(f, root, Global) then off == null ==> NoHit(f, ws, OnOutput)
             else off != null && off in f && f[off].fullscreen == Global
    requires NoHit(f, root, Global) && off != null ==> Hit(f, ws, OnOutput, off)
    requires forall x :: x in f && Hit(f, ws, OnOutput, x) ==> f[x].ty != Workspace
    requires forall x :: x in f ==>
             (Hit(g, ws, OnOutput, x) <==> x == c || (Hit(f, ws, OnOutput, x) && (x == off ==> f[x].ty == Workspace)))
    ensures AtMostOne(g, ws, OnOutput) <==> NoHit(f, root, Global) || NoHit(f, ws, OnOutput)
  {
    if !NoHit(f, root, Global) && !NoHit(f, ws, OnOutput) {
      var y :| y in f && Hit(f, ws, OnOutput, y);
      assert Hit(g, ws, OnOutput, y) && Hit(g, ws, OnOutput, c) && y != c;
    }
  }

  lemma TurnsOnOutput(f: Forest, g: Forest, root: Con, ws: Con, off: Con?, c: Con)
    requires WellFormed(f) && root in f && Turns(f, g, off, c, OnOutput) && f[c].fullscreen != OnOutput &&
             StrictlyInside(f, c, ws)
    requires WorkspaceOf(f, c) == ws && off == InTheWay(f, root, c) && AtMostOne(f, ws, OnOutput)
    requires forall x :: x in f && Hit(f, ws, OnOutput, x) ==> f[x].ty != Workspace
    ensures AtMostOne(g, ws, OnOutput) <==> NoHit(f, root, Global) || NoHit(f, ws, OnOutput)
  {
    forall x | x in f
      ensures Hit(g, ws, OnOutput, x) <==> x == c || (Hit(f, ws, OnOutput, x) && (x == off ==> f[x].ty == Workspace))
    {
      TurnsHit(f, g, off, c, ws, x);
    }
    OutputCase(f, g, root, ws, off, c);
  }

  /** For fullscreen on an output it is not the same: when a global container
    * exists, that is the only one turned off.  A workspace that had at most one
    * keeps at most one exactly when no global container is in the way or no
    * other container of it was fullscreen. */
  lemma EnableOnOutput(s: State, root: Con, c: Con, delayed: bool)
    requires Sound(s) && root in s.tree && Enabling(s.tree, c) && s.tree[c].fullscreen != OnOutput
    requires AtMostOne(s.tree, WorkspaceOf(s.tree, c), OnOutput)
    requires forall x :: x in s.tree && Hit(s.tree, WorkspaceOf(s.tree, c), OnOutput, x) ==> s.tree[x].ty != Workspace
    ensures var t := Enable(s, root, c, OnOutput, delayed);
            && Sound(t) && (AtMostOne(t.tree, WorkspaceOf(s.tree, c), OnOutput) <==>
                              NoHit(s.tree, root, Global) || NoHit(s.tree, WorkspaceOf(s.tree, c), OnOutput))
  {
    var off := InTheWay(s.tree, root, c);
    BelowWorkspace(s.tree, c);
    TurnedEffect(s, off, c, OnOutput, delayed);
    TurnsOnOutput(s.tree, Turned(s, off, c, OnOutput, delayed).tree, root, WorkspaceOf(s.tree, c), off, c);
  }

  // ---------------------------------------------------------------- on the heap

  method ConDisableFullscreen(con: Con, ghost cons: set<Con>)
    requires con in cons
    modifies con`fullscreen
    ensures View(cons) == Disable(old(View(cons)), con)
  {
    if con.ty == Workspace {
      return;
    }
    if con.fullscreen == NotFullscreen {
      assert View(cons)[con] == Snapshot(con);
      return;
    }
    SetFullscreenMode(con, NotFullscreen, cons);
  }

  /** Finding what enabling a container of `ws` conflicts with. */
  method FindConflict(con: Con, ws: Con, root: Con, ghost cons: set<Con>) returns (fullscreen: Con?)
    requires con in cons && root in cons && ws in cons && WellFormed(View(cons)) && WorkspaceOf(View(cons), con) == ws
    ensures fullscreen == InTheWay(View(cons), root, con)
  {
    fullscreen := ConGetFullscreenCon(root, Global, cons);
    if fullscreen == null {
      fullscreen := ConGetFullscreenCon(ws, OnOutput, cons);
    }
  }

  lemma ClearedEnabling(s: State, off: Con?, c: Con)
    requires Sound(s) && Enabling(s.tree, c) && (off != null ==> off in s.tree)
    ensures var h := State(Cleared(s.tree, off), s.focused);
            Sound(h) && Enabling(h.tree, c) && WorkspaceOf(h.tree, c) == WorkspaceOf(s.tree, c)
  {
    ClearedKeeps(s, off);
  }

  method ShowTarget(con: Con, ws: Con, mode: FullscreenMode, delayed: bool, session: FocusOps.Session,
                    ghost cons: set<Con>)
    returns (away: bool)
    requires con in cons && ws in cons && session.focused in cons && Sound(State(View(cons), session.focused))
    requires Enabling(View(cons), con) && WorkspaceOf(View(cons), con) == ws
    modifies session`focused, cons`focus, cons`urgent, cons`urgencyTimer, cons`fullscreen
    ensures session.focused in cons && away == old(Elsewhere(State(View(cons), session.focused), con))
    ensures State(View(cons), session.focused) == Shown(old(State(View(cons), session.focused)), con, mode, delayed)
  {
    RootedTopped(View(cons), session.focused);
    var currentWs := ConGetWorkspace(session.focused, cons);
    away := currentWs != ws;
    if mode == Global && away {
      assert View(cons)[ws] == Snapshot(ws);
      WorkspaceShow(ws, delayed, session, cons);
    }
  }

  /** The change of focus in con_enable_fullscreen. */
  method MoveFocus(con: Con, ws: Con, mode: FullscreenMode, delayed: bool, session: FocusOps.Session,
                   ghost cons: set<Con>)
    requires con in cons && ws in cons && session.focused in cons && Sound(State(View(cons), session.focused))
    requires Enabling(View(cons), con) && WorkspaceOf(View(cons), con) == ws
    modifies session`focused, cons`focus, cons`urgent, cons`urgencyTimer, cons`floats, cons`fullscreen
    ensures session.focused in cons
    ensures State(View(cons), session.focused) == Focusing(old(State(View(cons), session.focused)), con, mode, delayed)
  {
    ghost var s := State(View(cons), session.focused);
    var oldFocused: Con := session.focused;
    StillSound(s, con, mode, delayed);
    var away := ShowTarget(con, ws, mode, delayed, session, cons);
    ShownAttached(s, con, mode, delayed);
    ConActivate(con, session, cons);
    if mode != Global && away {
      ConActivate(oldFocused, session, cons);
    }
  }

  /** The way is clear: what is left gives `t`. */
  ghost predicate ClearFor(s: State, c: Con, ws: Con, mode: FullscreenMode, delayed: bool, t: State) {
    Sound(s) && Enabling(s.tree, c) && WorkspaceOf(s.tree, c) == ws && t == FocusedOn(s, c, mode, delayed)
  }

  lemma ClearedFor(s: State, root: Con, c: Con, ws: Con, mode: FullscreenMode, delayed: bool)
    requires Sound(s) && root in s.tree && Enabling(s.tree, c) && WorkspaceOf(s.tree, c) == ws &&
             s.tree[c].fullscreen != mode
    ensures var off := InTheWay(s.tree, root, c);
            ClearFor(State(Cleared(s.tree, off), s.focused), c, ws, mode, delayed, Enable(s, root, c, mode, delayed))
  {
    ClearedEnabling(s, InTheWay(s.tree, root, c), c);
  }

  method SetMode(con: Con, mode: FullscreenMode, session: FocusOps.Session, ghost cons: set<Con>)
    requires con in cons && session.focused in cons
    modifies con`fullscreen
    ensures State(View(cons), session.focused) == Moded(old(State(View(cons), session.focused)), con, mode)
  {
    SetFullscreenMode(con, mode, cons);
  }

  method FocusAndSet(con: Con, ws: Con, mode: FullscreenMode, delayed: bool, session: FocusOps.Session,
                     ghost cons: set<Con>)
    requires con in cons && ws in cons && session.focused in cons && Sound(State(View(cons), session.focused))
    requires Enabling(View(cons), con) && WorkspaceOf(View(cons), con) == ws
    modifies session`focused, cons`focus, cons`urgent, cons`urgencyTimer, cons`floats, cons`fullscreen
    ensures session.focused in cons
    ensures State(View(cons), session.focused) == FocusedOn(old(State(View(cons), session.focused)), con, mode, delayed)
  {
    MoveFocus(con, ws, mode, delayed, session, cons);
    SetMode(con, mode, session, cons);
  }

  method ClearTheWay(con: Con, ws: Con, root: Con, ghost cons: set<Con>)
    requires con in cons && root in cons && ws in cons && WellFormed(View(cons)) && WorkspaceOf(View(cons), con) == ws
    modifies cons`fullscreen
    ensures View(cons) == Cleared(old(View(cons)), InTheWay(old(View(cons)), root, con))
  {
    var fullscreen := FindConflict(con, ws, root, cons);
    if fullscreen != null {
      ConDisableFullscreen(fullscreen, cons);
    }
  }

  method ClearFirst(con: Con, ws: Con, root: Con, mode: FullscreenMode, delayed: bool, ghost cons: set<Con>,
                    ghost s: State)
    requires con in cons && root in cons && ws in cons && Sound(s) && s.tree == View(cons)
    requires Enabling(s.tree, con) && WorkspaceOf(s.tree, con) == ws && s.tree[con].fullscreen != mode
    modifies cons`fullscreen
    ensures ClearFor(State(View(cons), s.focused), con, ws, mode, delayed, Enable(s, root, con, mode, delayed))
  {
    ClearedFor(s, root, con, ws, mode, delayed);
    ClearTheWay(con, ws, root, cons);
  }

  /** Once it is known that there is something to do. */
  method TurnOn(con: Con, ws: Con, mode: FullscreenMode, root: Con, delayed: bool, session: FocusOps.Session,
                ghost cons: set<Con>, ghost s: State)
    requires con in cons && root in cons && ws in cons && session.focused in cons && Sound(s) &&
             s == State(View(cons), session.focused)
    requires Enabling(s.tree, con) && WorkspaceOf(s.tree, con) == ws && s.tree[con].fullscreen != mode
    modifies session`focused, cons`focus, cons`urgent, cons`urgencyTimer, cons`floats, cons`fullscreen
    ensures session.focused in cons && State(View(cons), session.focused) == Enable(s, root, con, mode, delayed)
  {
    ClearFirst(con, ws, root, mode, delayed, cons, s);
    ghost var h := State(View(cons), s.focused);
    assert session.focused == h.focused;
    FocusAndSet(con, ws, mode, delayed, session, cons);
  }

  /** con_enable_fullscreen */
  method ConEnableFullscreen(con: Con, mode: FullscreenMode, root: Con, delayed: bool, session: FocusOps.Session,
                             ghost cons: set<Con>)
    requires con in cons && root in cons && session.focused in cons && Sound(State(View(cons), session.focused))
    requires WorkspaceOf(View(cons), con) != null && mode != NotFullscreen
    modifies session`focused, cons`focus, cons`urgent, cons`urgencyTimer, cons`floats, cons`fullscreen
    ensures session.focused in cons
    ensures State(View(cons), session.focused) ==
            Enable(old(State(View(cons), session.focused)), root, con, mode, delayed)
  {
    assert View(cons)[con] == Snapshot(con);
    if con.ty == Workspace {
      return;
    }
    if con.fullscreen == mode {
      return;
    }
    ghost var s := State(View(cons), session.focused);
    RootedTopped(s.tree, con);
    var ws := ConGetWorkspace(con, cons);
    TurnOn(con, ws, mode, root, delayed, session, cons, s);
  }

  /** con_toggle_fullscreen */
  method ConToggleFullscreen(con: Con, mode: FullscreenMode, root: Con, delayed: bool, session: FocusOps.Session,
                             ghost cons: set<Con>)
    requires con in cons && root in cons && session.focused in cons && Sound(State(View(cons), session.focused))
    requires WorkspaceOf(View(cons), con) != null && mode != NotFullscreen
    modifies session`focused, cons`focus, cons`urgent, cons`urgencyTimer, cons`floats, cons`fullscreen
    ensures session.focused in cons
    ensures State(View(cons), session.focused) ==
            Toggle(old(State(View(cons), session.focused)), root, con, mode, delayed)
  {
    ghost var s := State(View(cons), session.focused);
    assert s.tree[con] == Snapshot(con);
    if con.ty == Workspace {
      return;
    }
    if con.fullscreen == NotFullscreen {
      ConEnableFullscreen(con, mode, root, delayed, session, cons);
    } else {
      ConDisableFullscreen(con, cons);
      assert session.focused == s.focused;
    }
  }
}
