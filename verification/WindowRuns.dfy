/** Runs of focusing, hints, fullscreen commands and swaps. */
module WindowRuns {
  import opened Order
  import opened Containers
  import opened Focus
  import opened Swapping
  import opened Urgency
  import opened FocusUrgency
  import opened SwapFocus
  import opened Workspaces
  import opened Activation
  import opened Showing
  import opened Fullscreen
  import opened SwapModes
  import opened SwapWhole

  datatype Action =
    | ToFocus(con: Con)                          // con_focus
    | ToActivate(con: Con)                       // con_activate
    | ToShow(con: Con)                           // workspace_show
    | ToHint(con: Con, urgent: bool)             // con_set_urgency
    | ToEnable(con: Con, mode: FullscreenMode)   // con_enable_fullscreen
    | ToDisable(con: Con)                        // con_disable_fullscreen
    | ToToggle(con: Con, mode: FullscreenMode)   // con_toggle_fullscreen
    | ToSwap(con: Con, other: Con)               // con_swap

  /** What the functions ask of their callers: a container of the tree; a window
    * for a hint; fullscreen and swapped containers are below workspaces. */
  ghost predicate Allowed(s: State, root: Con, action: Action)
    requires Sound(s) && root in s.tree
  {
    action.con in s.tree &&
    match action
    case ToFocus(c) => Attached(s.tree, c)
    case ToActivate(c) => Attached(s.tree, c)
    case ToShow(ws) => s.tree[ws].ty == Workspace
    case ToHint(c, urgent) => Leaf(s.tree, c) && Tracked(s.tree, c)
    case ToEnable(c, mode) => WorkspaceOf(s.tree, c) != null && mode != NotFullscreen
    case ToDisable(c) => true
    case ToToggle(c, mode) => WorkspaceOf(s.tree, c) != null && mode != NotFullscreen
    case ToSwap(a, b) => a != b ==> Ready(s, root, a, b)
  }

  ghost function Hinting(s: State, c: Con, urgent: bool): State
    requires Sound(s) && c in s.tree
  {
    State(SetUrgency(s.tree, s.focused, c, urgent), s.focused)
  }

  ghost function Next(s: State, root: Con, action: Action, delayed: bool): State
    requires Sound(s) && root in s.tree && Allowed(s, root, action)
  {
    match action
    case ToFocus(c) => State(Refocus(s.tree, c), c)
    case ToActivate(c) => Activated(s, c)
    case ToShow(ws) => Show(s, ws, delayed)
    case ToHint(c, urgent) => Hinting(s, c, urgent)
    case ToEnable(c, mode) => Enable(s, root, c, mode, delayed)
    case ToDisable(c) => TurnOff(s, c)
    case ToToggle(c, mode) => Toggle(s, root, c, mode, delayed)
    case ToSwap(a, b) => if CanSwap(s.tree, a, b) then SwapEntirely(s, root, a, b, delayed) else s
  }

  /** The urgent container that con_swap leaves the focus on has its hint taken
    * up where it comes to. */
  ghost predicate HintsArrive(s: State, action: Action)
    requires Sound(s) && action.con in s.tree
  {
    action.ToSwap? && CanSwap(s.tree, action.con, action.other) ==>
      var focus := NewFocus(s.tree, s.focused, action.con, action.other);
      && Tracked(s.tree, action.con) && Tracked(s.tree, action.other)
      && Arrives(s.tree, focus, action.con, action.other) && Arrives(s.tree, focus, action.other, action.con)
  }

  /** What every step keeps; flags unless a hint is lost. */
  ghost predicate Good(s: State, root: Con) {
    Sound(s) && root in s.tree && OneGlobal(s.tree, root)
  }

  lemma NobodyMoves(s: State, t: State, root: Con)
    requires Good(s, root) && Sound(t) && SameShape(s.tree, t.tree) && WindowModes(s.tree, t.tree)
    ensures Good(t, root)
  {
    WindowsGlobal(s.tree, t.tree, root);
  }

  lemma FocusStep(s: State, root: Con, c: Con)
    requires Good(s, root) && c in s.tree && Attached(s.tree, c)
    ensures var t := State(Refocus(s.tree, c), c); Good(t, root) && (Exact(s.tree) ==> Exact(t.tree))
  {
    RefocusProper(s.tree, c);
    var t := State(Refocus(s.tree, c), c);
    SoundKept(s, t);
    NobodyMoves(s, t, root);
    if Exact(s.tree) { FocusKeepsExact(s.tree, c); }
  }

  lemma ActivateStep(s: State, root: Con, c: Con)
    requires Good(s, root) && c in s.tree && Attached(s.tree, c)
    ensures Good(Activated(s, c), root) && (Exact(s.tree) ==> Exact(Activated(s, c).tree))
  {
    ActivatedKeeps(s, c);
    NobodyMoves(s, Activated(s, c), root);
    if Exact(s.tree) { ActivateKeepsExact(s.tree, c); }
  }

  lemma ShowStep(s: State, root: Con, ws: Con, delayed: bool)
    requires Good(s, root) && ws in s.tree && s.tree[ws].ty == Workspace
    ensures Good(Show(s, ws, delayed), root) && (Exact(s.tree) ==> Exact(Show(s, ws, delayed).tree))
  {
    ShowKeeps(s, ws, delayed);
    NobodyMoves(s, Show(s, ws, delayed), root);
    if Exact(s.tree) { ShowKeepsExact(s, ws, delayed); }
  }

  lemma HintShape(f: Forest, focused: Con?, c: Con, urgent: bool)
    requires WellFormed(f) && c in f
    ensures SameLists(f, SetUrgency(f, focused, c, urgent)) && SameModes(f, SetUrgency(f, focused, c, urgent))
  {
    var g := SetUrgency(f, focused, c, urgent);
    HintedKeeps(f, c, urgent);
    assert Reflagged(f, g);
    ReflaggedLists(f, g);
  }

  lemma HintStep(s: State, root: Con, c: Con, urgent: bool)
    requires Good(s, root) && c in s.tree && Leaf(s.tree, c) && Tracked(s.tree, c)
    ensures Good(Hinting(s, c, urgent), root) && (Exact(s.tree) ==> Exact(Hinting(s, c, urgent).tree))
  {
    HintShape(s.tree, s.focused, c, urgent);
    SoundKept(s, Hinting(s, c, urgent));
    NobodyMoves(s, Hinting(s, c, urgent), root);
    if Exact(s.tree) { SetLeafKeepsExact(s.tree, s.focused, c, urgent); }
  }

  lemma ModeStep(s: State, root: Con, action: Action, delayed: bool)
    requires Good(s, root) && Allowed(s, root, action) && (action.ToEnable? || action.ToDisable? || action.ToToggle?)
    ensures var t := Next(s, root, action, delayed); Good(t, root) && (Exact(s.tree) ==> Exact(t.tree))
  {
    match action
    case ToEnable(c, mode) => EnableKeeps(s, root, c, mode, delayed);
    case ToDisable(c) => TurnOffKeeps(s, root, c);
    case ToToggle(c, mode) => ToggleKeeps(s, root, c, mode, delayed);
  }

  lemma SwapStep(s: State, root: Con, a: Con, b: Con, delayed: bool)
    requires Good(s, root) && Swappable(s, root, a, b)
    ensures var t := SwapEntirely(s, root, a, b, delayed);
            Good(t, root) && (Exact(s.tree) && HintsArrive(s, ToSwap(a, b)) ==> Exact(t.tree))
  {
    SwapGood(s, root, a, b, delayed);
    if Exact(s.tree) && HintsArrive(s, ToSwap(a, b)) { SwapKeepsExact(s, root, a, b, delayed); }
  }

  lemma StepKeeps(s: State, root: Con, action: Action, delayed: bool)
    requires Good(s, root) && Allowed(s, root, action)
    ensures var t := Next(s, root, action, delayed);
            Good(t, root) && (Exact(s.tree) && HintsArrive(s, action) ==> Exact(t.tree))
  {
    match action
    case ToFocus(c) => FocusStep(s, root, c);
    case ToActivate(c) => ActivateStep(s, root, c);
    case ToShow(ws) => ShowStep(s, root, ws, delayed);
    case ToHint(c, urgent) => HintStep(s, root, c, urgent);
    case ToSwap(a, b) => if CanSwap(s.tree, a, b) { SwapStep(s, root, a, b, delayed); }
    case _ => ModeStep(s, root, action, delayed);
  }

  /** A step of a run does what its call is for: it gives a hint ... */
  lemma HintMeans(s: State, root: Con, c: Con, urgent: bool, delayed: bool)
    requires Good(s, root) && Allowed(s, root, ToHint(c, urgent))
    ensures var t := Next(s, root, ToHint(c, urgent), delayed);
            && c in t.tree && t.focused == s.focused
            && t.tree[c].urgent == if s.tree[c].urgencyTimer || (urgent && s.focused == c) then s.tree[c].urgent
                                   else urgent
  {
    HintTaken(s.tree, s.focused, c, urgent, c);
  }

  lemma EnableMeans(s: State, root: Con, c: Con, mode: FullscreenMode, delayed: bool)
    requires Good(s, root) && Allowed(s, root, ToEnable(c, mode)) && s.tree[c].ty != Workspace
    ensures var g := Enable(s, root, c, mode, delayed).tree; c in g && g[c].fullscreen == mode
  {
    if s.tree[c].fullscreen != mode { EnableFocus(s, root, c, mode, delayed); }
  }

  /** ... or a mode ... */
  lemma ModeMeans(s: State, root: Con, action: Action, delayed: bool)
    requires Good(s, root) && Allowed(s, root, action) && s.tree[action.con].ty != Workspace
    requires action.ToEnable? || action.ToDisable? || action.ToToggle?
    ensures var c, g := action.con, Next(s, root, action, delayed).tree;
            && c in g && (action.ToEnable? ==> g[c].fullscreen == action.mode)
            && (action.ToDisable? ==> g[c].fullscreen == NotFullscreen)
            && (action.ToToggle? ==>
                  g[c].fullscreen == if s.tree[c].fullscreen == NotFullscreen then action.mode else NotFullscreen)
  {
    match action
    case ToEnable(c, mode) => EnableMeans(s, root, c, mode, delayed);
    case ToDisable(c) =>
    case ToToggle(c, mode) => ToggleMeans(s, root, c, mode, delayed);
  }

  /** ... or moves the focus ... */
  lemma FocusMeans(s: State, root: Con, action: Action, delayed: bool)
    requires Good(s, root) && Allowed(s, root, action) && (action.ToFocus? || action.ToActivate? || action.ToShow?)
    ensures var t := Next(s, root, action, delayed);
            && Sound(t) && action.con in t.tree
            && (!action.ToShow? ==> t.focused == action.con && Leads(t.tree, Line(s.tree, action.con)))
            && (action.ToShow? ==> Inside(t.tree, t.focused, action.con))
  {
    StepKeeps(s, root, action, delayed);
    match action
    case ToFocus(c) => FocusLeads(s.tree, c);
    case ToActivate(c) => ActivateLeads(s.tree, c);
    case ToShow(ws) => ShowMeans(s, ws, delayed);
  }

  /** ... or exchanges two containers, if they can be. */
  lemma SwapMeans(s: State, root: Con, a: Con, b: Con, delayed: bool)
    requires Good(s, root) && Allowed(s, root, ToSwap(a, b))
    ensures var t := Next(s, root, ToSwap(a, b), delayed);
            && (CanSwap(s.tree, a, b) ==> TakesPlace(s.tree, t.tree, a, b) && TakesPlace(s.tree, t.tree, b, a))
            && (!CanSwap(s.tree, a, b) ==> t == s)
  {
    if CanSwap(s.tree, a, b) { SwapPlaces(s, root, a, b, delayed); }
  }

  // ---------------------------------------------------------------- runs

  ghost function GoodFor(root: Con): State -> bool {
    s => Good(s, root)
  }

  /** Every split below the workspaces is flagged exactly when an urgent window is
    * in it. */
  ghost predicate Flagged(s: State) {
    WellFormed(s.tree) && Exact(s.tree)
  }

  ghost function FlaggedToo(): State -> bool {
    s => Flagged(s)
  }

  /** What a call makes of a good state, if its caller may make it. */
  ghost function Outcome(s: State, root: Con, action: Action, delayed: bool): Option<State> {
    if Good(s, root) && Allowed(s, root, action) then Some(Next(s, root, action, delayed)) else None
  }

  /** The relation that a call is; every state of a run turns out to be good. */
  ghost function Call(root: Con, action: Action, delayed: bool): (State, State) -> bool {
    (s, t) => Good(s, root) ==> Outcome(s, root, action, delayed) == Some(t)
  }

  /** The call is no swap that loses a hint. */
  ghost function Lossless(root: Con, action: Action): State -> bool {
    s => Good(s, root) && Allowed(s, root, action) ==> HintsArrive(s, action)
  }

  lemma CallSteps(s: State, t: State, root: Con, action: Action, delayed: bool)
    requires Good(s, root) && Allowed(s, root, action) && t == Next(s, root, action, delayed)
    ensures Call(root, action, delayed)(s, t)
  {
  }

  lemma EnableSteps(s: State, root: Con, c: Con, mode: FullscreenMode, delayed: bool)
    requires Good(s, root) && c in s.tree && WorkspaceOf(s.tree, c) != null && mode != NotFullscreen
    ensures var t := Enable(s, root, c, mode, delayed); Good(t, root) && Call(root, ToEnable(c, mode), delayed)(s, t)
  {
    EnableKeeps(s, root, c, mode, delayed);
    CallSteps(s, Enable(s, root, c, mode, delayed), root, ToEnable(c, mode), delayed);
  }

  lemma SwapSteps(s: State, root: Con, a: Con, b: Con, delayed: bool)
    requires Good(s, root) && Swappable(s, root, a, b)
    ensures Call(root, ToSwap(a, b), delayed)(s, SwapEntirely(s, root, a, b, delayed))
  {
    CallSteps(s, SwapEntirely(s, root, a, b, delayed), root, ToSwap(a, b), delayed);
  }

  lemma CallGood(s: State, t: State, root: Con, action: Action, delayed: bool)
    requires GoodFor(root)(s) && Call(root, action, delayed)(s, t)
    ensures GoodFor(root)(t)
  {
    StepKeeps(s, root, action, delayed);
  }

  lemma CallFlags(s: State, t: State, root: Con, action: Action, delayed: bool)
    requires GoodFor(root)(s) && Call(root, action, delayed)(s, t) && FlaggedToo()(s) && Lossless(root, action)(s)
    ensures FlaggedToo()(t)
  {
    StepKeeps(s, root, action, delayed);
  }

  /** `states[k + 1]` is what the call `actions[k]` makes of `states[k]`. */
  ghost predicate IsRun(states: seq<State>, actions: seq<Action>, root: Con, delayed: bool) {
    && |states| == |actions| + 1
    && forall k {:trigger actions[k]} :: 0 <= k < |actions| ==>
       Call(root, actions[k], delayed)(states[k], states[k + 1])
  }

  /** What the start has and every step passes on. */
  lemma {:induction false} PassedOn(states: seq<State>, step: (nat, State, State) -> bool, has: State -> bool, k: nat)
    requires k < |states| && has(states[0])
    requires forall j: nat :: j < k ==> step(j, states[j], states[j + 1])
    requires forall j: nat, s, t :: j < k && has(s) && step(j, s, t) ==> has(t)
    ensures has(states[k])
  {
    if k > 0 {
      PassedOn(states, step, has, k - 1);
    }
  }

  ghost function CallAt(actions: seq<Action>, root: Con, delayed: bool): (nat, State, State) -> bool {
    (j: nat, s: State, t: State) => j < |actions| && Call(root, actions[j], delayed)(s, t)
  }

  lemma RunCalls(states: seq<State>, actions: seq<Action>, root: Con, delayed: bool)
    requires IsRun(states, actions, root, delayed)
    ensures forall j: nat :: j < |actions| ==> CallAt(actions, root, delayed)(j, states[j], states[j + 1])
  {
    forall j: nat | j < |actions| ensures CallAt(actions, root, delayed)(j, states[j], states[j + 1]) {
      var action := actions[j];
    }
  }

  lemma CallAtGood(actions: seq<Action>, root: Con, delayed: bool, j: nat, s: State, t: State)
    requires GoodFor(root)(s) && CallAt(actions, root, delayed)(j, s, t)
    ensures GoodFor(root)(t)
  {
    CallGood(s, t, root, actions[j], delayed);
  }

  lemma RunsGood(states: seq<State>, actions: seq<Action>, root: Con, delayed: bool, k: nat)
    requires IsRun(states, actions, root, delayed) && GoodFor(root)(states[0]) && k <= |actions|
    ensures GoodFor(root)(states[k])
  {
    RunCalls(states, actions, root, delayed);
    forall j: nat, s, t | j < k && GoodFor(root)(s) && CallAt(actions, root, delayed)(j, s, t)
      ensures GoodFor(root)(t)
    {
      CallAtGood(actions, root, delayed, j, s, t);
    }
    PassedOn(states, CallAt(actions, root, delayed), GoodFor(root), k);
  }

  /** Whatever is called in whatever order, the tree is proper and the focus in
    * it, and at most one container is global ... */
  lemma RunsKeep(states: seq<State>, actions: seq<Action>, root: Con, delayed: bool, k: nat)
    requires IsRun(states, actions, root, delayed) && Good(states[0], root) && k <= |actions|
    ensures Good(states[k], root)
  {
    RunsGood(states, actions, root, delayed, k);
  }

  /** No swap among the calls loses a hint. */
  ghost predicate NothingLost(states: seq<State>, actions: seq<Action>, root: Con)
    requires |states| == |actions| + 1
  {
    forall j {:trigger actions[j]} :: 0 <= j < |actions| ==> Lossless(root, actions[j])(states[j])
  }

  ghost function SafeAt(actions: seq<Action>, root: Con, delayed: bool): (nat, State, State) -> bool {
    (j: nat, s: State, t: State) =>
      j < |actions| && GoodFor(root)(s) && Call(root, actions[j], delayed)(s, t) && Lossless(root, actions[j])(s)
  }

  lemma SafeCalls(states: seq<State>, actions: seq<Action>, root: Con, delayed: bool)
    requires IsRun(states, actions, root, delayed) && NothingLost(states, actions, root) && GoodFor(root)(states[0])
    ensures forall j: nat :: j < |actions| ==> SafeAt(actions, root, delayed)(j, states[j], states[j + 1])
  {
    forall j: nat | j < |actions| ensures SafeAt(actions, root, delayed)(j, states[j], states[j + 1]) {
      var action := actions[j];
      RunsGood(states, actions, root, delayed, j);
    }
  }

  lemma SafeAtFlags(actions: seq<Action>, root: Con, delayed: bool, j: nat, s: State, t: State)
    requires FlaggedToo()(s) && SafeAt(actions, root, delayed)(j, s, t)
    ensures FlaggedToo()(t)
  {
    CallFlags(s, t, root, actions[j], delayed);
  }

  lemma RunsFlagged(states: seq<State>, actions: seq<Action>, root: Con, delayed: bool, k: nat)
    requires IsRun(states, actions, root, delayed) && NothingLost(states, actions, root) && k <= |actions|
    requires GoodFor(root)(states[0]) && FlaggedToo()(states[0])
    ensures FlaggedToo()(states[k])
  {
    SafeCalls(states, actions, root, delayed);
    forall j: nat, s, t | j < k && FlaggedToo()(s) && SafeAt(actions, root, delayed)(j, s, t) ensures FlaggedToo()(t) {
      SafeAtFlags(actions, root, delayed, j, s, t);
    }
    PassedOn(states, SafeAt(actions, root, delayed), FlaggedToo(), k);
  }

  /** ... and in runs whose swaps lose no hint, every split is flagged exactly
    * when an urgent window is in it. */
  lemma RunsFlag(states: seq<State>, actions: seq<Action>, root: Con, delayed: bool, k: nat)
    requires IsRun(states, actions, root, delayed) && NothingLost(states, actions, root) && k <= |actions|
    requires Good(states[0], root) && Flagged(states[0])
    ensures Flagged(states[k])
  {
    RunsFlagged(states, actions, root, delayed, k);
  }
}
