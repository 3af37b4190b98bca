/** Whole runs of con.c's tree operations. */
module TreeRuns {
  import opened Order
  import opened Containers
  import Attachment
  import Encapsulation
  import Focus
  import Swapping
  import WorkspaceAttach

  datatype Action =
    | Create(c: Con, window: Option<Window>)                                     // con_new(NULL, window)
    | Attach(c: Con, parent: Con, previous: Option<Con>, ignoreFocus: bool)      // _con_attach
    | AttachInside(c: Con, workspace: Con, split: Con)                           // and workspace_attach_to
    | Detach(c: Con)                                                             // con_detach
    | FocusOn(c: Con)                                                            // con_focus
    | Exchange(first: Con, second: Con)                                          // con_swap
    | Encapsulate(workspace: Con, split: Con, layout: Layout)                    // con_set_layout

  /** con_focus stops below the container without a parent, so the line must
    * reach one, and not at once. */
  ghost predicate Rooted(f: Forest, c: Con)
    requires Acyclic(f) && c in f
  {
    var line := Line(f, c);
    |line| > 1 && f[line[|line| - 1]].parent == null
  }

  /** What each operation asks of its caller. */
  ghost predicate Enabled(f: Forest, a: Action)
    requires WellFormed(f)
  {
    match a
    case Create(c, _) => c !in f
    case Attach(c, p, previous, ignoreFocus) => Attachment.CanAttach(f, c, p, previous)
    case AttachInside(c, ws, n) => WorkspaceAttach.CanAttachInside(f, c, ws, n)
    case Detach(c) => c in f && Attached(f, c)
    case FocusOn(c) => c in f && Rooted(f, c)
    case Exchange(a, b) => Swapping.CanSwap(f, a, b)
    case Encapsulate(ws, n, _) => Encapsulation.CanWrap(f, ws, n)
  }

  ghost function Step(f: Forest, a: Action): Forest
    requires WellFormed(f) && Enabled(f, a)
  {
    match a
    case Create(c, window) => f[c := Fresh(window)]
    case Attach(c, p, previous, ignoreFocus) => Attachment.Attach(f, c, p, previous, ignoreFocus)
    case AttachInside(c, ws, n) => WorkspaceAttach.AttachInside(f, c, ws, n)
    case Detach(c) => Attachment.Detach(f, c)
    case FocusOn(c) => (Focus.LineClimbs(f, c); Focus.FocusUp(f, Line(f, c)))
    case Exchange(a, b) => Swapping.Swap(f, a, b)
    case Encapsulate(ws, n, layout) => Encapsulation.Wrap(f, ws, n, layout)
  }

  lemma StepKeeps(f: Forest, a: Action)
    requires WellFormed(f) && Enabled(f, a)
    ensures WellFormed(Step(f, a))
  {
    match a
    case Create(c, window) => NewcomerKeeps(f, c, Fresh(window));
    case Attach(c, p, previous, ignoreFocus) =>
      Attachment.AttachKeeps(f, c, p, Attachment.Place(f, c, p, previous, ignoreFocus));
    case AttachInside(c, ws, n) => WorkspaceAttach.AttachInsideKeeps(f, c, ws, n);
    case Detach(c) => Attachment.DetachKeeps(f, c);
    case FocusOn(c) =>
      Focus.LineClimbs(f, c);
      Focus.FocusUpRest(f, Line(f, c));
      Focus.RefocusKeeps(f, Focus.FocusUp(f, Line(f, c)));
    case Exchange(a, b) => Swapping.SwapKeeps(f, a, b);
    case Encapsulate(ws, n, layout) => Encapsulation.WrapKeeps(f, ws, n, layout);
  }

  /** A step does what its operation is for: it puts the container below the parent,
    * takes it out, raises it in the focus orders, exchanges two, or wraps the
    * children of a workspace. */
  lemma StepMeans(f: Forest, a: Action)
    requires WellFormed(f) && Enabled(f, a)
    ensures WellFormed(Step(f, a))
    ensures var g := Step(f, a);
            && (a.Attach? ==> a.c in g && Attached(g, a.c) && g[a.c].parent == a.parent)
            && (a.AttachInside? ==> a.c in g && Attached(g, a.c) && g[a.c].parent == a.split)
            && (a.Detach? ==> Attachment.Loose(g, a.c))
            && (a.FocusOn? ==> Focus.Leads(g, Line(f, a.c)))
            && (a.Exchange? ==> a.first in g && a.second in g && g[a.first].parent == f[a.second].parent &&
                                g[a.second].parent == f[a.first].parent)
            && (a.Encapsulate? ==> a.split in g && g[a.split].layout == a.layout && g[a.split].parent == a.workspace)
  {
    StepKeeps(f, a);
    match a
    case Create(c, window) =>
    case Attach(c, p, previous, ignoreFocus) =>
      Attachment.AttachKeeps(f, c, p, Attachment.Place(f, c, p, previous, ignoreFocus));
    case AttachInside(c, ws, n) => WorkspaceAttach.AttachInsideKeeps(f, c, ws, n);
    case Detach(c) => Attachment.DetachKeeps(f, c);
    case FocusOn(c) => Focus.LineLeads(f, c);
    case Exchange(a, b) =>
    case Encapsulate(ws, n, layout) => Encapsulation.WrapSplit(f, ws, n, layout);
  }

  /** `states` is a run performing `actions`, each enabled where it happens. */
  ghost predicate IsRun(states: seq<Forest>, actions: seq<Action>) {
    && |states| == |actions| + 1
    && WellFormed(states[0])
    && (forall i {:trigger actions[i]} :: 0 <= i < |actions| && WellFormed(states[i]) ==>
          Enabled(states[i], actions[i]) && states[i + 1] == Step(states[i], actions[i]))
  }

  lemma {:induction false} CountDistinct<T>(s: seq<T>, x: T)
    requires Distinct(s)
    ensures multiset(s)[x] == if x in s then 1 else 0
  {
    if s != [] {
      CountDistinct(s[1..], x);
      assert s == [s[0]] + s[1..];
    }
  }

  lemma SameCounts<T>(a: multiset<T>, b: multiset<T>)
    requires (forall x :: x in a ==> a[x] == b[x]) && (forall x :: x in b ==> a[x] == b[x])
    ensures a == b
  {
    assert a <= b;
    assert b <= a;
  }

  lemma FocusPermutes(f: Forest, p: Con)
    requires WellFormed(f) && p in f
    ensures multiset(f[p].focus) == multiset(f[p].nodes) + multiset(f[p].floats)
  {
    var n := f[p];
    assert OwnLists(n);
    forall x | x in n.focus
      ensures multiset(n.focus)[x] == multiset(n.nodes)[x] + multiset(n.floats)[x]
    {
      CountDistinct(n.focus, x);
      CountDistinct(n.nodes, x);
      CountDistinct(n.floats, x);
    }
    SameCounts(multiset(n.focus), multiset(n.nodes) + multiset(n.floats));
  }

  /** In every reachable state the containers form a tree, parent pointers agree
    * with the lists, and each focus order is a permutation of the tiling and
    * the floating children together. */
  lemma {:induction false} RunsKeepTree(states: seq<Forest>, actions: seq<Action>, i: nat)
    requires IsRun(states, actions) && i < |states|
    ensures WellFormed(states[i])
    ensures forall p :: p in states[i] ==>
              multiset(states[i][p].focus) == multiset(states[i][p].nodes) + multiset(states[i][p].floats)
  {
    if i > 0 {
      RunsKeepTree(states, actions, i - 1);
      var a := actions[i - 1];
      StepKeeps(states[i - 1], a);
    }
    forall p | p in states[i]
      ensures multiset(states[i][p].focus) == multiset(states[i][p].nodes) + multiset(states[i][p].floats)
    {
      FocusPermutes(states[i], p);
    }
  }

  /** A child is in exactly one of its parent's two lists. */
  lemma InOneList(f: Forest, c: Con)
    requires WellFormed(f) && c in f && Attached(f, c)
    ensures (c in f[f[c].parent].nodes) != (c in f[f[c].parent].floats)
    ensures forall q :: q in f && q != f[c].parent ==> c !in f[q].nodes && c !in f[q].floats
  {
    forall q | q in f && q != f[c].parent ensures c !in f[q].nodes && c !in f[q].floats {
      assert OwnLists(f[q]);
      assert c !in f[q].focus;
    }
  }
}
