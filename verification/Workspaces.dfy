/** con_get_workspace, and trees whose every top has no parent. */
module Workspaces {
  import opened Containers
  import opened Urgency
  import FocusOps

  /** con_get_workspace: the nearest workspace on the way up. */
  ghost function WorkspaceOf(f: Forest, c: Con): (w: Con?)
    requires Acyclic(f) && c in f
    ensures w != null ==> w in f && f[w].ty == Workspace && Inside(f, c, w)
    decreases Depths(f)[c]
  {
    if f[c].ty == Workspace then c
    else if Attached(f, c) then WorkspaceOf(f, f[c].parent)
    else null
  }

  lemma BelowWorkspace(f: Forest, c: Con)
    requires Acyclic(f) && c in f && f[c].ty != Workspace && WorkspaceOf(f, c) != null
    ensures StrictlyInside(f, c, WorkspaceOf(f, c))
  {
  }

  /** There is one exactly if some workspace is above the container or is it, and
    * then it is below all of those. */
  lemma {:induction false} WorkspaceNearest(f: Forest, c: Con, w: Con)
    requires Acyclic(f) && c in f && w in f && f[w].ty == Workspace && Inside(f, c, w)
    ensures WorkspaceOf(f, c) != null && Inside(f, WorkspaceOf(f, c), w)
    decreases Depths(f)[c]
  {
    if f[c].ty != Workspace {
      InsideUnfolds(f, c, w);
      WorkspaceNearest(f, f[c].parent, w);
    }
  }

  lemma {:induction false} AncestryWorkspace(f: Forest, g: Forest, x: Con)
    requires Acyclic(f) && Acyclic(g) && SameAncestry(f, g) && x in f
    ensures WorkspaceOf(g, x) == WorkspaceOf(f, x)
    decreases Depths(f)[x]
  {
    assert Attached(g, x) == Attached(f, x);
    if f[x].ty != Workspace && Attached(f, x) {
      AncestryWorkspace(f, g, f[x].parent);
    }
  }

  /** Whoever is not listed anywhere has no parent. */
  ghost predicate Rooted(f: Forest) {
    forall x {:trigger Attached(f, x)} :: x in f ==> Attached(f, x) || f[x].parent == null
  }

  lemma RootedKept(f: Forest, g: Forest)
    requires SameAncestry(f, g) && Rooted(f)
    ensures Rooted(g)
  {
    forall x | x in f ensures Attached(g, x) || g[x].parent == null {
      assert Attached(f, x) || f[x].parent == null;
    }
  }

  lemma {:induction false} RootedTopped(f: Forest, x: Con)
    requires Acyclic(f) && Rooted(f) && x in f
    ensures FocusOps.Topped(f, Line(f, x))
    decreases Depths(f)[x]
  {
    if Attached(f, x) { RootedTopped(f, f[x].parent); }
  }

  method ConGetWorkspace(con: Con, ghost cons: set<Con>) returns (result: Con?)
    requires con in cons && Acyclic(View(cons)) && FocusOps.Topped(View(cons), Line(View(cons), con))
    ensures result == WorkspaceOf(View(cons), con)
  {
    ghost var f := View(cons);
    result := con;
    while result != null && result.ty != Workspace
      invariant result == null ==> WorkspaceOf(f, con) == null
      invariant result != null ==>
                result in f && FocusOps.Topped(f, Line(f, result)) && WorkspaceOf(f, result) == WorkspaceOf(f, con)
      decreases if result == null then 0 else |Line(f, result)|
    {
      if Attached(f, result) {
        assert Line(f, result)[1..] == Line(f, f[result].parent);
      }
      result := result.parent;
    }
  }
}
