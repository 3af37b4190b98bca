/** con.c's tree operations on the heap, each shown to take the forest of all
  * containers exactly where its function does. */
module ContainerOps {
  import opened Order
  import opened Containers
  import opened Attachment
  import DockOrder

  function Maybe(c: Con?): Option<Con> {
    if c == null then None else Some(c)
  }

  // ---------------------------------------------------------------- con_attach

  /** The workspace branch of _con_attach. */
  method FindWorkspaceSlot(nodes: seq<Con>, num: int, ghost f: Forest) returns (k: nat)
    requires forall c :: c in nodes ==> c in f && f[c].num == c.num
    ensures k == WorkspaceSlot(Nums(f, nodes), num)
  {
    if num == -1 || nodes == [] {
      return |nodes|;
    }
    var current := 0;
    if num < nodes[0].num {
      return 0;
    }
    ghost var nums := Nums(f, nodes);
    while current < |nodes| && nodes[current].num != -1 && num >= nodes[current].num
      invariant current <= |nodes|
      invariant PastSmaller(nums, num) == current + PastSmaller(nums[current..], num)
    {
      assert nums[current] == nodes[current].num;
      assert nums[current..][1..] == nums[current + 1..];
      current := current + 1;
    }
    k := current;
  }

  /** The dock area branch: the first client the new one sorts before. */
  method FindDockSlot(nodes: seq<Con>, window: Window, ghost f: Forest) returns (k: nat)
    requires forall c :: c in nodes ==> c in f && f[c].window == c.window && c.window.Some?
    ensures k == DockOrder.DockSlot(Windows(f, nodes), window)
  {
    ghost var ws := Windows(f, nodes);
    k := 0;
    while k < |nodes|
      invariant k <= |nodes|
      invariant DockOrder.DockSlot(ws, window) == k + DockOrder.DockSlot(ws[k..], window)
    {
      var result := DockOrder.CompareNullable(window.cls, nodes[k].window.value.cls);
      if result == 0 {
        result := DockOrder.CompareNullable(window.instance, nodes[k].window.value.instance);
      }
      assert ws[k] == nodes[k].window.value;
      if result < 0 {
        return;
      }
      assert ws[k..][1..] == ws[k + 1..];
      k := k + 1;
    }
  }

  method FindFirstTiling(focus: seq<Con>, ghost f: Forest) returns (r: Con?)
    requires forall c :: c in focus ==> c in f && f[c].ty == c.ty
    ensures Maybe(r) == FirstTiling(f, focus)
  {
    var i := 0;
    while i < |focus|
      invariant i <= |focus|
      invariant FirstTiling(f, focus) == FirstTiling(f, focus[i..])
    {
      if focus[i].ty != FloatingCon {
        return focus[i];
      }
      assert focus[i..][1..] == focus[i + 1..];
      i := i + 1;
    }
    r := null;
  }

  /** Where _con_attach puts `con` among `parent`'s tiling children. */
  method FindPlace(con: Con, parent: Con, previous: Con?, ignoreFocus: bool, ghost cons: set<Con>) returns (k: nat)
    requires con in cons && parent in cons && CanAttach(View(cons), con, parent, Maybe(previous))
    ensures k == Place(View(cons), con, parent, Maybe(previous), ignoreFocus)
  {
    ghost var f := View(cons);
    assert OwnLists(f[parent]);
    if con.ty == Workspace {
      k := FindWorkspaceSlot(parent.nodes, con.num, f);
    } else if parent.ty == Dockarea {
      k := FindDockSlot(parent.nodes, con.window.value, f);
    } else {
      var current := previous;
      if !ignoreFocus {
        var first := FindFirstTiling(parent.focus, f);
        if first != null {
          current := first;
        }
      }
      if current != null && parent.ty != Output {
        k := IndexOf(parent.nodes, current) + 1;
      } else {
        k := |parent.nodes|;
      }
    }
  }

  method AddChild(con: Con, parent: Con, k: nat)
    requires con != parent && k <= |parent.nodes|
    modifies parent`nodes, parent`floats, parent`focus
    ensures Snapshot(parent) == Listing(old(Snapshot(parent)), con, con.ty, k)
  {
    if con.ty == FloatingCon {
      parent.floats := parent.floats + [con];
    } else {
      parent.nodes := parent.nodes[..k] + [con] + parent.nodes[k..];
    }
    parent.focus := parent.focus + [con];
  }

  /** The forest of `cons` is `g` if each container's contents are. */
  lemma ShowView(cons: set<Con>, g: Forest)
    requires g.Keys == cons && forall c :: c in cons ==> Snapshot(c) == g[c]
    ensures View(cons) == g
  {
  }

  /** The insertions of _con_attach. */
  method Enlist(con: Con, parent: Con, k: nat, ghost cons: set<Con>)
    requires con in cons && parent in cons && con != parent && k <= |parent.nodes|
    modifies con`parent, parent`nodes, parent`floats, parent`focus
    ensures View(cons) == Listed(old(View(cons)), con, parent, k)
  {
    ghost var f := View(cons);
    con.parent := parent;
    ghost var g := f[con := f[con].(parent := parent)];
    ShowView(cons, g);
    AddChild(con, parent, k);
    ShowView(cons, g[parent := Listing(g[parent], con, con.ty, k)]);
  }

  method ConAttach(con: Con, parent: Con, previous: Con?, ignoreFocus: bool, ghost cons: set<Con>)
    requires con in cons && parent in cons && CanAttach(View(cons), con, parent, Maybe(previous))
    modifies con`parent, parent`nodes, parent`floats, parent`focus
    ensures View(cons) == Attach(old(View(cons)), con, parent, Maybe(previous), ignoreFocus)
  {
    var k := FindPlace(con, parent, previous, ignoreFocus, cons);
    Enlist(con, parent, k, cons);
  }

  method DropChild(con: Con, parent: Con)
    requires con in parent.focus && if con.ty == FloatingCon then con in parent.floats else con in parent.nodes
    modifies parent`nodes, parent`floats, parent`focus
    ensures Snapshot(parent) == Unlisting(old(Snapshot(parent)), con, con.ty)
  {
    if con.ty == FloatingCon {
      parent.floats := Without(parent.floats, con);
      parent.focus := Without(parent.focus, con);
    } else {
      parent.nodes := Without(parent.nodes, con);
      parent.focus := Without(parent.focus, con);
    }
  }

  method ConDetach(con: Con, ghost cons: set<Con>)
    requires con in cons && WellFormed(View(cons)) && Attached(View(cons), con)
    modifies con.parent`nodes, con.parent`floats, con.parent`focus
    ensures View(cons) == Detach(old(View(cons)), con)
  {
    ghost var g := Detach(View(cons), con);
    assert con in Snapshot(con.parent).focus && EdgeAgrees(View(cons), con.parent, con);
    DropChild(con, con.parent);
    ShowView(cons, g);
  }
}
