/** con_swap on the heap, up to its urgency calls. */
module SwapFocusOps {
  import opened Containers
  import opened Swapping
  import opened Urgency
  import opened UrgencyOps
  import opened SwapUrgency
  import opened FocusUrgency
  import opened SwapFocus
  import FocusOps
  import opened Workspaces
  import opened Activation
  import SwapOps

  lemma SwapRooted(f: Forest, a: Con, b: Con)
    requires CanSwap(f, a, b) && Rooted(f)
    ensures Rooted(Swap(f, a, b))
  {
    SwapKeeps(f, a, b);
    forall x | x in f ensures Attached(Swap(f, a, b), x) || Swap(f, a, b)[x].parent == null {
      assert Attached(f, x) || f[x].parent == null;
      if x != a && x != b { SwapAttached(f, a, b, x); }
    }
  }

  lemma RefocusRooted(f: Forest, r: Con?)
    requires WellFormed(f) && FloatsOnWorkspaces(f) && Rooted(f) && (r != null ==> r in f)
    ensures Rooted(Refocus(f, r))
  {
    RefocusLists(f, r);
    RootedKept(f, Refocus(f, r));
  }

  method OnOneWorkspace(first: Con, second: Con, focused: Con, ghost cons: set<Con>) returns (r: bool)
    requires first in cons && second in cons && focused in cons && Acyclic(View(cons)) && Rooted(View(cons))
    ensures var f := View(cons);
            r <==> WorkspaceOf(f, first) == WorkspaceOf(f, second) == WorkspaceOf(f, focused)
  {
    RootedTopped(View(cons), first);
    RootedTopped(View(cons), second);
    RootedTopped(View(cons), focused);
    var ws1 := ConGetWorkspace(first, cons);
    var ws2 := ConGetWorkspace(second, cons);
    var ws := ConGetWorkspace(focused, cons);
    r := ws1 == ws2 && ws1 == ws;
  }

  /** `con` or something in it has the focus. */
  method HoldsFocus(con: Con, focused: Con, ghost cons: set<Con>) returns (r: bool)
    requires focused in cons && Acyclic(View(cons)) && Rooted(View(cons))
    ensures r <==> Inside(View(cons), focused, con)
  {
    RootedTopped(View(cons), focused);
    r := con == focused;
    if !r {
      r := SwapOps.ConHasParent(focused, con, cons);
    }
  }

  /** What is to be focused after the exchange. */
  method FindRestored(first: Con, second: Con, focused: Con, ghost cons: set<Con>) returns (restore: Con?)
    requires first in cons && second in cons && focused in cons && Acyclic(View(cons)) && Rooted(View(cons))
    ensures restore == Restored(View(cons), focused, first, second)
  {
    var preserve := OnOneWorkspace(first, second, focused, cons);
    if preserve {
      return focused;
    }
    var inFirst := HoldsFocus(first, focused, cons);
    if inFirst {
      return second;
    }
    var inSecond := HoldsFocus(second, focused, cons);
    restore := if inSecond then first else null;
  }

  method RestoreFocus(restore: Con?, session: FocusOps.Session, ghost cons: set<Con>)
    requires WellFormed(View(cons)) && FloatsOnWorkspaces(View(cons)) && Rooted(View(cons))
    requires restore != null ==> restore in cons && Attached(View(cons), restore)
    modifies session`focused, cons`focus, cons`urgent
    ensures View(cons) == Refocus(old(View(cons)), restore)
    ensures session.focused == if restore == null then old(session.focused) else restore
  {
    if restore != null {
      RootedTopped(View(cons), restore);
      ConFocusFully(restore, session, cons);
    }
  }

  lemma HintTree(f: Forest, focused: Con?, c: Con)
    requires WellFormed(f) && FloatsOnWorkspaces(f) && Rooted(f) && c in f
    ensures var h := Rehinted(f, focused, c); WellFormed(h) && FloatsOnWorkspaces(h) && Rooted(h)
  {
    RehintedTree(f, focused, c);
    var h := Rehinted(f, focused, c);
    ReflagKeeps(f, h);
    ReflaggedLists(f, h);
    RootedKept(f, h);
  }

  /** con_set_urgency(c, c->urgent) */
  method SendUp(c: Con, session: FocusOps.Session, ghost cons: set<Con>)
    requires c in cons && WellFormed(View(cons)) && FloatsOnWorkspaces(View(cons)) && Rooted(View(cons))
    modifies cons`urgent
    ensures View(cons) == Rehinted(old(View(cons)), session.focused, c)
  {
    RootedTopped(View(cons), c);
    assert View(cons)[c] == Snapshot(c);
    ConSetUrgency(c, c.urgent, session, cons);
  }

  /** Both hints, after the focus. */
  method Settle(first: Con, second: Con, restore: Con?, session: FocusOps.Session, ghost cons: set<Con>)
    requires first in cons && second in cons
    requires WellFormed(View(cons)) && FloatsOnWorkspaces(View(cons)) && Rooted(View(cons))
    requires restore != null ==> restore in cons && Attached(View(cons), restore)
    modifies session`focused, cons`focus, cons`urgent
    ensures session.focused == if restore == null then old(session.focused) else restore
    ensures View(cons) == BothRehinted(Refocus(old(View(cons)), restore), session.focused, first, second)
  {
    RefocusRooted(View(cons), restore);
    RestoreFocus(restore, session, cons);
    HintTree(View(cons), session.focused, first);
    SendUp(first, session, cons);
    SendUp(second, session, cons);
  }

  lemma SwapReady(f: Forest, a: Con, b: Con)
    requires CanSwap(f, a, b) && FloatsOnWorkspaces(f) && Rooted(f)
    ensures var g := Swap(f, a, b); WellFormed(g) && FloatsOnWorkspaces(g) && Rooted(g)
  {
    SwapKeeps(f, a, b);
    SwapFloats(f, a, b);
    SwapRooted(f, a, b);
  }

  lemma StaysAttached(f: Forest, a: Con, b: Con, x: Con)
    requires CanSwap(f, a, b) && x in f && Attached(f, x)
    ensures Attached(Swap(f, a, b), x)
  {
    SwapKeeps(f, a, b);
    if x != a && x != b { SwapAttached(f, a, b, x); }
  }

  lemma RestoredAttached(f: Forest, focused: Con, a: Con, b: Con)
    requires CanSwap(f, a, b) && focused in f && Attached(f, focused)
    ensures var r := Restored(f, focused, a, b); r != null ==> r in f && Attached(Swap(f, a, b), r)
  {
    StaysAttached(f, a, b, focused);
    StaysAttached(f, a, b, a);
    StaysAttached(f, a, b, b);
  }

  ghost predicate CanSwapWhole(f: Forest, focused: Con?, a: Con, b: Con) {
    CanSwap(f, a, b) && FloatsOnWorkspaces(f) && Rooted(f) && focused in f && Attached(f, focused)
  }

  /** What the exchange leaves for the rest to do. */
  ghost predicate Halfway(f: Forest, g: Forest, focused: Con?, r: Con?, a: Con, b: Con) {
    && CanSwap(f, a, b) && FloatsOnWorkspaces(f) && focused in f
    && g == Swap(f, a, b) && r == Restored(f, focused, a, b)
    && WellFormed(g) && FloatsOnWorkspaces(g) && Rooted(g) && (r != null ==> r in g && Attached(g, r))
  }

  /** The exchange, with what is to be focused after it. */
  method ExchangePlaces(first: Con, second: Con, focused: Con, ghost cons: set<Con>) returns (restore: Con?)
    requires CanSwapWhole(View(cons), focused, first, second)
    modifies first, second, first.parent, second.parent
    ensures Halfway(old(View(cons)), View(cons), focused, restore, first, second)
  {
    restore := FindRestored(first, second, focused, cons);
    SwapReady(View(cons), first, second);
    RestoredAttached(View(cons), focused, first, second);
    SwapOps.Exchange(first, second, cons);
  }

  /** con_swap takes all containers and the focus to this. */
  ghost predicate Swapped(f: Forest, h: Forest, focused: Con, focus: Con?, a: Con, b: Con)
    requires CanSwap(f, a, b) && FloatsOnWorkspaces(f) && focused in f
  {
    h == SwapFully(f, focused, a, b) && focus == NewFocus(f, focused, a, b)
  }

  lemma SwappedBy(f: Forest, g: Forest, h: Forest, focused: Con, r: Con?, focus: Con?, a: Con, b: Con)
    requires CanSwap(f, a, b) && FloatsOnWorkspaces(f) && focused in f
    requires g == Swap(f, a, b) && r == Restored(f, focused, a, b) && focus == if r == null then focused else r
    requires WellFormed(g) && FloatsOnWorkspaces(g) && h == BothRehinted(Refocus(g, r), focus, a, b)
    ensures Swapped(f, h, focused, focus, a, b)
  {
  }

  method SettleSwapped(first: Con, second: Con, restore: Con?, session: FocusOps.Session, ghost cons: set<Con>,
                       ghost f: Forest)
    requires first in cons && second in cons && Halfway(f, View(cons), session.focused, restore, first, second)
    modifies session`focused, cons`focus, cons`urgent
    ensures Swapped(f, View(cons), old(session.focused), session.focused, first, second)
  {
    ghost var g, focused := View(cons), session.focused;
    Settle(first, second, restore, session, cons);
    SwappedBy(f, g, View(cons), focused, restore, session.focused, first, second);
  }

  /** The part of con_swap that follows the refusals. */
  method SwapAccepted(first: Con, second: Con, session: FocusOps.Session, ghost cons: set<Con>)
    requires CanSwapWhole(View(cons), session.focused, first, second)
    modifies first, second, first.parent, second.parent, session`focused, cons`focus, cons`urgent
    ensures Swapped(old(View(cons)), View(cons), old(session.focused), session.focused, first, second)
  {
    ghost var f := View(cons);
    var focused: Con := session.focused;
    var restore := ExchangePlaces(first, second, focused, cons);
    assert session.focused == focused;
    SettleSwapped(first, second, restore, session, cons, f);
  }

  /** con_swap: refused, or the exchange, the focus and the hints. */
  method ConSwap(first: Con, second: Con, session: FocusOps.Session, ghost cons: set<Con>) returns (ok: bool)
    requires first in cons && second in cons && session.focused in cons
    requires WellFormed(View(cons)) && FloatsOnWorkspaces(View(cons)) && Rooted(View(cons))
    requires Attached(View(cons), first) && Attached(View(cons), second) && Attached(View(cons), session.focused)
    modifies first, second, first.parent, second.parent, session`focused, cons`focus, cons`urgent
    ensures ok <==> CanSwap(old(View(cons)), first, second)
    ensures !ok ==> View(cons) == old(View(cons)) && session.focused == old(session.focused)
    ensures ok ==> Swapped(old(View(cons)), View(cons), old(session.focused), session.focused, first, second)
  {
    ghost var f := View(cons);
    RootedTopped(f, first);
    RootedTopped(f, second);
    ok := SwapOps.Accepts(first, second, cons);
    if ok {
      SwapAccepted(first, second, session, cons);
    }
  }
}
