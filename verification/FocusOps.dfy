/** The focus functions of con.c on the heap. */
module FocusOps {
  import opened Order
  import opened Containers
  import opened Focus
  import opened ContainerOps

  /** con.c's global `focused`. */
  class Session {
    var focused: Con?

    constructor ()
      ensures focused == null
    {
      focused := null;
    }
  }

  /** The last of the line has no parent. */
  ghost predicate Topped(f: Forest, line: seq<Con>) {
    |line| > 0 && line[|line| - 1] in f && f[line[|line| - 1]].parent == null
  }

  /** The second on the line has a parent unless it is the last. */
  lemma ParentAbove(f: Forest, line: seq<Con>)
    requires Climbs(f, line) && |line| > 1 && Topped(f, line)
    ensures line[1] in f && (f[line[1]].parent == null <==> |line| == 2)
  {
    assert Climbs(f, line[1..]);
  }

  lemma RefocusLists(f: Forest, g: Forest)
    requires ListsAgree(f) && Refocused(f, g)
    ensures ListsAgree(g)
  {
    forall p | p in g ensures OwnLists(g[p]) {
      assert OwnLists(f[p]);
    }
  }

  /** One level of con_focus leaves a forest on which the next can run. */
  lemma FocusStep(f: Forest, line: seq<Con>)
    requires ListsAgree(f) && Climbs(f, line) && |line| > 1
    ensures var g := Front(f, line[1], line[0]);
            ListsAgree(g) && Climbs(g, line[1..]) && FocusUp(g, line[1..]) == FocusUp(f, line)
            && (Topped(f, line) ==> Topped(g, line[1..]))
  {
    var g := Front(f, line[1], line[0]);
    FrontRefocuses(f, line[1], line[0]);
    RefocusClimbs(f, g, line[1..]);
    RefocusLists(f, g);
  }

  method MoveToFront(con: Con, parent: Con, ghost cons: set<Con>)
    requires parent in cons && con in parent.focus
    modifies parent`focus
    ensures View(cons) == Front(old(View(cons)), parent, con)
  {
    ghost var g: Forest := Front(View(cons), parent, con);
    parent.focus := Without(parent.focus, con);
    parent.focus := [con] + parent.focus;
    ShowView(cons, g);
  }

  /** The part of con_focus before the recursive call: what is left to do is
    * con_focus on the parent. */
  method FocusLevel(con: Con, ghost cons: set<Con>, ghost line: seq<Con>)
    requires con in cons && ListsAgree(View(cons)) && Climbs(View(cons), line) && line[0] == con
    requires Topped(View(cons), line) && |line| > 1
    modifies con.parent`focus
    ensures con.parent == line[1] && (line[1].parent == null <==> |line| == 2)
    ensures line[1] in cons && ListsAgree(View(cons)) && Climbs(View(cons), line[1..]) && Topped(View(cons), line[1..])
    ensures FocusUp(View(cons), line[1..]) == FocusUp(old(View(cons)), line)
  {
    FocusStep(View(cons), line);
    ParentAbove(View(cons), line);
    MoveToFront(con, con.parent, cons);
  }

  /** con_focus.  `line` is the container and all above it; the topmost has no
    * parent, which is where the recursion stops. */
  method ConFocus(con: Con, session: Session, ghost cons: set<Con>, ghost line: seq<Con>)
    requires con in cons && ListsAgree(View(cons)) && Climbs(View(cons), line) && line[0] == con
    requires Topped(View(cons), line) && |line| > 1
    modifies session`focused, cons`focus
    ensures View(cons) == FocusUp(old(View(cons)), line)
    ensures session.focused == con
    decreases |line|, 1
  {
    RaiseLine(con, session, cons, line);
    session.focused := con;
  }

  /** Steps 1 and 2 of con_focus: the own list, then the parent's turn. */
  method RaiseLine(con: Con, session: Session, ghost cons: set<Con>, ghost line: seq<Con>)
    requires con in cons && ListsAgree(View(cons)) && Climbs(View(cons), line) && line[0] == con
    requires Topped(View(cons), line) && |line| > 1
    modifies session`focused, cons`focus
    ensures View(cons) == FocusUp(old(View(cons)), line)
    decreases |line|, 0
  {
    FocusLevel(con, cons, line);
    if con.parent.parent != null {
      ConFocus(con.parent, session, cons, line[1..]);
    }
  }

  method ConDescendFocused(con: Con, focused: Con?, ghost cons: set<Con>) returns (next: Con)
    requires con in cons && WellFormed(View(cons))
    ensures next in cons && next == Descend(View(cons), focused, con)
  {
    ghost var f := View(cons);
    next := con;
    while next != focused && next.focus != []
      invariant next in cons && Descend(f, focused, next) == Descend(f, focused, con)
      decreases Below(f, next)
    {
      FirstFocused(f, next);
      next := next.focus[0];
    }
  }

  /** The sibling to focus next, or the parent. */
  method FindNextStart(c: Con, ghost cons: set<Con>) returns (next: Con)
    requires c in cons && WellFormed(View(cons)) && Attached(View(cons), c)
    ensures next in cons && next == NextStart(View(cons), c)
  {
    NextStartExists(View(cons), c);
    assert c in c.parent.focus;
    next := c.parent.focus[0];
    if next == c {
      if |c.parent.focus| > 1 {
        next := c.parent.focus[1];
      } else {
        next := c.parent;
      }
    }
  }

  method DescendUntilAbove(c: Con, start: Con, ghost cons: set<Con>) returns (next: Con)
    requires start in cons && WellFormed(View(cons))
    ensures next in cons && next == DescendAbove(View(cons), c, start)
  {
    ghost var f := View(cons);
    next := start;
    while next.focus != [] && next.focus[0] != c
      invariant next in cons && DescendAbove(f, c, next) == DescendAbove(f, c, start)
      decreases Below(f, next)
    {
      FirstFocused(f, next);
      next := next.focus[0];
    }
  }

  /** What is outside the floating container is outside the window in it. */
  lemma InnerOutside(f: Forest, focused: Con?, con: Con, c: Con)
    requires WellFormed(f) && con in f && c in f && Attached(f, c) && Inside(f, con, c)
    ensures var r := NextFocused(f, focused, c); r in f && !Inside(f, r, con)
  {
    NextFocusedOutside(f, focused, c);
    if Inside(f, NextFocused(f, focused, c), con) {
      InsideTrans(f, NextFocused(f, focused, c), con, c);
    }
  }

  /** con_next_focused for a container that is no dock client. */
  method NextFocusedBeside(con: Con, focused: Con?, ghost cons: set<Con>) returns (next: Con)
    requires con in cons && WellFormed(View(cons)) && Attached(View(cons), con)
    requires con.floating ==> Attached(View(cons), con.parent)
    ensures next == NextFocused(View(cons), focused, if con.floating then con.parent else con)
    ensures next in cons && !Inside(View(cons), next, con)
  {
    ghost var f := View(cons);
    var c: Con := if con.floating then con.parent else con;
    assert Inside(f, con, c) by { InsideUnfolds(f, con, c); InsideUnfolds(f, c, c); }
    next := FindNextStart(c, cons);
    next := DescendUntilAbove(c, next, cons);
    if c.ty == FloatingCon && next != c.parent {
      next := ConDescendFocused(next, focused, cons);
    }
    InnerOutside(f, focused, con, c);
  }

  method OutputGetContent(output: Con, ghost cons: set<Con>) returns (content: Con?)
    requires output in cons && WellFormed(View(cons))
    ensures Maybe(content) == Content(View(cons), output)
  {
    ghost var f := View(cons);
    NodesKnown(f, output);
    var i := 0;
    while i < |output.nodes|
      invariant i <= |output.nodes| && FirstPlain(f, output.nodes) == FirstPlain(f, output.nodes[i..])
    {
      if output.nodes[i].ty == Plain {
        return output.nodes[i];
      }
      assert output.nodes[i..][1..] == output.nodes[i + 1..];
      i := i + 1;
    }
    content := null;
  }

  /** con_next_focused.  A dock client gives way to the content of its output,
    * which has to exist. */
  method ConNextFocused(con: Con, focused: Con?, ghost cons: set<Con>) returns (next: Con)
    requires con in cons && WellFormed(View(cons)) && Attached(View(cons), con)
    requires if con.parent.ty == Dockarea then Docked(View(cons), con)
             else con.floating ==> Attached(View(cons), con.parent)
    ensures con.parent.ty == Dockarea ==>
            next == Descend(View(cons), focused, Content(View(cons), con.parent.parent).value)
    ensures con.parent.ty != Dockarea ==>
            next == NextFocused(View(cons), focused, if con.floating then con.parent else con)
    ensures next in cons && !Inside(View(cons), next, con)
  {
    if con.parent.ty == Dockarea {
      DockSuccessor(View(cons), focused, con);
      var content := OutputGetContent(con.parent.parent, cons);
      next := ConDescendFocused(content, focused, cons);
    } else {
      next := NextFocusedBeside(con, focused, cons);
    }
  }
}
