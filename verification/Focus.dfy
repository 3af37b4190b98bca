/** con_focus, con_descend_focused and con_next_focused on forests. */
module Focus {
  import opened Order
  import opened Containers
  import opened Attachment

  function ToFront<T(==)>(s: seq<T>, x: T): seq<T>
    requires x in s
  {
    [x] + Without(s, x)
  }

  lemma ToFrontMembers<T>(s: seq<T>, x: T)
    requires Distinct(s) && x in s
    ensures Distinct(ToFront(s, x)) && forall y :: y in ToFront(s, x) <==> y in s
  {
    WithoutMembers(s, x);
  }

  /** `c` moved to the head of `p`'s focus list. */
  ghost function Front(f: Forest, p: Con, c: Con): Forest
    requires p in f && c in f[p].focus
  {
    f[p := f[p].(focus := ToFront(f[p].focus, c))]
  }

  /** The same containers but for the order of some focus lists. */
  ghost predicate Refocused(f: Forest, g: Forest) {
    && g.Keys == f.Keys
    && (forall p {:trigger g[p]} :: p in f ==>
          && g[p] == f[p].(focus := g[p].focus) && Distinct(g[p].focus)
          && (forall c :: c in g[p].focus ==> c in f[p].focus)
          && (forall c :: c in f[p].focus ==> c in g[p].focus))
  }

  lemma FrontRefocuses(f: Forest, p: Con, c: Con)
    requires ListsAgree(f) && p in f && c in f[p].focus
    ensures Refocused(f, Front(f, p, c))
  {
    ToFrontMembers(f[p].focus, c);
    forall q | q in f ensures Distinct(Front(f, p, c)[q].focus) {
      assert OwnLists(f[q]);
    }
  }

  lemma RefocusTree(f: Forest, g: Forest)
    requires WellFormed(f) && Refocused(f, g)
    ensures WellFormed(g)
  {
    forall p, c | p in g && c in g[p].focus ensures EdgeAgrees(g, p, c) && c in f[p].focus {
      assert EdgeAgrees(f, p, c);
    }
    assert Ranked(g, Depths(f));
    forall p | p in g ensures OwnLists(g[p]) {
      assert OwnLists(f[p]);
    }
  }

  lemma RefocusKeeps(f: Forest, g: Forest)
    requires WellFormed(f) && Refocused(f, g)
    ensures WellFormed(g)
    ensures forall x :: x in f ==> Line(g, x) == Line(f, x)
  {
    RefocusTree(f, g);
    forall x | x in f ensures Line(g, x) == Line(f, x) {
      SameLine(f, g, x);
    }
  }

  /** `line` climbs from a container to its parent, and so on. */
  ghost predicate Climbs(f: Forest, line: seq<Con>) {
    && |line| > 0 && line[0] in f
    && (|line| > 1 ==>
          && f[line[0]].parent == line[1] && line[1] in f && line[0] in f[line[1]].focus
          && line[0] !in line[1..] && Climbs(f, line[1..]))
  }

  lemma {:induction false} LineClimbs(f: Forest, c: Con)
    requires Acyclic(f) && c in f
    ensures Climbs(f, Line(f, c))
    decreases Depths(f)[c]
  {
    if Attached(f, c) {
      var p := f[c].parent;
      LineClimbs(f, p);
      assert Line(f, c)[1..] == Line(f, p);
      if Inside(f, p, c) {
        InsideIsDeeper(f, Depths(f), p, c);
      }
    }
  }

  lemma {:induction false} RefocusClimbs(f: Forest, g: Forest, line: seq<Con>)
    requires Refocused(f, g) && Climbs(f, line)
    ensures Climbs(g, line)
    decreases |line|
  {
    if |line| > 1 {
      RefocusClimbs(f, g, line[1..]);
      assert g[line[0]].parent == line[1] && line[0] in g[line[1]].focus;
    }
  }

  /** con_focus on the lists, container by container up the line. */
  ghost function FocusUp(f: Forest, line: seq<Con>): (g: Forest)
    requires ListsAgree(f) && Climbs(f, line)
    decreases |line|
  {
    if |line| == 1 then f
    else
      FrontRefocuses(f, line[1], line[0]);
      var g := Front(f, line[1], line[0]);
      RefocusClimbs(f, g, line[1..]);
      assert ListsAgree(g) by { forall p | p in g ensures OwnLists(g[p]) { assert OwnLists(f[p]); } }
      FocusUp(g, line[1..])
  }

  lemma FrontClimbs(f: Forest, line: seq<Con>)
    requires ListsAgree(f) && Climbs(f, line) && |line| > 1
    ensures var g := Front(f, line[1], line[0]); ListsAgree(g) && Climbs(g, line[1..]) && Refocused(f, g)
  {
    FrontRefocuses(f, line[1], line[0]);
    var g := Front(f, line[1], line[0]);
    RefocusClimbs(f, g, line[1..]);
    forall p | p in g ensures OwnLists(g[p]) { assert OwnLists(f[p]); }
  }

  /** No list off the way up changes, and on it only focus lists, in their order. */
  lemma {:induction false} FocusUpRest(f: Forest, line: seq<Con>)
    requires ListsAgree(f) && Climbs(f, line)
    ensures Refocused(f, FocusUp(f, line))
    ensures forall p :: p in f && p !in line[1..] ==> FocusUp(f, line)[p] == f[p]
    decreases |line|
  {
    if |line| == 1 {
      assert forall p | p in f :: OwnLists(f[p]);
    } else {
      FrontClimbs(f, line);
      FocusUpRest(Front(f, line[1], line[0]), line[1..]);
    }
  }

  /** The entry of the line at i heads the focus list above it, the rest in the
    * old order. */
  ghost predicate Heads(f: Forest, h: Forest, line: seq<Con>, i: nat)
    requires i + 1 < |line|
  {
    && line[i + 1] in f && line[i + 1] in h && line[i] in f[line[i + 1]].focus
    && h[line[i + 1]].focus == ToFront(f[line[i + 1]].focus, line[i])
  }

  lemma {:induction false} FocusUpHead(f: Forest, line: seq<Con>, i: nat)
    requires ListsAgree(f) && Climbs(f, line) && i + 1 < |line|
    ensures Heads(f, FocusUp(f, line), line, i)
    decreases |line|
  {
    var g, rest := Front(f, line[1], line[0]), line[1..];
    FrontClimbs(f, line);
    FocusUpRest(g, rest);
    if i > 0 {
      FocusUpHead(g, rest, i - 1);
      assert rest[i] in rest[1..];
      assert line[i + 1] == rest[i] && line[i] == rest[i - 1];
    } else if |line| > 2 {
      assert rest[0] !in rest[1..];
    }
  }

  /** Every parent on the way up has the container below it at the head of its
    * focus list, the rest in the old order; no other list changes. */
  lemma FocusUpLists(f: Forest, line: seq<Con>)
    requires ListsAgree(f) && Climbs(f, line)
    ensures Refocused(f, FocusUp(f, line))
    ensures forall p :: p in f && p !in line[1..] ==> FocusUp(f, line)[p] == f[p]
    ensures forall i :: 0 <= i < |line| - 1 ==> Heads(f, FocusUp(f, line), line, i)
  {
    FocusUpRest(f, line);
    forall i | 0 <= i < |line| - 1 ensures Heads(f, FocusUp(f, line), line, i) {
      FocusUpHead(f, line, i);
    }
  }

  // ---------------------------------------------------------------- descending

  /** The most recently focused child. */
  ghost predicate HasFocus(f: Forest, c: Con)
    requires c in f
  {
    f[c].focus != []
  }

  lemma FirstFocused(f: Forest, c: Con)
    requires WellFormed(f) && c in f && HasFocus(f, c)
    ensures var n := f[c].focus[0]; n in f && Attached(f, n) && f[n].parent == c && Below(f, n) < Below(f, c)
  {
    var n := f[c].focus[0];
    assert n in f[c].focus;
    BelowShrinks(f, n);
  }

  /** con_descend_focused */
  ghost function Descend(f: Forest, focused: Con?, c: Con): (r: Con)
    requires WellFormed(f) && c in f
    ensures r in f && Inside(f, r, c)
    decreases Below(f, c)
  {
    if c != focused && HasFocus(f, c) then
      FirstFocused(f, c);
      var r := Descend(f, focused, f[c].focus[0]);
      InsideUnfolds(f, f[c].focus[0], c);
      InsideTrans(f, r, f[c].focus[0], c);
      r
    else c
  }

  /** Each parent on the line has the container below it first. */
  ghost predicate Leads(g: Forest, line: seq<Con>) {
    && (forall i {:trigger line[i]} :: 0 <= i < |line| ==> line[i] in g)
    && (forall i, j :: 0 <= i < j < |line| ==> line[i] != line[j])
    && (forall i {:trigger g[line[i]]} :: 0 < i < |line| ==> HasFocus(g, line[i]) && g[line[i]].focus[0] == line[i - 1])
  }

  lemma {:induction false} DescendAlong(g: Forest, line: seq<Con>, i: nat)
    requires WellFormed(g) && Leads(g, line) && i < |line|
    ensures Descend(g, line[0], line[i]) == line[0]
    decreases i
  {
    assert line[i] in g;
    if i > 0 {
      assert g[line[i]].focus[0] == line[i - 1];
      DescendAlong(g, line, i - 1);
    }
  }

  lemma {:induction false} ClimbsDistinct(f: Forest, line: seq<Con>)
    requires Climbs(f, line)
    ensures Distinct(line) && forall i {:trigger line[i]} :: 0 <= i < |line| ==> line[i] in f
    decreases |line|
  {
    if |line| > 1 {
      ClimbsDistinct(f, line[1..]);
      forall i {:trigger line[i]} | 0 < i < |line| ensures line[i] in f && line[i] in line[1..] {
        assert line[i] == line[1..][i - 1];
      }
    }
  }

  lemma FocusUpLeads(f: Forest, line: seq<Con>)
    requires WellFormed(f) && Climbs(f, line)
    ensures Leads(FocusUp(f, line), line)
  {
    var g := FocusUp(f, line);
    FocusUpRest(f, line);
    ClimbsDistinct(f, line);
    forall i {:trigger g[line[i]]} | 0 < i < |line| ensures HasFocus(g, line[i]) && g[line[i]].focus[0] == line[i - 1] {
      FocusUpHead(f, line, i - 1);
    }
  }

  lemma LineLeads(f: Forest, c: Con)
    requires WellFormed(f) && c in f
    ensures Climbs(f, Line(f, c)) && Leads(FocusUp(f, Line(f, c)), Line(f, c))
  {
    LineClimbs(f, c);
    FocusUpLeads(f, Line(f, c));
  }

  /** After con_focus(c), descending from `c` or any container above it ends at
    * `c`, even if `c` has children of its own. */
  lemma DescendReturns(f: Forest, c: Con, a: Con)
    requires WellFormed(f) && c in f && Inside(f, c, a)
    ensures Climbs(f, Line(f, c)) && WellFormed(FocusUp(f, Line(f, c))) && a in FocusUp(f, Line(f, c))
    ensures Descend(FocusUp(f, Line(f, c)), c, a) == c
  {
    var line := Line(f, c);
    LineLeads(f, c);
    FocusUpRest(f, line);
    RefocusKeeps(f, FocusUp(f, line));
    DescendAlong(FocusUp(f, line), line, IndexOf(line, a));
  }

  /** Where descending ends depends on the focus lists only. */
  lemma {:induction false} DescendSame(f: Forest, g: Forest, focused: Con?, c: Con)
    requires WellFormed(f) && WellFormed(g) && c in f && g.Keys == f.Keys
    requires forall x :: x in f ==> g[x].focus == f[x].focus
    ensures Descend(g, focused, c) == Descend(f, focused, c)
    decreases Below(f, c)
  {
    if c != focused && HasFocus(f, c) {
      FirstFocused(f, c);
      DescendSame(f, g, focused, f[c].focus[0]);
    }
  }

  lemma LeadsSame(f: Forest, g: Forest, line: seq<Con>)
    requires Leads(f, line) && forall x :: x in line ==> x in f && x in g && g[x].focus == f[x].focus
    ensures Leads(g, line)
  {
    forall i {:trigger line[i]} | 0 <= i < |line| ensures line[i] in g && g[line[i]].focus == f[line[i]].focus {
      assert line[i] in line;
    }
  }

  /** Descending along such a line passes its lower end, if the focus is not above. */
  lemma {:induction false} DescendThrough(g: Forest, focused: Con?, line: seq<Con>, i: nat)
    requires WellFormed(g) && Leads(g, line) && i < |line| && forall j :: 0 < j <= i ==> line[j] != focused
    ensures Descend(g, focused, line[i]) == Descend(g, focused, line[0])
    decreases i
  {
    assert line[i] in g;
    if i > 0 {
      assert g[line[i]].focus[0] == line[i - 1];
      DescendThrough(g, focused, line, i - 1);
    }
  }

  // ---------------------------------------------------------------- the next one

  /** The second descent of con_next_focused: stops above `stop`. */
  ghost function DescendAbove(f: Forest, stop: Con, c: Con): (r: Con)
    requires WellFormed(f) && c in f
    ensures r in f && Inside(f, r, c)
    decreases Below(f, c)
  {
    if HasFocus(f, c) && f[c].focus[0] != stop then
      FirstFocused(f, c);
      var r := DescendAbove(f, stop, f[c].focus[0]);
      InsideUnfolds(f, f[c].focus[0], c);
      InsideTrans(f, r, f[c].focus[0], c);
      r
    else c
  }

  /** Where con_next_focused starts: the focused sibling, the next one in the
    * focus order, or the parent. */
  ghost function NextStart(f: Forest, c: Con): Con
    requires WellFormed(f) && c in f && Attached(f, c)
  {
    var focus := f[f[c].parent].focus;
    if focus[0] != c then focus[0]
    else if |focus| > 1 then focus[1]
    else f[c].parent
  }

  lemma NextStartExists(f: Forest, c: Con)
    requires WellFormed(f) && c in f && Attached(f, c)
    ensures var s := NextStart(f, c);
            s in f && (s == f[c].parent ||
              (s != c && s in f[f[c].parent].focus && Attached(f, s) && f[s].parent == f[c].parent))
  {
    assert OwnLists(f[f[c].parent]);
    assert NextStart(f, c) != f[c].parent ==> NextStart(f, c) in f[f[c].parent].focus;
  }

  /** con_next_focused for a container that is no dock client; a floating
    * window stands for the CT_FLOATING_CON around it. */
  ghost function NextFocused(f: Forest, focused: Con?, c: Con): (r: Con)
    requires WellFormed(f) && c in f && Attached(f, c)
  {
    NextStartExists(f, c);
    var next := DescendAbove(f, c, NextStart(f, c));
    if f[c].ty == FloatingCon && next != f[c].parent then Descend(f, focused, next) else next
  }

  lemma ParentOutsideChild(f: Forest, c: Con)
    requires Acyclic(f) && c in f && Attached(f, c)
    ensures !Inside(f, f[c].parent, c)
  {
    if Inside(f, f[c].parent, c) {
      InsideIsDeeper(f, Depths(f), f[c].parent, c);
    }
  }

  /** Nothing inside a sibling of `c` is inside `c`, nor is their parent. */
  lemma SiblingOutside(f: Forest, c: Con, s: Con, x: Con)
    requires WellFormed(f) && c in f && s in f && x in f && Attached(f, c) && Attached(f, s)
    requires f[s].parent == f[c].parent && s != c && Inside(f, x, s)
    ensures !Inside(f, x, c) && !Inside(f, f[c].parent, c) && Inside(f, x, f[c].parent)
  {
    var p := f[c].parent;
    InsideUnfolds(f, s, p);
    InsideTrans(f, x, s, p);
    ParentOutsideChild(f, c);
    ParentOutsideChild(f, s);
    if Inside(f, x, c) {
      AncestorsCompare(f, x, c, s);
      InsideUnfolds(f, s, c);
      InsideUnfolds(f, c, s);
    }
  }

  /** The successor is the parent itself or lies in a sibling's tree; in
    * particular it is never `c` or below it. */
  lemma NextFocusedOutside(f: Forest, focused: Con?, c: Con)
    requires WellFormed(f) && c in f && Attached(f, c)
    ensures var r := NextFocused(f, focused, c);
            && r in f && !Inside(f, r, c)
            && (r == f[c].parent || exists s :: s in f[f[c].parent].focus && s != c && Inside(f, r, s))
  {
    var p, s := f[c].parent, NextStart(f, c);
    NextStartExists(f, c);
    ParentOutsideChild(f, c);
    if s == p {
      // only when `c` is the single child, and then the descent stops at once
      NotOwnChild(f, p);
    } else {
      var next := DescendAbove(f, c, s);
      var r := NextFocused(f, focused, c);
      if r != next { InsideTrans(f, r, next, s); }
      SiblingOutside(f, c, s, r);
      assert s in f[p].focus && s != c && Inside(f, r, s);
    }
  }

  /** The first plain container. */
  ghost function FirstPlain(f: Forest, s: seq<Con>): (r: Option<Con>)
    requires forall c :: c in s ==> c in f
    ensures if r.Some? then r.value in s && f[r.value].ty == Plain else forall c :: c in s ==> f[c].ty != Plain
  {
    if s == [] then None
    else if f[s[0]].ty == Plain then Some(s[0])
    else FirstPlain(f, s[1..])
  }

  /** output_get_content */
  ghost function Content(f: Forest, output: Con): Option<Con>
    requires WellFormed(f) && output in f
  {
    NodesKnown(f, output);
    FirstPlain(f, f[output].nodes)
  }

  /** A dock client: its dock area is on an output that has a content container. */
  ghost predicate Docked(f: Forest, c: Con)
    requires WellFormed(f)
  {
    && c in f && Attached(f, c) && f[f[c].parent].ty == Dockarea && Attached(f, f[c].parent)
    && Content(f, f[f[c].parent].parent).Some?
  }

  /** con_next_focused for a dock client: not inside it either. */
  lemma DockSuccessor(f: Forest, focused: Con?, c: Con)
    requires WellFormed(f) && Docked(f, c)
    ensures var content := Content(f, f[f[c].parent].parent).value;
            content in f && Inside(f, Descend(f, focused, content), content) &&
              !Inside(f, Descend(f, focused, content), c)
  {
    var dock := f[c].parent;
    var output := f[dock].parent;
    var content := Content(f, output).value;
    NodesKnown(f, output);
    var r := Descend(f, focused, content);
    SiblingOutside(f, dock, content, r);
    if Inside(f, r, c) {
      InsideUnfolds(f, c, dock);
      InsideTrans(f, r, c, dock);
    }
  }

  lemma OutsideUnmoved(f: Forest, c: Con, x: Con)
    requires WellFormed(f) && c in f && x in f && Attached(f, c) && !Inside(f, x, c)
    ensures WellFormed(Detach(f, c)) && Line(Detach(f, c), x) == Line(f, x)
  {
    var g := Detach(f, c);
    DetachKeeps(f, c);
    WithoutMembers(f[f[c].parent].focus, c);
    SameLine(f, g, x);
  }

  /** So it keeps its place in the tree when `c` is detached. */
  lemma NextFocusedSurvives(f: Forest, focused: Con?, c: Con)
    requires WellFormed(f) && c in f && Attached(f, c)
    ensures var r, g := NextFocused(f, focused, c), Detach(f, c);
            WellFormed(g) && r in g && Line(g, r) == Line(f, r)
  {
    NextFocusedOutside(f, focused, c);
    DetachKeeps(f, c);
    OutsideUnmoved(f, c, NextFocused(f, focused, c));
  }

  // ---------------------------------------------------------------- where they end

  lemma LeadsDown(f: Forest, rest: seq<Con>, c: Con)
    requires WellFormed(f) && c in f && HasFocus(f, c) && Leads(f, rest) && rest != []
    requires rest[|rest| - 1] == f[c].focus[0] && forall x :: x in rest ==> x in f && Inside(f, x, f[c].focus[0])
    ensures Leads(f, rest + [c]) && forall x :: x in rest ==> Inside(f, x, c)
  {
    var n := f[c].focus[0];
    FirstFocused(f, c);
    InsideUnfolds(f, n, c);
    ParentOutsideChild(f, n);
    forall x | x in rest ensures Inside(f, x, c) && x != c {
      InsideTrans(f, x, n, c);
    }
    var line := rest + [c];
    forall i, j | 0 <= i < j < |line| ensures line[i] != line[j] {
      if j == |rest| { assert rest[i] in rest; }
    }
  }

  /** con_descend_focused goes from each container to the most recently focused
    * of its children, up to the one with the focus or one without children. */
  lemma {:induction false} DescendLeads(f: Forest, focused: Con?, c: Con) returns (line: seq<Con>)
    requires WellFormed(f) && c in f
    ensures Leads(f, line) && line != [] && line[0] == Descend(f, focused, c) && line[|line| - 1] == c
    ensures (line[0] == focused || f[line[0]].focus == []) && forall i :: 0 < i < |line| ==> line[i] != focused
    ensures forall x :: x in line ==> x in f && Inside(f, x, c)
    decreases Below(f, c)
  {
    assert Inside(f, c, c);
    if c != focused && HasFocus(f, c) {
      FirstFocused(f, c);
      var rest := DescendLeads(f, focused, f[c].focus[0]);
      LeadsDown(f, rest, c);
      line := rest + [c];
    } else {
      line := [c];
    }
  }

  lemma {:induction false} DescendAboveLeads(f: Forest, c: Con, s: Con, n: Con) returns (line: seq<Con>)
    requires WellFormed(f) && c in f && s in f && n in f && Attached(f, c) && Attached(f, s)
    requires f[s].parent == f[c].parent && s != c && Inside(f, n, s)
    ensures Leads(f, line) && line != [] && line[0] == DescendAbove(f, c, n) && line[|line| - 1] == n
    ensures f[line[0]].focus == [] && forall x :: x in line ==> x in f && Inside(f, x, n)
    decreases Below(f, n)
  {
    assert Inside(f, n, n);
    if HasFocus(f, n) {
      FirstFocused(f, n);
      var h := f[n].focus[0];
      ParentOutsideChild(f, s);
      InsideUnfolds(f, h, s);
      var rest := DescendAboveLeads(f, c, s, h);
      LeadsDown(f, rest, n);
      line := rest + [n];
    } else {
      line := [n];
    }
  }

  /** con_next_focused: without a sibling the parent ... */
  lemma NextFocusedAlone(f: Forest, focused: Con?, c: Con)
    requires WellFormed(f) && c in f && Attached(f, c) && f[f[c].parent].focus == [c]
    ensures NextFocused(f, focused, c) == f[c].parent
  {
    NotOwnChild(f, f[c].parent);
  }

  /** ... and otherwise the most recently focused leaf of the most recently focused
    * of the other children of the parent. */
  lemma NextFocusedLeads(f: Forest, focused: Con?, c: Con) returns (line: seq<Con>)
    requires WellFormed(f) && c in f && Attached(f, c) && f[f[c].parent].focus != [c]
    ensures Leads(f, line) && line != [] && line[0] == NextFocused(f, focused, c) && f[line[0]].focus == []
    ensures Without(f[f[c].parent].focus, c) != [] && line[|line| - 1] == Without(f[f[c].parent].focus, c)[0]
  {
    var p: Con, focus := f[c].parent, f[f[c].parent].focus;
    assert OwnLists(f[p]);
    NextStartExists(f, c);
    var s := NextStart(f, c);
    assert s == Without(focus, c)[0] && s in Without(focus, c);
    WithoutMembers(focus, c);
    NotOwnChild(f, p);
    assert Inside(f, s, s);
    line := DescendAboveLeads(f, c, s, s);
  }

  lemma {:induction false} FirstPlainAt(f: Forest, s: seq<Con>, i: nat)
    requires (forall x :: x in s ==> x in f) && i < |s| && f[s[i]].ty == Plain
    requires forall j :: 0 <= j < i ==> f[s[j]].ty != Plain
    ensures FirstPlain(f, s) == Some(s[i])
  {
    if i > 0 {
      assert f[s[0]].ty != Plain;
      FirstPlainAt(f, s[1..], i - 1);
    }
  }

  /** For a dock client the descent starts at the first plain child of its output. */
  lemma ContentFirst(f: Forest, output: Con, i: nat)
    requires WellFormed(f) && output in f && i < |f[output].nodes|
    requires forall j :: 0 <= j <= i ==> f[output].nodes[j] in f && (f[f[output].nodes[j]].ty == Plain <==> j == i)
    ensures Content(f, output) == Some(f[output].nodes[i])
  {
    NodesKnown(f, output);
    FirstPlainAt(f, f[output].nodes, i);
  }
}
