/** con_attach and con_detach as functions on forests, and what they keep. */
module Attachment {
  import opened Order
  import opened Containers
  import DockOrder

  /** Nobody lists `c`. */
  ghost predicate Loose(f: Forest, c: Con) {
    forall p {:trigger f[p]} :: p in f ==> c !in f[p].focus
  }

  // ------------------------------------------------------------ where an entry goes

  function PastSmaller(nums: seq<int>, num: int): (k: nat)
    ensures k <= |nums|
    ensures forall i :: 0 <= i < k ==> nums[i] != -1 && nums[i] <= num
    ensures k < |nums| ==> nums[k] == -1 || num < nums[k]
  {
    if nums != [] && nums[0] != -1 && num >= nums[0] then 1 + PastSmaller(nums[1..], num) else 0
  }

  /** Workspaces are ordered by number, unnumbered (-1) ones last.  The code
    * tests the first workspace, then walks past every numbered one that is not
    * greater. */
  function WorkspaceSlot(nums: seq<int>, num: int): (k: nat)
    ensures k <= |nums|
  {
    if num == -1 || nums == [] then |nums|
    else if num < nums[0] then 0
    else PastSmaller(nums, num)
  }

  ghost predicate WorkspacesOrdered(nums: seq<int>) {
    forall i, j :: 0 <= i < j < |nums| ==> nums[j] == -1 || (nums[i] != -1 && nums[i] <= nums[j])
  }

  /** Numbered workspaces stay in ascending order ahead of the unnumbered ones,
    * and a new one comes after those with its own number. */
  lemma WorkspaceOrderKept(nums: seq<int>, num: int)
    requires WorkspacesOrdered(nums) && num >= -1 && (forall n :: n in nums ==> n >= -1)
    ensures var k := WorkspaceSlot(nums, num);
            && WorkspacesOrdered(Inserted(nums, k, num))
            && (num != -1 ==> num !in nums[k..])
  {
    var k := WorkspaceSlot(nums, num);
    if num != -1 && k < |nums| {
      assert nums[k] == -1 || num < nums[k];
    }
  }

  function Nums(f: Forest, s: seq<Con>): seq<int>
    requires forall c :: c in s ==> c in f
  {
    seq(|s|, i requires 0 <= i < |s| => f[s[i]].num)
  }

  function Windows(f: Forest, s: seq<Con>): seq<Window>
    requires forall c :: c in s ==> c in f && f[c].window.Some?
  {
    seq(|s|, i requires 0 <= i < |s| => f[s[i]].window.value)
  }

  /** The first entry that is not a CT_FLOATING_CON. */
  function FirstTiling(f: Forest, s: seq<Con>): (r: Option<Con>)
    requires forall c :: c in s ==> c in f
    ensures r.None? ==> forall c :: c in s ==> f[c].ty == FloatingCon
    ensures r.Some? ==> r.value in s && f[r.value].ty != FloatingCon
  {
    if s == [] then None
    else if f[s[0]].ty != FloatingCon then Some(s[0])
    else FirstTiling(f, s[1..])
  }

  /** What con_attach asks of its caller.  `c` must not be listed anywhere, `p`
    * must not lie below it, and a floating container does not go to a dock area.
    * The branch that hands a window to workspace_attach_to is apart, in
    * WorkspaceAttach. */
  ghost predicate CanAttach(f: Forest, c: Con, p: Con, previous: Option<Con>) {
    && WellFormed(f)
    && c in f && p in f && Loose(f, c) && !Inside(f, p, c)
    && (previous.Some? ==> previous.value in f[p].nodes)
    && (f[c].ty == FloatingCon ==> f[p].ty != Dockarea)
    && (f[c].ty != Workspace && f[p].ty == Dockarea ==>
          f[c].window.Some? && forall x :: x in f[p].nodes ==> f[x].window.Some?)
    && !(f[c].ty != FloatingCon && f[c].window.Some? && f[p].ty == Workspace && f[p].workspaceLayout != Default)
  }

  /** The index in the tiling list at which `c` is inserted. */
  ghost function Place(f: Forest, c: Con, p: Con, previous: Option<Con>, ignoreFocus: bool): (k: nat)
    requires CanAttach(f, c, p, previous)
    ensures k <= |f[p].nodes|
  {
    var nodes := f[p].nodes;
    if f[c].ty == Workspace then WorkspaceSlot(Nums(f, nodes), f[c].num)
    else if f[p].ty == Dockarea then DockOrder.DockSlot(Windows(f, nodes), f[c].window.value)
    else
      var first := if ignoreFocus then None else FirstTiling(f, f[p].focus);
      var current := if first.Some? then first else previous;
      if current.Some? && f[p].ty != Output then IndexOf(nodes, current.value) + 1 else |nodes|
  }

  ghost function Listing(n: Node, c: Con, ty: ConType, k: nat): Node
    requires k <= |n.nodes|
  {
    if ty == FloatingCon then n.(floats := n.floats + [c], focus := n.focus + [c])
    else n.(nodes := Inserted(n.nodes, k, c), focus := n.focus + [c])
  }

  /** `c` listed by `p`: at index `k` of the tiling list, or last of the
    * floating ones; last in the focus order either way. */
  ghost function Listed(f: Forest, c: Con, p: Con, k: nat): Forest
    requires c in f && p in f && k <= |f[p].nodes|
  {
    var g := f[c := f[c].(parent := p)];
    g[p := Listing(g[p], c, f[c].ty, k)]
  }

  ghost function Attach(f: Forest, c: Con, p: Con, previous: Option<Con>, ignoreFocus: bool): Forest
    requires CanAttach(f, c, p, previous)
  {
    Listed(f, c, p, Place(f, c, p, previous, ignoreFocus))
  }

  ghost function Unlisting(n: Node, c: Con, ty: ConType): Node
    requires c in n.focus && if ty == FloatingCon then c in n.floats else c in n.nodes
  {
    if ty == FloatingCon then n.(floats := Without(n.floats, c), focus := Without(n.focus, c))
    else n.(nodes := Without(n.nodes, c), focus := Without(n.focus, c))
  }

  ghost function Detach(f: Forest, c: Con): Forest
    requires WellFormed(f) && c in f && Attached(f, c)
  {
    var p: Con := f[c].parent;
    assert EdgeAgrees(f, p, c);
    f[p := Unlisting(f[p], c, f[c].ty)]
  }

  // ------------------------------------------------------------ what they keep

  /** Shifting the attached subtree below its new parent gives a depth. */
  ghost function Sunk(f: Forest, c: Con, p: Con): (d: map<Con, nat>)
    requires Acyclic(f) && p in f
  {
    var depth := Depths(f);
    map x | x in f :: if Inside(f, x, c) then depth[x] + depth[p] + 1 else depth[x]
  }

  lemma ListedLists(n: Node, c: Con, k: nat)
    requires OwnLists(n) && c !in n.focus && k <= |n.nodes|
    ensures OwnLists(n.(focus := n.focus + [c], floats := n.floats + [c]))
    ensures OwnLists(n.(focus := n.focus + [c], nodes := Inserted(n.nodes, k, c)))
  {
    InsertedMembers(n.nodes, k, c);
    InsertedMembers(n.floats, |n.floats|, c);
    InsertedMembers(n.focus, |n.focus|, c);
    assert n.floats[..|n.floats|] + [c] + n.floats[|n.floats|..] == n.floats + [c];
    assert n.focus[..|n.focus|] + [c] + n.focus[|n.focus|..] == n.focus + [c];
  }

  lemma ListedEdge(f: Forest, c: Con, p: Con, k: nat, q: Con, x: Con)
    requires WellFormed(f) && c in f && p in f && Loose(f, c) && k <= |f[p].nodes| && c != p
    requires q in f && x in Listed(f, c, p, k)[q].focus
    ensures EdgeAgrees(Listed(f, c, p, k), q, x)
  {
    assert c !in f[q].focus;
    assert OwnLists(f[q]);
    if x == c {
      assert q == p;
    } else {
      assert x in f[q].focus;
    }
  }

  lemma ListedParents(f: Forest, c: Con, p: Con, k: nat)
    requires WellFormed(f) && c in f && p in f && Loose(f, c) && k <= |f[p].nodes| && c != p
    ensures ParentsAgree(Listed(f, c, p, k))
  {
    var g := Listed(f, c, p, k);
    forall q, x | q in g && x in g[q].focus ensures EdgeAgrees(g, q, x) {
      ListedEdge(f, c, p, k, q, x);
    }
  }

  lemma ListedRanked(f: Forest, c: Con, p: Con, k: nat)
    requires WellFormed(f) && c in f && p in f && Loose(f, c) && !Inside(f, p, c) && k <= |f[p].nodes|
    ensures Ranked(Listed(f, c, p, k), Sunk(f, c, p))
  {
    var g, d := Listed(f, c, p, k), Sunk(f, c, p);
    forall q, x | q in g && x in g[q].focus && x in g ensures d[q] < d[x] {
      if x != c {
        assert x in f[q].focus;
        InsideUnfolds(f, x, c);
      } else {
        assert c !in f[q].focus && q == p;
      }
    }
  }

  lemma AttachKeeps(f: Forest, c: Con, p: Con, k: nat)
    requires WellFormed(f) && c in f && p in f && Loose(f, c) && !Inside(f, p, c) && k <= |f[p].nodes|
    ensures WellFormed(Listed(f, c, p, k)) && Attached(Listed(f, c, p, k), c)
  {
    assert c !in f[p].focus;
    ListedLists(f[p], c, k);
    ListedParents(f, c, p, k);
    ListedRanked(f, c, p, k);
  }

  // ------------------------------------------------------------ where a newcomer stands

  /** `y` directly follows `x`. */
  ghost predicate Follows(s: seq<Con>, x: Con, y: Con) {
    exists k :: 0 <= k < |s| - 1 && s[k] == x && s[k + 1] == y
  }

  /** `s` is `t` with `c` somewhere in it. */
  ghost predicate Joined(t: seq<Con>, s: seq<Con>, c: Con) {
    c !in t && exists k :: 0 <= k < |s| && s[k] == c && s[..k] + s[k + 1..] == t
  }

  lemma InsertedBehind(s: seq<Con>, x: Con, c: Con)
    requires x in s && c !in s
    ensures var k := IndexOf(s, x) + 1; Follows(Inserted(s, k, c), x, c) && Joined(s, Inserted(s, k, c), c)
  {
    var k := IndexOf(s, x) + 1;
    var t := Inserted(s, k, c);
    assert t[k - 1] == x && t[k] == c && t[..k] + t[k + 1..] == s;
  }

  lemma InsertedLast(s: seq<Con>, c: Con)
    requires c !in s
    ensures Inserted(s, |s|, c) == s + [c] && Joined(s, s + [c], c)
  {
    var t := s + [c];
    assert t[..|s|] + t[|s| + 1..] == s;
  }

  lemma {:induction false} FirstTilingAt(f: Forest, s: seq<Con>, i: nat)
    requires (forall x :: x in s ==> x in f) && i < |s| && f[s[i]].ty != FloatingCon
    requires forall j :: 0 <= j < i ==> f[s[j]].ty == FloatingCon
    ensures FirstTiling(f, s) == Some(s[i])
  {
    if i > 0 {
      assert f[s[0]].ty == FloatingCon;
      FirstTilingAt(f, s[1..], i - 1);
    }
  }

  lemma FocusKnown(f: Forest, p: Con, c: Con)
    requires WellFormed(f) && p in f && Loose(f, c)
    ensures c !in f[p].nodes && c !in f[p].focus && forall x :: x in f[p].focus ==> x in f
    ensures forall x :: x in f[p].focus && f[x].ty != FloatingCon ==> x in f[p].nodes
  {
    assert OwnLists(f[p]);
    forall x | x in f[p].focus ensures x in f && (f[x].ty != FloatingCon ==> x in f[p].nodes) {
      assert EdgeAgrees(f, p, x);
    }
  }

  /** `x` is the most recently focused tiling child of `p`. */
  ghost predicate MostRecent(f: Forest, p: Con, x: Con)
    requires p in f
  {
    exists i :: 0 <= i < |f[p].focus| && f[p].focus[i] == x && x in f && f[x].ty != FloatingCon &&
                forall j :: 0 <= j < i ==> f[p].focus[j] in f && f[f[p].focus[j]].ty == FloatingCon
  }

  lemma MostRecentIs(f: Forest, p: Con, c: Con, x: Con)
    requires WellFormed(f) && p in f && Loose(f, c) && MostRecent(f, p, x)
    ensures (forall y :: y in f[p].focus ==> y in f) && FirstTiling(f, f[p].focus) == Some(x)
    ensures x in f[p].nodes && c !in f[p].nodes
  {
    FocusKnown(f, p, c);
    var i :| 0 <= i < |f[p].focus| && f[p].focus[i] == x &&
      forall j :: 0 <= j < i ==> f[f[p].focus[j]].ty == FloatingCon;
    FirstTilingAt(f, f[p].focus, i);
  }

  /** A container among others, not a workspace, a floating one or a dock client. */
  ghost predicate Ordinary(f: Forest, c: Con, p: Con)
    requires c in f && p in f
  {
    f[c].ty != Workspace && f[c].ty != FloatingCon && f[p].ty != Dockarea && f[p].ty != Output
  }

  /** When the focus counts, it directly follows the most recently focused tiling
    * child ... */
  lemma AttachBehindFocused(f: Forest, c: Con, p: Con, previous: Option<Con>, x: Con)
    requires CanAttach(f, c, p, previous) && Ordinary(f, c, p) && MostRecent(f, p, x)
    ensures Follows(Attach(f, c, p, previous, false)[p].nodes, x, c)
  {
    MostRecentIs(f, p, c, x);
    InsertedBehind(f[p].nodes, x, c);
    assert Inside(f, p, p);
  }

  /** ... and without such a child, or when the focus does not count, the one it
    * was asked to follow ... */
  lemma AttachBehindPrevious(f: Forest, c: Con, p: Con, previous: Con, ignoreFocus: bool)
    requires CanAttach(f, c, p, Some(previous)) && Ordinary(f, c, p)
    requires ignoreFocus || forall x :: x in f[p].focus && x in f ==> f[x].ty == FloatingCon
    ensures Follows(Attach(f, c, p, Some(previous), ignoreFocus)[p].nodes, previous, c)
  {
    FocusKnown(f, p, c);
    InsertedBehind(f[p].nodes, previous, c);
    assert Inside(f, p, p);
  }

  /** ... or it is last; so it is on an output. */
  lemma AttachLast(f: Forest, c: Con, p: Con, previous: Option<Con>, ignoreFocus: bool)
    requires CanAttach(f, c, p, previous) && f[c].ty != Workspace && f[c].ty != FloatingCon && f[p].ty != Dockarea
    requires || f[p].ty == Output
             || (previous.None? && (ignoreFocus || forall x :: x in f[p].focus && x in f ==> f[x].ty == FloatingCon))
    ensures Attach(f, c, p, previous, ignoreFocus)[p].nodes == f[p].nodes + [c]
  {
    FocusKnown(f, p, c);
    InsertedLast(f[p].nodes, c);
    assert Inside(f, p, p);
  }

  lemma InsertedJoins(s: seq<Con>, k: nat, c: Con)
    requires k <= |s| && c !in s
    ensures Joined(s, Inserted(s, k, c), c)
  {
    var t := Inserted(s, k, c);
    assert t[k] == c && t[..k] + t[k + 1..] == s;
  }

  /** `n` becomes `m` by listing `c`. */
  ghost predicate Enlisted(n: Node, m: Node, c: Con, ty: ConType) {
    && m == n.(nodes := m.nodes, floats := m.floats, focus := m.focus) && Joined(n.focus, m.focus, c)
    && (if ty == FloatingCon then Joined(n.floats, m.floats, c) && m.nodes == n.nodes
        else m.floats == n.floats && Joined(n.nodes, m.nodes, c))
  }

  lemma ListingEnlists(n: Node, c: Con, ty: ConType, k: nat)
    requires OwnLists(n) && c !in n.focus && k <= |n.nodes|
    ensures Enlisted(n, Listing(n, c, ty, k), c, ty)
  {
    InsertedJoins(n.nodes, k, c);
    InsertedLast(n.floats, c);
    InsertedLast(n.focus, c);
  }

  /** `g` is `f` with `c` listed by `p`: the newcomer names its parent and is last
    * in the focus order, a floating one last of the floating children.  The
    * others keep their order, and nobody else is touched. */
  ghost predicate Joins(f: Forest, g: Forest, c: Con, p: Con) {
    && c in f && p in f && c != p && g.Keys == f.Keys && (forall q :: q in f && q != c && q != p ==> g[q] == f[q])
    && g[c] == f[c].(parent := p) && Enlisted(f[p], g[p], c, f[c].ty)
    && g[p].focus == f[p].focus + [c] && (f[c].ty == FloatingCon ==> g[p].floats == f[p].floats + [c])
  }

  lemma ListedJoins(f: Forest, c: Con, p: Con, k: nat)
    requires WellFormed(f) && c in f && p in f && Loose(f, c) && c != p && k <= |f[p].nodes|
    ensures Joins(f, Listed(f, c, p, k), c, p)
  {
    assert OwnLists(f[p]) && c !in f[p].focus;
    ListingEnlists(f[p], c, f[c].ty, k);
  }

  lemma AttachElsewhere(f: Forest, c: Con, p: Con, previous: Option<Con>, ignoreFocus: bool)
    requires CanAttach(f, c, p, previous)
    ensures Joins(f, Attach(f, c, p, previous, ignoreFocus), c, p)
  {
    assert Inside(f, p, p);
    ListedJoins(f, c, p, Place(f, c, p, previous, ignoreFocus));
  }

  lemma DetachedLists(n: Node, c: Con)
    requires OwnLists(n) && c in n.focus
    ensures c in n.floats && c !in n.nodes ==>
            OwnLists(n.(focus := Without(n.focus, c), floats := Without(n.floats, c)))
    ensures c in n.nodes && c !in n.floats ==> OwnLists(n.(focus := Without(n.focus, c), nodes := Without(n.nodes, c)))
  {
    WithoutMembers(n.focus, c);
    if c in n.floats { WithoutMembers(n.floats, c); }
    if c in n.nodes { WithoutMembers(n.nodes, c); }
  }

  lemma DetachedParents(f: Forest, c: Con)
    requires WellFormed(f) && c in f && Attached(f, c)
    ensures ParentsAgree(Detach(f, c)) && Loose(Detach(f, c), c)
    ensures Ranked(Detach(f, c), Depths(f))
  {
    var p, g := f[c].parent, Detach(f, c);
    WithoutMembers(f[p].focus, c);
    if f[c].ty == FloatingCon { WithoutMembers(f[p].floats, c); } else { WithoutMembers(f[p].nodes, c); }
    forall q, x | q in g && x in g[q].focus ensures x in f[q].focus && x != c {
    }
  }

  lemma DetachKeeps(f: Forest, c: Con)
    requires WellFormed(f) && c in f && Attached(f, c)
    ensures WellFormed(Detach(f, c)) && Loose(Detach(f, c), c)
  {
    DetachedLists(f[f[c].parent], c);
    DetachedParents(f, c);
  }

  lemma TakenOut<T>(s: seq<T>, k: nat, x: T)
    requires k <= |s| && x !in s
    ensures x in Inserted(s, k, x) && Without(Inserted(s, k, x), x) == s
  {
    var t := Inserted(s, k, x);
    assert t[k] == x;
    var i := IndexOf(t, x);
    assert i == k;
  }

  lemma UnlistingUndoes(n: Node, c: Con, ty: ConType, k: nat)
    requires OwnLists(n) && c !in n.focus && k <= |n.nodes|
    ensures var m := Listing(n, c, ty, k);
            && c in m.focus && (if ty == FloatingCon then c in m.floats else c in m.nodes) && Unlisting(m, c, ty) == n
  {
    TakenOut(n.nodes, k, c);
    TakenOut(n.floats, |n.floats|, c);
    TakenOut(n.focus, |n.focus|, c);
    assert Inserted(n.floats, |n.floats|, c) == n.floats + [c];
    assert Inserted(n.focus, |n.focus|, c) == n.focus + [c];
  }

  /** Detaching what was just attached gives the lists from before. */
  lemma DetachUndoes(f: Forest, c: Con, p: Con, k: nat)
    requires WellFormed(f) && c in f && p in f && Loose(f, c) && !Inside(f, p, c) && k <= |f[p].nodes|
    ensures WellFormed(Listed(f, c, p, k)) && Attached(Listed(f, c, p, k), c)
    ensures Detach(Listed(f, c, p, k), c) == f[c := f[c].(parent := p)]
  {
    AttachKeeps(f, c, p, k);
    assert OwnLists(f[p]) && c !in f[p].focus && Inside(f, p, p);
    UnlistingUndoes(f[p], c, f[c].ty, k);
  }

  lemma WithoutJoins(s: seq<Con>, c: Con)
    requires Distinct(s) && c in s
    ensures Joined(Without(s, c), s, c)
  {
    WithoutMembers(s, c);
    var k := IndexOf(s, c);
    assert s[..k] + s[k + 1..] == Without(s, c);
  }

  /** Detaching takes it out of its parent's lists, where the others keep their
    * order, and touches nobody else. */
  lemma DetachElsewhere(f: Forest, c: Con)
    requires WellFormed(f) && c in f && Attached(f, c)
    ensures var p: Con, g := f[c].parent, Detach(f, c);
            g.Keys == f.Keys && (forall q :: q in f && q != p ==> g[q] == f[q]) && Enlisted(g[p], f[p], c, f[c].ty)
  {
    var p: Con := f[c].parent;
    assert OwnLists(f[p]) && EdgeAgrees(f, p, c);
    WithoutJoins(f[p].focus, c);
    if f[c].ty == FloatingCon { WithoutJoins(f[p].floats, c); } else { WithoutJoins(f[p].nodes, c); }
  }
}
