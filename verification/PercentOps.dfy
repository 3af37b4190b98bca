/** con_fix_percent and the tiling resize on the heap. */
module PercentOps {
  import opened Order
  import opened Containers
  import opened Percent
  import opened Swapping

  ghost function Percents(nodes: seq<Con>): (r: seq<real>)
    reads nodes
    ensures |r| == |nodes|
    ensures forall i :: 0 <= i < |nodes| ==> r[i] == nodes[i].percent
  {
    seq(|nodes|, i requires 0 <= i < |nodes| reads nodes => nodes[i].percent)
  }

  /** The first loop of con_fix_percent: what is distributed, over how many. */
  method SumGiven(nodes: seq<Con>) returns (total: real, count: nat)
    ensures total == Given(Percents(nodes)) && count == Count(Percents(nodes))
  {
    ghost var s := Percents(nodes);
    total, count := 0.0, 0;
    var i := 0;
    while i < |nodes|
      invariant i <= |nodes|
      invariant Given(s) == total + Given(s[i..]) && Count(s) == count + Count(s[i..])
    {
      assert s[i..][1..] == s[i + 1..] && s[i..][0] == nodes[i].percent;
      if nodes[i].percent > 0.0 {
        total := total + nodes[i].percent;
        count := count + 1;
      }
      i := i + 1;
    }
  }

  /** The second loop after `i` children. */
  ghost predicate FillAt(s: seq<real>, goal: seq<real>, count: nat, i: nat, total: real) {
    && i <= |s| == |goal|
    && goal[i..] == Fill(s[i..], total, count) && total == Sum(goal[..i]) + Given(s[i..])
  }

  lemma FillNext(s: seq<real>, goal: seq<real>, count: nat, i: nat, total: real)
    requires FillAt(s, goal, count, i, total) && i < |s|
    ensures goal[i] == if s[i] <= 0.0 then Share(total, count) else s[i]
    ensures FillAt(s, goal, count, i + 1, if s[i] <= 0.0 then total + Share(total, count) else total)
  {
    assert s[i..][1..] == s[i + 1..] && goal[i..][1..] == goal[i + 1..] && goal[i..][0] == goal[i] && s[i..][0] == s[i];
    SumJoin(goal[..i], [goal[i]]);
    assert goal[..i] + [goal[i]] == goal[..i + 1];
  }

  lemma {:induction false} FillLength(s: seq<real>, total: real, count: nat)
    ensures |Fill(s, total, count)| == |s|
  {
    if s != [] {
      FillLength(s[1..], if s[0] <= 0.0 then total + Share(total, count) else total, count);
    }
  }

  lemma FillEnds(s: seq<real>, count: nat)
    ensures FillAt(s, Fill(s, Given(s), count), count, 0, Given(s))
    ensures forall total :: FillAt(s, Fill(s, Given(s), count), count, |s|, total) ==>
            total == Sum(Fill(s, Given(s), count))
  {
    var goal := Fill(s, Given(s), count);
    FillLength(s, Given(s), count);
    assert s[0..] == s && goal[0..] == goal && goal[..|s|] == goal;
  }

  /** The total after the first `i` children. */
  function Running(s: seq<real>, count: nat, i: nat): real
    requires i <= |s|
  {
    if i == 0 then Given(s)
    else
      var total := Running(s, count, i - 1);
      if s[i - 1] <= 0.0 then total + Share(total, count) else total
  }

  lemma {:induction false} RunningFills(s: seq<real>, count: nat, i: nat)
    requires i <= |s|
    ensures FillAt(s, Fill(s, Given(s), count), count, i, Running(s, count, i))
  {
    FillEnds(s, count);
    if i > 0 {
      RunningFills(s, count, i - 1);
      FillNext(s, Fill(s, Given(s), count), count, i - 1, Running(s, count, i - 1));
    }
  }

  /** The `i`th child's share, told by the total so far. */
  function Filling(s: seq<real>, count: nat, i: nat): real
    requires i < |s|
  {
    if s[i] <= 0.0 then Share(Running(s, count, i), count) else s[i]
  }

  lemma FillByTotal(s: seq<real>, r: seq<real>, count: nat)
    requires |r| == |s| && forall i :: 0 <= i < |s| ==> r[i] == Filling(s, count, i)
    ensures r == Fill(s, Given(s), count) && Running(s, count, |s|) == Sum(r)
  {
    var goal := Fill(s, Given(s), count);
    FillEnds(s, count);
    RunningFills(s, count, |s|);
    FillLength(s, Given(s), count);
    forall i | 0 <= i < |s| ensures r[i] == goal[i] {
      RunningFills(s, count, i);
      FillNext(s, goal, count, i, Running(s, count, i));
    }
    assert r == goal;
  }

  /** A child without a share gets one. */
  method FillOne(child: Con, total: real, count: nat) returns (sum: real)
    modifies child`percent
    ensures child.percent == if old(child.percent) <= 0.0 then Share(total, count) else old(child.percent)
    ensures sum == if old(child.percent) <= 0.0 then total + Share(total, count) else total
  {
    sum := total;
    if child.percent <= 0.0 {
      if count == 0 {
        child.percent := 1.0;
      } else {
        child.percent := total / count as real;
      }
      sum := sum + child.percent;
    }
  }

  method FillEach(nodes: seq<Con>, given: real, count: nat) returns (total: real)
    requires Distinct(nodes) && given == Given(Percents(nodes))
    modifies nodes`percent
    ensures forall k :: 0 <= k < |nodes| ==> nodes[k].percent == Filling(old(Percents(nodes)), count, k)
    ensures total == Running(old(Percents(nodes)), count, |nodes|)
  {
    ghost var s := Percents(nodes);
    total := given;
    var i := 0;
    while i < |nodes|
      invariant i <= |nodes| && total == Running(s, count, i)
      invariant forall k :: 0 <= k < i ==> nodes[k].percent == Filling(s, count, k)
      invariant forall k :: i <= k < |nodes| ==> nodes[k].percent == s[k]
    {
      total := FillOne(nodes[i], total, count);
      i := i + 1;
    }
  }

  /** The second loop: newcomers get their shares, in order. */
  method FillIn(nodes: seq<Con>, given: real, count: nat) returns (total: real)
    requires Distinct(nodes) && given == Given(Percents(nodes))
    modifies nodes`percent
    ensures Percents(nodes) == Fill(old(Percents(nodes)), given, count) && total == Sum(Percents(nodes))
  {
    ghost var s := Percents(nodes);
    total := FillEach(nodes, given, count);
    FillByTotal(s, Percents(nodes), count);
  }

  /** The last loop: all shares divided by the total. */
  method ScaleAll(nodes: seq<Con>, total: real)
    requires Distinct(nodes) && total != 0.0
    modifies nodes`percent
    ensures Percents(nodes) == Scale(old(Percents(nodes)), total)
  {
    ghost var s := Percents(nodes);
    var i := 0;
    while i < |nodes|
      invariant i <= |nodes|
      invariant forall k :: 0 <= k < i ==> nodes[k].percent == s[k] / total
      invariant forall k :: i <= k < |nodes| ==> nodes[k].percent == s[k]
    {
      nodes[i].percent := nodes[i].percent / total;
      i := i + 1;
    }
  }

  /** The first two loops. */
  method FillMissing(nodes: seq<Con>) returns (total: real)
    requires Distinct(nodes)
    modifies nodes`percent
    ensures Percents(nodes) == Percent.Filled(old(Percents(nodes))) && total == Sum(Percents(nodes))
  {
    GivenBounds(Percents(nodes));
    var childrenWithPercent: nat;
    total, childrenWithPercent := SumGiven(nodes);
    if childrenWithPercent != |nodes| {
      total := FillIn(nodes, total, childrenWithPercent);
    }
  }

  method EqualShares(nodes: seq<Con>)
    requires Distinct(nodes)
    modifies nodes`percent
    ensures Percents(nodes) == Equal(|nodes|)
  {
    var i := 0;
    while i < |nodes|
      invariant i <= |nodes|
      invariant forall k :: 0 <= k < i ==> nodes[k].percent == 1.0 / |nodes| as real
    {
      nodes[i].percent := 1.0 / |nodes| as real;
      i := i + 1;
    }
  }

  method Normalise(nodes: seq<Con>, total: real)
    requires Distinct(nodes)
    modifies nodes`percent
    ensures Percents(nodes) == Normal(old(Percents(nodes)), total)
  {
    if total == 0.0 {
      EqualShares(nodes);
    } else if total != 1.0 {
      ScaleAll(nodes, total);
    }
  }

  method ConFixPercent(con: Con)
    requires Distinct(con.nodes)
    modifies con.nodes`percent
    ensures Percents(con.nodes) == if con.layout == Scrolling then old(Percents(con.nodes))
            else Fix(old(Percents(con.nodes)))
  {
    if con.layout == Scrolling {
      return;
    }
    var total := FillMissing(con.nodes);
    Normalise(con.nodes, total);
  }

  ghost function Shares(f: Forest, nodes: seq<Con>): (r: seq<real>)
    requires forall c :: c in nodes ==> c in f
    ensures |r| == |nodes| && forall i :: 0 <= i < |nodes| ==> r[i] == f[nodes[i]].percent
  {
    seq(|nodes|, i requires 0 <= i < |nodes| => f[nodes[i]].percent)
  }

  /** What con_fix_percent makes of the shares of `p`'s children. */
  ghost function NewShares(f: Forest, p: Con): (r: seq<real>)
    requires WellFormed(f) && p in f
    ensures |r| == |f[p].nodes|
  {
    NodesKnown(f, p);
    var s := Shares(f, f[p].nodes);
    if f[p].layout == Scrolling || s == [] then s
    else
      FixTotal(s);
      Fix(s)
  }

  ghost function Reshared(f: Forest, p: Con): (g: Forest)
    requires WellFormed(f) && p in f
    ensures g.Keys == f.Keys
  {
    map c | c in f :: if c in f[p].nodes then f[c].(percent := NewShares(f, p)[IndexOf(f[p].nodes, c)]) else f[c]
  }

  /** Afterwards the children have the new shares, in their order. */
  lemma ResharedShares(f: Forest, p: Con)
    requires WellFormed(f) && p in f
    ensures var g := Reshared(f, p);
            && (forall c :: c in f[p].nodes ==> c in g) && Shares(g, f[p].nodes) == NewShares(f, p)
            && (f[p].layout != Scrolling && f[p].nodes != [] ==>
               AllPositive(NewShares(f, p)) && Sum(NewShares(f, p)) == 1.0)
  {
    NodesKnown(f, p);
    var nodes, g := f[p].nodes, Reshared(f, p);
    forall i | 0 <= i < |nodes| ensures g[nodes[i]].percent == NewShares(f, p)[i] {
      assert nodes[i] in nodes && IndexOf(nodes, nodes[i]) == i;
    }
    if f[p].layout != Scrolling && nodes != [] {
      FixTotal(Shares(f, nodes));
    }
  }

  // ---------------------------------------------------------------- cmd_resize_tiling_width_height

  /** The first loop: children without a share get the default one. */
  method SetMissing(nodes: seq<Con>, default: real)
    requires Distinct(nodes)
    modifies nodes`percent
    ensures Percents(nodes) == FillZeros(old(Percents(nodes)), default)
  {
    ghost var s := Percents(nodes);
    var i := 0;
    while i < |nodes|
      invariant i <= |nodes|
      invariant forall k :: 0 <= k < i ==> nodes[k].percent == if s[k] == 0.0 then default else s[k]
      invariant forall k :: i <= k < |nodes| ==> nodes[k].percent == s[k]
    {
      if nodes[i].percent == 0.0 {
        nodes[i].percent := default;
      }
      i := i + 1;
    }
  }

  /** The checks that nobody ends up with less than a pixel. */
  method WouldBeTooSmall(nodes: seq<Con>, current: nat, ppt: real, subtract: real, onePixel: seq<real>)
    returns (r: bool)
    requires current < |nodes| == |onePixel|
    ensures r <==> TooSmall(Percents(nodes), current, ppt, subtract, onePixel)
  {
    if ppt < 0.0 && nodes[current].percent + ppt < onePixel[current] {
      return true;
    }
    if subtract >= 0.0 {
      var i := 0;
      while i < |nodes|
        invariant i <= |nodes|
        invariant forall k :: 0 <= k < i && k != current ==> nodes[k].percent - subtract >= onePixel[k]
      {
        if i != current && nodes[i].percent - subtract < onePixel[i] {
          return true;
        }
        i := i + 1;
      }
    }
    r := false;
  }

  lemma GrownFrom(s: seq<real>, r: seq<real>, current: nat, ppt: real, d: real)
    requires current < |s| == |r|
    requires forall k :: 0 <= k < |s| ==>
             r[k] == s[k] + (if k == current then ppt else 0.0) - (if k == current then 0.0 else d)
    ensures r == Grown(s, current, ppt, d)
  {
  }

  method GiveTo(nodes: seq<Con>, current: nat, ppt: real)
    requires Distinct(nodes) && current < |nodes|
    modifies nodes`percent
    ensures forall k :: 0 <= k < |nodes| ==>
            nodes[k].percent == old(nodes[k].percent) + (if k == current then ppt else 0.0)
  {
    nodes[current].percent := nodes[current].percent + ppt;
  }

  method TakeFromOthers(nodes: seq<Con>, current: nat, subtract: real)
    requires Distinct(nodes) && current < |nodes|
    modifies nodes`percent
    ensures forall k :: 0 <= k < |nodes| ==>
            nodes[k].percent == old(nodes[k].percent) - (if k == current then 0.0 else subtract)
  {
    var i := 0;
    while i < |nodes|
      invariant i <= |nodes|
      invariant forall k :: 0 <= k < i ==>
                nodes[k].percent == old(nodes[k].percent) - (if k == current then 0.0 else subtract)
      invariant forall k :: i <= k < |nodes| ==> nodes[k].percent == old(nodes[k].percent)
    {
      if i != current {
        nodes[i].percent := nodes[i].percent - subtract;
      }
      i := i + 1;
    }
  }

  method Shift(nodes: seq<Con>, current: nat, ppt: real, subtract: real)
    requires Distinct(nodes) && current < |nodes|
    modifies nodes`percent
    ensures Percents(nodes) == Grown(old(Percents(nodes)), current, ppt, subtract)
  {
    ghost var s := Percents(nodes);
    GiveTo(nodes, current, ppt);
    TakeFromOthers(nodes, current, subtract);
    GrownFrom(s, Percents(nodes), current, ppt, subtract);
  }

  /** The resize once its participants are known.  A zero `ppt` means that the
    * pixels count, relative to the `size` of the parent. */
  method ResizeWidthHeight(parent: Con, current: nat, px: int, ppt: real, size: int, onePixel: seq<real>)
    returns (ok: bool)
    requires Distinct(parent.nodes) && current < |parent.nodes| == |onePixel| && |parent.nodes| > 1 && size > 0
    modifies parent.nodes`percent
    ensures (ok, Percents(parent.nodes)) ==
            Resize(old(Percents(parent.nodes)), current, if ppt != 0.0 then ppt
              else px as real / size as real, onePixel)
  {
    var children := |parent.nodes|;
    SetMissing(parent.nodes, 1.0 / children as real);
    var effective := if ppt != 0.0 then ppt else px as real / size as real;
    var subtract := effective / (children - 1) as real;
    var refused := WouldBeTooSmall(parent.nodes, current, effective, subtract, onePixel);
    if refused {
      return false;
    }
    Shift(parent.nodes, current, effective, subtract);
    ok := true;
  }

  // ---------------------------------------------------------------- after con_swap

  /** Since a swap leaves every place its share, con_fix_percent finds the same
    * list as before: it changes nothing where it would have changed nothing. */
  lemma SwapKeepsShares(f: Forest, a: Con, b: Con, p: Con)
    requires CanSwap(f, a, b) && p in f
    ensures var g := Swap(f, a, b);
            && (forall c :: c in f[p].nodes ==> c in f) && (forall c :: c in g[p].nodes ==> c in g)
            && Shares(g, g[p].nodes) == Shares(f, f[p].nodes)
  {
    var g := Swap(f, a, b);
    assert OwnLists(f[p]);
    ExchangedMembers(f[p].nodes, a, b);
    forall i | 0 <= i < |f[p].nodes|
      ensures f[p].nodes[i] in f && g[p].nodes[i] in g && g[g[p].nodes[i]].percent == f[f[p].nodes[i]].percent
    {
      PlacesKept(f, a, b, p, i);
    }
  }
}
