/** The order of dock clients: by window class, then by instance, ignoring case. */
module DockOrder {
  import opened Ascii
  import opened Order
  import opened Containers

  /** strcasecmp */
  function CompareText(a: string, b: string): int {
    if a == [] || b == [] then
      if a == b then 0 else if a == [] then -1 else 1
    else
      var d := Folded(a[0]) as int - Folded(b[0]) as int;
      if d != 0 then d else CompareText(a[1..], b[1..])
  }

  /** strcasecmp_nullable: an absent string comes first. */
  function CompareNullable(a: Option<string>, b: Option<string>): int {
    match (a, b)
    case (None, None) => 0
    case (None, Some(_)) => -1
    case (Some(_), None) => 1
    case (Some(x), Some(y)) => CompareText(x, y)
  }

  function Compare(a: Window, b: Window): int {
    var r := CompareNullable(a.cls, b.cls);
    if r != 0 then r else CompareNullable(a.instance, b.instance)
  }

  /** The first dock client the new one sorts before, or the end. */
  function DockSlot(ws: seq<Window>, w: Window): (k: nat)
    ensures k <= |ws|
    ensures forall i :: 0 <= i < k ==> Compare(w, ws[i]) >= 0
    ensures k < |ws| ==> Compare(w, ws[k]) < 0
  {
    if ws == [] || Compare(w, ws[0]) < 0 then 0 else 1 + DockSlot(ws[1..], w)
  }

  ghost predicate DocksOrdered(ws: seq<Window>) {
    forall i, j :: 0 <= i < j < |ws| ==> Compare(ws[i], ws[j]) <= 0
  }

  lemma {:induction false} TextOrder(a: string, b: string, c: string)
    ensures CompareText(b, a) == -CompareText(a, b)
    ensures CompareText(a, b) <= 0 && CompareText(b, c) <= 0 ==> CompareText(a, c) <= 0
  {
    if a != [] && b != [] {
      TextOrder(a[1..], b[1..], if c == [] then c else c[1..]);
    }
  }

  lemma NullableOrder(a: Option<string>, b: Option<string>, c: Option<string>)
    ensures CompareNullable(b, a) == -CompareNullable(a, b)
    ensures CompareNullable(a, b) <= 0 && CompareNullable(b, c) <= 0 ==> CompareNullable(a, c) <= 0
  {
    if a.Some? && b.Some? {
      TextOrder(a.value, b.value, if c.Some? then c.value else "");
    }
  }

  lemma ClientOrder(a: Window, b: Window, c: Window)
    ensures Compare(b, a) == -Compare(a, b)
    ensures Compare(a, b) <= 0 && Compare(b, c) <= 0 ==> Compare(a, c) <= 0
  {
    NullableOrder(a.cls, b.cls, c.cls);
    NullableOrder(b.cls, c.cls, a.cls);
    NullableOrder(c.cls, a.cls, b.cls);
    NullableOrder(a.instance, b.instance, c.instance);
  }

  /** The texts agree up to `k`, where the first ends or has the lesser letter. */
  predicate LessAt(a: string, b: string, k: int) {
    && 0 <= k <= |a| && k < |b| && (forall i {:trigger a[i]} :: 0 <= i < k ==> Folded(a[i]) == Folded(b[i]))
    && (k == |a| || Folded(a[k]) < Folded(b[k]))
  }

  lemma LessAfter(a: string, b: string, k: int)
    requires a != [] && b != [] && Folded(a[0]) == Folded(b[0]) && k >= 0
    ensures LessAt(a[1..], b[1..], k) <==> LessAt(a, b, k + 1)
  {
    assert forall i {:trigger a[i]} :: 0 < i < |a| ==> a[i] == a[1..][i - 1];
    assert forall i {:trigger b[i]} :: 0 < i < |b| ==> b[i] == b[1..][i - 1];
  }

  /** What strcasecmp says: less exactly at the first difference in letters, the
    * case left out; a text that ends there is the lesser one. */
  lemma {:induction false} CompareMeans(a: string, b: string)
    ensures CompareText(a, b) == 0 <==> SameText(a, b)
    ensures CompareText(a, b) < 0 <==> exists k :: LessAt(a, b, k)
  {
    if a != [] && b != [] && Folded(a[0]) == Folded(b[0]) {
      CompareMeans(a[1..], b[1..]);
      if SameText(a[1..], b[1..]) {
        assert forall i :: 0 < i < |a| ==> a[i] == a[1..][i - 1] && b[i] == b[1..][i - 1];
      }
      if SameText(a, b) {
        assert forall i :: 0 <= i < |a| - 1 ==> a[1..][i] == a[i + 1] && b[1..][i] == b[i + 1];
      }
      if CompareText(a, b) < 0 {
        var k :| LessAt(a[1..], b[1..], k);
        LessAfter(a, b, k);
        assert LessAt(a, b, k + 1);
      }
      if k :| LessAt(a, b, k) {
        assert k > 0;
        LessAfter(a, b, k - 1);
        assert LessAt(a[1..], b[1..], k - 1);
      }
    } else {
      assert LessAt(a, b, 0) <==> CompareText(a, b) < 0;
      assert forall k :: LessAt(a, b, k) ==> k == 0;
    }
  }

  /** A client sorts by class before instance, and without one before any. */
  lemma ClientBefore(a: Window, b: Window)
    ensures Compare(a, b) < 0 <==>
            || CompareNullable(a.cls, b.cls) < 0
            || (CompareNullable(a.cls, b.cls) == 0 && CompareNullable(a.instance, b.instance) < 0)
    ensures a.cls.None? && b.cls.Some? ==> Compare(a, b) < 0
    ensures a.cls.Some? && b.cls.Some? && CompareText(a.cls.value, b.cls.value) < 0 ==> Compare(a, b) < 0
  {
  }

  /** Dock clients stay sorted, however they arrive. */
  lemma DockOrderKept(ws: seq<Window>, w: Window)
    requires DocksOrdered(ws)
    ensures var k := DockSlot(ws, w); DocksOrdered(Inserted(ws, k, w))
  {
    var k := DockSlot(ws, w);
    forall i | 0 <= i < |ws| ensures if i < k then Compare(ws[i], w) <= 0 else Compare(w, ws[i]) <= 0 {
      ClientOrder(w, ws[i], w);
      if k < i { ClientOrder(w, ws[k], ws[i]); }
    }
  }
}
