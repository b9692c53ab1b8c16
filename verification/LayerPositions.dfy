/**
 The child list after a reconcile, stated over positions: when it stays as it is, and
 otherwise which list it becomes.
 */
module LayerPositions {
  import opened LayerOrder

  /** The children that are not in a set, in their order. */
  function Others(cs: seq<Child>, gone: set<Child>): seq<Child> {
    if cs == [] then [] else (if cs[0] in gone then [] else [cs[0]]) + Others(cs[1..], gone)
  }

  /** Every place of `x` is below every place of `y`. */
  predicate Lower(cs: seq<Child>, x: Child, y: Child) {
    forall a, b :: 0 <= a < |cs| && 0 <= b < |cs| && cs[a] == x && cs[b] == y ==> a < b
  }

  /**
   The list is right already: something is desired, it is all there in the desired order,
   and no other shown view is above the lowest of it.
   */
  predicate Right(cs: seq<Child>, desired: seq<Child>, shown: set<Child>) {
    && desired != []
    && (forall i :: 0 <= i < |desired| ==> desired[i] in cs)
    && (forall i, j :: 0 <= i < j < |desired| ==> Lower(cs, desired[i], desired[j]))
    && (forall c :: c in shown && c in cs && c !in desired ==> Lower(cs, c, desired[0]))
  }

  lemma LowerIs(cs: seq<Child>, x: Child, y: Child)
    requires Distinct(cs) && x in cs && y in cs
    ensures Lower(cs, x, y) <==> IndexOf(cs, x) < IndexOf(cs, y)
  {
    IndexOfIn(cs, x);
    IndexOfIn(cs, y);
    var a, b := IndexOf(cs, x), IndexOf(cs, y);
    assert cs[a] == x && cs[b] == y;
    hide IndexOf;
  }

  lemma RightIsStacked(cs: seq<Child>, desired: seq<Child>, shown: set<Child>)
    requires Distinct(cs)
    ensures Right(cs, desired, shown) <==> desired != [] && Stacked(cs, desired, shown)
  {
    forall c ensures IndexOf(cs, c) >= 0 <==> c in cs
      ensures IndexOf(cs, c) >= -1
    {
      IndexOfIn(cs, c);
    }
    forall x, y | x in cs && y in cs ensures Lower(cs, x, y) <==> IndexOf(cs, x) < IndexOf(cs, y) {
      LowerIs(cs, x, y);
    }
    hide IndexOf, Lower, Distinct;
  }

  lemma {:induction false} WithoutIsOthers(cs: seq<Child>, c: Child)
    ensures Without(cs, c) == Others(cs, {c})
  {
    if cs != [] {
      WithoutIsOthers(cs[1..], c);
    }
  }

  lemma {:induction false} OthersTwice(cs: seq<Child>, a: set<Child>, b: set<Child>)
    ensures Others(Others(cs, a), b) == Others(cs, a + b)
  {
    if cs != [] {
      var rest := Others(cs[1..], a);
      OthersTwice(cs[1..], a, b);
      if cs[0] in a {
        assert Others(cs, a) == rest;
      } else {
        assert Others(cs, a) == [cs[0]] + rest;
        assert ([cs[0]] + rest)[1..] == rest;
      }
    }
  }

  lemma {:induction false} RestIsOthers(cs: seq<Child>, gone: seq<Child>)
    ensures Rest(cs, gone) == Others(cs, set c | c in gone)
    decreases |gone|
  {
    if gone == [] {
      NobodyGone(cs);
      assert (set c | c in gone) == {};
    } else {
      WithoutIsOthers(cs, gone[0]);
      RestIsOthers(Without(cs, gone[0]), gone[1..]);
      OthersTwice(cs, {gone[0]}, set c | c in gone[1..]);
      assert (set c | c in gone) == {gone[0]} + set c | c in gone[1..];
    }
  }

  lemma {:induction false} NobodyGone(cs: seq<Child>)
    ensures Others(cs, {}) == cs
  {
    if cs != [] {
      NobodyGone(cs[1..]);
    }
  }

  /**
   A list that is right stays; otherwise the desired views and then the overlays are on
   top, in order, over everything else as it was.
   */
  lemma ReconcileIs(cs: seq<Child>, desired: seq<Child>, shown: set<Child>, overlays: seq<Child>)
    requires Distinct(cs) && Distinct(desired) && Distinct(overlays)
    requires forall c :: c in desired ==> c.Managed?
    requires forall c :: c in overlays ==> c.Overlay?
    ensures Right(cs, desired, shown) ==> Reconciled(cs, desired, shown, overlays) == cs
    ensures !Right(cs, desired, shown) ==>
      Reconciled(cs, desired, shown, overlays)
      == Others(cs, (set c | c in desired) + set c | c in overlays) + desired + overlays
  {
    RightIsStacked(cs, desired, shown);
    hide Right, Stacked;
    var low := Rest(cs, desired);
    RaiseAllShape(cs, desired);
    RaiseAllShape(low + desired, overlays);
    RestSplit(low, desired, overlays);
    RestDisjoint(desired, overlays);
    RestIsOthers(cs, desired);
    RestIsOthers(low, overlays);
    OthersTwice(cs, set c | c in desired, set c | c in overlays);
  }
}
