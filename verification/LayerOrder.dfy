/**
 Native layer order.  The window's child list is a sequence, bottom to top, in which
 re-adding a view moves it to the top.  The reconciler raises the desired views in
 order unless a cheaper test finds the list already right; both ways end in the
 same guarantee, and a second call changes nothing.
 */
module LayerOrder {

  /** A child of the window: a managed view, or an overlay that the manager does not order. */
  datatype Child = Managed(id: string) | Overlay(serial: nat)

  predicate Distinct<T(==)>(cs: seq<T>) {
    forall i, j :: 0 <= i < j < |cs| ==> cs[i] != cs[j]
  }

  /** A list with an element taken out; on the children, `removeChildView`. */
  function Without<T(==)>(cs: seq<T>, c: T): seq<T> {
    if cs == [] then [] else (if cs[0] == c then [] else [cs[0]]) + Without(cs[1..], c)
  }

  /** `addChildView`: a view that is already a child moves to the top. */
  function Raise(cs: seq<Child>, c: Child): seq<Child> {
    Without(cs, c) + [c]
  }

  function RaiseAll(cs: seq<Child>, order: seq<Child>): seq<Child>
    decreases |order|
  {
    if order == [] then cs else RaiseAll(Raise(cs, order[0]), order[1..])
  }

  /** The last position of a child, or -1. */
  function IndexOf(cs: seq<Child>, c: Child): int {
    if cs == [] then -1
    else if cs[|cs| - 1] == c then |cs| - 1
    else IndexOf(cs[..|cs| - 1], c)
  }

  /** The desired views are all children, in the desired order. */
  predicate InOrder(cs: seq<Child>, desired: seq<Child>) {
    && (forall i :: 0 <= i < |desired| ==> IndexOf(cs, desired[i]) >= 0)
    && (forall i, j :: 0 <= i < j < |desired| ==> IndexOf(cs, desired[i]) < IndexOf(cs, desired[j]))
  }

  /** No other visible managed view is above the lowest desired one. */
  predicate NothingAbove(cs: seq<Child>, desired: seq<Child>, shown: set<Child>) {
    desired != [] ==>
      forall c :: c in shown && c !in desired ==> IndexOf(cs, c) <= IndexOf(cs, desired[0])
  }

  predicate Stacked(cs: seq<Child>, desired: seq<Child>, shown: set<Child>) {
    InOrder(cs, desired) && NothingAbove(cs, desired, shown)
  }

  /** The child list after a reconcile; the overlays that are showing are raised after a restack. */
  function Reconciled(cs: seq<Child>, desired: seq<Child>, shown: set<Child>, overlays: seq<Child>): seq<Child> {
    if desired != [] && Stacked(cs, desired, shown) then cs
    else RaiseAll(RaiseAll(cs, desired), overlays)
  }

  // ---------------------------------------------------------------------------
  // Positions
  // ---------------------------------------------------------------------------

  lemma {:induction false} IndexOfIn(cs: seq<Child>, c: Child)
    ensures -1 <= IndexOf(cs, c) < |cs|
    ensures IndexOf(cs, c) >= 0 <==> c in cs
    ensures IndexOf(cs, c) >= 0 ==> cs[IndexOf(cs, c)] == c
  {
    if cs != [] {
      IndexOfIn(cs[..|cs| - 1], c);
      assert cs == cs[..|cs| - 1] + [cs[|cs| - 1]];
    }
  }

  lemma IndexOfAt(cs: seq<Child>, i: nat)
    requires Distinct(cs) && i < |cs|
    ensures IndexOf(cs, cs[i]) == i
  {
    IndexOfIn(cs, cs[i]);
  }

  lemma {:induction false} WithoutIn<T>(cs: seq<T>, c: T)
    ensures forall x :: x in Without(cs, c) <==> x in cs && x != c
    ensures Distinct(cs) ==> Distinct(Without(cs, c))
  {
    if cs != [] {
      WithoutIn(cs[1..], c);
      var rest := Without(cs[1..], c);
      if Distinct(cs) && cs[0] != c {
        assert Without(cs, c) == [cs[0]] + rest;
        forall i | 0 <= i < |rest| ensures rest[i] != cs[0] {
          assert rest[i] in rest;
        }
      }
    }
  }

  lemma {:induction false} WithoutSplit(a: seq<Child>, b: seq<Child>, c: Child)
    ensures Without(a + b, c) == Without(a, c) + Without(b, c)
  {
    if a == [] {
      assert a + b == b;
    } else {
      assert (a + b)[1..] == a[1..] + b;
      WithoutSplit(a[1..], b, c);
    }
  }

  lemma IndexOfSnoc(cs: seq<Child>, last: Child, c: Child)
    ensures IndexOf(cs + [last], c) == if last == c then |cs| else IndexOf(cs, c)
  {
    assert (cs + [last])[..|cs|] == cs;
  }

  /** Taking a child out keeps the order of the others. */
  lemma {:induction false} WithoutOrder(cs: seq<Child>, c: Child, a: Child, b: Child)
    requires a != c && b != c && 0 <= IndexOf(cs, a) < IndexOf(cs, b)
    ensures 0 <= IndexOf(Without(cs, c), a) < IndexOf(Without(cs, c), b)
    decreases |cs|
  {
    var init, last := cs[..|cs| - 1], cs[|cs| - 1];
    var left := Without(init, c);
    assert cs == init + [last];
    WithoutSplit(init, [last], c);
    WithoutOne(last, c);
    hide IndexOf, Without;
    IndexOfSnoc(init, last, a);
    IndexOfSnoc(init, last, b);
    IndexOfSnoc(left, last, a);
    IndexOfSnoc(left, last, b);
    if last == b {
      IndexOfIn(init, a);
      IndexOfIn(init, b);
      WithoutIn(init, c);
      IndexOfIn(left, a);
    } else {
      IndexOfIn(init, b);
      WithoutOrder(init, c, a, b);
      assert left + [] == left;
    }
  }

  lemma WithoutOne(x: Child, c: Child)
    ensures Without([x], c) == if x == c then [] else [x]
  {
    assert Without([], c) == [];
  }

  /** So does raising it. */
  lemma RaiseOrder(cs: seq<Child>, c: Child, a: Child, b: Child)
    requires a != c && b != c && 0 <= IndexOf(cs, a) < IndexOf(cs, b)
    ensures 0 <= IndexOf(Raise(cs, c), a) < IndexOf(Raise(cs, c), b)
  {
    hide IndexOf, Without;
    WithoutOrder(cs, c, a, b);
    IndexOfSnoc(Without(cs, c), c, a);
    IndexOfSnoc(Without(cs, c), c, b);
  }

  lemma {:induction false} WithoutAbsent(cs: seq<Child>, c: Child)
    requires c !in cs
    ensures Without(cs, c) == cs
  {
    if cs != [] {
      WithoutAbsent(cs[1..], c);
    }
  }

  /** What is left of a list when several children are taken out. */
  function Rest(cs: seq<Child>, gone: seq<Child>): seq<Child>
    decreases |gone|
  {
    if gone == [] then cs else Rest(Without(cs, gone[0]), gone[1..])
  }

  lemma {:induction false} RestIn(cs: seq<Child>, gone: seq<Child>)
    ensures forall x :: x in Rest(cs, gone) <==> x in cs && x !in gone
    ensures Distinct(cs) ==> Distinct(Rest(cs, gone))
    decreases |gone|
  {
    if gone != [] {
      WithoutIn(cs, gone[0]);
      RestIn(Without(cs, gone[0]), gone[1..]);
    }
  }

  lemma {:induction false} RestSplit(a: seq<Child>, b: seq<Child>, gone: seq<Child>)
    ensures Rest(a + b, gone) == Rest(a, gone) + Rest(b, gone)
    decreases |gone|
  {
    if gone != [] {
      WithoutSplit(a, b, gone[0]);
      RestSplit(Without(a, gone[0]), Without(b, gone[0]), gone[1..]);
    }
  }

  lemma {:induction false} RestDisjoint(cs: seq<Child>, gone: seq<Child>)
    requires forall x :: x in cs ==> x !in gone
    ensures Rest(cs, gone) == cs
    decreases |gone|
  {
    if gone != [] {
      WithoutAbsent(cs, gone[0]);
      RestDisjoint(cs, gone[1..]);
    }
  }

  /** Raising a list of distinct views puts them on top, in that order, over what is left. */
  lemma {:induction false} RaiseAllShape(cs: seq<Child>, order: seq<Child>)
    requires Distinct(order)
    ensures RaiseAll(cs, order) == Rest(cs, order) + order
    decreases |order|
  {
    if order != [] {
      var c, tail := order[0], order[1..];
      RaiseAllShape(Raise(cs, c), tail);
      RestSplit(Without(cs, c), [c], tail);
      RestDisjoint([c], tail);
      assert order == [c] + tail;
      assert Rest(Without(cs, c), tail) + [c] + tail == Rest(cs, order) + order;
    } else {
      assert Rest(cs, order) + order == cs;
    }
  }

  lemma RaiseAllIn(cs: seq<Child>, order: seq<Child>)
    requires Distinct(order)
    ensures forall x :: x in RaiseAll(cs, order) <==> x in cs || x in order
    ensures Distinct(cs) ==> Distinct(RaiseAll(cs, order))
  {
    RaiseAllShape(cs, order);
    RestIn(cs, order);
    var low := Rest(cs, order);
    assert forall i :: 0 <= i < |low| ==> low[i] in low;
  }

  // ---------------------------------------------------------------------------
  // The guarantee
  // ---------------------------------------------------------------------------

  /** `low + desired + high` is stacked when nothing visible and undesired is in `high`. */
  lemma SandwichStacked(low: seq<Child>, desired: seq<Child>, high: seq<Child>, shown: set<Child>)
    requires Distinct(low + desired + high)
    requires forall c :: c in shown ==> c !in high
    ensures Stacked(low + desired + high, desired, shown)
  {
    var cs := low + desired + high;
    forall i | 0 <= i < |desired| ensures IndexOf(cs, desired[i]) == |low| + i {
      assert cs[|low| + i] == desired[i];
      IndexOfAt(cs, |low| + i);
    }
    assert forall i :: |low| <= i < |low| + |desired| ==> cs[i] in desired;
    assert forall i :: |low| + |desired| <= i < |cs| ==> cs[i] in high;
    forall c | c in shown && c !in desired && desired != [] ensures IndexOf(cs, c) <= IndexOf(cs, desired[0]) {
      IndexOfIn(cs, c);
    }
  }

  /**
   Fast path refines restack: however a reconcile ends, the desired views are children
   in the planned order and no other visible managed view is above the first of them.
   */
  lemma ReconcileStacks(cs: seq<Child>, desired: seq<Child>, shown: set<Child>, overlays: seq<Child>)
    requires Distinct(cs) && Distinct(desired) && Distinct(overlays)
    requires forall c :: c in desired || c in shown ==> c.Managed?
    requires forall c :: c in overlays ==> c.Overlay?
    ensures Stacked(Reconciled(cs, desired, shown, overlays), desired, shown)
    ensures Distinct(Reconciled(cs, desired, shown, overlays))
  {
    var mid := RaiseAll(cs, desired);
    RaiseAllShape(cs, desired);
    RaiseAllIn(cs, desired);
    RaiseAllShape(mid, overlays);
    RaiseAllIn(mid, overlays);
    RestSplit(Rest(cs, desired), desired, overlays);
    RestDisjoint(desired, overlays);
    SandwichStacked(Rest(Rest(cs, desired), overlays), desired, overlays, shown);
  }

  /** A reconcile adds the desired views to the child list and takes no managed view out. */
  lemma ReconcileMembers(cs: seq<Child>, desired: seq<Child>, shown: set<Child>, overlays: seq<Child>, id: string)
    requires Distinct(desired) && Distinct(overlays)
    requires forall c :: c in overlays ==> c.Overlay?
    ensures Managed(id) in Reconciled(cs, desired, shown, overlays) <==> Managed(id) in cs || Managed(id) in desired
  {
    RaiseAllIn(cs, desired);
    RaiseAllIn(RaiseAll(cs, desired), overlays);
    if Managed(id) in desired {
      IndexOfIn(cs, Managed(id));
    }
  }

  /** A second reconcile is a no-op. */
  lemma ReconcileIdempotent(cs: seq<Child>, desired: seq<Child>, shown: set<Child>, overlays: seq<Child>)
    requires Distinct(cs) && Distinct(desired) && Distinct(overlays)
    requires forall c :: c in desired || c in shown ==> c.Managed?
    requires forall c :: c in overlays ==> c.Overlay?
    ensures var r := Reconciled(cs, desired, shown, overlays); Reconciled(r, desired, shown, overlays) == r
  {
    ReconcileStacks(cs, desired, shown, overlays);
    if desired == [] {
      RaiseAllTwice(cs, overlays);
    }
  }

  lemma EmptyOrInhabited<T>(cs: seq<T>)
    ensures cs == [] || exists x :: x in cs
  {
    if cs != [] {
      assert cs[0] in cs;
    }
  }

  lemma RaiseAllTwice(cs: seq<Child>, order: seq<Child>)
    requires Distinct(order)
    ensures RaiseAll(RaiseAll(cs, order), order) == RaiseAll(cs, order)
  {
    var rest := Rest(cs, order);
    RaiseAllShape(cs, order);
    RaiseAllShape(rest + order, order);
    RestIn(cs, order);
    RestSplit(rest, order, order);
    RestDisjoint(rest, order);
    RestIn(order, order);
    EmptyOrInhabited(Rest(order, order));
    assert rest + [] == rest;
  }

  // ---------------------------------------------------------------------------
  // The loops of the reconciler
  // ---------------------------------------------------------------------------

  /** The position map the reconciler builds before it decides. */
  method IndexChildren(cs: seq<Child>) returns (index: map<Child, nat>)
    ensures forall c :: c in index <==> c in cs
    ensures forall c :: c in index ==> index[c] == IndexOf(cs, c)
  {
    index := map[];
    for i := 0 to |cs|
      invariant forall c :: c in index <==> c in cs[..i]
      invariant forall c :: c in index ==> index[c] == IndexOf(cs[..i], c)
    {
      assert cs[..i + 1] == cs[..i] + [cs[i]];
      assert cs[..i + 1][..i] == cs[..i];
      index := index[cs[i] := i];
    }
    assert cs[..|cs|] == cs;
  }

  method DesiredInOrder(cs: seq<Child>, index: map<Child, nat>, desired: seq<Child>) returns (ok: bool)
    requires Distinct(desired)
    requires forall c :: c in index <==> c in cs
    requires forall c :: c in index ==> index[c] == IndexOf(cs, c)
    ensures ok == InOrder(cs, desired)
  {
    var previous: int := -1;
    for i := 0 to |desired|
      invariant previous == if i == 0 then -1 else IndexOf(cs, desired[i - 1])
      invariant forall j :: 0 <= j < i ==> 0 <= IndexOf(cs, desired[j]) <= previous
      invariant forall j, k :: 0 <= j < k < i ==> IndexOf(cs, desired[j]) < IndexOf(cs, desired[k])
    {
      IndexOfIn(cs, desired[i]);
      if desired[i] !in index || index[desired[i]] < previous { return false; }
      forall j | 0 <= j < i ensures IndexOf(cs, desired[j]) < IndexOf(cs, desired[i]) {
        IndexOfIn(cs, desired[j]);
      }
      previous := index[desired[i]];
    }
    return true;
  }

  method NoneAbove(cs: seq<Child>, index: map<Child, nat>, desired: seq<Child>, shown: set<Child>) returns (ok: bool)
    requires desired != [] && desired[0] in index
    requires forall c :: c in index <==> c in cs
    requires forall c :: c in index ==> index[c] == IndexOf(cs, c)
    ensures ok == NothingAbove(cs, desired, shown)
  {
    var first := index[desired[0]];
    var todo := shown;
    while todo != {}
      invariant todo <= shown
      invariant forall c :: c in shown && c !in todo && c !in desired ==> IndexOf(cs, c) <= first
      decreases |todo|
    {
      var c :| c in todo;
      todo := todo - {c};
      IndexOfIn(cs, c);
      if c !in desired && c in index && index[c] > first { return false; }
    }
    return true;
  }

  /** The no-op test: the order of the desired views, then anything visible above the first. */
  method AlreadyStacked(cs: seq<Child>, desired: seq<Child>, shown: set<Child>) returns (ok: bool)
    requires Distinct(desired) && desired != []
    ensures ok == Stacked(cs, desired, shown)
  {
    var index := IndexChildren(cs);
    ok := DesiredInOrder(cs, index, desired);
    if ok {
      IndexOfIn(cs, desired[0]);
      ok := NoneAbove(cs, index, desired, shown);
    }
  }

  method RaiseEach(cs: seq<Child>, order: seq<Child>) returns (r: seq<Child>)
    ensures r == RaiseAll(cs, order)
  {
    r := cs;
    for i := 0 to |order|
      invariant RaiseAll(cs, order) == RaiseAll(r, order[i..])
    {
      r := Raise(r, order[i]);
      assert order[i..][1..] == order[i + 1..];
    }
  }

  method Reconcile(cs: seq<Child>, desired: seq<Child>, shown: set<Child>, overlays: seq<Child>)
    returns (r: seq<Child>)
    requires Distinct(desired)
    ensures r == Reconciled(cs, desired, shown, overlays)
  {
    if desired != [] {
      var ok := AlreadyStacked(cs, desired, shown);
      if ok { return cs; }
    }
    r := RaiseEach(cs, desired);
    r := RaiseEach(r, overlays);
  }
}
