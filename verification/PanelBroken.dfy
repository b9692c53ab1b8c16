/**
 Panels without a current snapshot.  A snapshot that has one is taken over before the
 call throws, and from then on the mirror never changes again.
 */
module PanelBroken {
  import opened Options
  import opened PanelTree
  import opened PanelMirror
  import opened PanelConvergence

  /** A call returns exactly when the snapshot is stale or both trees have a current snapshot everywhere. */
  lemma AppliesIff(m: Mirror, d: Delivery)
    ensures Apply(m, d).1 <==> d.snapshot.revision <= m.revision || (Sound(m.roots) && Sound(d.snapshot.roots))
  {
    hide Kept;
    var incoming := Incoming(m, d.snapshot);
    IncomingKeeps(m, d.snapshot);
    MatchIsSemanticEquality(m.roots, incoming);
    LooseMatchIsUntitledEquality(m.roots, incoming);
    SemanticSound(m.roots);
    SemanticSound(incoming);
    UntitledKeeps(m.roots);
    UntitledKeeps(incoming);
  }

  /** A newer snapshot with a broken panel throws and is taken over all the same. */
  lemma BrokenSnapshotIsTaken(m: Mirror, d: Delivery)
    requires Settled(m) && Unique(d.snapshot.roots) && d.snapshot.revision > m.revision && !Sound(d.snapshot.roots)
    ensures !Apply(m, d).1 && !Sound(Apply(m, d).0.roots)
    ensures Semantic(Apply(m, d).0.roots) == SelectFocus(Semantic(Incoming(m, d.snapshot)), m.focused)
  {
    AppliesIff(m, d);
    ThreePathsOneResult(m, d);
    IncomingKeeps(m, d.snapshot);
    hide Apply, Incoming;
    SemanticSound(Apply(m, d).0.roots);
    SelectedSound(Semantic(Incoming(m, d.snapshot)), m.focused);
    SemanticSound(Incoming(m, d.snapshot));
  }

  lemma {:induction false} SelectSound(f: Forest, id: Id)
    ensures Sound(Select(f, id)) <==> Sound(f)
  {
    match f
    case Nil =>
    case Cons(p, rest) =>
      SelectSound(p.children, id);
      SelectSound(rest, id);
  }

  lemma SelectedSound(f: Forest, focused: Option<Id>)
    ensures Sound(SelectFocus(f, focused)) <==> Sound(f)
  {
    if focused.Some? {
      SelectSound(f, focused.value);
    }
  }

  /** None of the snapshots that are applied is broken. */
  predicate NoneBroken(revision: int, ds: seq<Delivery>)
    decreases |ds|
  {
    if ds == [] then true
    else if ds[0].snapshot.revision <= revision then NoneBroken(revision, ds[1..])
    else Sound(ds[0].snapshot.roots) && NoneBroken(ds[0].snapshot.revision, ds[1..])
  }

  /** After any deliveries every panel has a current snapshot exactly when none that was applied was broken. */
  lemma {:induction false} SoundIffNoneBroken(m: Mirror, ds: seq<Delivery>)
    requires Settled(m) && forall d :: d in ds ==> Unique(d.snapshot.roots)
    ensures Sound(Deliver(m, ds).roots) <==> NoneBroken(m.revision, ds)
    decreases |ds|
  {
    hide Apply, Sound, Unique, PathSelected;
    if ds == [] {
      assert Sound(m.roots);
    } else {
      var d := ds[0];
      assert d in ds;
      var m1 := Apply(m, d).0;
      if d.snapshot.revision <= m.revision {
        StaleDelivery(m, d);
        SoundIffNoneBroken(m, ds[1..]);
      } else if Sound(d.snapshot.roots) {
        ThreePathsOneResult(m, d);
        SoundIffNoneBroken(m1, ds[1..]);
      } else {
        BrokenSnapshotIsTaken(m, d);
        FrozenForever(m1, ds[1..]);
      }
    }
  }

  /** The first broken snapshot that is applied is the last one that changes the mirror. */
  lemma BrokenSnapshotFreezes(m: Mirror, early: seq<Delivery>, broken: Delivery, late: seq<Delivery>)
    requires Settled(m) && (forall d :: d in early ==> Unique(d.snapshot.roots)) && Unique(broken.snapshot.roots)
    requires NoneBroken(m.revision, early)
    requires broken.snapshot.revision > Deliver(m, early).revision && !Sound(broken.snapshot.roots)
    ensures !Apply(Deliver(m, early), broken).1
    ensures Deliver(m, early + [broken] + late).roots == Deliver(m, early + [broken]).roots
    ensures !Sound(Deliver(m, early + [broken]).roots)
  {
    hide Apply, Sound, Unique, PathSelected, NoneBroken;
    var m1 := Deliver(m, early);
    SettledIfSound(m, early);
    DeliverConcat(m, early, [broken]);
    DeliverOne(m1, broken);
    DeliverConcat(m, early + [broken], late);
    BrokenSnapshotIsTaken(m1, broken);
    FrozenForever(Apply(m1, broken).0, late);
  }

  lemma DeliverOne(m: Mirror, d: Delivery)
    ensures Deliver(m, [d]) == Apply(m, d).0
  {
    hide Apply;
    assert [d][1..] == [];
    assert Deliver(Apply(m, d).0, []) == Apply(m, d).0;
  }

  lemma {:induction false} SettledIfSound(m: Mirror, ds: seq<Delivery>)
    requires Settled(m) && (forall d :: d in ds ==> Unique(d.snapshot.roots)) && NoneBroken(m.revision, ds)
    ensures Settled(Deliver(m, ds))
    decreases |ds|
  {
    hide Apply, Sound, Unique, PathSelected;
    if ds != [] {
      var d := ds[0];
      assert d in ds;
      if d.snapshot.revision <= m.revision {
        StaleDelivery(m, d);
        SettledIfSound(m, ds[1..]);
      } else {
        ThreePathsOneResult(m, d);
        SettledIfSound(Apply(m, d).0, ds[1..]);
      }
    }
  }

  /** It happens: from the start, one panel whose history index is out of range keeps every later snapshot out. */
  lemma FreezeIsReachable()
    ensures var broken := Cons(Leaf("a", "old", "app").panel.(snapshot := Broken), Nil);
      var bad, good := Delivery(TreeSnapshot(1, broken), {}), Delivery(TreeSnapshot(2, Leaf("a", "new", "app")), {});
      && Unique(broken) && WellFormed(good)
      && !Apply(Empty(None), bad).1 && !Apply(Deliver(Empty(None), [bad]), good).1
      && Semantic(Deliver(Empty(None), [bad, good]).roots) == broken
  {
    var broken := Cons(Leaf("a", "old", "app").panel.(snapshot := Broken), Nil);
    var bad, good := Delivery(TreeSnapshot(1, broken), {}), Delivery(TreeSnapshot(2, Leaf("a", "new", "app")), {});
    var m := Empty(None);
    assert Incoming(m, bad.snapshot) == broken;
    BrokenSnapshotIsTaken(m, bad);
    DeliverOne(m, bad);
    AppliesIff(Apply(m, bad).0, good);
    assert [] + [bad] == [bad] && [bad] + [good] == [bad, good];
    BrokenSnapshotFreezes(m, [], bad, [good]);
  }
}
