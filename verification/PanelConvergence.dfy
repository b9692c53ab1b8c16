/**
 Deliveries converge.  However snapshots are reordered, duplicated or lost, the mirror
 ends in the tree of the highest one; which protected titles are still on it depends on
 the deliveries before it, and on nothing else.
 */
module PanelConvergence {
  import opened Options
  import opened PanelTree
  import opened PanelMirror

  /** A snapshot that a server sends: ids are unique and every panel has a current snapshot. */
  predicate WellFormed(d: Delivery) {
    Unique(d.snapshot.roots) && Sound(d.snapshot.roots)
  }

  ghost predicate AllWellFormed(ds: seq<Delivery>) {
    forall d :: d in ds ==> WellFormed(d)
  }

  /** A mirror between two events: protection is only for panels that are there. */
  predicate Healthy(m: Mirror) {
    Settled(m) && m.explicit <= Ids(m.roots)
  }

  /** A delivery that takes the protection of a panel away: the panel is gone, or hosted here and navigated. */
  predicate Unprotects(before: Forest, d: Delivery, id: Id) {
    id !in Ids(d.snapshot.roots) || (id in d.hosted && Navigated(before, d.snapshot.roots, id))
  }

  /** Whether a protected title outlives some deliveries, by those that are applied. */
  predicate Survives(before: Forest, revision: int, ds: seq<Delivery>, id: Id)
    decreases |ds|
  {
    if ds == [] then true
    else if ds[0].snapshot.revision <= revision then Survives(before, revision, ds[1..], id)
    else
      && !Unprotects(before, ds[0], id)
      && Survives(ds[0].snapshot.roots, ds[0].snapshot.revision, ds[1..], id)
  }

  // ---------------------------------------------------------------------------
  // One delivery
  // ---------------------------------------------------------------------------

  lemma {:induction false} SemanticSnapshot(f: Forest, id: Id)
    ensures SnapshotOf(Semantic(f), id) == SnapshotOf(f, id)
    ensures Find(Semantic(f), id).Some? <==> Find(f, id).Some?
  {
    match f
    case Nil =>
    case Cons(p, rest) =>
      SemanticSnapshot(p.children, id);
      SemanticSnapshot(rest, id);
  }

  lemma {:induction false} RetitledSnapshot(keep: map<Id, string>, f: Forest, id: Id)
    ensures SnapshotOf(Retitle(keep, f), id) == SnapshotOf(f, id)
    ensures Find(Retitle(keep, f), id).Some? <==> Find(f, id).Some?
  {
    match f
    case Nil =>
    case Cons(p, rest) =>
      RetitledSnapshot(keep, p.children, id);
      RetitledSnapshot(keep, rest, id);
  }

  /** After a delivery every panel has the snapshot it has in the delivered tree. */
  lemma DeliveredSnapshot(m: Mirror, d: Delivery, id: Id)
    requires Settled(m) && Unique(d.snapshot.roots) && d.snapshot.revision > m.revision
    ensures SnapshotOf(Apply(m, d).0.roots, id) == SnapshotOf(d.snapshot.roots, id)
    ensures SnapshotOf(Incoming(m, d.snapshot), id) == SnapshotOf(d.snapshot.roots, id)
  {
    hide Apply, Kept, Settled;
    ThreePathsOneResult(m, d);
    var incoming := Incoming(m, d.snapshot);
    RetitledSnapshot(Kept(m), d.snapshot.roots, id);
    SemanticSnapshot(incoming, id);
    SemanticSnapshot(Apply(m, d).0.roots, id);
    if m.focused.Some? {
      SelectFind(Semantic(incoming), m.focused.value, id);
    }
  }

  lemma {:induction false} UntitledSnapshot(f: Forest, id: Id)
    ensures SnapshotOf(Untitled(f), id) == SnapshotOf(f, id)
    ensures Find(Untitled(f), id).Some? <==> Find(f, id).Some?
  {
    match f
    case Nil =>
    case Cons(p, rest) =>
      UntitledSnapshot(p.children, id);
      UntitledSnapshot(rest, id);
  }

  /** Trees that match up to titles lose no panel and navigate none. */
  lemma MatchUnprotectsNothing(m: Mirror, d: Delivery, id: Id)
    requires TreesMatchIgnoringTitles(m.roots, Incoming(m, d.snapshot)) && id in Ids(m.roots)
    ensures !Unprotects(m.roots, d, id)
  {
    hide Kept;
    var incoming := Incoming(m, d.snapshot);
    LooseMatchIsUntitledEquality(m.roots, incoming);
    IncomingKeeps(m, d.snapshot);
    UntitledKeeps(m.roots);
    UntitledKeeps(incoming);
    UntitledSnapshot(m.roots, id);
    UntitledSnapshot(incoming, id);
    RetitledSnapshot(Kept(m), d.snapshot.roots, id);
  }

  lemma MatchIsLooseMatch(a: Forest, b: Forest)
    requires TreesMatch(a, b)
    ensures TreesMatchIgnoringTitles(a, b)
  {
    MatchIsSemanticEquality(a, b);
    LooseMatchIsUntitledEquality(a, b);
    UntitledKeeps(a);
    UntitledKeeps(b);
  }

  /** A panel keeps its protection through a delivery exactly unless the delivery takes it away. */
  lemma DeliveredProtection(m: Mirror, d: Delivery, id: Id)
    requires Healthy(m) && WellFormed(d) && d.snapshot.revision > m.revision
    ensures id in Apply(m, d).0.explicit <==> id in m.explicit && !Unprotects(m.roots, d, id)
  {
    hide Navigated, Kept;
    var incoming := Incoming(m, d.snapshot);
    IncomingKeeps(m, d.snapshot);
    if TreesMatch(m.roots, incoming) {
      MatchIsLooseMatch(m.roots, incoming);
    }
    if TreesMatchIgnoringTitles(m.roots, incoming) {
      if id in m.explicit {
        MatchUnprotectsNothing(m, d, id);
      }
    } else {
      DeliveredSnapshot(m, d, id);
      SameNavigation(m.roots, incoming, d.snapshot.roots, id);
    }
  }

  lemma SameNavigation(before: Forest, a: Forest, b: Forest, id: Id)
    requires SnapshotOf(a, id) == SnapshotOf(b, id)
    ensures Navigated(before, a, id) <==> Navigated(before, b, id)
    ensures Navigated(a, before, id) <==> Navigated(b, before, id)
  {
  }

  /** A delivery keeps the mirror healthy, whatever it drops or navigates. */
  lemma DeliveryKeeps(m: Mirror, d: Delivery)
    requires Healthy(m) && WellFormed(d)
    ensures Healthy(Apply(m, d).0) && Apply(m, d).0.focused == m.focused
  {
    hide Apply, Settled, Unprotects;
    if d.snapshot.revision > m.revision {
      ThreePathsOneResult(m, d);
      SameIds(m, d);
      forall id | id in Apply(m, d).0.explicit ensures id in Ids(d.snapshot.roots) {
        DeliveredProtection(m, d, id);
        UnprotectsGone(m.roots, d, id);
      }
    } else {
      StaleDelivery(m, d);
    }
  }

  lemma UnprotectsGone(before: Forest, d: Delivery, id: Id)
    ensures id !in Ids(d.snapshot.roots) ==> Unprotects(before, d, id)
  {
  }

  lemma StaleDelivery(m: Mirror, d: Delivery)
    requires d.snapshot.revision <= m.revision
    ensures Apply(m, d) == (m, true)
  {
  }

  // ---------------------------------------------------------------------------
  // Many deliveries
  // ---------------------------------------------------------------------------

  lemma {:induction false} DeliverConcat(m: Mirror, xs: seq<Delivery>, ys: seq<Delivery>)
    ensures Deliver(m, xs + ys) == Deliver(Deliver(m, xs), ys)
    decreases |xs|
  {
    hide Apply;
    if xs == [] {
      assert xs + ys == ys;
    } else {
      assert (xs + ys)[0] == xs[0] && (xs + ys)[1..] == xs[1..] + ys;
      DeliverConcat(Apply(m, xs[0]).0, xs[1..], ys);
    }
  }

  lemma {:induction false} DeliverKeeps(m: Mirror, ds: seq<Delivery>)
    requires Healthy(m) && AllWellFormed(ds)
    ensures Healthy(Deliver(m, ds)) && Deliver(m, ds).focused == m.focused
    decreases |ds|
  {
    hide Apply, Healthy, WellFormed;
    if ds != [] {
      assert ds[0] in ds;
      DeliveryKeeps(m, ds[0]);
      DeliverKeeps(Apply(m, ds[0]).0, ds[1..]);
    }
  }

  /** Survival is decided by the snapshots that the panels have, not by the rest of the tree. */
  lemma {:induction false} SameSurvival(a: Forest, b: Forest, revision: int, ds: seq<Delivery>, id: Id)
    requires SnapshotOf(a, id) == SnapshotOf(b, id)
    ensures Survives(a, revision, ds, id) <==> Survives(b, revision, ds, id)
    decreases |ds|
  {
    hide Navigated;
    if ds != [] {
      if ds[0].snapshot.revision <= revision {
        SameSurvival(a, b, revision, ds[1..], id);
      } else {
        SameNavigation(ds[0].snapshot.roots, a, b, id);
      }
    }
  }

  /**
   A panel is protected after some deliveries exactly when it was before and its
   protection survives them; then it still has its title.
   */
  lemma {:induction false} ProtectedIffSurvives(m: Mirror, ds: seq<Delivery>, id: Id)
    requires Healthy(m) && AllWellFormed(ds)
    ensures id in Deliver(m, ds).explicit <==> id in m.explicit && Survives(m.roots, m.revision, ds, id)
    ensures id in Deliver(m, ds).explicit ==> TitleOf(Deliver(m, ds).roots, id) == TitleOf(m.roots, id)
    decreases |ds|
  {
    hide Apply, Healthy, WellFormed, Unprotects, SnapshotOf, TitleOf;
    if ds != [] {
      var d := ds[0];
      assert d in ds;
      var m1 := Apply(m, d).0;
      DeliveryKeeps(m, d);
      ProtectedIffSurvives(m1, ds[1..], id);
      if d.snapshot.revision <= m.revision {
        StaleDelivery(m, d);
      } else {
        DeliveredStep(m, d, id);
        SameSurvival(m1.roots, d.snapshot.roots, d.snapshot.revision, ds[1..], id);
      }
    }
  }

  lemma DeliveredStep(m: Mirror, d: Delivery, id: Id)
    requires Healthy(m) && WellFormed(d) && d.snapshot.revision > m.revision
    ensures var m' := Apply(m, d).0;
      && m'.revision == d.snapshot.revision && SnapshotOf(m'.roots, id) == SnapshotOf(d.snapshot.roots, id)
      && (id in m'.explicit <==> id in m.explicit && !Unprotects(m.roots, d, id))
      && (id in m'.explicit ==> TitleOf(m'.roots, id) == TitleOf(m.roots, id))
  {
    hide Apply, TitleOf, SnapshotOf, Settled;
    ThreePathsOneResult(m, d);
    DeliveredSnapshot(m, d, id);
    DeliveredProtection(m, d, id);
    if id in m.explicit && !Unprotects(m.roots, d, id) {
      ExplicitTitleSurvives(m, d, id);
    }
  }

  /** The protected titles that survive. */
  function Surviving(m: Mirror, ds: seq<Delivery>): map<Id, string> {
    map id | id in Kept(m) && Survives(m.roots, m.revision, ds, id) :: Kept(m)[id]
  }

  lemma KeptAfter(m: Mirror, ds: seq<Delivery>)
    requires Healthy(m) && AllWellFormed(ds)
    ensures Kept(Deliver(m, ds)) == Surviving(m, ds)
  {
    hide Deliver, Settled, Survives;
    var m' := Deliver(m, ds);
    DeliverKeeps(m, ds);
    forall id ensures id in Kept(m') <==> id in Surviving(m, ds) {
      ProtectedIffSurvives(m, ds, id);
      FindIn(m'.roots, id);
      FindIn(m.roots, id);
    }
    forall id | id in Kept(m') ensures Kept(m')[id] == Kept(m)[id] {
      ProtectedIffSurvives(m, ds, id);
    }
  }

  lemma {:induction false} StaleDeliveries(m: Mirror, ds: seq<Delivery>)
    requires forall d :: d in ds ==> d.snapshot.revision <= m.revision
    ensures Deliver(m, ds) == m
    decreases |ds|
  {
    if ds != [] {
      assert ds[0] in ds;
      StaleDeliveries(m, ds[1..]);
    }
  }

  lemma {:induction false} RevisionAfter(m: Mirror, ds: seq<Delivery>, bound: int)
    requires m.revision < bound && forall d :: d in ds ==> d.snapshot.revision < bound
    ensures Deliver(m, ds).revision < bound
    decreases |ds|
  {
    if ds != [] {
      assert ds[0] in ds;
      RevisionAdvances(m, ds[0]);
      RevisionAfter(Apply(m, ds[0]).0, ds[1..], bound);
    }
  }

  lemma RevisionAdvances(m: Mirror, d: Delivery)
    ensures Apply(m, d).0.revision == if d.snapshot.revision > m.revision then d.snapshot.revision else m.revision
  {
  }

  // ---------------------------------------------------------------------------
  // Convergence
  // ---------------------------------------------------------------------------

  /**
   A history that delivers the highest snapshot: older ones in any order and number,
   then the highest for the first time, then anything.
   */
  datatype History = History(early: seq<Delivery>, hit: Delivery, late: seq<Delivery>)

  function Deliveries(h: History): seq<Delivery> {
    h.early + [h.hit] + h.late
  }

  ghost predicate Reaches(h: History, top: TreeSnapshot) {
    && AllWellFormed(Deliveries(h)) && h.hit.snapshot == top
    && (forall d :: d in h.early ==> d.snapshot.revision < top.revision)
    && (forall d :: d in h.late ==> d.snapshot.revision <= top.revision)
  }

  /** The highest snapshot's tree with some protected titles, and the focused panel's path selected. */
  function Final(m: Mirror, top: TreeSnapshot, titles: map<Id, string>): Forest {
    SelectFocus(Retitle(titles, Semantic(top.roots)), m.focused)
  }

  /**
   Convergence: the mirror ends in the highest snapshot's semantic tree, with exactly
   those protected titles that survived the deliveries before it.
   */
  lemma Converges(m: Mirror, h: History, top: TreeSnapshot)
    requires Healthy(m) && Reaches(h, top) && top.revision > m.revision
    ensures Semantic(Deliver(m, Deliveries(h)).roots) == Final(m, top, Surviving(m, h.early))
  {
    hide Apply, Healthy, WellFormed, Semantic, Surviving, Kept, SelectFocus;
    EarlyAreWellFormed(h);
    var m1 := Deliver(m, h.early);
    DeliverKeeps(m, h.early);
    KeptAfter(m, h.early);
    RevisionAfter(m, h.early, top.revision);
    var m2 := Apply(m1, h.hit).0;
    HitArrives(m1, h.hit);
    DeliverConcat(m, h.early, [h.hit] + h.late);
    assert Deliveries(h) == h.early + ([h.hit] + h.late);
    assert ([h.hit] + h.late)[1..] == h.late;
    StaleDeliveries(m2, h.late);
  }

  lemma EarlyAreWellFormed(h: History)
    requires AllWellFormed(Deliveries(h))
    ensures AllWellFormed(h.early) && WellFormed(h.hit)
  {
    assert h.hit in Deliveries(h);
    assert forall d :: d in h.early ==> d in Deliveries(h);
  }

  lemma HitArrives(m: Mirror, d: Delivery)
    requires Healthy(m) && WellFormed(d) && d.snapshot.revision > m.revision
    ensures Semantic(Apply(m, d).0.roots) == SelectFocus(Retitle(Kept(m), Semantic(d.snapshot.roots)), m.focused)
    ensures Apply(m, d).0.revision == d.snapshot.revision
  {
    hide Apply, Kept, Settled;
    ThreePathsOneResult(m, d);
    RetitleIs(Kept(m), d.snapshot.roots);
  }

  /** What a panel is called under some protected titles. */
  function Called(f: Forest, titles: map<Id, string>, id: Id): Option<string> {
    if id in titles then Some(titles[id]) else TitleOf(f, id)
  }

  /** Two sets of protected titles end in one tree exactly when every panel is called the same. */
  lemma SameFinalIff(m: Mirror, top: TreeSnapshot, a: map<Id, string>, b: map<Id, string>)
    requires Unique(top.roots)
    ensures Final(m, top, a) == Final(m, top, b) <==>
              forall id :: id in Ids(top.roots) ==> Called(top.roots, a, id) == Called(top.roots, b, id)
  {
    hide SelectFocus, TitleOf;
    var x, y := Retitle(a, top.roots), Retitle(b, top.roots);
    RetitleIs(a, top.roots);
    RetitleIs(b, top.roots);
    UntitledKeeps(top.roots);
    UntitledKeeps(x);
    forall id | id in Ids(top.roots)
      ensures TitleOf(x, id) == Called(top.roots, a, id) && TitleOf(y, id) == Called(top.roots, b, id)
      ensures Final(m, top, a) == Final(m, top, b) ==> TitleOf(x, id) == TitleOf(y, id)
    {
      CalledIs(top.roots, a, id);
      CalledIs(top.roots, b, id);
      FinalTitle(m, top, a, id);
      FinalTitle(m, top, b, id);
    }
    if forall id :: id in Ids(top.roots) ==> Called(top.roots, a, id) == Called(top.roots, b, id) {
      TitlesDetermine(x, y);
    }
  }

  lemma CalledIs(f: Forest, titles: map<Id, string>, id: Id)
    requires id in Ids(f)
    ensures TitleOf(Retitle(titles, f), id) == Called(f, titles, id)
  {
    RetitledTitle(titles, f, id);
    FindIn(f, id);
  }

  lemma FinalTitle(m: Mirror, top: TreeSnapshot, titles: map<Id, string>, id: Id)
    ensures TitleOf(Final(m, top, titles), id) == TitleOf(Retitle(titles, top.roots), id)
  {
    RetitleIs(titles, top.roots);
    SemanticTitle(Retitle(titles, top.roots), id);
    if m.focused.Some? {
      SelectFind(Semantic(Retitle(titles, top.roots)), m.focused.value, id);
    }
  }

  /** A protected panel of the highest snapshot that has another title there. */
  predicate Renamed(m: Mirror, top: TreeSnapshot, id: Id) {
    id in m.explicit && id in Ids(top.roots) && TitleOf(top.roots, id) != TitleOf(m.roots, id)
  }

  lemma SurvivorsAreCalled(m: Mirror, top: TreeSnapshot, ds: seq<Delivery>, id: Id)
    requires Healthy(m) && id in Ids(top.roots)
    ensures Called(top.roots, Surviving(m, ds), id)
         == if id in m.explicit && Survives(m.roots, m.revision, ds, id) then TitleOf(m.roots, id)
            else TitleOf(top.roots, id)
  {
    hide Survives, Settled;
    FindIn(m.roots, id);
  }

  /** Every protected title is on the final tree exactly when those that the snapshot would rename all survive. */
  lemma AllTitlesKeptIff(m: Mirror, h: History, top: TreeSnapshot)
    requires Healthy(m) && Reaches(h, top) && top.revision > m.revision
    ensures Semantic(Deliver(m, Deliveries(h)).roots) == Final(m, top, Kept(m))
       <==> forall id :: Renamed(m, top, id) ==> Survives(m.roots, m.revision, h.early, id)
  {
    hide Deliver, Final, Settled, Survives, Called, TitleOf;
    Converges(m, h, top);
    EarlyAreWellFormed(h);
    SameFinalIff(m, top, Surviving(m, h.early), Kept(m));
    forall id | id in Ids(top.roots)
      ensures Called(top.roots, Surviving(m, h.early), id) == Called(top.roots, Kept(m), id)
         <==> (Renamed(m, top, id) ==> Survives(m.roots, m.revision, h.early, id))
    {
      SurvivorsAreCalled(m, top, h.early, id);
      SurvivorsAreCalled(m, top, [], id);
      NothingIsLost(m);
    }
  }

  lemma NothingIsLost(m: Mirror)
    ensures Surviving(m, []) == Kept(m)
    ensures forall id :: Survives(m.roots, m.revision, [], id)
  {
  }

  /**
   Two histories with the same highest snapshot end in the same semantic tree exactly
   when every protected title that the snapshot would rename survives both or neither.
   */
  lemma HistoriesAgreeIff(m: Mirror, a: History, b: History, top: TreeSnapshot)
    requires Healthy(m) && Reaches(a, top) && Reaches(b, top) && top.revision > m.revision
    ensures Semantic(Deliver(m, Deliveries(a)).roots) == Semantic(Deliver(m, Deliveries(b)).roots)
       <==> forall id :: Renamed(m, top, id) ==>
              (Survives(m.roots, m.revision, a.early, id) <==> Survives(m.roots, m.revision, b.early, id))
  {
    hide Deliver, Final, Settled, Survives, Called, TitleOf, Surviving;
    Converges(m, a, top);
    Converges(m, b, top);
    EarlyAreWellFormed(a);
    SameFinalIff(m, top, Surviving(m, a.early), Surviving(m, b.early));
    forall id | id in Ids(top.roots)
      ensures Called(top.roots, Surviving(m, a.early), id) == Called(top.roots, Surviving(m, b.early), id)
         <==> (Renamed(m, top, id) ==>
                 (Survives(m.roots, m.revision, a.early, id) <==> Survives(m.roots, m.revision, b.early, id)))
    {
      SurvivorsAreCalled(m, top, a.early, id);
      SurvivorsAreCalled(m, top, b.early, id);
    }
  }

  /** Any list of deliveries with a single highest snapshot is such a history. */
  lemma {:induction false} HistoryOf(ds: seq<Delivery>, top: TreeSnapshot) returns (h: History)
    requires AllWellFormed(ds) && forall d :: d in ds ==> d.snapshot.revision <= top.revision
    requires forall d :: d in ds && d.snapshot.revision == top.revision ==> d.snapshot == top
    requires exists d :: d in ds && d.snapshot == top
    ensures Deliveries(h) == ds && Reaches(h, top)
    decreases |ds|
  {
    hide WellFormed;
    assert ds[0] in ds;
    assert ds == [ds[0]] + ds[1..];
    if ds[0].snapshot == top {
      h := History([], ds[0], ds[1..]);
    } else {
      var rest := HistoryOf(ds[1..], top);
      h := History([ds[0]] + rest.early, rest.hit, rest.late);
      assert Deliveries(h) == [ds[0]] + Deliveries(rest);
    }
  }

  /** Without protected titles any two lists of deliveries that have the highest snapshot end in the same tree. */
  lemma HistoriesAgree(m: Mirror, xs: seq<Delivery>, ys: seq<Delivery>, top: TreeSnapshot)
    requires Settled(m) && m.explicit == {} && top.revision > m.revision
    requires forall d :: d in xs || d in ys ==>
               WellFormed(d) && d.snapshot.revision <= top.revision
               && (d.snapshot.revision == top.revision ==> d.snapshot == top)
    requires (exists d :: d in xs && d.snapshot == top) && (exists d :: d in ys && d.snapshot == top)
    ensures Semantic(Deliver(m, xs).roots) == Semantic(Deliver(m, ys).roots)
  {
    hide Deliver, Settled;
    var a := HistoryOf(xs, top);
    var b := HistoryOf(ys, top);
    HistoriesAgreeIff(m, a, b, top);
  }

  // ---------------------------------------------------------------------------
  // Both ways to lose a protected title happen
  // ---------------------------------------------------------------------------

  function Leaf(id: Id, title: string, source: string): Forest {
    Cons(Panel(id, title, None, None, Snapshot(source, "ctx", None, "null"), NO_ARTIFACTS, Nil), Nil)
  }

  const MINE := Mirror(Leaf("a", "mine", "app"), None, {"a"}, 0)
  const THEIRS := TreeSnapshot(2, Leaf("a", "theirs", "app"))

  lemma MineIsHealthy()
    ensures Healthy(MINE) && Kept(MINE) == map["a" := "mine"]
  {
    assert TitleOf(MINE.roots, "a") == Some("mine");
  }

  /** Whatever comes first, the renamed panel ends with the protected title exactly if it survives. */
  lemma TheirsAfter(first: Delivery)
    requires WellFormed(first) && first.snapshot.revision == 1
    ensures Semantic(Deliver(MINE, [Delivery(THEIRS, {})]).roots) == Leaf("a", "mine", "app")
    ensures Survives(MINE.roots, 0, [first], "a") <==> !Unprotects(MINE.roots, first, "a")
    ensures !Survives(MINE.roots, 0, [first], "a") ==>
              Semantic(Deliver(MINE, [first, Delivery(THEIRS, {})]).roots) == Leaf("a", "theirs", "app")
  {
    hide Deliver, Healthy;
    MineIsHealthy();
    var hit := Delivery(THEIRS, {});
    var alone, after := History([], hit, []), History([first], hit, []);
    assert Deliveries(alone) == [hit] && Deliveries(after) == [first, hit];
    assert WellFormed(hit);
    Converges(MINE, alone, THEIRS);
    Converges(MINE, after, THEIRS);
    NothingIsLost(MINE);
    assert [first][1..] == [];
    assert !Survives(MINE.roots, 0, [first], "a") ==> Surviving(MINE, [first]) == map[];
    assert Retitle(map[], THEIRS.roots) == THEIRS.roots == Semantic(THEIRS.roots);
  }

  /** A snapshot that drops a protected panel drops the protection: a later one that brings it back renames it. */
  lemma DroppedPanelLosesItsTitle()
    ensures var gone := Delivery(TreeSnapshot(1, Nil), {});
      && Semantic(Deliver(MINE, [Delivery(THEIRS, {})]).roots) == Leaf("a", "mine", "app")
      && Semantic(Deliver(MINE, [gone, Delivery(THEIRS, {})]).roots) == Leaf("a", "theirs", "app")
  {
    hide Deliver;
    TheirsAfter(Delivery(TreeSnapshot(1, Nil), {}));
  }

  /** So does one that navigates it while it has a native view here; without the view the title stays. */
  lemma NavigatedPanelLosesItsTitle()
    ensures var away := TreeSnapshot(1, Leaf("a", "other", "elsewhere"));
      && Semantic(Deliver(MINE, [Delivery(away, {"a"}), Delivery(THEIRS, {})]).roots) == Leaf("a", "theirs", "app")
      && Survives(MINE.roots, 0, [Delivery(away, {})], "a")
  {
    hide Deliver;
    var away := TreeSnapshot(1, Leaf("a", "other", "elsewhere"));
    assert SnapshotOf(MINE.roots, "a") == Some(Snapshot("app", "ctx", None, "null"));
    assert SnapshotOf(away.roots, "a") == Some(Snapshot("elsewhere", "ctx", None, "null"));
    NotBrowsers();
    TheirsAfter(Delivery(away, {"a"}));
    TheirsAfter(Delivery(away, {}));
  }

  lemma NotBrowsers()
    ensures !IsBrowser("app") && !IsBrowser("elsewhere")
  {
    assert "browser:"[0] == 'b';
    assert "elsewhere"[0] == 'e';
  }

  /** The mirror need not equal the snapshot: a focused child is selected although the snapshot selects none. */
  lemma MirrorCanDifferFromSnapshot()
    ensures var tree := Cons(Leaf("p", "parent", "app").panel.(children := Leaf("c", "child", "app")), Nil);
      var m := Mirror(Nil, Some("c"), {}, 0);
      && Settled(m)
      && Semantic(Apply(m, Delivery(TreeSnapshot(1, tree), {})).0.roots) != Semantic(Incoming(m, TreeSnapshot(1, tree)))
  {
    var tree := Cons(Leaf("p", "parent", "app").panel.(children := Leaf("c", "child", "app")), Nil);
    var m := Mirror(Nil, Some("c"), {}, 0);
    assert ChildOn(tree.panel.children, "c") == Some(("c", 0));
    assert Chosen(tree.panel, "c") == Some("c");
    assert !PathSelected(tree, "c");
    MirrorEqualsSnapshotIff(m, Delivery(TreeSnapshot(1, tree), {}));
  }

  // ---------------------------------------------------------------------------
  // Every run
  // ---------------------------------------------------------------------------

  datatype Event =
    | Delivered(delivery: Delivery)
    | Titled(id: Id, title: string, isExplicit: bool)
    | Focused(id: Id)

  function Step(m: Mirror, e: Event): Mirror {
    match e
    case Delivered(d) => Apply(m, d).0
    case Titled(id, title, isExplicit) => TitleUpdate(m, id, title, isExplicit)
    case Focused(id) => FocusPanel(m, id)
  }

  function Run(m: Mirror, events: seq<Event>): Mirror
    decreases |events|
  {
    if events == [] then m else Run(Step(m, events[0]), events[1..])
  }

  /** Before the first snapshot, perhaps with a focused panel from the last time. */
  function Empty(focused: Option<Id>): Mirror {
    Mirror(Nil, focused, {}, 0)
  }

  lemma TitleUpdateIds(m: Mirror, id: Id, title: string, isExplicit: bool)
    requires m.explicit <= Ids(m.roots)
    ensures TitleUpdate(m, id, title, isExplicit).explicit <= Ids(TitleUpdate(m, id, title, isExplicit).roots)
  {
    SetTitleIs(m.roots, id, title);
    UntitledKeeps(m.roots);
    UntitledKeeps(SetTitle(m.roots, id, title));
    FindIn(m.roots, id);
  }

  lemma StepKeeps(m: Mirror, e: Event)
    requires Healthy(m) && (e.Delivered? ==> WellFormed(e.delivery))
    ensures Healthy(Step(m, e))
  {
    hide Apply, Settled, TitleUpdate, WellFormed;
    match e
    case Delivered(d) => DeliveryKeeps(m, d);
    case Titled(id, title, isExplicit) =>
      TitleUpdateKeeps(m, id, title, isExplicit);
      TitleUpdateIds(m, id, title, isExplicit);
    case Focused(id) =>
      FocusKeepsSettled(m, id);
      SelectShape(m.roots, id);
  }

  /**
   Snapshots, title events and focus changes in any order keep the mirror healthy:
   unique ids, every panel with a current snapshot, the focused panel's path selected,
   and protection only for panels that are there.
   */
  lemma {:induction false} RunKeeps(m: Mirror, events: seq<Event>)
    requires Healthy(m) && forall e :: e in events && e.Delivered? ==> WellFormed(e.delivery)
    ensures Healthy(Run(m, events))
    decreases |events|
  {
    hide Healthy, Step, WellFormed;
    if events != [] {
      assert events[0] in events;
      StepKeeps(m, events[0]);
      RunKeeps(Step(m, events[0]), events[1..]);
    }
  }

  lemma MirrorOnEveryRun(focused: Option<Id>, events: seq<Event>)
    requires forall e :: e in events && e.Delivered? ==> WellFormed(e.delivery)
    ensures var m := Run(Empty(focused), events);
      && Unique(m.roots) && Sound(m.roots) && (m.focused.Some? ==> PathSelected(m.roots, m.focused.value))
      && forall id :: id in m.explicit ==> id in Ids(m.roots)
  {
    hide Run, WellFormed;
    RunKeeps(Empty(focused), events);
  }

  // ---------------------------------------------------------------------------
  // Builds
  // ---------------------------------------------------------------------------

  function ArtifactsOf(f: Forest, id: Id): Option<Artifacts> {
    if Find(f, id).Some? then Some(Find(f, id).value.artifacts) else None
  }

  lemma {:induction false} SetTitleArtifacts(f: Forest, id: Id, title: string, x: Id)
    ensures ArtifactsOf(SetTitle(f, id, title), x) == ArtifactsOf(f, x)
    ensures Find(SetTitle(f, id, title), x).Some? <==> Find(f, x).Some?
  {
    match f
    case Nil =>
    case Cons(p, rest) =>
      SetTitleArtifacts(p.children, id, title, x);
      SetTitleArtifacts(rest, id, title, x);
  }

  lemma {:induction false} PatchedArtifacts(roots: Forest, explicit: set<Id>, f: Forest, x: Id)
    ensures ArtifactsOf(PatchedTitles(roots, explicit, f), x) == ArtifactsOf(roots, x)
    decreases f
  {
    match f
    case Nil =>
    case Cons(p, rest) =>
      var r1 := UpdatedTitle(roots, explicit, p.id, p.title);
      SetTitleArtifacts(roots, p.id, p.title, x);
      PatchedArtifacts(r1, explicit, p.children, x);
      PatchedArtifacts(PatchedTitles(r1, explicit, p.children), explicit, rest, x);
  }

  lemma {:induction false} SelectArtifacts(f: Forest, id: Id, x: Id)
    ensures ArtifactsOf(Select(f, id), x) == ArtifactsOf(f, x)
    ensures Find(Select(f, id), x).Some? <==> Find(f, x).Some?
  {
    match f
    case Nil =>
    case Cons(p, rest) =>
      SelectArtifacts(p.children, id, x);
      SelectArtifacts(rest, id, x);
  }

  /** What is known of a build is still known. */
  predicate BuildKept(before: Option<Artifacts>, after: Option<Artifacts>) {
    && before.Some? && after.Some?
    && (before.value.state != "" ==> after.value.state == before.value.state)
    && (before.value.built ==> after.value.built)
  }

  lemma RegisteredBuild(m: Mirror, incoming: Forest, id: Id)
    requires Find(incoming, id).Some? && CarriesOver(m.roots, Find(incoming, id).value)
    ensures BuildKept(ArtifactsOf(m.roots, id), ArtifactsOf(Registered(m, incoming), id))
  {
    CarriedFind(m.roots, incoming, id);
    FindIn(incoming, id);
    if m.focused.Some? {
      hide Select, Find, Carried;
      SelectArtifacts(Carried(m.roots, incoming), m.focused.value, id);
    }
  }

  /** A panel that stays in its context keeps what is known of its build, by whichever path the snapshot is applied. */
  lemma BuildSurvives(m: Mirror, d: Delivery, id: Id)
    requires Healthy(m) && WellFormed(d) && d.snapshot.revision > m.revision
    requires Find(d.snapshot.roots, id).Some? && CarriesOver(m.roots, Find(d.snapshot.roots, id).value)
    ensures BuildKept(ArtifactsOf(m.roots, id), ArtifactsOf(Apply(m, d).0.roots, id))
  {
    var incoming := Incoming(m, d.snapshot);
    FindIn(d.snapshot.roots, id);
    FindIn(incoming, id);
    RetitledSnapshot(Kept(m), d.snapshot.roots, id);
    assert Find(incoming, id).Some? && CarriesOver(m.roots, Find(incoming, id).value);
    hide Kept, Registered, Incoming, PatchedTitles, Find;
    if !TreesMatch(m.roots, incoming) {
      if TreesMatchIgnoringTitles(m.roots, incoming) {
        PatchedArtifacts(m.roots, m.explicit, incoming, id);
      } else {
        RegisteredBuild(m.(revision := d.snapshot.revision), incoming, id);
      }
    }
  }
}
