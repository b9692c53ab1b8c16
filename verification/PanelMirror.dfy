/**
 The desktop's mirror of the server's panel tree.  Versioned snapshots arrive in any
 order and are applied by skipping, by patching titles or by repopulating; explicit
 titles are protected.  The three ways have one result, and deliveries converge.
 */
module PanelMirror {
  import opened Options
  import opened PanelTree

  /** `focused` is the registry's focused panel; `explicit` the panels whose title is protected. */
  datatype Mirror = Mirror(roots: Forest, focused: Option<Id>, explicit: set<Id>, revision: int)

  datatype TreeSnapshot = TreeSnapshot(revision: int, roots: Forest)

  /** A snapshot, and the panels that have a native view when it is applied. */
  datatype Delivery = Delivery(snapshot: TreeSnapshot, hosted: set<Id>)

  /** The titles that a snapshot must not overwrite. */
  function Kept(m: Mirror): map<Id, string> {
    map id | id in m.explicit && TitleOf(m.roots, id).Some? :: TitleOf(m.roots, id).value
  }

  /** The snapshot's tree with the explicit titles put back. */
  function Incoming(m: Mirror, snapshot: TreeSnapshot): Forest {
    Retitle(Kept(m), snapshot.roots)
  }

  function UpdatedTitle(roots: Forest, explicit: set<Id>, id: Id, title: string): Forest {
    if id in explicit || TitleOf(roots, id) == None || TitleOf(roots, id) == Some(title) then roots
    else SetTitle(roots, id, title)
  }

  /** `applyPanelTitlesFromSnapshot`, parents before children. */
  function PatchedTitles(roots: Forest, explicit: set<Id>, f: Forest): Forest
    decreases f
  {
    match f
    case Nil => roots
    case Cons(p, rest) =>
      PatchedTitles(PatchedTitles(UpdatedTitle(roots, explicit, p.id, p.title), explicit, p.children), explicit, rest)
  }

  predicate IsBrowser(source: string) {
    "browser:" <= source
  }

  /** A hosted workspace panel whose current source or context changed: its view is reloaded. */
  predicate Navigated(before: Forest, after: Forest, id: Id) {
    && SnapshotOf(before, id).Some? && SnapshotOf(before, id).value.Snapshot?
    && SnapshotOf(after, id).Some? && SnapshotOf(after, id).value.Snapshot?
    && var b, a := SnapshotOf(before, id).value, SnapshotOf(after, id).value;
       (b.source != a.source || b.contextId != a.contextId) && !IsBrowser(b.source) && !IsBrowser(a.source)
  }

  /** The registry's `repopulate`: what it knows of a panel's build goes over, and the focused path is selected. */
  function Registered(m: Mirror, incoming: Forest): Forest {
    SelectFocus(Carried(m.roots, incoming), m.focused)
  }

  function Repopulated(m: Mirror, incoming: Forest, hosted: set<Id>): Mirror {
    var gone := Ids(m.roots) - Ids(incoming);
    var navigated := if Sound(incoming) then set id | id in hosted && Navigated(m.roots, incoming, id) else {};
    m.(roots := Registered(m, incoming), explicit := m.explicit - gone - navigated)
  }

  /**
   `applyServerPanelTreeSnapshot`.  The flag is false when it throws: listing the
   current panels fails if one of them has no current snapshot, after the revision
   has been recorded; the same happens after repopulating with such a panel.
   */
  function Apply(m: Mirror, d: Delivery): (Mirror, bool) {
    if d.snapshot.revision <= m.revision then (m, true)
    else
      var m1 := m.(revision := d.snapshot.revision);
      var incoming := Incoming(m, d.snapshot);
      if TreesMatch(m.roots, incoming) then (m1, true)
      else if TreesMatchIgnoringTitles(m.roots, incoming) then
        (m1.(roots := PatchedTitles(m.roots, m.explicit, incoming)), true)
      else if !Sound(m.roots) then (m1, false)
      else (Repopulated(m1, incoming, d.hosted), Sound(incoming))
  }

  function Deliver(m: Mirror, ds: seq<Delivery>): Mirror
    decreases |ds|
  {
    if ds == [] then m else Deliver(Apply(m, ds[0]).0, ds[1..])
  }

  /** `applyServerPanelTitleUpdate`. */
  function TitleUpdate(m: Mirror, id: Id, title: string, explicit: bool): Mirror {
    if Find(m.roots, id) == None || (!explicit && id in m.explicit) then m
    else m.(explicit := if explicit then m.explicit + {id} else m.explicit,
            roots := if TitleOf(m.roots, id) == Some(title) then m.roots else SetTitle(m.roots, id, title))
  }

  /** `updateSelectedPath`. */
  function FocusPanel(m: Mirror, id: Id): Mirror {
    m.(focused := Some(id), roots := Select(m.roots, id))
  }

  /** Unique ids, every panel with a current snapshot, and the focused panel's path selected. */
  predicate Settled(m: Mirror) {
    Unique(m.roots) && Sound(m.roots) && (m.focused.Some? ==> PathSelected(m.roots, m.focused.value))
  }

  // ---------------------------------------------------------------------------
  // Titles-only path
  // ---------------------------------------------------------------------------

  lemma UpdatedTitleIs(roots: Forest, explicit: set<Id>, id: Id, title: string, x: Id)
    ensures Untitled(UpdatedTitle(roots, explicit, id, title)) == Untitled(roots)
    ensures TitleOf(UpdatedTitle(roots, explicit, id, title), x)
         == if x == id && x !in explicit && TitleOf(roots, x).Some? then Some(title) else TitleOf(roots, x)
  {
    SetTitleIs(roots, id, title);
    SetTitleTitle(roots, id, title, x);
  }

  lemma {:induction false} PatchedUntitled(roots: Forest, explicit: set<Id>, f: Forest)
    ensures Untitled(PatchedTitles(roots, explicit, f)) == Untitled(roots)
    decreases f
  {
    match f
    case Nil =>
    case Cons(p, rest) =>
      var r1 := UpdatedTitle(roots, explicit, p.id, p.title);
      UpdatedTitleIs(roots, explicit, p.id, p.title, p.id);
      PatchedUntitled(r1, explicit, p.children);
      PatchedUntitled(PatchedTitles(r1, explicit, p.children), explicit, rest);
  }

  /** Patching gives every unprotected panel the title it has in the list, and touches no other. */
  lemma {:induction false} PatchedTitle(roots: Forest, explicit: set<Id>, f: Forest, x: Id)
    requires Unique(f)
    ensures TitleOf(PatchedTitles(roots, explicit, f), x)
         == if x !in explicit && TitleOf(roots, x).Some? && TitleOf(f, x).Some? then TitleOf(f, x)
            else TitleOf(roots, x)
    decreases f
  {
    match f
    case Nil =>
    case Cons(p, rest) =>
      var r1 := UpdatedTitle(roots, explicit, p.id, p.title);
      var r2 := PatchedTitles(r1, explicit, p.children);
      UpdatedTitleIs(roots, explicit, p.id, p.title, x);
      PatchedTitle(r1, explicit, p.children, x);
      PatchedTitle(r2, explicit, rest, x);
      FindIn(p.children, x);
      FindIn(rest, x);
  }

  /** The titles-only path reaches the incoming tree. */
  lemma PatchReaches(m: Mirror, snapshot: TreeSnapshot)
    requires Unique(m.roots) && Unique(snapshot.roots)
    requires TreesMatchIgnoringTitles(m.roots, Incoming(m, snapshot))
    ensures Semantic(PatchedTitles(m.roots, m.explicit, Incoming(m, snapshot))) == Semantic(Incoming(m, snapshot))
  {
    hide Kept;
    var incoming := Incoming(m, snapshot);
    var patched := PatchedTitles(m.roots, m.explicit, incoming);
    LooseMatchIsUntitledEquality(m.roots, incoming);
    RetitleIs(Kept(m), snapshot.roots);
    UntitledKeeps(incoming);
    UntitledKeeps(snapshot.roots);
    UntitledKeeps(m.roots);
    PatchedUntitled(m.roots, m.explicit, incoming);
    UntitledKeeps(patched);
    forall id | id in Ids(patched) ensures TitleOf(patched, id) == TitleOf(incoming, id) {
      PatchedTitle(m.roots, m.explicit, incoming, id);
      FindIn(m.roots, id);
      FindIn(incoming, id);
      KeptTitleComesBack(m, snapshot, id);
    }
    TitlesDetermine(patched, incoming);
  }

  lemma KeptTitleComesBack(m: Mirror, snapshot: TreeSnapshot, id: Id)
    ensures id in m.explicit && TitleOf(m.roots, id).Some? && TitleOf(Incoming(m, snapshot), id).Some? ==>
              TitleOf(Incoming(m, snapshot), id) == TitleOf(m.roots, id)
  {
    RetitledTitle(Kept(m), snapshot.roots, id);
  }

  // ---------------------------------------------------------------------------
  // Three paths, one result
  // ---------------------------------------------------------------------------

  lemma IncomingKeeps(m: Mirror, snapshot: TreeSnapshot)
    ensures Ids(Incoming(m, snapshot)) == Ids(snapshot.roots)
    ensures Unique(Incoming(m, snapshot)) <==> Unique(snapshot.roots)
    ensures Sound(Incoming(m, snapshot)) <==> Sound(snapshot.roots)
    ensures forall id :: PathSelected(Incoming(m, snapshot), id) <==> PathSelected(snapshot.roots, id)
  {
    RetitleIs(Kept(m), snapshot.roots);
    UntitledKeeps(Incoming(m, snapshot));
    UntitledKeeps(snapshot.roots);
    forall id ensures PathSelected(Incoming(m, snapshot), id) <==> PathSelected(snapshot.roots, id) {
      SelectCommutes(Incoming(m, snapshot), id);
      SelectCommutes(snapshot.roots, id);
    }
  }

  /** A tree that matches up to titles has the same selected path. */
  lemma LooseMatchSelected(a: Forest, b: Forest, id: Id)
    requires TreesMatchIgnoringTitles(a, b)
    ensures PathSelected(a, id) <==> PathSelected(b, id)
  {
    LooseMatchIsUntitledEquality(a, b);
    SelectCommutes(a, id);
    SelectCommutes(b, id);
  }

  /** On a settled mirror a focus path that is already selected makes re-selection the identity. */
  lemma SelectedIsFixed(f: Forest, focused: Option<Id>)
    requires focused.Some? ==> PathSelected(f, focused.value)
    ensures SelectFocus(Semantic(f), focused) == Semantic(f)
  {
    if focused.Some? {
      SelectCommutes(f, focused.value);
      SelectIsIdentity(f, focused.value);
    }
  }

  /**
   Skip, titles-only and repopulate all leave the snapshot's semantic tree, with the
   explicit titles kept and the focused panel's path selected.
   */
  lemma ThreePathsOneResult(m: Mirror, d: Delivery)
    requires Settled(m) && Unique(d.snapshot.roots) && d.snapshot.revision > m.revision
    ensures var m' := Apply(m, d).0;
      && Semantic(m'.roots) == SelectFocus(Semantic(Incoming(m, d.snapshot)), m.focused)
      && m'.focused == m.focused && m'.revision == d.snapshot.revision
      && (Sound(d.snapshot.roots) ==> Apply(m, d).1 && Settled(m'))
  {
    hide Incoming, PatchedTitles;
    var incoming := Incoming(m, d.snapshot);
    var m' := Apply(m, d).0;
    IncomingKeeps(m, d.snapshot);
    MatchIsSemanticEquality(m.roots, incoming);
    if TreesMatch(m.roots, incoming) {
      SelectedIsFixed(m.roots, m.focused);
    } else if TreesMatchIgnoringTitles(m.roots, incoming) {
      PatchReaches(m, d.snapshot);
      PatchedUntitled(m.roots, m.explicit, incoming);
      UntitledKeeps(m'.roots);
      UntitledKeeps(m.roots);
      if m.focused.Some? {
        LooseMatchSelected(m.roots, incoming, m.focused.value);
        SelectCommutes(m'.roots, m.focused.value);
        SelectCommutes(m.roots, m.focused.value);
      }
      SelectedIsFixed(incoming, m.focused);
    } else {
      var carried := Carried(m.roots, incoming);
      CarriedIs(m.roots, incoming);
      if m.focused.Some? {
        SelectCommutes(carried, m.focused.value);
        SelectShape(carried, m.focused.value);
        SelectIsIdentity(carried, m.focused.value);
      }
    }
  }

  /**
   The mirror ends semantically equal to the snapshot (explicit titles aside) exactly
   when the snapshot already selects the path to the focused panel: a repopulate
   re-selects that path whatever the snapshot says.
   */
  lemma MirrorEqualsSnapshotIff(m: Mirror, d: Delivery)
    requires Settled(m) && Unique(d.snapshot.roots) && d.snapshot.revision > m.revision
    ensures Semantic(Apply(m, d).0.roots) == Semantic(Incoming(m, d.snapshot))
       <==> m.focused == None || PathSelected(d.snapshot.roots, m.focused.value)
  {
    hide Apply, Incoming;
    ThreePathsOneResult(m, d);
    IncomingKeeps(m, d.snapshot);
    if m.focused.Some? {
      SelectIsIdentity(Semantic(Incoming(m, d.snapshot)), m.focused.value);
      SelectCommutes(Incoming(m, d.snapshot), m.focused.value);
    }
  }

  /** An explicit title survives every snapshot that still has the panel. */
  lemma ExplicitTitleSurvives(m: Mirror, d: Delivery, id: Id)
    requires Settled(m) && Unique(d.snapshot.roots) && d.snapshot.revision > m.revision
    requires id in m.explicit && id in Ids(m.roots) && id in Ids(d.snapshot.roots)
    ensures TitleOf(Apply(m, d).0.roots, id) == TitleOf(m.roots, id)
  {
    hide Apply, Incoming;
    ThreePathsOneResult(m, d);
    var m' := Apply(m, d).0;
    var incoming := Incoming(m, d.snapshot);
    IncomingKeeps(m, d.snapshot);
    FindIn(m.roots, id);
    FindIn(incoming, id);
    KeptTitleComesBack(m, d.snapshot, id);
    SemanticTitle(m'.roots, id);
    SemanticTitle(incoming, id);
    if m.focused.Some? {
      SelectFind(Semantic(incoming), m.focused.value, id);
    }
  }

  lemma {:induction false} SemanticTitle(f: Forest, id: Id)
    ensures TitleOf(Semantic(f), id) == TitleOf(f, id)
    ensures Find(Semantic(f), id).Some? <==> Find(f, id).Some?
  {
    match f
    case Nil =>
    case Cons(p, rest) =>
      SemanticTitle(p.children, id);
      SemanticTitle(rest, id);
  }

  lemma {:induction false} SemanticIds(f: Forest)
    ensures Ids(Semantic(f)) == Ids(f)
  {
    match f
    case Nil =>
    case Cons(p, rest) =>
      SemanticIds(p.children);
      SemanticIds(rest);
  }

  lemma SameIds(m: Mirror, d: Delivery)
    requires Settled(m) && Unique(d.snapshot.roots) && d.snapshot.revision > m.revision
    ensures Ids(Apply(m, d).0.roots) == Ids(d.snapshot.roots)
  {
    hide Apply, Incoming;
    ThreePathsOneResult(m, d);
    IncomingKeeps(m, d.snapshot);
    SemanticIds(Apply(m, d).0.roots);
    SemanticIds(Incoming(m, d.snapshot));
    if m.focused.Some? {
      SelectShape(Semantic(Incoming(m, d.snapshot)), m.focused.value);
    }
  }

  // ---------------------------------------------------------------------------
  // Limits
  // ---------------------------------------------------------------------------

  /**
   A panel without a current snapshot freezes the mirror: no snapshot matches it, and
   listing the panels throws before any other can replace it.
   */
  lemma BrokenPanelFreezesMirror(m: Mirror, d: Delivery)
    requires !Sound(m.roots)
    ensures Apply(m, d).0.roots == m.roots
    ensures Apply(m, d).1 <==> d.snapshot.revision <= m.revision
  {
    MatchIsSemanticEquality(m.roots, Incoming(m, d.snapshot));
    LooseMatchIsUntitledEquality(m.roots, Incoming(m, d.snapshot));
  }

  lemma {:induction false} FrozenForever(m: Mirror, ds: seq<Delivery>)
    requires !Sound(m.roots)
    ensures Deliver(m, ds).roots == m.roots
    decreases |ds|
  {
    hide Apply;
    if ds != [] {
      BrokenPanelFreezesMirror(m, ds[0]);
      FrozenForever(Apply(m, ds[0]).0, ds[1..]);
    }
  }

  /** Focusing a panel keeps a settled mirror settled. */
  lemma FocusKeepsSettled(m: Mirror, id: Id)
    requires Settled(m)
    ensures Settled(FocusPanel(m, id))
  {
    SelectShape(m.roots, id);
    SelectIsIdentity(m.roots, id);
  }

  /** A title update keeps a settled mirror settled, and never overwrites a protected title unless it is explicit. */
  lemma TitleUpdateKeeps(m: Mirror, id: Id, title: string, explicit: bool)
    requires Settled(m)
    ensures var m' := TitleUpdate(m, id, title, explicit);
      && Settled(m')
      && (forall x :: x in Ids(m.roots) && (x != id || (!explicit && x in m.explicit)) ==>
            TitleOf(m'.roots, x) == TitleOf(m.roots, x))
      && (id in Ids(m.roots) && (explicit || id !in m.explicit) ==> TitleOf(m'.roots, id) == Some(title))
  {
    var m' := TitleUpdate(m, id, title, explicit);
    SetTitleIs(m.roots, id, title);
    UntitledKeeps(m.roots);
    UntitledKeeps(m'.roots);
    FindIn(m.roots, id);
    if m.focused.Some? {
      SelectCommutes(m.roots, m.focused.value);
      SelectCommutes(m'.roots, m.focused.value);
    }
    forall x ensures TitleOf(SetTitle(m.roots, id, title), x)
                  == if x == id && TitleOf(m.roots, x).Some? then Some(title) else TitleOf(m.roots, x)
    {
      SetTitleTitle(m.roots, id, title, x);
    }
  }
}
