/**
 The orchestrator's own state, changed in place: the registry's tree and focus, the
 protected titles, the last applied revision and the runtimes it has released.
 */
module PanelOrchestrator {
  import opened Options
  import opened PanelTree
  import opened PanelMirror
  import opened PanelUnload
  import opened PanelConvergence
  import opened PanelFocus

  /** Every panel that the tree lost is in the list, once, and no other. */
  ghost predicate LostOnce(gone: seq<Id>, before: Forest, after: Forest) {
    forall x :: multiset(gone)[x] == if x in Ids(before) - Ids(after) then 1 else 0
  }

  lemma NothingLost(before: Forest, after: Forest)
    requires Ids(before) == Ids(after)
    ensures LostOnce([], before, after)
  {
  }

  /** Whether a panel that was there is gone, as `pruneRemovedPanelLocally` is called for it. */
  method PruneRemoved(before: seq<Id>, after: Forest, explicit: set<Id>) returns (kept: set<Id>, gone: seq<Id>)
    ensures kept == explicit - (set x | x in before && Find(after, x) == None)
    ensures forall x :: multiset(gone)[x] == if Find(after, x) == None then multiset(before)[x] else 0
  {
    kept, gone := explicit, [];
    for i := 0 to |before|
      invariant kept == explicit - (set x | x in before[..i] && Find(after, x) == None)
      invariant forall x :: multiset(gone)[x] == if Find(after, x) == None then multiset(before[..i])[x] else 0
    {
      assert before[..i + 1] == before[..i] + [before[i]];
      if Find(after, before[i]) == None {
        kept, gone := kept - {before[i]}, gone + [before[i]];
      }
    }
    assert before[..|before|] == before;
  }

  /** A panel that another client navigated loses its protected title. */
  method DropNavigated(ids: seq<Id>, hosted: set<Id>, before: Forest, after: Forest, explicit: set<Id>)
    returns (kept: set<Id>)
    ensures kept == explicit - (set x | x in ids && x in hosted && Navigated(before, after, x))
  {
    hide Navigated;
    kept := explicit;
    for i := 0 to |ids|
      invariant kept == explicit - (set x | x in ids[..i] && x in hosted && Navigated(before, after, x))
    {
      assert ids[..i + 1] == ids[..i] + [ids[i]];
      if ids[i] in hosted && Navigated(before, after, ids[i]) {
        kept := kept - {ids[i]};
      }
    }
    assert ids[..|ids|] == ids;
  }

  /** `repopulate` and what follows it; `done` is false when it throws. */
  method Repopulate(roots: Forest, focused: Option<Id>, explicit: set<Id>, incoming: Forest, hosted: set<Id>)
    returns (after: Forest, kept: set<Id>, gone: seq<Id>, done: bool)
    requires Unique(roots)
    ensures done == (Sound(roots) && Sound(incoming))
    ensures !Sound(roots) ==> after == roots && kept == explicit
    ensures Sound(roots) ==> forall revision ::
              Mirror(after, focused, kept, revision)
              == Repopulated(Mirror(roots, focused, explicit, revision), incoming, hosted)
    ensures if Sound(roots) then LostOnce(gone, roots, after) else gone == []
  {
    hide Navigated, SelectFocus, Carried, Sound, Unique, Ids, LostOnce;
    if !Sound(roots) {
      return roots, explicit, [], false;
    }
    var ids := PostOrder(roots);
    after := SelectFocus(Carried(roots, incoming), focused);
    RegisteredKeeps(roots, incoming, focused);
    kept, gone := PruneRemoved(ids, after, explicit);
    LostAre(roots, after, ids);
    GoneAre(roots, after, ids, gone);
    if !Sound(incoming) {
      return after, kept, gone, false;
    }
    SameNavigated(roots, incoming, after, ids, hosted);
    kept := DropNavigated(ids, hosted, roots, after, kept);
    done := true;
  }

  class Orchestrator {
    var roots: Forest
    var focused: Option<Id>
    var explicit: set<Id>
    var revision: int
    /** The panels whose runtime, view and lease have been released, in order. */
    var released: seq<Id>

    ghost function Model(): Mirror
      reads this
    {
      Mirror(roots, focused, explicit, revision)
    }

    constructor ()
      ensures Model() == Mirror(Nil, None, {}, 0) && released == []
    {
      roots, focused, explicit, revision, released := Nil, None, {}, 0, [];
    }

    method ApplyServerPanelTitleUpdate(id: Id, title: string, isExplicit: bool)
      modifies this`roots, this`explicit
      ensures Model() == TitleUpdate(old(Model()), id, title, isExplicit)
    {
      var panel := Find(roots, id);
      if panel == None || (!isExplicit && id in explicit) {
        return;
      }
      if isExplicit {
        explicit := explicit + {id};
      }
      if panel.value.title != title {
        roots := SetTitle(roots, id, title);
      }
    }

    method ApplyPanelTitles(panels: Forest)
      modifies this`roots, this`explicit
      ensures roots == PatchedTitles(old(roots), explicit, panels) && explicit == old(explicit)
      decreases panels
    {
      var rest := panels;
      while rest.Cons?
        invariant explicit == old(explicit)
        invariant PatchedTitles(roots, explicit, rest) == PatchedTitles(old(roots), explicit, panels)
        invariant rest == panels || rest < panels
        decreases rest
      {
        ApplyServerPanelTitleUpdate(rest.panel.id, rest.panel.title, false);
        ApplyPanelTitles(rest.panel.children);
        rest := rest.rest;
      }
    }

    /**
     Applies a snapshot unless it is stale.  The result is false when the method
     throws.  Every panel that has gone is released, once, and no other.
     */
    method ApplyServerPanelTreeSnapshot(d: Delivery) returns (done: bool)
      requires Unique(roots)
      modifies this
      ensures (Model(), done) == Apply(old(Model()), d)
      ensures old(released) <= released
      ensures done ==> LostOnce(released[|old(released)|..], old(roots), roots)
    {
      hide Incoming, PatchedTitles, Navigated, SelectFocus, LostOnce;
      if d.snapshot.revision <= revision {
        assert released[|released|..] == [];
        NothingLost(old(roots), roots);
        return true;
      }
      var incoming := Incoming(Mirror(roots, focused, explicit, revision), d.snapshot);
      revision := d.snapshot.revision;
      if TreesMatch(roots, incoming) {
        assert released[|released|..] == [];
        NothingLost(old(roots), roots);
        return true;
      }
      if TreesMatchIgnoringTitles(roots, incoming) {
        ApplyPanelTitles(incoming);
        PatchedUntitled(old(roots), explicit, incoming);
        UntitledKeeps(old(roots));
        UntitledKeeps(roots);
        assert released[|released|..] == [];
        NothingLost(old(roots), roots);
        return true;
      }
      var gone;
      roots, explicit, gone, done := Repopulate(roots, focused, explicit, incoming, d.hosted);
      released := released + gone;
      assert released[|old(released)|..] == gone;
    }

    /** `focusPanel`, as far as the registry goes. */
    method Focus(id: Id)
      requires Unique(roots)
      modifies this`roots, this`focused
      ensures Model() == FocusPanel(old(Model()), id)
    {
      focused := Some(id);
      roots := UpdateSelectedPath(roots, id);
    }

    /** Any event, as a step of the specification; the mirror stays healthy. */
    method Handle(e: Event)
      requires Healthy(Model()) && (e.Delivered? ==> WellFormed(e.delivery))
      modifies this
      ensures Model() == Step(old(Model()), e) && Healthy(Model())
    {
      StepKeeps(Model(), e);
      hide Sound, PathSelected, Apply, TitleUpdate, Select;
      match e
      case Delivered(d) => var done := ApplyServerPanelTreeSnapshot(d);
      case Titled(id, title, isExplicit) => ApplyServerPanelTitleUpdate(id, title, isExplicit);
      case Focused(id) => Focus(id);
    }

    /** Looks the panel up, unloads what is below it and then the panel itself. */
    method UnloadPanelTree(id: Id)
      requires Unique(roots)
      modifies this`roots, this`released
      ensures Find(old(roots), id) == None ==> roots == old(roots) && released == old(released)
      ensures Find(old(roots), id).Some? ==>
                var p := Find(old(roots), id).value;
                roots == Unloaded(old(roots), Subtree(p)) && released == old(released) + ReleaseOrder(p)
      decreases if Find(roots, id).Some? then Size(Find(roots, id).value.children) else 0, 1
    {
      hide Unloaded, Unique, Find;
      if Find(roots, id) == None {
        return;
      }
      var panel := Find(roots, id).value;
      FoundIsUnique(roots, id);
      UnloadChildren(id, panel);
      released := released + [id];
      roots := Unloaded(roots, {id});
      UnloadedUnion(old(roots), Ids(panel.children), {id});
      assert Ids(panel.children) + {id} == Subtree(panel);
    }

    method UnloadChildren(id: Id, panel: Panel)
      requires Unique(roots) && Find(roots, id) == Some(panel)
      modifies this`roots, this`released
      ensures roots == Unloaded(old(roots), Ids(panel.children))
      ensures released == old(released) + PostOrder(panel.children)
      decreases Size(panel.children), 0
    {
      hide Unloaded, UnloadedPanel, Remaining, Find, Unique, Size, Subtree, ReleaseOrder;
      FoundIsUnique(roots, id);
      AllRemain(panel.children);
      UnloadedNone(roots);
      ghost var done: set<Id> := {};
      var children := panel.children;
      while children.Cons?
        invariant Remaining(children, panel.children)
        invariant done + Ids(children) == Ids(panel.children)
        invariant roots == Unloaded(old(roots), done)
        invariant released + PostOrder(children) == old(released) + PostOrder(panel.children)
        decreases children
      {
        var child := children.panel;
        NextRemains(children, panel.children);
        ChildIsThere(old(roots), id, child, done);
        UnloadPanelTree(child.id);
        UnloadedUnion(old(roots), done, Subtree(child));
        done := done + Subtree(child);
        children := children.rest;
      }
    }
  }

  /** The children that are left: lookups among them are lookups among all. */
  ghost predicate Remaining(children: Forest, all: Forest) {
    && Unique(children) && Size(children) <= Size(all)
    && forall x :: x in Ids(children) ==> Find(children, x) == Find(all, x)
  }

  lemma AllRemain(all: Forest)
    requires Unique(all)
    ensures Remaining(all, all)
  {
  }

  lemma NextRemains(children: Forest, all: Forest)
    requires children.Cons? && Remaining(children, all)
    ensures Remaining(children.rest, all)
    ensures Ids(children) == Subtree(children.panel) + Ids(children.rest)
    ensures PostOrder(children) == ReleaseOrder(children.panel) + PostOrder(children.rest)
    ensures Find(all, children.panel.id) == Some(children.panel) && Size(children.panel.children) < Size(all)
  {
    forall x | x in Ids(children.rest) ensures Find(children.rest, x) == Find(children, x) {
      FindIn(children.panel.children, x);
    }
  }

  /** The next child is found again by its id, with what is below it not unloaded yet. */
  lemma ChildIsThere(roots: Forest, id: Id, child: Panel, done: set<Id>)
    requires Unique(roots) && Find(roots, id).Some?
    requires Find(Find(roots, id).value.children, child.id) == Some(child)
    ensures Unique(Unloaded(roots, done))
    ensures var c := Find(Unloaded(roots, done), child.id);
      && c == Some(UnloadedPanel(child, done))
      && Subtree(c.value) == Subtree(child) && ReleaseOrder(c.value) == ReleaseOrder(child)
      && Size(c.value.children) == Size(child.children)
  {
    FindBelow(roots, id, child.id);
    UnloadedFind(roots, done, child.id);
    UnloadedKeeps(roots, done);
    UnloadedKeeps(child.children, done);
  }

  lemma RegisteredKeeps(before: Forest, f: Forest, focused: Option<Id>)
    ensures var after := SelectFocus(Carried(before, f), focused);
      Ids(after) == Ids(f) && forall x :: SnapshotOf(after, x) == SnapshotOf(f, x)
  {
    var carried := Carried(before, f);
    CarriedIs(before, f);
    if focused.Some? {
      SelectShape(carried, focused.value);
    }
    forall x ensures SnapshotOf(SelectFocus(carried, focused), x) == SnapshotOf(f, x) {
      CarriedFind(before, f, x);
      if focused.Some? {
        SelectFind(carried, focused.value, x);
      }
    }
  }

  /** What the pruning loop removes is what the tree lost. */
  lemma LostAre(before: Forest, after: Forest, ids: seq<Id>)
    requires ids == PostOrder(before)
    ensures (set x | x in ids && Find(after, x) == None) == Ids(before) - Ids(after)
  {
    PostOrderMembers(before);
    forall x ensures Find(after, x) == None <==> x !in Ids(after) {
      FindIn(after, x);
    }
  }

  lemma GoneAre(before: Forest, after: Forest, ids: seq<Id>, gone: seq<Id>)
    requires Unique(before) && ids == PostOrder(before)
    requires forall x :: multiset(gone)[x] == if Find(after, x) == None then multiset(ids)[x] else 0
    ensures LostOnce(gone, before, after)
  {
    hide Ids, Find, Unique, PostOrder;
    forall x ensures multiset(gone)[x] == if x in Ids(before) - Ids(after) then 1 else 0 {
      FindIn(after, x);
      PostOrderOnce(before, x);
    }
  }

  lemma SameNavigated(before: Forest, incoming: Forest, after: Forest, ids: seq<Id>, hosted: set<Id>)
    requires ids == PostOrder(before) && forall x :: SnapshotOf(after, x) == SnapshotOf(incoming, x)
    ensures (set x | x in ids && x in hosted && Navigated(before, after, x))
         == (set x | x in hosted && Navigated(before, incoming, x))
  {
    PostOrderMembers(before);
    forall x ensures Find(before, x).Some? <==> x in ids {
      FindIn(before, x);
    }
  }
}
