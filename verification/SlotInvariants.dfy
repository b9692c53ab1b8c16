/**
 What every public operation of the view manager keeps, including one that throws
 after it has changed something: the slot table is a bijection between active slots
 and bound panels, the focus flag is right, remembered bindings are distinct from
 active ones, owners and generations are current, and the gate is attached exactly
 while the hosted shell is not ready.
 */
module SlotInvariants {
  import opened Options
  import opened LayerOrder
  import opened NativeSlots

  // ---------------------------------------------------------------------------
  // Invariants
  // ---------------------------------------------------------------------------

  ghost predicate Bijective(s: State) {
    && (forall k :: k in s.slots ==>
          s.slots[k].slotId == k && s.slots[k].panelId in s.panelToSlot && s.panelToSlot[s.slots[k].panelId] == k)
    && (forall p :: p in s.panelToSlot ==> s.panelToSlot[p] in s.slots && s.slots[s.panelToSlot[p]].panelId == p)
    && (forall k :: k in s.slots ==> s.slots[k].panelId in s.views && s.views[s.slots[k].panelId].kind == Panel)
  }

  ghost predicate FocusExact(s: State) {
    && (s.focused.Some? ==> s.focused.value in s.slots)
    && (forall k :: k in s.slots ==> (s.slots[k].focused <==> s.focused == Some(k)))
  }

  ghost predicate PendingApart(s: State) {
    && (forall p :: p in s.pending ==>
          s.pending[p].panelId == p && s.pending[p].slotId !in s.slots && p !in s.panelToSlot)
    && (forall p, q :: p in s.pending && q in s.pending && s.pending[p].slotId == s.pending[q].slotId ==> p == q)
  }

  predicate Current(s: State, slot: Slot) {
    s.host == Some(slot.ownerViewId) && slot.ownerGeneration == s.generation
  }

  ghost predicate OwnersCurrent(s: State) {
    && (forall k :: k in s.slots ==> Current(s, s.slots[k]))
    && (forall p :: p in s.pending ==> Current(s, s.pending[p]))
  }

  /** The same views, of the same kinds, with the same host-chrome rights. */
  predicate SameShape(a: map<Id, View>, b: map<Id, View>) {
    a.Keys == b.Keys && forall id :: id in a ==> a[id].kind == b[id].kind && a[id].hostChrome == b[id].hostChrome
  }

  /** The slot table on its own. */
  ghost predicate Table(s: State) {
    Bijective(s) && FocusExact(s) && PendingApart(s) && OwnersCurrent(s)
  }

  predicate Lists(xs: seq<string>, keys: set<string>) {
    && Distinct(xs)
    && (forall x :: x in keys ==> x in xs)
    && (forall i :: 0 <= i < |xs| ==> xs[i] in keys)
  }

  /** The view map: one bootstrap view, host chrome only on apps, and the insertion orders. */
  ghost predicate ViewsSane(s: State) {
    && SHELL in s.views && s.views[SHELL].kind == Shell
    && "" !in s.views
    && (forall id :: id in s.views ==>
          (s.views[id].kind == Shell ==> id == SHELL) && (s.views[id].hostChrome ==> s.views[id].kind == App))
    && s.visiblePanel != Some(SHELL) && s.host != Some(SHELL)
    && Lists(s.viewOrder, s.views.Keys) && Lists(s.slotOrder, s.slots.Keys)
  }

  /** Every managed view is a child once; only the gate comes and goes. */
  ghost predicate ChildrenSane(s: State) {
    && Distinct(s.children) && Distinct(s.overlays)
    && (forall c :: c in s.overlays ==> c.Overlay?)
    && (forall id :: id != SHELL ==> (Managed(id) in s.children <==> id in s.views))
  }

  predicate GateShown(s: State) {
    Managed(SHELL) in s.children
  }

  predicate GateExact(s: State) {
    (GateShown(s) <==> s.attached) && (s.attached <==> !s.ready)
  }

  ghost predicate HostSane(s: State) {
    && (s.ready ==> s.host.Some? && MayHost(s, s.host.value))
    && (!s.ready ==> s.slots == map[] && s.pending == map[])
  }

  ghost predicate Inv(s: State) {
    Table(s) && ViewsSane(s) && ChildrenSane(s) && GateExact(s) && HostSane(s)
  }

  // ---------------------------------------------------------------------------
  // The plan
  // ---------------------------------------------------------------------------

  predicate Planned(plan: seq<Id>, views: map<Id, View>) {
    Distinct(plan) && forall i :: 0 <= i < |plan| ==> plan[i] in views
  }

  lemma {:induction false} PlanEachIs(plan: seq<Id>, views: map<Id, View>, ids: seq<Id>)
    requires Planned(plan, views)
    ensures Planned(PlanEach(plan, views, ids), views)
    ensures plan <= PlanEach(plan, views, ids)
    ensures forall x :: x in PlanEach(plan, views, ids) <==> x in plan || (x in ids && x in views && x != "")
    decreases |ids|
  {
    if ids != [] {
      PlanEachIs(PlanOne(plan, views, Some(ids[0])), views, ids[1..]);
    }
  }

  lemma {:induction false} ChromeViewsAre(s: State, order: seq<Id>)
    ensures forall x :: x in ChromeViews(s, order) ==> x in s.views && s.views[x].hostChrome
  {
    if order != [] {
      ChromeViewsAre(s, order[1..]);
    }
  }

  lemma {:induction false} SlotPanelsAre(s: State, order: seq<SlotId>)
    ensures forall x :: x in SlotPanels(s, order) ==>
              exists k :: k in s.slots && k in order && s.focused != Some(k) && s.slots[k].panelId == x
    ensures forall k :: k in order && k in s.slots && s.focused != Some(k) ==>
              s.slots[k].panelId in SlotPanels(s, order)
  {
    if order != [] {
      SlotPanelsAre(s, order[1..]);
    }
  }

  lemma PlanOnePlanned(plan: seq<Id>, views: map<Id, View>, id: Option<Id>)
    requires Planned(plan, views)
    ensures Planned(PlanOne(plan, views, id), views)
  {
  }

  /** The plan never lists a view twice, nor one that does not exist. */
  lemma PlanPlanned(s: State)
    ensures Planned(Plan(s), s.views)
  {
    hide PlanOne, PlanEach, Planned, Fallback, FocusedSlotPanel, SlotPanels, ChromeViews;
    assert Planned([], s.views) by { NothingPlanned(s.views); }
    var chrome := PlanEach([], s.views, ChromeViews(s, s.viewOrder));
    PlanEachIs([], s.views, ChromeViews(s, s.viewOrder));
    PlanOnePlanned(chrome, s.views, s.host);
    var p1 := PlanOne(ChromePlan(s), s.views, Fallback(s));
    PlanOnePlanned(ChromePlan(s), s.views, Fallback(s));
    PlanEachIs(p1, s.views, SlotPanels(s, s.slotOrder));
    PlanOnePlanned(PlanEach(p1, s.views, SlotPanels(s, s.slotOrder)), s.views, FocusedSlotPanel(s));
    PlanOnePlanned(PanelPlan(s), s.views, Some(SHELL));
  }

  lemma NothingPlanned(views: map<Id, View>)
    ensures Planned([], views)
  {
  }

  lemma ChromePlanIs(s: State)
    requires ViewsSane(s)
    ensures Planned(ChromePlan(s), s.views)
    ensures forall x :: x in ChromePlan(s) ==> x in s.views && (s.views[x].hostChrome || s.host == Some(x))
    ensures s.ready && s.host.Some? && s.host.value in s.views ==> s.host.value in ChromePlan(s)
  {
    hide Lists;
    PlanEachIs([], s.views, ChromeViews(s, s.viewOrder));
    ChromeViewsAre(s, s.viewOrder);
  }

  lemma PlanOneIs(plan: seq<Id>, views: map<Id, View>, id: Option<Id>, x: Id)
    ensures x in PlanOne(plan, views, id) <==> x in plan || (id == Some(x) && x != "" && x in views)
  {
  }

  lemma ShellIsNotFallback(s: State)
    requires ViewsSane(s) && Bijective(s)
    ensures Fallback(s) != Some(SHELL) && FocusedSlotPanel(s) != Some(SHELL)
    ensures forall k :: k in s.slots ==> s.slots[k].panelId != SHELL
    ensures SHELL in s.views && SHELL != ""
  {
    hide Lists;
  }

  /** Only the last step of the plan adds the gate. */
  lemma PanelPlanHasNoGate(s: State)
    requires ViewsSane(s) && Bijective(s)
    ensures SHELL !in PanelPlan(s)
  {
    ChromePlanIs(s);
    ShellIsNotFallback(s);
    SlotPanelsAre(s, s.slotOrder);
    assert SHELL !in ChromePlan(s) by { hide Lists; }
    hide ViewsSane, Bijective, ChromePlan, PlanOne, PlanEach, SlotPanels, Fallback, FocusedSlotPanel;
    var p1 := PlanOne(ChromePlan(s), s.views, Fallback(s));
    PlanOneIs(ChromePlan(s), s.views, Fallback(s), SHELL);
    PlanOnePlanned(ChromePlan(s), s.views, Fallback(s));
    PlanEachIs(p1, s.views, SlotPanels(s, s.slotOrder));
    PlanOneIs(PlanEach(p1, s.views, SlotPanels(s, s.slotOrder)), s.views, FocusedSlotPanel(s), SHELL);
  }

  /** The plan lists existing views once each, and the gate exactly while the hosted shell is not ready. */
  lemma PlanIs(s: State)
    requires ViewsSane(s) && Bijective(s)
    ensures Planned(Plan(s), s.views)
    ensures SHELL in Plan(s) <==> !s.ready
  {
    PlanPlanned(s);
    PanelPlanHasNoGate(s);
    ShellIsNotFallback(s);
    hide ViewsSane, Bijective, PanelPlan, PlanOne;
    PlanOneIs(PanelPlan(s), s.views, Some(SHELL), SHELL);
  }

  lemma AsChildrenDistinct(ids: seq<Id>)
    requires Distinct(ids)
    ensures Distinct(AsChildren(ids))
    ensures forall id :: Managed(id) in AsChildren(ids) <==> id in ids
    ensures forall c :: c in AsChildren(ids) ==> c.Managed?
  {
    forall id ensures Managed(id) in AsChildren(ids) <==> id in ids {
      if id in ids {
        var i :| 0 <= i < |ids| && ids[i] == id;
        assert AsChildren(ids)[i] == Managed(id);
      }
    }
  }

  /** A reconcile changes only the child list; it adds the gate exactly while not ready. */
  lemma RestackKeeps(s: State)
    requires ViewsSane(s) && Bijective(s) && ChildrenSane(s)
    ensures ChildrenSane(Restack(s))
    ensures GateShown(Restack(s)) <==> GateShown(s) || !s.ready
    ensures Stacked(Restack(s).children, AsChildren(Plan(s)), Shown(s))
  {
    hide Lists, Plan, Reconciled, Stacked, Distinct, Bijective;
    PlanIs(s);
    AsChildrenDistinct(Plan(s));
    ReconcileStacks(s.children, AsChildren(Plan(s)), Shown(s), s.overlays);
    forall id
      ensures Managed(id) in Restack(s).children <==> Managed(id) in s.children || id in Plan(s)
    {
      ReconcileMembers(s.children, AsChildren(Plan(s)), Shown(s), s.overlays, id);
    }
  }

  lemma RestackFrames(s: State)
    ensures Restack(s) == s.(children := Restack(s).children)
    ensures Plan(Restack(s)) == Plan(s) && Shown(Restack(s)) == Shown(s)
  {
    hide Reconciled;
    PlanIgnoresChildren(s, Restack(s));
  }

  lemma {:induction false} ChromeViewsSame(s: State, s': State, order: seq<Id>)
    requires s'.views == s.views
    ensures ChromeViews(s', order) == ChromeViews(s, order)
  {
    if order != [] {
      ChromeViewsSame(s, s', order[1..]);
    }
  }

  lemma {:induction false} SlotPanelsSame(s: State, s': State, order: seq<SlotId>)
    requires s'.slots == s.slots && s'.focused == s.focused
    ensures SlotPanels(s', order) == SlotPanels(s, order)
  {
    if order != [] {
      SlotPanelsSame(s, s', order[1..]);
    }
  }

  lemma PlanIgnoresChildren(s: State, s': State)
    requires s' == s.(children := s'.children)
    ensures Plan(s') == Plan(s)
  {
    ChromeViewsSame(s, s', s.viewOrder);
    SlotPanelsSame(s, s', s.slotOrder);
  }

  // ---------------------------------------------------------------------------
  // Parts of operations
  // ---------------------------------------------------------------------------

  /** The planned views are stacked in order, with no other visible managed view above the first. */
  predicate LayersRight(s: State) {
    Stacked(s.children, AsChildren(Plan(s)), Shown(s))
  }

  ghost predicate Core(s: State) {
    Table(s) && ViewsSane(s) && ChildrenSane(s)
  }

  lemma RestackCore(s: State)
    requires Core(s)
    ensures Core(Restack(s))
    ensures GateShown(Restack(s)) <==> GateShown(s) || !s.ready
    ensures Restack(s) == s.(children := Restack(s).children)
    ensures LayersRight(Restack(s))
  {
    hide Restack, ChildrenSane, Lists, Stacked, Plan, Shown;
    RestackKeeps(s);
    RestackFrames(s);
  }

  lemma RestackInv(s: State)
    requires Inv(s)
    ensures Inv(Restack(s)) && LayersRight(Restack(s))
  {
    hide Restack, Core, Table, ViewsSane, ChildrenSane, GateShown, LayersRight;
    assert Core(s) by { CoreIs(s); }
    RestackCore(s);
    CoreIs(Restack(s));
  }

  lemma CoreIs(s: State)
    ensures Core(s) <==> Table(s) && ViewsSane(s) && ChildrenSane(s)
  {
  }

  lemma RemoveLists(xs: seq<string>, keys: set<string>, x: string)
    requires Lists(xs, keys)
    ensures Lists(Without(xs, x), keys - {x})
  {
    WithoutIn(xs, x);
    var rest := Without(xs, x);
    assert forall i :: 0 <= i < |rest| ==> rest[i] in rest;
  }

  lemma AppendLists(xs: seq<string>, keys: set<string>, x: string)
    requires Lists(xs, keys) && x !in keys
    ensures Lists(xs + [x], keys + {x})
  {
  }

  lemma ClearSlotCore(s: State, k: SlotId)
    requires Core(s) && k in s.slots
    ensures Core(ClearSlot(s, k))
  {
    hide Lists, ChildrenSane;
    RemoveLists(s.slotOrder, s.slots.Keys, k);
    assert (s.slots - {k}).Keys == s.slots.Keys - {k};
    ClearSlotViews(s, k);
    ClearSlotTable(s, k);
  }

  lemma ClearSlotViews(s: State, k: SlotId)
    requires k in s.slots
    ensures SameShape(s.views, ClearSlot(s, k).views)
    ensures ChildrenSane(s) ==> ChildrenSane(ClearSlot(s, k))
  {
  }

  lemma ClearSlotTable(s: State, k: SlotId)
    requires Table(s) && k in s.slots
    ensures Table(ClearSlot(s, k))
  {
  }

  /** A slot may be put on the table: it is free or already holds that panel, and nothing remembered clashes. */
  ghost predicate Fits(s: State, slot: Slot) {
    && slot.panelId in s.views && s.views[slot.panelId].kind == Panel
    && (slot.slotId in s.slots ==> s.slots[slot.slotId].panelId == slot.panelId)
    && (slot.panelId in s.panelToSlot ==> s.panelToSlot[slot.panelId] == slot.slotId)
    && slot.panelId !in s.pending
    && (forall q :: q in s.pending ==> s.pending[q].slotId != slot.slotId)
    && Current(s, slot)
  }

  lemma OccupyParts(s: State, slot: Slot)
    requires Bijective(s) && PendingApart(s) && OwnersCurrent(s) && Fits(s, slot)
    ensures Bijective(Occupy(s, slot)) && PendingApart(Occupy(s, slot)) && OwnersCurrent(Occupy(s, slot))
  {
  }

  lemma OccupySane(s: State, slot: Slot)
    requires ViewsSane(s) && ChildrenSane(s) && Fits(s, slot)
    ensures ViewsSane(Occupy(s, slot)) && ChildrenSane(Occupy(s, slot))
  {
    hide Lists, Distinct;
    if slot.slotId in s.slots {
      assert s.slots[slot.slotId := slot].Keys == s.slots.Keys;
    } else {
      AppendLists(s.slotOrder, s.slots.Keys, slot.slotId);
      assert s.slots[slot.slotId := slot].Keys == s.slots.Keys + {slot.slotId};
    }
    assert SetVisible(s.views, slot.panelId, true).Keys == s.views.Keys;
  }

  /** Focusing a slot leaves the table right whatever the flags were before. */
  lemma FocusCore(s: State, k: SlotId)
    requires Bijective(s) && PendingApart(s) && OwnersCurrent(s) && ViewsSane(s) && ChildrenSane(s) && k in s.slots
    ensures Core(Focus(s, k))
  {
    FocusTable(s, k);
    FocusViews(s, k);
    hide Table, ViewsSane, ChildrenSane, Focus;
  }

  lemma FocusTable(s: State, k: SlotId)
    requires Bijective(s) && PendingApart(s) && OwnersCurrent(s) && k in s.slots
    ensures Table(Focus(s, k))
  {
    assert Focus(s, k).slots.Keys == s.slots.Keys;
  }

  lemma FocusViews(s: State, k: SlotId)
    requires Bijective(s) && ViewsSane(s) && ChildrenSane(s) && k in s.slots
    ensures ViewsSane(Focus(s, k)) && ChildrenSane(Focus(s, k))
  {
    hide Lists, Distinct;
    assert Focus(s, k).slots.Keys == s.slots.Keys;
  }

  lemma BlurCore(s: State, k: SlotId)
    requires Bijective(s) && PendingApart(s) && OwnersCurrent(s) && ViewsSane(s) && ChildrenSane(s) && k in s.slots
    requires !s.slots[k].focused
    requires forall j :: j in s.slots && j != k ==> (s.slots[j].focused <==> s.focused == Some(j))
    requires s.focused.Some? ==> s.focused.value in s.slots
    ensures Core(Blur(s, k))
  {
    hide Lists, Distinct;
  }

  lemma BoundCore(s: State, slot: Slot)
    requires Core(s) && Fits(s, slot)
    ensures Core(Bound(s, slot))
  {
    hide Lists, Distinct, Core, Bijective, PendingApart, OwnersCurrent, ViewsSane, ChildrenSane, Fits;
    CoreIs(s);
    OccupyParts(s, slot);
    OccupySane(s, slot);
    if slot.focused {
      FocusCore(Occupy(s, slot), slot.slotId);
    } else {
      BlurCore(Occupy(s, slot), slot.slotId);
    }
  }

  lemma ReinstateCore(s: State, slot: Slot)
    requires Core(s) && Fits(s, slot) && slot.slotId !in s.slots
    ensures Core(Reinstate(s, slot))
  {
    hide Lists, Distinct, Core, Bijective, PendingApart, OwnersCurrent, ViewsSane, ChildrenSane, Fits;
    CoreIs(s);
    OccupyParts(s, slot);
    OccupySane(s, slot);
    if slot.focused {
      FocusCore(Occupy(s, slot), slot.slotId);
    } else {
      assert FocusExact(Occupy(s, slot));
      CoreIs(Occupy(s, slot));
    }
  }

  lemma NothingListed()
    ensures Lists([], {})
  {
  }

  lemma EmptiedCore(s: State)
    requires Bijective(s) && ViewsSane(s) && ChildrenSane(s)
    ensures Core(Emptied(s)) && Emptied(s).slots == map[] && Emptied(s).pending == map[]
    ensures forall id :: MayHost(Emptied(s), id) <==> MayHost(s, id)
  {
    EmptiedTable(s);
    EmptiedViews(s);
    hide Table, ViewsSane, ChildrenSane, Bijective;
  }

  lemma EmptiedTable(s: State)
    requires Bijective(s)
    ensures Table(Emptied(s))
  {
    assert Emptied(s).panelToSlot == map[] by {
      forall p | p in s.panelToSlot ensures p in SlotPanelSet(s) {
        assert s.slots[s.panelToSlot[p]].panelId == p;
      }
    }
  }

  lemma EmptiedViews(s: State)
    requires ViewsSane(s) && ChildrenSane(s)
    ensures ViewsSane(Emptied(s)) && ChildrenSane(Emptied(s))
  {
    NothingListed();
    hide Distinct, Lists;
    assert Emptied(s).views.Keys == s.views.Keys;
    assert Emptied(s).slots.Keys == {};
  }

  lemma ShowGateSane(s: State)
    requires ChildrenSane(s)
    ensures ChildrenSane(ShowGate(s))
    ensures GateShown(ShowGate(s)) <==> GateShown(s) || !s.attached
  {
    WithoutIn(s.children, Managed(SHELL));
    var cs := Without(s.children, Managed(SHELL));
    assert forall i :: 0 <= i < |cs| ==> cs[i] in cs;
  }

  lemma HideGateSane(s: State)
    requires ChildrenSane(s)
    ensures ChildrenSane(HideGate(s))
    ensures GateShown(HideGate(s)) <==> GateShown(s) && !s.attached
  {
    WithoutIn(s.children, Managed(SHELL));
  }

  /** Changing visibility of a view changes nothing the tables depend on. */
  lemma VisibilityCore(s: State, s': State)
    requires Core(s) && SameShape(s.views, s'.views) && s'.visiblePanel != Some(SHELL)
    requires s' == s.(views := s'.views, visiblePanel := s'.visiblePanel)
    ensures Core(s') && (forall x :: MayHost(s', x) <==> MayHost(s, x))
  {
    hide Lists, Distinct;
    VisibilityTable(s, s');
  }

  lemma VisibilityTable(s: State, s': State)
    requires Table(s) && SameShape(s.views, s'.views)
    requires s' == s.(views := s'.views, visiblePanel := s'.visiblePanel)
    ensures Table(s')
  {
    hide ViewsSane, ChildrenSane;
  }

  lemma SetVisibleShape(views: map<Id, View>, id: Id, visible: bool)
    ensures SameShape(views, SetVisible(views, id, visible))
  {
  }

  // ---------------------------------------------------------------------------
  // The hosted shell comes and goes
  // ---------------------------------------------------------------------------

  lemma ClearAllCore(s: State)
    requires Bijective(s) && ViewsSane(s) && ChildrenSane(s)
    ensures Core(ClearAll(s))
    ensures GateShown(ClearAll(s)) <==> GateShown(s) || !s.ready
    ensures ClearAll(s) == Emptied(s).(children := ClearAll(s).children)
    ensures LayersRight(ClearAll(s))
  {
    hide LayersRight, Emptied, Restack, Core, Bijective, ViewsSane, ChildrenSane;
    EmptiedCore(s);
    RestackCore(Emptied(s));
    EmptiedFrames(s);
  }

  lemma EmptiedFrames(s: State)
    ensures var e := Emptied(s);
      e.children == s.children && e.ready == s.ready && e.attached == s.attached && e.host == s.host
      && e.generation == s.generation && e.slots == map[] && e.pending == map[]
    ensures SameShape(s.views, Emptied(s).views)
    ensures Emptied(s).visiblePanel == None
  {
  }

  /** However the hosted shell is lost, the gate is back, alone, and nothing is bound or remembered. */
  lemma UnreadyInv(s: State, id: Id)
    requires Core(s)
    ensures Inv(Unready(s, id)) && LayersRight(Unready(s, id))
  {
    hide LayersRight, Restack, Emptied, ClearAll, Core, ShowGate, Table, ViewsSane, ChildrenSane, GateShown;
    var s0 := s.(ready := false);
    assert Bijective(s0) && ViewsSane(s0) && ChildrenSane(s0) by { ReadyIsApart(s, false); }
    ClearAllCore(s0);
    EmptiedFrames(s0);
    var s1 := ClearAll(s0);
    var s2 := HideView(s1, id);
    SetVisibleShape(s1.views, id, false);
    VisibilityCore(s1, s2);
    assert GateShown(s2) by { assert s2.children == s1.children; SameChildrenSameGate(s1, s2); }
    ShowGateCore(s2);
    var s3 := ShowGate(s2);
    RestackCore(s3);
    CoreIs(Restack(s3));
  }

  lemma SameChildrenSameGate(s: State, s': State)
    requires s'.children == s.children
    ensures GateShown(s') <==> GateShown(s)
  {
  }

  lemma ReadyIsApart(s: State, ready: bool)
    requires Core(s)
    ensures Bijective(s.(ready := ready)) && ViewsSane(s.(ready := ready)) && ChildrenSane(s.(ready := ready))
  {
    hide Lists, Distinct;
  }

  lemma ShowGateCore(s: State)
    requires Core(s)
    ensures Core(ShowGate(s))
    ensures GateShown(ShowGate(s)) <==> GateShown(s) || !s.attached
    ensures ShowGate(s) == s.(children := ShowGate(s).children, attached := true)
  {
    hide Lists, ChildrenSane, GateShown;
    ShowGateSane(s);
    ChildrenApart(s, ShowGate(s));
  }

  lemma HideGateCore(s: State)
    requires Core(s)
    ensures Core(HideGate(s))
    ensures GateShown(HideGate(s)) <==> GateShown(s) && !s.attached
    ensures HideGate(s) == s.(children := HideGate(s).children, attached := false)
  {
    hide Lists, ChildrenSane, GateShown;
    HideGateSane(s);
    ChildrenApart(s, HideGate(s));
  }

  /** The tables do not depend on the child list, the attach flag or readiness. */
  lemma ChildrenApart(s: State, s': State)
    requires Table(s) && ViewsSane(s)
    requires s' == s.(children := s'.children, attached := s'.attached, ready := s'.ready)
    ensures Table(s') && ViewsSane(s')
  {
    hide Lists;
  }

  lemma SetViewVisibleCore(s: State, id: Id, visible: bool)
    requires Core(s)
    ensures Core(SetViewVisible(s, id, visible))
    ensures SetViewVisible(s, id, visible)
         == s.(views := SetViewVisible(s, id, visible).views, children := SetViewVisible(s, id, visible).children,
               visiblePanel := SetViewVisible(s, id, visible).visiblePanel)
    ensures SameShape(s.views, SetViewVisible(s, id, visible).views)
    ensures s.ready ==> (GateShown(SetViewVisible(s, id, visible)) <==> GateShown(s))
    ensures !s.ready && GateShown(s) ==> GateShown(SetViewVisible(s, id, visible))
    ensures visible && id in s.views && s.views[id].kind != Shell ==> LayersRight(SetViewVisible(s, id, visible))
  {
    hide Restack, Core, SetVisible, Table, ViewsSane, ChildrenSane, LayersRight;
    if id in s.views {
      var v := s.views[id];
      SetVisibleShape(s.views, id, visible);
      var s1 := s.(views := SetVisible(s.views, id, visible));
      if visible && v.hostChrome {
        assert s1.visiblePanel != Some(SHELL) by { CorePanel(s, id); }
        VisibilityCore(s, s1);
        RestackCore(s1);
      } else if visible && v.kind != Shell {
        var s2 := s1.(visiblePanel := Some(id));
        assert id != SHELL by { CorePanel(s, id); }
        VisibilityCore(s, s2);
        RestackCore(s2);
      } else {
        CorePanel(s, id);
        VisibilityCore(s, SetViewVisible(s, id, visible));
      }
    }
  }

  lemma CorePanel(s: State, id: Id)
    requires Core(s) && id in s.views
    ensures s.visiblePanel != Some(SHELL) && (s.views[id].kind != Shell ==> id != SHELL)
  {
  }

  lemma MayHostShape(s: State, s': State, x: Id)
    requires SameShape(s.views, s'.views)
    ensures MayHost(s', x) <==> MayHost(s, x)
  {
  }

  lemma ReassertInv(s: State, owner: Id)
    requires Inv(s) && s.ready && s.host == Some(owner)
    ensures Inv(Restack(SetViewVisible(HideGate(s), owner, true)))
    ensures LayersRight(Restack(SetViewVisible(HideGate(s), owner, true)))
    ensures var s' := Restack(SetViewVisible(HideGate(s), owner, true)); s'.ready && s'.host == Some(owner)
  {
    hide LayersRight, Restack, Core, SetViewVisible, HideGate, Table, ViewsSane, ChildrenSane, GateShown;
    CoreIs(s);
    HideGateCore(s);
    var s1 := HideGate(s);
    SetViewVisibleCore(s1, owner, true);
    var s2 := SetViewVisible(s1, owner, true);
    RestackCore(s2);
    MayHostShape(s, s2, owner);
    MayHostShape(s, Restack(s2), owner);
    CoreIs(Restack(s2));
  }

  lemma HandOverCore(s: State, owner: Id)
    requires Inv(s) && MayHost(s, owner)
    ensures var s' := HandOver(s, owner);
      Core(s') && s'.ready && s'.host == Some(owner) && MayHost(s', owner)
      && s'.attached == s.attached && (GateShown(s') ==> s'.attached)
  {
    hide Restack, Emptied, ClearAll, Core, GateShown, ViewsSane, ChildrenSane, Bijective;
    var s0 := s.(generation := s.generation + 1);
    GenerationApart(s, owner);
    ClearAllCore(s0);
    EmptiedFrames(s0);
    MayHostShape(s, Emptied(s0), owner);
    SameChildrenSameGate(s, s0);
    var s1 := ClearAll(s0);
    NewHostCore(s1, owner);
    MayHostShape(s1, HandOver(s, owner), owner);
    SameChildrenSameGate(s1, HandOver(s, owner));
  }

  lemma GenerationApart(s: State, owner: Id)
    requires Inv(s) && MayHost(s, owner)
    ensures var s0 := s.(generation := s.generation + 1); Bijective(s0) && ViewsSane(s0) && ChildrenSane(s0)
    ensures owner != SHELL
  {
    hide Lists, Distinct;
  }

  lemma NewHostCore(s: State, owner: Id)
    requires Core(s) && s.slots == map[] && s.pending == map[] && owner != SHELL
    ensures Core(s.(host := Some(owner), ready := true))
  {
    hide Lists, Distinct;
  }

  lemma ReadyInv(s: State, owner: Id)
    requires Inv(s) && MayHost(s, owner)
    ensures Inv(BecomeReady(s, owner)) && LayersRight(BecomeReady(s, owner))
    ensures BecomeReady(s, owner).ready && BecomeReady(s, owner).host == Some(owner)
  {
    hide LayersRight, Restack, Core, SetViewVisible, HideGate, HandOver, Table, ViewsSane, ChildrenSane, GateShown;
    if s.ready && s.host == Some(owner) {
      ReassertInv(s, owner);
    } else {
      var s0 := HandOver(s, owner);
      HandOverCore(s, owner);
      HandOverEmpty(s, owner);
      HideGateCore(s0);
      var s1 := HideGate(s0);
      SetViewVisibleCore(s1, owner, true);
      var s2 := SetViewVisible(s1, owner, true);
      RestackCore(s2);
      MayHostShape(s0, s2, owner);
      MayHostShape(s0, Restack(s2), owner);
      CoreIs(Restack(s2));
    }
  }

  lemma HandOverEmpty(s: State, owner: Id)
    ensures HandOver(s, owner).slots == map[] && HandOver(s, owner).pending == map[]
  {
    hide Restack;
    EmptiedFrames(s.(generation := s.generation + 1));
    RestackFrames(Emptied(s.(generation := s.generation + 1)));
  }
}
