/** What the hosted shell, the panels and the window can rely on. */
module SlotGuarantees {
  import opened Options
  import opened LayerOrder
  import opened NativeSlots
  import opened SlotInvariants
  import opened SlotTheorems

  /** The slot table on every run: a bijection with existing panel views, and the flags that go with it. */
  lemma SlotTableOnEveryRun(hideUntilReady: bool, width: nat, height: nat, ops: seq<Op>)
    ensures var s := Run(Initial(hideUntilReady, width, height), ops);
      && (forall k :: k in s.slots ==>
            && s.slots[k].slotId == k
            && s.slots[k].panelId in s.views && s.views[s.slots[k].panelId].kind == Panel
            && s.slots[k].panelId in s.panelToSlot && s.panelToSlot[s.slots[k].panelId] == k
            && (s.slots[k].focused <==> s.focused == Some(k))
            && s.host == Some(s.slots[k].ownerViewId) && s.slots[k].ownerGeneration == s.generation)
      && (forall p :: p in s.panelToSlot ==> s.panelToSlot[p] in s.slots && s.slots[s.panelToSlot[p]].panelId == p)
      && (forall p :: p in s.pending ==> s.pending[p].slotId !in s.slots && RestoreGuard(s, s.pending[p]))
      && (forall p, q :: p in s.pending && q in s.pending && s.pending[p].slotId == s.pending[q].slotId ==> p == q)
      && (!s.ready ==> s.slots == map[] && s.pending == map[])
  {
    hide Run, Lists, ChildrenSane, GateExact;
    InitialInv(hideUntilReady, width, height);
    RunInv(Initial(hideUntilReady, width, height), ops);
    var s := Run(Initial(hideUntilReady, width, height), ops);
    forall p | p in s.pending ensures RestoreGuard(s, s.pending[p]) {
      RestoreGuardHolds(s, p);
    }
  }

  /** The gate on every run: in the child list exactly when the flag says so, exactly while not ready. */
  lemma GateOnEveryRun(hideUntilReady: bool, width: nat, height: nat, ops: seq<Op>)
    ensures var s := Run(Initial(hideUntilReady, width, height), ops);
      (Managed(SHELL) in s.children <==> s.attached) && (s.attached <==> !s.ready)
  {
    hide Run, Table, ViewsSane, ChildrenSane, HostSane;
    InitialInv(hideUntilReady, width, height);
    RunInv(Initial(hideUntilReady, width, height), ops);
  }

  // ---------------------------------------------------------------------------
  // Layers
  // ---------------------------------------------------------------------------

  /** The operations that end in a reconcile. */
  predicate Reconciles(s: State, op: Op) {
    match op
    case CreateView(id, _, _) => id !in s.views && Showing(Step(s, op))
    case DestroyView(_) => false
    case ShowOrHide(id, visible) => visible && id in s.views && s.views[id].kind != Shell
    case HostReady(_, _) => Apply(s, op).1 == Done
    case BindSlot(_, _, _, _, _) => Apply(s, op).1 == Done
    case UpdateSlot(_, _, _, _) => Apply(s, op).1 == Done
    case ClearSlotOp(_, _) => Apply(s, op).1 == Done
    case ClearAllSlots => true
    case RendererDied(id) => id in s.views && s.views[id].kind == App && s.host == Some(id)
    case UpdateAppView(id, hostChrome) => Apply(s, op).1 == Done && !hostChrome && s.host == Some(id)
    case Reconcile => true
    case ResizeWindow(_, _) => true
    case ShowRows => false
    case HideRows(_) => true
    case ShowContent => false
    case HideContent => false
  }

  /** Each of them leaves the layers right. */
  lemma LayersAfterOperation(s: State, op: Op)
    requires Inv(s) && Enabled(op) && Reconciles(s, op)
    ensures LayersRight(Step(s, op))
  {
    hide LayersRight, Inv, SetReady, Bind, Update, Clear, ClearAll, Restack, Create, SetViewVisible, UpdateApp, Unready,
      RendererGone, HideOverlay, Showing;
    match op
    case CreateView(id, kind, hostChrome) =>
      CreateInv(s, id, kind, hostChrome);
      CreateDone(s, id, kind, hostChrome);
    case ShowOrHide(id, visible) => SetViewVisibleInv(s, id, visible);
    case HostReady(owner, ready) => SetReadyInv(s, owner, ready);
    case BindSlot(owner, k, p, r, focused) => BindInv(s, owner, k, p, r, focused);
    case UpdateSlot(owner, k, r, focused) => UpdateInv(s, owner, k, r, focused);
    case ClearSlotOp(owner, k) => ClearInv(s, owner, k);
    case ClearAllSlots => ClearAllInv(s);
    case RendererDied(id) => RendererGoneInv(s, id);
    case UpdateAppView(id, hostChrome) => UpdateAppInv(s, id, hostChrome);
    case Reconcile => RestackInv(s);
    case ResizeWindow(width, height) => ResizeWindowInv(s, width, height);
    case HideRows(matches) => HideRowsInv(s, matches);
  }

  lemma CreateDone(s: State, id: Id, kind: Kind, hostChrome: bool)
    ensures Create(s, id, kind, hostChrome).1 == Done <==> id !in s.views
  {
    hide Restack, Restore, Track;
  }

  /** A second reconcile changes nothing. */
  lemma RestackIdempotent(s: State)
    requires Inv(s)
    ensures Restack(Restack(s)) == Restack(s)
  {
    hide Reconciled, Plan, Lists;
    RestackFrames(s);
    PlanIs(s);
    AsChildrenDistinct(Plan(s));
    ReconcileIdempotent(s.children, AsChildren(Plan(s)), Shown(s), s.overlays);
  }

  lemma SlotPanelUnplanned(s: State, k: SlotId)
    requires Table(s) && ViewsSane(s) && s.ready && k in s.slots && (s.host.Some? && MayHost(s, s.host.value))
    ensures var p1 := PlanOne(ChromePlan(s), s.views, Fallback(s));
      s.slots[k].panelId !in p1 && s.host.value in p1 && Planned(p1, s.views)
  {
    hide Lists, ChromePlan;
    ChromePlanIs(s);
  }

  /** While ready, the plan has the hosted shell before every slotted panel. */
  lemma PlanPutsPanelOverShell(s: State, k: SlotId)
    requires Inv(s) && s.ready && k in s.slots
    ensures exists i, j :: 0 <= i < j < |Plan(s)| && Plan(s)[i] == s.host.value && Plan(s)[j] == s.slots[k].panelId
  {
    hide ChildrenSane, GateExact, ChromePlan, SlotPanels, PlanEach, Distinct, FocusExact, PendingApart, OwnersCurrent;
    var p1 := PlanOne(ChromePlan(s), s.views, Fallback(s));
    var ids := SlotPanels(s, s.slotOrder);
    SlotPanelsAre(s, s.slotOrder);
    SlotPanelUnplanned(s, k);
    PlanEachIs(p1, s.views, ids);
    var p2 := PlanEach(p1, s.views, ids);
    var plan := Plan(s);
    assert plan == PlanOne(p2, s.views, FocusedSlotPanel(s));
    var i :| 0 <= i < |p1| && p1[i] == s.host.value;
    assert s.slots[k].panelId != "";
    assert s.slots[k].panelId in plan;
    var j :| 0 <= j < |plan| && plan[j] == s.slots[k].panelId;
    assert forall n :: 0 <= n < |p1| ==> plan[n] == p1[n];
    assert plan[i] == s.host.value;
    assert j >= |p1|;
  }

  lemma FocusedIsLast(s: State)
    requires Inv(s) && s.ready && s.focused.Some?
    ensures |Plan(s)| > 0 && Plan(s)[|Plan(s)| - 1] == s.slots[s.focused.value].panelId
  {
    hide ChildrenSane, GateExact, ChromePlan, ChromeViews, Lists;
    var p1 := PlanOne(ChromePlan(s), s.views, Fallback(s));
    var ids := SlotPanels(s, s.slotOrder);
    SlotPanelsAre(s, s.slotOrder);
    SlotPanelUnplanned(s, s.focused.value);
    PlanEachIs(p1, s.views, ids);
    var p := s.slots[s.focused.value].panelId;
    assert p !in ids by {
      forall k | k in s.slots && s.focused != Some(k) ensures s.slots[k].panelId != p {
        assert s.panelToSlot[s.slots[k].panelId] == k;
      }
    }
    assert p != "";
  }

  /** In the window: every slotted panel is above the hosted shell, and the focused one above every other slot. */
  lemma PanelsAreAboveShell(s: State, k: SlotId)
    requires Inv(s) && LayersRight(s) && s.ready && k in s.slots
    ensures 0 <= IndexOf(s.children, Managed(s.host.value)) < IndexOf(s.children, Managed(s.slots[k].panelId))
    ensures s.focused.Some? && s.focused.value != k ==>
              IndexOf(s.children, Managed(s.slots[k].panelId))
              < IndexOf(s.children, Managed(s.slots[s.focused.value].panelId))
  {
    hide ChildrenSane, GateExact, Plan, Lists, NothingAbove;
    PlanPutsPanelOverShell(s, k);
    var plan := Plan(s);
    var i, j :| 0 <= i < j < |plan| && plan[i] == s.host.value && plan[j] == s.slots[k].panelId;
    assert AsChildren(plan)[i] == Managed(s.host.value) && AsChildren(plan)[j] == Managed(s.slots[k].panelId);
    if s.focused.Some? && s.focused.value != k {
      FocusedIsLast(s);
      var last := s.slots[s.focused.value].panelId;
      assert s.panelToSlot[last] == s.focused.value && s.panelToSlot[s.slots[k].panelId] == k;
      assert AsChildren(plan)[|plan| - 1] == Managed(last);
      assert j < |plan| - 1;
    }
  }

  // ---------------------------------------------------------------------------
  // Destroy and recreate
  // ---------------------------------------------------------------------------

  /** The operations that may undo a remembered binding of panel `p` to slot `k`. */
  predicate Disturbs(s: State, op: Op, p: Id, k: SlotId) {
    match op
    case CreateView(id, _, _) => id == p
    case DestroyView(id) => s.host == Some(id)
    case HostReady(owner, ready) => !(ready && s.ready && s.host == Some(owner)) && SetReady(s, owner, ready).1 == Done
    case BindSlot(_, slotId, panelId, _, _) => slotId == k || panelId == p
    case ClearSlotOp(_, slotId) => slotId == k
    case ClearAllSlots => true
    case RendererDied(id) => s.host == Some(id)
    case UpdateAppView(id, hostChrome) => !hostChrome && s.host == Some(id)
    case _ => false
  }

  /** The remembered bindings and the set of views are left alone. */
  predicate KeepsBindings(s: State, s': State) {
    s'.pending == s.pending && s'.views.Keys == s.views.Keys
  }

  lemma RestackKeepsBindings(s: State)
    ensures KeepsBindings(s, Restack(s))
  {
    hide Restack;
    RestackFrames(s);
  }

  lemma ClearSlotKeepsBindings(s: State, k: SlotId)
    ensures KeepsBindings(s, ClearSlotIfAny(s, k))
    ensures k in s.slots ==> KeepsBindings(s, ClearSlot(s, k))
  {
  }

  lemma OccupyKeepsBindings(s: State, slot: Slot)
    ensures KeepsBindings(s, Bound(s, slot)) && KeepsBindings(s, Reinstate(s, slot))
  {
  }

  lemma TuneKeepsBindings(s: State, k: SlotId, b: Bounds, focused: bool)
    requires k in s.slots
    ensures KeepsBindings(s, Resize(s, k, b)) && KeepsBindings(s, Refocus(s, k, focused))
    ensures k in Resize(s, k, b).slots
  {
  }

  /** The binding of `p` is still remembered and its view is still gone. */
  predicate Remembers(s: State, p: Id, slot: Slot) {
    p in s.pending && s.pending[p] == slot && p !in s.views
  }

  lemma UpdateSurvives(s: State, owner: Id, k: SlotId, r: Option<RawBounds>, focused: Option<bool>)
    ensures KeepsBindings(s, Update(s, owner, k, r, focused).0)
  {
    hide Restack, Blank, Clamp, BoundsOk, ClearSlot, Resize, Refocus;
    if k in s.slots {
      ClearSlotKeepsBindings(s, k);
      var b := if r.Some? then Clamp(s, r.value) else Bounds(0, 0, 0, 0);
      TuneKeepsBindings(s, k, b, true);
      var s1 := if r.Some? then Resize(s, k, b) else s;
      var f := focused.Some? && focused.value;
      TuneKeepsBindings(s1, k, b, f);
      RestackKeepsBindings(s1);
      RestackKeepsBindings(Refocus(s1, k, f));
    }
  }

  lemma BindSurvives(s: State, owner: Id, k: SlotId, q: Id, r: RawBounds, focused: bool, p: Id, slot: Slot)
    requires Remembers(s, p, slot) && k != slot.slotId && q != p
    ensures Remembers(Bind(s, owner, k, q, r, focused).0, p, slot)
  {
    hide Restack, Blank, Clamp, BoundsOk, Bound, ClearSlot;
    var s0 := Supersede(s, k, q);
    assert Remembers(s0, p, slot);
    ClearSlotKeepsBindings(s0, k);
    var s1 := MakeRoom(s, k, q);
    var b := Slot(k, q, Clamp(s, r), focused, owner, s.generation);
    OccupyKeepsBindings(s1, b);
    RestackKeepsBindings(Bound(s1, b));
  }

  lemma ClearSurvives(s: State, owner: Id, k: SlotId, p: Id, slot: Slot)
    requires Remembers(s, p, slot) && k != slot.slotId
    ensures Remembers(Clear(s, owner, k).0, p, slot)
  {
    hide Restack, ClearSlot;
    var s1 := ForgetSlot(s, k);
    assert Remembers(s1, p, slot);
    ClearSlotKeepsBindings(s1, k);
    RestackKeepsBindings(ClearSlotIfAny(s1, k));
  }

  lemma RestoreSurvives(s: State, id: Id, p: Id, slot: Slot)
    requires Remembers(s, p, slot) && id != p
    ensures Remembers(Restore(s, id), p, slot)
  {
    hide Restack, Reinstate;
    if id in s.pending {
      var s1 := s.(pending := s.pending - {id});
      OccupyKeepsBindings(s1, s.pending[id]);
      RestackKeepsBindings(Reinstate(s1, s.pending[id]));
    }
  }

  lemma CreateSurvives(s: State, id: Id, kind: Kind, hostChrome: bool, p: Id, slot: Slot)
    requires Remembers(s, p, slot) && id != p
    ensures Remembers(Create(s, id, kind, hostChrome).0, p, slot)
  {
    hide Restack, Restore, Raise;
    var s1 := Track(s, id, kind, hostChrome);
    assert Remembers(s1, p, slot);
    RestoreSurvives(s1, id, p, slot);
    RestackKeepsBindings(s1);
    RestackKeepsBindings(Restore(s1, id));
  }

  lemma DestroySurvives(s: State, id: Id, p: Id, slot: Slot)
    requires Bijective(s) && PendingApart(s) && Remembers(s, p, slot) && s.host != Some(id)
    ensures Remembers(Destroy(s, id).0, p, slot)
  {
    hide Without, ClearSlot;
    if id in s.panelToSlot {
      assert id != p;
      ClearSlotKeepsBindings(s.(pending := s.pending[id := s.slots[s.panelToSlot[id]]]), s.panelToSlot[id]);
    }
  }

  lemma ShowSurvives(s: State, id: Id, visible: bool)
    ensures KeepsBindings(s, SetViewVisible(s, id, visible))
  {
    hide Restack;
    if id in s.views {
      var s1 := s.(views := SetVisible(s.views, id, visible));
      RestackKeepsBindings(s1);
      RestackKeepsBindings(s1.(visiblePanel := Some(id)));
    }
  }

  lemma ReadySurvives(s: State, owner: Id)
    requires s.ready && s.host == Some(owner)
    ensures KeepsBindings(s, BecomeReady(s, owner))
  {
    hide Restack, SetViewVisible;
    var s1 := HideGate(s);
    ShowSurvives(s1, owner, true);
    RestackKeepsBindings(SetViewVisible(s1, owner, true));
  }

  /** Nothing else loses the binding, or brings the view back. */
  lemma BindingSurvives(s: State, op: Op, p: Id, slot: Slot)
    requires Inv(s) && Remembers(s, p, slot) && !Disturbs(s, op, p, slot.slotId)
    ensures Remembers(Step(s, op), p, slot)
  {
    hide Create, Destroy, SetViewVisible, BecomeReady, Bind, Update, Clear, Unready, Restack, SetChrome,
      ViewsSane, ChildrenSane, GateExact, HostSane;
    match op
    case CreateView(id, kind, hostChrome) => CreateSurvives(s, id, kind, hostChrome, p, slot);
    case DestroyView(id) => DestroySurvives(s, id, p, slot);
    case ShowOrHide(id, visible) => ShowSurvives(s, id, visible);
    case HostReady(owner, ready) =>
      if s.ready && s.host == Some(owner) {
        ReadySurvives(s, owner);
      }
    case BindSlot(owner, k, q, r, focused) => BindSurvives(s, owner, k, q, r, focused, p, slot);
    case UpdateSlot(owner, k, r, focused) => UpdateSurvives(s, owner, k, r, focused);
    case ClearSlotOp(owner, k) => ClearSurvives(s, owner, k, p, slot);
    case UpdateAppView(id, hostChrome) =>
      if id in s.views {
        ChromeSurvives(s, id, hostChrome);
      }
    case Reconcile => RestackKeepsBindings(s);
    case ResizeWindow(width, height) => RestackKeepsBindings(SetWindow(s, width, height));
    case HideRows(matches) => RestackKeepsBindings(if matches then HideOverlay(s, ROWS) else s);
    case _ =>
  }

  lemma ChromeSurvives(s: State, id: Id, hostChrome: bool)
    requires id in s.views
    ensures KeepsBindings(s, SetChrome(s, id, hostChrome))
  {
  }

  /** A run in which nothing disturbs the binding. */
  ghost predicate Undisturbed(s: State, ops: seq<Op>, p: Id, k: SlotId)
    decreases |ops|
  {
    ops == [] || (!Disturbs(s, ops[0], p, k) && Undisturbed(Step(s, ops[0]), ops[1..], p, k))
  }

  lemma {:induction false} BindingSurvivesRun(s: State, ops: seq<Op>, p: Id, slot: Slot)
    requires Inv(s) && Remembers(s, p, slot) && Undisturbed(s, ops, p, slot.slotId)
    ensures Inv(Run(s, ops)) && Remembers(Run(s, ops), p, slot)
    decreases |ops|
  {
    hide Inv, Step, Disturbs, Remembers;
    if ops != [] {
      StepInv(s, ops[0]);
      BindingSurvives(s, ops[0], p, slot);
      BindingSurvivesRun(Step(s, ops[0]), ops[1..], p, slot);
    }
  }

  lemma DestroyRemembers(s: State, p: Id)
    requires Inv(s) && p in s.panelToSlot
    ensures Inv(Step(s, DestroyView(p))) && Remembers(Step(s, DestroyView(p)), p, s.slots[s.panelToSlot[p]])
    ensures p != "" && s.slots[s.panelToSlot[p]].slotId == s.panelToSlot[p]
  {
    hide Lists, ChildrenSane, GateExact, FocusExact, OwnersCurrent, PendingApart, Without, Unready;
    StepInv(s, DestroyView(p));
    assert s.slots[s.panelToSlot[p]].panelId == p;
  }

  /** The panel is in the slot again, with the record that was remembered. */
  predicate BackInSlot(s: State, p: Id, slot: Slot) {
    && slot.slotId in s.slots && s.slots[slot.slotId] == slot
    && p in s.panelToSlot && s.panelToSlot[p] == slot.slotId
    && (s.focused == Some(slot.slotId) <==> slot.focused)
    && p in s.views && s.views[p].visible
  }

  lemma RestackKeepsSlot(s: State, p: Id, slot: Slot)
    requires BackInSlot(s, p, slot)
    ensures BackInSlot(Restack(s), p, slot)
  {
    hide Restack;
    RestackFrames(s);
  }

  lemma ReinstatePutsBack(s: State, slot: Slot)
    requires slot.panelId in s.views && slot.slotId !in s.slots && s.focused != Some(slot.slotId)
    ensures BackInSlot(Reinstate(s, slot), slot.panelId, slot)
  {
  }

  lemma RestorePutsBack(s: State, p: Id)
    requires Inv(s) && p in s.pending && p in s.views
    ensures BackInSlot(Restore(s, p), p, s.pending[p])
  {
    hide Restack, Reinstate, BackInSlot, Lists, ChildrenSane, GateExact, ViewsSane, Bijective;
    RestoreGuardHolds(s, p);
    var slot := s.pending[p];
    var s1 := s.(pending := s.pending - {p});
    assert RestoreGuard(s1, slot);
    ReinstatePutsBack(s1, slot);
    RestackKeepsSlot(Reinstate(s1, slot), p, slot);
  }

  lemma RecreateReinstates(s: State, p: Id, slot: Slot, hostChrome: bool)
    requires Inv(s) && Remembers(s, p, slot) && p != ""
    ensures BackInSlot(Step(s, CreateView(p, Panel, hostChrome)), p, slot)
  {
    hide Restack, Restore, BackInSlot, Track, Inv;
    var s1 := Track(s, p, Panel, hostChrome);
    TrackInv(s, p, Panel, hostChrome);
    TrackView(s, p, Panel, hostChrome);
    TrackPending(s, p, Panel, hostChrome);
    RestorePutsBack(s1, p);
    RestackKeepsSlot(Restore(s1, p), p, slot);
  }

  lemma TrackPending(s: State, id: Id, kind: Kind, hostChrome: bool)
    ensures Track(s, id, kind, hostChrome).pending == s.pending
  {
  }

  /**
   Destroy and recreate is a round trip: with nothing in between that disturbs the
   binding, the recreated panel is back in its slot with the same record.
   */
  lemma DestroyRecreateRoundTrip(s: State, p: Id, ops: seq<Op>, hostChrome: bool)
    requires Inv(s) && p in s.panelToSlot
    requires Undisturbed(Step(s, DestroyView(p)), ops, p, s.panelToSlot[p])
    ensures BackInSlot(Step(Run(Step(s, DestroyView(p)), ops), CreateView(p, Panel, hostChrome)),
                       p, s.slots[s.panelToSlot[p]])
  {
    hide Step, Run, Disturbs, Undisturbed, BackInSlot, Remembers, Lists, ChildrenSane, GateExact;
    DestroyRemembers(s, p);
    var slot := s.slots[s.panelToSlot[p]];
    BindingSurvivesRun(Step(s, DestroyView(p)), ops, p, slot);
    RecreateReinstates(Run(Step(s, DestroyView(p)), ops), p, slot, hostChrome);
  }

  // ---------------------------------------------------------------------------
  // Smaller facts
  // ---------------------------------------------------------------------------

  /**
   Destroying a view fails exactly when it is the active hosted shell after it lost
   its host-chrome rights: reporting it not ready is refused before anything is removed.
   */
  lemma DemotedHostCannotBeDestroyed(s: State, id: Id)
    requires Inv(s)
    ensures Destroy(s, id).1 == Thrown <==>
              id in s.views && s.views[id].kind == App && s.host == Some(id) && !s.views[id].hostChrome
    ensures Destroy(s, id).1 == Thrown ==> Destroy(s, id).0 == s
    ensures id in s.views && s.views[id].kind == App && s.host == Some(id) ==>
              Destroy(UpdateApp(s, id, false).0, id).1 == Thrown
  {
    hide Unready, Untrack, Remember, Inv;
    if id in s.views && s.views[id].kind == App && s.host == Some(id) {
      UnreadyKeepsView(SetChrome(s, id, false), id);
    }
  }

  lemma UnreadyKeepsView(s: State, id: Id)
    requires id in s.views
    ensures var s' := Unready(s, id);
      id in s'.views && s'.views[id].kind == s.views[id].kind && s'.views[id].hostChrome == s.views[id].hostChrome
      && s'.host == s.host
  {
    hide Reconciled, Plan, Shown, Raise;
  }

  /** It happens: an app becomes the hosted shell and then loses the right to be it. */
  lemma DemotionIsReachable(hideUntilReady: bool, width: nat, height: nat)
    ensures var ops := [CreateView("app", App, true), HostReady("app", true), UpdateAppView("app", false)];
      Destroy(Run(Initial(hideUntilReady, width, height), ops), "app").1 == Thrown
  {
    hide Inv, Unready, BecomeReady, Raise, Destroy;
    var s0 := Initial(hideUntilReady, width, height);
    var create, ready, demote := CreateView("app", App, true), HostReady("app", true), UpdateAppView("app", false);
    InitialInv(hideUntilReady, width, height);
    StepInv(s0, create);
    var s1 := Step(s0, create);
    assert s1 == Track(s0, "app", App, true);
    ReadyInv(s1, "app");
    var s2 := Step(s1, ready);
    assert s2 == BecomeReady(s1, "app");
    HostMayHost(s2);
    DemotedHostCannotBeDestroyed(s2, "app");
    RunThree(s0, create, ready, demote);
  }

  lemma HostMayHost(s: State)
    requires Inv(s) && s.ready
    ensures s.host.Some? && MayHost(s, s.host.value)
  {
    hide Table, ViewsSane, ChildrenSane, GateExact;
  }

  lemma RunThree(s: State, a: Op, b: Op, c: Op)
    ensures Run(s, [a, b, c]) == Step(Step(Step(s, a), b), c)
  {
    hide Step;
    assert [a, b, c][1..] == [b, c] && [b, c][1..] == [c] && [c][1..] == [];
    var s2 := Step(Step(s, a), b);
    assert Run(Step(s2, c), []) == Step(s2, c);
    assert Run(s2, [c]) == Step(s2, c);
    assert Run(Step(s, a), [b, c]) == Step(s2, c);
  }
}
