/**
 The view manager as an object: its maps and the window's child list are updated in
 place, with the loops of the source.  Each method is proved to take the object to
 the state that `NativeSlots` gives.
 */
module PanelHost {
  import opened Options
  import opened LayerOrder
  import opened NativeSlots
  import opened SlotInvariants
  import opened SlotTheorems

  // ---------------------------------------------------------------------------
  // The loops
  // ---------------------------------------------------------------------------

  method FocusFlags(slots: map<SlotId, Slot>, k: SlotId) returns (r: map<SlotId, Slot>)
    ensures r == map j | j in slots :: slots[j].(focused := j == k)
  {
    r := slots;
    var todo := slots.Keys;
    while todo != {}
      invariant todo <= slots.Keys
      invariant r == map j | j in slots :: if j in todo then slots[j] else slots[j].(focused := j == k)
      decreases |todo|
    {
      var j :| j in todo;
      todo := todo - {j};
      r := r[j := r[j].(focused := j == k)];
    }
  }

  /** Drop the remembered bindings to a slot. */
  method DropRemembered(pending: map<Id, Slot>, k: SlotId) returns (r: map<Id, Slot>)
    ensures r == map q | q in pending && pending[q].slotId != k :: pending[q]
  {
    r := pending;
    var todo := pending.Keys;
    while todo != {}
      invariant todo <= pending.Keys
      invariant r == map q | q in pending && (q in todo || pending[q].slotId != k) :: pending[q]
      decreases |todo|
    {
      var q :| q in todo;
      todo := todo - {q};
      if pending[q].slotId == k {
        r := r - {q};
      }
    }
  }

  method PlanList(start: seq<Id>, views: map<Id, View>, ids: seq<Id>) returns (plan: seq<Id>)
    ensures plan == PlanEach(start, views, ids)
  {
    plan := start;
    for i := 0 to |ids|
      invariant PlanEach(start, views, ids) == PlanEach(plan, views, ids[i..])
    {
      assert ids[i..][1..] == ids[i + 1..];
      plan := PlanOne(plan, views, Some(ids[i]));
    }
  }

  /** The visible host-chrome views, walking the view map in order. */
  method ChromeLoop(s: State) returns (ids: seq<Id>)
    ensures ids == ChromeViews(s, s.viewOrder)
  {
    hide ChromeViews;
    ids := [];
    var order := s.viewOrder;
    assert order[0..] == order;
    for i := 0 to |order|
      invariant ChromeViews(s, order) == ids + ChromeViews(s, order[i..])
    {
      ChromeStep(s, order[i..]);
      assert order[i..][1..] == order[i + 1..];
      var first := if ShownChrome(s, order[i]) then [order[i]] else [];
      Regroup(ids, first, ChromeViews(s, order[i + 1..]));
      ids := ids + first;
    }
    ChromeNone(s);
  }

  lemma Regroup(a: seq<Id>, b: seq<Id>, c: seq<Id>)
    ensures a + (b + c) == (a + b) + c
  {
  }

  predicate ShownChrome(s: State, id: Id) {
    id in s.views && s.views[id].hostChrome && s.views[id].visible
  }

  lemma ChromeStep(s: State, order: seq<Id>)
    requires order != []
    ensures ChromeViews(s, order)
         == (if ShownChrome(s, order[0]) then [order[0]] else []) + ChromeViews(s, order[1..])
  {
  }

  lemma ChromeNone(s: State)
    ensures ChromeViews(s, []) == [] && SlotPanels(s, []) == []
  {
  }

  /** The panels of the unfocused slots, walking the slot map in order. */
  method SlotLoop(s: State) returns (ids: seq<Id>)
    ensures ids == SlotPanels(s, s.slotOrder)
  {
    hide SlotPanels;
    ids := [];
    var order := s.slotOrder;
    assert order[0..] == order;
    for i := 0 to |order|
      invariant SlotPanels(s, order) == ids + SlotPanels(s, order[i..])
    {
      SlotStep(s, order[i..]);
      assert order[i..][1..] == order[i + 1..];
      var first := if order[i] in s.slots && s.focused != Some(order[i]) then [s.slots[order[i]].panelId] else [];
      Regroup(ids, first, SlotPanels(s, order[i + 1..]));
      ids := ids + first;
    }
    ChromeNone(s);
  }

  lemma SlotStep(s: State, order: seq<SlotId>)
    requires order != []
    ensures SlotPanels(s, order)
         == (if order[0] in s.slots && s.focused != Some(order[0]) then [s.slots[order[0]].panelId] else [])
            + SlotPanels(s, order[1..])
  {
  }

  method ComputePlan(s: State) returns (plan: seq<Id>)
    ensures plan == Plan(s)
  {
    hide ChromeViews, SlotPanels, PlanEach;
    plan := [];
    if s.ready {
      var chrome := ChromeLoop(s);
      plan := PlanList([], s.views, chrome);
      plan := PlanOne(plan, s.views, s.host);
    }
    if s.ready || !s.hideUntilReady {
      plan := PlanOne(plan, s.views, Fallback(s));
      var panels := SlotLoop(s);
      plan := PlanList(plan, s.views, panels);
      plan := PlanOne(plan, s.views, FocusedSlotPanel(s));
    }
    if !s.ready {
      plan := PlanOne(plan, s.views, Some(SHELL));
    }
  }

  // ---------------------------------------------------------------------------
  // Clearing every slot, one by one
  // ---------------------------------------------------------------------------

  function ClearMany(s: State, order: seq<SlotId>): State
    decreases |order|
  {
    if order == [] then s else ClearMany(ClearSlotIfAny(s, order[0]), order[1..])
  }

  /** The view of a cleared panel, and of any other. */
  function AfterClear(s: State, id: Id, cleared: set<SlotId>): View
    requires id in s.views
  {
    if id in s.panelToSlot && s.panelToSlot[id] in cleared then s.views[id].(visible := false) else s.views[id]
  }

  /** What clearing a set of slots leaves, up to the focus and the legacy visible panel. */
  ghost predicate ClearedOf(s: State, s': State, cleared: set<SlotId>) {
    && s' == s.(slots := s'.slots, slotOrder := s'.slotOrder, panelToSlot := s'.panelToSlot,
                focused := s'.focused, visiblePanel := s'.visiblePanel, views := s'.views)
    && s'.slots == s.slots - cleared
    && (forall p :: p in s'.panelToSlot <==> p in s.panelToSlot && s.panelToSlot[p] !in cleared)
    && (forall p :: p in s'.panelToSlot ==> s'.panelToSlot[p] == s.panelToSlot[p])
    && s'.views.Keys == s.views.Keys
    && (forall id :: id in s.views ==> s'.views[id] == AfterClear(s, id, cleared))
    && (forall j :: j in s'.slotOrder ==> j in s.slotOrder && (j in s.slots ==> j !in cleared))
  }

  lemma ClearOne(s: State, k: SlotId)
    requires Bijective(s)
    ensures ClearedOf(s, ClearSlotIfAny(s, k), {k})
  {
    WithoutIn(s.slotOrder, k);
    if k !in s.slots {
      assert s.slots - {k} == s.slots;
    }
  }

  lemma ClearOneBijective(s: State, k: SlotId)
    requires Bijective(s)
    ensures Bijective(ClearSlotIfAny(s, k))
  {
    hide Without;
  }

  lemma ClearedOfAdds(a: State, b: State, c: State, x: set<SlotId>, y: set<SlotId>)
    requires Bijective(a) && ClearedOf(a, b, x) && ClearedOf(b, c, y)
    ensures ClearedOf(a, c, x + y)
  {
    forall id | id in a.views ensures c.views[id] == AfterClear(a, id, x + y) {
      ClearedViewAdds(a, b, c, x, y, id);
    }
    hide AfterClear, Bijective;
  }

  lemma ClearedViewAdds(a: State, b: State, c: State, x: set<SlotId>, y: set<SlotId>, id: Id)
    requires Bijective(a) && ClearedOf(a, b, x) && ClearedOf(b, c, y) && id in a.views
    ensures id in c.views && c.views[id] == AfterClear(a, id, x + y)
  {
    assert b.views[id] == AfterClear(a, id, x);
  }

  lemma ClearedOfNone(s: State)
    ensures ClearedOf(s, s, {})
  {
    assert s.slots - {} == s.slots;
  }

  lemma {:induction false} ClearManyIs(s: State, order: seq<SlotId>)
    requires Bijective(s)
    ensures ClearedOf(s, ClearMany(s, order), set k | k in order)
    decreases |order|
  {
    hide ClearSlotIfAny, ClearedOf, Bijective;
    if order == [] {
      ClearedOfNone(s);
      assert (set k | k in order) == {};
    } else {
      var s1 := ClearSlotIfAny(s, order[0]);
      ClearOne(s, order[0]);
      ClearOneBijective(s, order[0]);
      ClearManyIs(s1, order[1..]);
      ClearedOfAdds(s, s1, ClearMany(s1, order[1..]), {order[0]}, set k | k in order[1..]);
      assert (set k | k in order) == {order[0]} + (set k | k in order[1..]);
    }
  }

  /** Clearing the slots one by one ends in the same place as `Emptied`. */
  lemma ClearManyEmpties(s: State)
    requires Bijective(s) && Lists(s.slotOrder, s.slots.Keys)
    ensures ClearMany(s.(pending := map[]), s.slotOrder).(focused := None, visiblePanel := None) == Emptied(s)
  {
    hide ClearMany, ClearedOf, Lists, Bijective;
    var s0 := s.(pending := map[]);
    var s' := ClearMany(s0, s.slotOrder);
    assert Bijective(s0) by { PendingKeepsBijective(s); }
    ClearManyIs(s0, s.slotOrder);
    ClearedOfAll(s0, s', set k | k in s.slotOrder);
  }

  lemma PendingKeepsBijective(s: State)
    requires Bijective(s)
    ensures Bijective(s.(pending := map[]))
  {
  }

  /** Clearing every slot there is empties the tables. */
  lemma ClearedOfAll(s: State, s': State, all: set<SlotId>)
    requires Bijective(s) && Lists(s.slotOrder, s.slots.Keys) && all == (set k | k in s.slotOrder)
    requires ClearedOf(s, s', all)
    ensures s'.slots == map[] && s'.slotOrder == []
    ensures s'.panelToSlot == Emptied(s).panelToSlot && s'.views == Emptied(s).views
    ensures s' == s.(slots := map[], slotOrder := [], panelToSlot := s'.panelToSlot, focused := s'.focused,
                     visiblePanel := s'.visiblePanel, views := s'.views)
  {
    EmptyOrInhabited(s'.slotOrder);
    ClearedViews(s, s', all);
    assert forall p :: p in s.panelToSlot ==> s.slots[s.panelToSlot[p]].panelId == p;
  }

  lemma ClearedViews(s: State, s': State, all: set<SlotId>)
    requires Bijective(s) && (forall k :: k in s.slots ==> k in all) && ClearedOf(s, s', all)
    ensures s'.views == Emptied(s).views
  {
    forall id | id in s.views ensures s'.views[id] == Emptied(s).views[id] {
      assert s'.views[id] == AfterClear(s, id, all);
      if id in s.panelToSlot {
        assert s.slots[s.panelToSlot[id]].panelId == id;
        assert id in SlotPanelSet(s);
      }
    }
  }

  lemma {:induction false} ClearManySnoc(s: State, order: seq<SlotId>, k: SlotId)
    ensures ClearMany(s, order + [k]) == ClearSlotIfAny(ClearMany(s, order), k)
    decreases |order|
  {
    hide ClearSlotIfAny;
    if order == [] {
      assert order + [k] == [k];
      assert ClearMany(ClearSlotIfAny(s, k), [k][1..]) == ClearSlotIfAny(s, k);
    } else {
      assert (order + [k])[1..] == order[1..] + [k];
      ClearManySnoc(ClearSlotIfAny(s, order[0]), order[1..], k);
    }
  }

  // ---------------------------------------------------------------------------
  // The object
  // ---------------------------------------------------------------------------

  class ViewManager {
    const hideUntilReady: bool
    /** The content size of the window. */
    var size: (nat, nat)
    var views: map<Id, View>
    var viewOrder: seq<Id>
    var children: seq<Child>
    var overlays: seq<Child>
    var attached: bool
    var ready: bool
    var host: Option<Id>
    var generation: nat
    var slots: map<SlotId, Slot>
    var slotOrder: seq<SlotId>
    var panelToSlot: map<Id, SlotId>
    var focused: Option<SlotId>
    var pending: map<Id, Slot>
    var visiblePanel: Option<Id>

    function Model(): State
      reads this
    {
      State(hideUntilReady, size.0, size.1, views, viewOrder, children, overlays, attached, ready, host,
            generation, slots, slotOrder, panelToSlot, focused, pending, visiblePanel)
    }

    constructor (hideUntilReady: bool, windowWidth: nat, windowHeight: nat)
      ensures Model() == Initial(hideUntilReady, windowWidth, windowHeight) && Inv(Model())
    {
      hide Inv;
      InitialInv(hideUntilReady, windowWidth, windowHeight);
      this.hideUntilReady, size := hideUntilReady, (windowWidth, windowHeight);
      views := map[SHELL := View(Shell, false, true)];
      viewOrder, children, overlays := [SHELL], [Managed(SHELL)], [];
      attached, ready, host, generation := true, false, None, 0;
      slots, slotOrder, panelToSlot, focused := map[], [], map[], None;
      pending, visiblePanel := map[], None;
    }

    method ReconcileNativeLayerOrder()
      modifies this`children
      ensures Model() == Restack(old(Model()))
    {
      hide Plan, Reconciled, Planned;
      var plan := ComputePlan(Model());
      assert Distinct(plan) by { PlanPlanned(Model()); PlannedDistinct(plan, views); }
      AsChildrenDistinct(plan);
      children := LayerOrder.Reconcile(children, AsChildren(plan), Shown(Model()), overlays);
    }

    method ShowBootstrapShell()
      modifies this`children, this`attached
      ensures Model() == ShowGate(old(Model()))
    {
      if !attached {
        children := Raise(children, Managed(SHELL));
        attached := true;
      }
    }

    method HideBootstrapShell()
      modifies this`children, this`attached
      ensures Model() == HideGate(old(Model()))
    {
      if attached {
        children := Without(children, Managed(SHELL));
        attached := false;
      }
    }

    method ClearPanelSlotInternal(k: SlotId)
      modifies this`slots, this`slotOrder, this`panelToSlot, this`focused, this`visiblePanel, this`views
      ensures Model() == ClearSlotIfAny(old(Model()), k)
    {
      ClearIs(Model(), k);
      hide Without, SetVisible, ClearSlotIfAny, FocusWithout, VisibleWithout;
      if k !in slots {
        return;
      }
      var p := slots[k].panelId;
      LeaveSlot(k, p);
      slots, slotOrder, panelToSlot := slots - {k}, Without(slotOrder, k), panelToSlot - {p};
      views := SetVisible(views, p, false);
      assert Model() == ClearSlot(old(Model()), k);
    }

    /** The focus is not on a slot that is cleared, and its panel is not the visible one if another is focused. */
    method LeaveSlot(k: SlotId, p: Id)
      requires k in slots && slots[k].panelId == p
      modifies this`focused, this`visiblePanel
      ensures focused == FocusWithout(old(Model()), k) && visiblePanel == VisibleWithout(old(Model()), k)
    {
      if focused == Some(k) {
        focused := None;
      }
      if visiblePanel == Some(p) && focused.Some? {
        visiblePanel := if focused.value in slots then Some(slots[focused.value].panelId) else None;
      }
    }

    method SetFocusedNativePanelSlot(k: SlotId)
      requires k in slots
      modifies this`slots, this`focused, this`visiblePanel
      ensures Model() == Focus(old(Model()), k)
    {
      var p := slots[k].panelId;
      slots := FocusFlags(slots, k);
      focused := Some(k);
      if p in views {
        visiblePanel := Some(p);
      }
    }

    /** `clearAllPanelSlots`: clear the slots one by one, then reconcile. */
    method ClearAllPanelSlots()
      requires Bijective(Model()) && Lists(slotOrder, slots.Keys)
      modifies this
      ensures Model() == ClearAll(old(Model()))
    {
      hide ClearSlotIfAny, Emptied, Restack, Bijective, Lists;
      ghost var before := Model();
      pending := map[];
      var order := slotOrder;
      ghost var cleared := Model();
      assert order[..0] == [];
      for i := 0 to |order|
        invariant Model() == ClearMany(cleared, order[..i])
      {
        ClearManySnoc(cleared, order[..i], order[i]);
        assert order[..i + 1] == order[..i] + [order[i]];
        ClearPanelSlotInternal(order[i]);
      }
      assert order[..|order|] == order;
      ClearManyEmpties(before);
      focused := None;
      visiblePanel := None;
      ReconcileNativeLayerOrder();
    }

    method LoseHostedShell(id: Id)
      requires Bijective(Model()) && Lists(slotOrder, slots.Keys)
      modifies this
      ensures Model() == Unready(old(Model()), id)
    {
      hide ClearAll, Restack, ShowGate;
      ready := false;
      assert Bijective(Model()) by { ReadyKeepsBijective(old(Model())); }
      ClearAllPanelSlots();
      views := SetVisible(views, id, false);
      ShowBootstrapShell();
      ReconcileNativeLayerOrder();
    }

    method SetVisibleView(id: Id, visible: bool)
      modifies this`views, this`visiblePanel, this`children
      ensures Model() == SetViewVisible(old(Model()), id, visible)
    {
      hide Restack;
      if id in views {
        var v := views[id];
        views := SetVisible(views, id, visible);
        if visible && v.hostChrome {
          ReconcileNativeLayerOrder();
        } else if visible && v.kind != Shell {
          visiblePanel := Some(id);
          ReconcileNativeLayerOrder();
        } else if !visible && visiblePanel == Some(id) {
          visiblePanel := None;
        }
      }
    }

    method SetHostedShellReady(owner: Id, isReady: bool) returns (outcome: Outcome)
      requires Bijective(Model()) && Lists(slotOrder, slots.Keys)
      modifies this
      ensures (Model(), outcome) == SetReady(old(Model()), owner, isReady)
    {
      hide ClearAll, Restack, SetViewVisible, HideGate, Unready;
      if !(owner in views && views[owner].kind == App && views[owner].hostChrome) { return Thrown; }
      if isReady {
        TakeOver(owner);
        return Done;
      }
      if host.Some? && host != Some(owner) { return Thrown; }
      LoseHostedShell(owner);
      return Done;
    }

    method TakeOver(owner: Id)
      requires Bijective(Model()) && Lists(slotOrder, slots.Keys)
      modifies this
      ensures Model() == BecomeReady(old(Model()), owner)
    {
      hide HandOver, Restack, SetViewVisible, HideGate;
      if !(ready && host == Some(owner)) {
        NewHost(owner);
      }
      HideBootstrapShell();
      SetVisibleView(owner, true);
      ReconcileNativeLayerOrder();
    }

    method NewHost(owner: Id)
      requires Bijective(Model()) && Lists(slotOrder, slots.Keys)
      modifies this
      ensures Model() == HandOver(old(Model()), owner)
    {
      hide ClearAll, Bijective, Lists;
      generation := generation + 1;
      assert Bijective(Model()) by { GenerationKeepsBijective(old(Model())); }
      ClearAllPanelSlots();
      host := Some(owner);
      ready := true;
    }

    method PutInSlot(slot: Slot)
      modifies this`slots, this`slotOrder, this`panelToSlot, this`visiblePanel, this`views
      ensures Model() == Occupy(old(Model()), slot)
    {
      if slot.slotId !in slots {
        slotOrder := slotOrder + [slot.slotId];
      }
      slots := slots[slot.slotId := slot];
      panelToSlot := panelToSlot[slot.panelId := slot.slotId];
      visiblePanel := Some(slot.panelId);
      views := SetVisible(views, slot.panelId, true);
    }

    /** `bindPanelSlot`; bad bounds throw after the slot has been made free. */
    method BindPanelSlot(owner: Id, k: SlotId, p: Id, r: RawBounds, focus: bool) returns (outcome: Outcome)
      modifies this
      ensures (Model(), outcome) == Bind(old(Model()), owner, k, p, r, focus)
    {
      hide Restack, ClearSlot, Occupy, Focus, Blank, Clamp, BoundsOk, Supersede;
      if !BindAllowed(Model(), owner, k, p) { return Thrown; }
      ForgetSuperseded(k, p);
      if k in slots && slots[k].panelId != p {
        ClearPanelSlotInternal(k);
      }
      if !BoundsOk(r) { return Thrown; }
      ghost var room := Model();
      assert room == MakeRoom(old(Model()), k, p);
      assert Clamp(Model(), r) == Clamp(old(Model()), r) by { ClampIgnoresTables(old(Model()), Model(), r); }
      assert generation == old(generation) by { MakeRoomKeepsGeneration(old(Model()), k, p); }
      FillSlot(Slot(k, p, Clamp(Model(), r), focus, owner, generation));
      ReconcileNativeLayerOrder();
      return Done;
    }

    method ForgetSuperseded(k: SlotId, p: Id)
      modifies this`pending
      ensures Model() == Supersede(old(Model()), k, p)
    {
      pending := DropRemembered(pending - {p}, k);
    }

    method FillSlot(slot: Slot)
      modifies this`slots, this`slotOrder, this`panelToSlot, this`visiblePanel, this`views, this`focused
      ensures Model() == Bound(old(Model()), slot)
    {
      hide Occupy, Focus;
      ghost var before := Model();
      PutInSlot(slot);
      assert slot.slotId in slots by { OccupyHas(before, slot); }
      if slot.focused {
        SetFocusedNativePanelSlot(slot.slotId);
      } else if focused == Some(slot.slotId) {
        focused := None;
      }
    }

    method UpdatePanelSlot(owner: Id, k: SlotId, r: Option<RawBounds>, focus: Option<bool>) returns (outcome: Outcome)
      modifies this
      ensures (Model(), outcome) == Update(old(Model()), owner, k, r, focus)
    {
      hide Restack, ClearSlot, Refocus, Resize, Blank, Clamp, BoundsOk;
      if !IsOwner(Model(), owner) || Blank(k) { return Thrown; }
      if k !in slots { return Missing; }
      if slots[k].ownerViewId != owner || slots[k].ownerGeneration != generation { return Thrown; }
      if slots[k].panelId !in views || views[slots[k].panelId].kind != Panel {
        ClearPanelSlotInternal(k);
        return Missing;
      }
      if r.Some? {
        if !BoundsOk(r.value) { return Thrown; }
        MoveSlot(k, Clamp(Model(), r.value));
      }
      if focus.Some? {
        assert k in slots;
        ChangeFocus(k, focus.value);
      }
      ReconcileNativeLayerOrder();
      return Done;
    }

    method MoveSlot(k: SlotId, bounds: Bounds)
      requires k in slots
      modifies this`slots
      ensures k in slots && Model() == Resize(old(Model()), k, bounds)
    {
      slots := slots[k := slots[k].(bounds := bounds)];
    }

    method ChangeFocus(k: SlotId, focus: bool)
      requires k in slots
      modifies this
      ensures Model() == Refocus(old(Model()), k, focus)
    {
      hide Focus;
      if focus {
        SetFocusedNativePanelSlot(k);
      } else {
        slots := slots[k := slots[k].(focused := false)];
        if focused == Some(k) {
          focused := None;
        }
      }
    }

    method ClearPanelSlot(owner: Id, k: SlotId) returns (outcome: Outcome)
      modifies this
      ensures (Model(), outcome) == Clear(old(Model()), owner, k)
    {
      hide Restack, ClearSlotIfAny;
      if !IsOwner(Model(), owner) { return Thrown; }
      if k in slots && (slots[k].ownerViewId != owner || slots[k].ownerGeneration != generation) { return Thrown; }
      pending := DropRemembered(pending, k);
      ClearPanelSlotInternal(k);
      ReconcileNativeLayerOrder();
      return Done;
    }

    method RestorePanelSlotIfPending(p: Id)
      modifies this
      ensures Model() == Restore(old(Model()), p)
    {
      hide Restack, Occupy, Focus;
      if p in pending {
        var slot := pending[p];
        pending := pending - {p};
        if ready && slot.ownerGeneration == generation && slot.slotId !in slots {
          ghost var before := Model();
          PutInSlot(slot);
          if slot.focused {
            assert slot.slotId in slots by { OccupyHas(before, slot); }
            SetFocusedNativePanelSlot(slot.slotId);
          }
          ReconcileNativeLayerOrder();
        }
      }
    }

    method CreateManagedView(id: Id, kind: Kind, chrome: bool) returns (outcome: Outcome)
      modifies this
      ensures (Model(), outcome) == Create(old(Model()), id, kind, chrome)
    {
      hide Restack, Restore;
      if id in views { return Thrown; }
      children := Raise(children, Managed(id));
      views := views[id := View(kind, kind == App && chrome, false)];
      viewOrder := viewOrder + [id];
      if kind == Panel {
        RestorePanelSlotIfPending(id);
      }
      if slots != map[] || visiblePanel.Some? {
        ReconcileNativeLayerOrder();
      }
      return Done;
    }

    method ForgetView(id: Id)
      modifies this`children, this`views, this`viewOrder
      ensures Model() == Untrack(old(Model()), id)
    {
      children := Without(children, Managed(id));
      views := views - {id};
      viewOrder := Without(viewOrder, id);
    }

    method DestroyManagedView(id: Id) returns (outcome: Outcome)
      requires Bijective(Model()) && Lists(slotOrder, slots.Keys)
      modifies this
      ensures (Model(), outcome) == Destroy(old(Model()), id)
    {
      hide Unready, Untrack, ClearSlot;
      if id !in views { return Done; }
      if views[id].kind == App && host == Some(id) {
        outcome := SetHostedShellReady(id, false);
        if outcome == Thrown { return Thrown; }
      } else if views[id].kind == Panel && id in panelToSlot && panelToSlot[id] in slots {
        var k := panelToSlot[id];
        pending := pending[id := slots[k]];
        ClearPanelSlotInternal(k);
      }
      ForgetView(id);
      return Done;
    }

    method HandleRendererGone(id: Id)
      requires Bijective(Model()) && Lists(slotOrder, slots.Keys)
      modifies this
      ensures Model() == RendererGone(old(Model()), id)
    {
      hide Unready;
      if id in views && views[id].kind == App && host == Some(id) {
        LoseHostedShell(id);
      }
    }

    method UpdateManagedApp(id: Id, chrome: bool) returns (outcome: Outcome)
      requires Bijective(Model()) && Lists(slotOrder, slots.Keys)
      modifies this
      ensures (Model(), outcome) == UpdateApp(old(Model()), id, chrome)
    {
      hide Unready;
      if id !in views || views[id].kind != App { return Thrown; }
      views := views[id := views[id].(hostChrome := chrome)];
      if !chrome && host == Some(id) {
        assert Bijective(Model()) by { ChromeKeepsBijective(old(Model()), id, chrome); }
        LoseHostedShell(id);
      }
      return Done;
    }

    /** `showNativeShellOverlay` and `showContentOverlay`. */
    method ShowOverlayView(overlay: Child)
      modifies this`overlays, this`children
      ensures Model() == ShowOverlay(old(Model()), overlay)
    {
      overlays := Overlays(ROWS in overlays || overlay == ROWS, CONTENT in overlays || overlay == CONTENT);
      children := Raise(children, overlay);
    }

    method HideOverlayView(overlay: Child)
      modifies this`overlays
      ensures Model() == HideOverlay(old(Model()), overlay)
    {
      overlays := Overlays(ROWS in overlays && overlay != ROWS, CONTENT in overlays && overlay != CONTENT);
    }

    /** `hideNativeShellOverlay`, which reconciles even when it hides nothing. */
    method HideRowsOverlay(matches: bool)
      modifies this`overlays, this`children
      ensures Model() == Apply(old(Model()), HideRows(matches)).0
    {
      hide Restack, HideOverlay;
      if matches {
        HideOverlayView(ROWS);
      }
      ReconcileNativeLayerOrder();
    }

    /** The window's resize listener. */
    method OnResize(width: nat, height: nat)
      modifies this`size, this`children
      ensures Model() == Restack(SetWindow(old(Model()), width, height))
    {
      hide Restack;
      size := (width, height);
      ReconcileNativeLayerOrder();
    }

    /** Any operation, as a step of the specification: what holds on every run holds of the object. */
    method Perform(op: Op) returns (outcome: Outcome)
      requires Inv(Model()) && Enabled(op)
      modifies this
      ensures Model() == Step(old(Model()), op) && outcome == Apply(old(Model()), op).1
      ensures Inv(Model())
    {
      hide Inv, Bijective, Lists, Apply, Step;
      InvIsUsable(Model());
      StepInv(Model(), op);
      StepApplies(Model(), op);
      if IsViewOp(op) {
        outcome := PerformOnView(op);
      } else {
        outcome := PerformOnSlots(op);
      }
    }

    method PerformOnView(op: Op) returns (outcome: Outcome)
      requires Bijective(Model()) && Lists(slotOrder, slots.Keys) && IsViewOp(op)
      modifies this
      ensures (Model(), outcome) == Apply(old(Model()), op)
    {
      hide Bijective, Lists, Create, Destroy, SetViewVisible, RendererGone, UpdateApp, Restack, ShowOverlay,
        HideOverlay;
      match op
      case CreateView(id, kind, chrome) => outcome := CreateManagedView(id, kind, chrome);
      case DestroyView(id) => outcome := DestroyManagedView(id);
      case ShowOrHide(id, visible) => SetVisibleView(id, visible); outcome := Done;
      case RendererDied(id) => HandleRendererGone(id); outcome := Done;
      case UpdateAppView(id, chrome) => outcome := UpdateManagedApp(id, chrome);
      case ResizeWindow(width, height) => OnResize(width, height); outcome := Done;
      case ShowRows => ShowOverlayView(ROWS); outcome := Done;
      case HideRows(matches) => HideRowsOverlay(matches); outcome := Done;
      case ShowContent => ShowOverlayView(CONTENT); outcome := Done;
      case HideContent => HideOverlayView(CONTENT); outcome := Done;
    }

    method PerformOnSlots(op: Op) returns (outcome: Outcome)
      requires Bijective(Model()) && Lists(slotOrder, slots.Keys) && !IsViewOp(op)
      modifies this
      ensures (Model(), outcome) == Apply(old(Model()), op)
    {
      hide Bijective, Lists, SetReady, Bind, Update, Clear, ClearAll, Restack;
      match op
      case HostReady(owner, isReady) => outcome := SetHostedShellReady(owner, isReady);
      case BindSlot(owner, k, p, r, focus) => outcome := BindPanelSlot(owner, k, p, r, focus);
      case UpdateSlot(owner, k, r, focus) => outcome := UpdatePanelSlot(owner, k, r, focus);
      case ClearSlotOp(owner, k) => outcome := ClearPanelSlot(owner, k);
      case ClearAllSlots => ClearAllPanelSlots(); outcome := Done;
      case Reconcile => ReconcileNativeLayerOrder(); outcome := Done;
    }
  }

  predicate IsViewOp(op: Op) {
    op.CreateView? || op.DestroyView? || op.ShowOrHide? || op.RendererDied? || op.UpdateAppView? || op.ShowRows?
    || op.ResizeWindow? || op.HideRows? || op.ShowContent? || op.HideContent?
  }

  lemma StepApplies(s: State, op: Op)
    ensures Enabled(op) ==> Step(s, op) == Apply(s, op).0
  {
  }

  lemma InvIsUsable(s: State)
    requires Inv(s)
    ensures Bijective(s) && Lists(s.slotOrder, s.slots.Keys)
  {
    hide Lists;
  }

  lemma PlannedDistinct(plan: seq<Id>, views: map<Id, View>)
    requires Planned(plan, views)
    ensures Distinct(plan)
  {
  }

  lemma ReadyKeepsBijective(s: State)
    requires Bijective(s)
    ensures Bijective(s.(ready := false))
  {
  }

  lemma GenerationKeepsBijective(s: State)
    requires Bijective(s)
    ensures Bijective(s.(generation := s.generation + 1))
  {
  }

  lemma ChromeKeepsBijective(s: State, id: Id, chrome: bool)
    requires Bijective(s) && id in s.views
    ensures Bijective(SetChrome(s, id, chrome))
  {
  }

  lemma OccupyHas(s: State, slot: Slot)
    ensures slot.slotId in Occupy(s, slot).slots
  {
  }

  lemma ClearIs(s: State, k: SlotId)
    ensures ClearSlotIfAny(s, k) == if k in s.slots then ClearSlot(s, k) else s
  {
    hide ClearSlot;
  }

  lemma ClampIgnoresTables(s: State, s': State, r: RawBounds)
    requires s'.windowWidth == s.windowWidth && s'.windowHeight == s.windowHeight
    ensures Clamp(s', r) == Clamp(s, r)
  {
  }

  lemma MakeRoomKeepsGeneration(s: State, k: SlotId, p: Id)
    ensures MakeRoom(s, k, p).generation == s.generation
  {
  }
}
