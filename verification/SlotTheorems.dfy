/** Every operation keeps the invariant; what that means over whole runs. */
module SlotTheorems {
  import opened Options
  import opened LayerOrder
  import opened NativeSlots
  import opened SlotInvariants

  // ---------------------------------------------------------------------------
  // Operations of the active hosted shell
  // ---------------------------------------------------------------------------

  /** A step that leaves the hosted shell, the gate and the child list alone. */
  predicate Steady(s: State, s': State) {
    && s'.ready == s.ready && s'.attached == s.attached && s'.host == s.host && s'.children == s.children
    && SameShape(s.views, s'.views)
  }

  lemma SteadyInv(s: State, s': State)
    requires Inv(s) && s.ready && Core(s') && Steady(s, s')
    ensures Inv(s') && Inv(Restack(s')) && LayersRight(Restack(s'))
  {
    hide LayersRight, Restack, Core, Table, ViewsSane, ChildrenSane, GateShown, SameShape;
    SameChildrenSameGate(s, s');
    MayHostShape(s, s', s.host.value);
    CoreIs(s');
    RestackInv(s');
  }

  lemma SupersedeCore(s: State, k: SlotId, p: Id)
    requires Core(s)
    ensures Core(Supersede(s, k, p)) && Core(ForgetSlot(s, k))
  {
    hide ViewsSane, ChildrenSane, Table;
    PendingShrinks(s, Supersede(s, k, p));
    PendingShrinks(s, ForgetSlot(s, k));
    PendingApartFromRest(s, Supersede(s, k, p));
    PendingApartFromRest(s, ForgetSlot(s, k));
  }

  lemma PendingShrinks(s: State, s': State)
    requires Table(s) && s' == s.(pending := s'.pending)
    requires forall p :: p in s'.pending ==> p in s.pending && s'.pending[p] == s.pending[p]
    ensures Table(s')
  {
  }

  lemma MakeRoomCore(s: State, k: SlotId, p: Id)
    requires Core(s)
    ensures Core(MakeRoom(s, k, p)) && Steady(s, MakeRoom(s, k, p))
  {
    hide Core, SetVisible, Without;
    SupersedeCore(s, k, p);
    var s1 := Supersede(s, k, p);
    if k in s1.slots {
      ClearSlotCore(s1, k);
      ClearSlotViews(s1, k);
    }
  }

  lemma MakeRoomFits(s: State, owner: Id, k: SlotId, p: Id, b: Bounds, focused: bool)
    requires Core(s) && BindAllowed(s, owner, k, p)
    ensures Fits(MakeRoom(s, k, p), Slot(k, p, b, focused, owner, s.generation))
  {
    hide Lists, ChildrenSane, Without, Blank;
  }

  lemma BoundSteady(s: State, slot: Slot)
    ensures Steady(s, Bound(s, slot)) && Steady(s, Reinstate(s, slot))
  {
    SetVisibleShape(s.views, slot.panelId, true);
  }

  lemma SteadyTransitive(a: State, b: State, c: State)
    requires Steady(a, b) && Steady(b, c)
    ensures Steady(a, c)
  {
  }

  /** A bind, whether it succeeds, is refused, or throws on bad bounds after making room. */
  lemma BindInv(s: State, owner: Id, k: SlotId, p: Id, r: RawBounds, focused: bool)
    requires Inv(s)
    ensures Inv(Bind(s, owner, k, p, r, focused).0)
    ensures Bind(s, owner, k, p, r, focused).1 == Done ==> LayersRight(Bind(s, owner, k, p, r, focused).0)
  {
    hide LayersRight, Restack, Core, MakeRoom, Bound, Steady, Inv, Fits, Clamp, BoundsOk;
    if BindAllowed(s, owner, k, p) {
      InvCore(s);
      var s1 := MakeRoom(s, k, p);
      MakeRoomCore(s, k, p);
      if BoundsOk(r) {
        var slot := Slot(k, p, Clamp(s, r), focused, owner, s.generation);
        MakeRoomFits(s, owner, k, p, Clamp(s, r), focused);
        BoundCore(s1, slot);
        BoundSteady(s1, slot);
        SteadyTransitive(s, s1, Bound(s1, slot));
        SteadyInv(s, Bound(s1, slot));
      } else {
        SteadyInv(s, s1);
      }
    }
  }

  lemma InvCore(s: State)
    requires Inv(s)
    ensures Core(s)
  {
  }

  lemma ResizeCore(s: State, k: SlotId, b: Bounds)
    requires Core(s) && k in s.slots
    ensures Core(Resize(s, k, b)) && Steady(s, Resize(s, k, b))
  {
    hide ViewsSane, ChildrenSane, Bijective, PendingApart, OwnersCurrent;
    TweakParts(s, Resize(s, k, b));
  }

  /** Changing the bounds or the focus flag of slots leaves the rest of the table alone. */
  lemma TweakParts(s: State, s': State)
    requires Core(s) && s' == s.(slots := s'.slots) && s'.slots.Keys == s.slots.Keys
    requires forall k :: k in s.slots ==>
               s'.slots[k].(bounds := s.slots[k].bounds, focused := s.slots[k].focused) == s.slots[k]
    ensures Bijective(s') && PendingApart(s') && OwnersCurrent(s') && ViewsSane(s') && ChildrenSane(s')
  {
    hide ViewsSane, ChildrenSane;
    TweakSane(s, s');
    forall k | k in s.slots
      ensures s'.slots[k].slotId == s.slots[k].slotId && s'.slots[k].panelId == s.slots[k].panelId
      ensures Current(s', s'.slots[k]) == Current(s, s.slots[k])
    {
    }
  }

  lemma TweakSane(s: State, s': State)
    requires s' == s.(slots := s'.slots) && s'.slots.Keys == s.slots.Keys
    ensures ViewsSane(s) ==> ViewsSane(s')
    ensures ChildrenSane(s) ==> ChildrenSane(s')
  {
    hide Lists, Distinct;
  }

  lemma RefocusCore(s: State, k: SlotId, focused: bool)
    requires Core(s) && k in s.slots
    ensures Core(Refocus(s, k, focused)) && Steady(s, Refocus(s, k, focused))
  {
    hide ViewsSane, ChildrenSane, Bijective, PendingApart, OwnersCurrent;
    if focused {
      FocusCore(s, k);
    } else {
      var s1 := s.(slots := s.slots[k := s.slots[k].(focused := false)]);
      TweakParts(s, s1);
      BlurCore(s1, k);
    }
  }

  lemma UpdateInv(s: State, owner: Id, k: SlotId, r: Option<RawBounds>, focused: Option<bool>)
    requires Inv(s)
    ensures Inv(Update(s, owner, k, r, focused).0)
    ensures Update(s, owner, k, r, focused).1 == Done ==> LayersRight(Update(s, owner, k, r, focused).0)
  {
    hide LayersRight, Restack, Core, Steady, Inv, Resize, Refocus, ClearSlot, Clamp, BoundsOk, Blank;
    if IsOwner(s, owner) && k in s.slots {
      InvCore(s);
      ClearSlotCore(s, k);
      ClearSlotSteady(s, k);
      SteadyInv(s, ClearSlot(s, k));
      SteadySelf(s);
      var s1 := if r.Some? then Resize(s, k, Clamp(s, r.value)) else s;
      if r.Some? {
        ResizeCore(s, k, Clamp(s, r.value));
        ResizeKeys(s, k, Clamp(s, r.value));
      }
      SteadyInv(s, s1);
      if focused.Some? {
        RefocusCore(s1, k, focused.value);
        SteadyTransitive(s, s1, Refocus(s1, k, focused.value));
        SteadyInv(s, Refocus(s1, k, focused.value));
      }
    }
  }

  lemma SteadySelf(s: State)
    ensures Steady(s, s)
  {
  }

  lemma ResizeKeys(s: State, k: SlotId, b: Bounds)
    requires k in s.slots
    ensures k in Resize(s, k, b).slots
  {
  }

  lemma ClearSlotSteady(s: State, k: SlotId)
    ensures Steady(s, ClearSlotIfAny(s, k)) && Steady(s, ForgetSlot(s, k))
    ensures k in s.slots ==> Steady(s, ClearSlot(s, k))
  {
    if k in s.slots {
      SetVisibleShape(s.views, s.slots[k].panelId, false);
    }
  }

  lemma ClearInv(s: State, owner: Id, k: SlotId)
    requires Inv(s)
    ensures Inv(Clear(s, owner, k).0)
    ensures Clear(s, owner, k).1 == Done ==> LayersRight(Clear(s, owner, k).0)
  {
    hide LayersRight, Restack, Core, Steady, Inv, ClearSlot, ForgetSlot;
    if IsOwner(s, owner) {
      InvCore(s);
      SupersedeCore(s, k, "");
      var s1 := ForgetSlot(s, k);
      ClearSlotSteady(s, k);
      ClearSlotSteady(s1, k);
      if k in s1.slots {
        ClearSlotCore(s1, k);
      }
      SteadyTransitive(s, s1, ClearSlotIfAny(s1, k));
      SteadyInv(s, ClearSlotIfAny(s1, k));
    }
  }

  lemma ClearAllInv(s: State)
    requires Inv(s)
    ensures Inv(ClearAll(s)) && LayersRight(ClearAll(s))
  {
    hide LayersRight, Restack, Emptied, ClearAll, Core, Bijective, FocusExact, PendingApart, OwnersCurrent,
      ViewsSane, ChildrenSane, GateShown;
    CoreIs(s);
    ClearAllCore(s);
    EmptiedFrames(s);
    CoreIs(ClearAll(s));
    if s.ready {
      MayHostShape(s, ClearAll(s), s.host.value);
    }
  }

  // ---------------------------------------------------------------------------
  // Views come and go
  // ---------------------------------------------------------------------------

  lemma TrackTables(s: State, id: Id, kind: Kind, hostChrome: bool)
    requires Table(s) && ViewsSane(s) && id !in s.views && id != "" && kind != Shell
    ensures Table(Track(s, id, kind, hostChrome)) && ViewsSane(Track(s, id, kind, hostChrome))
  {
    hide Lists, FocusExact, PendingApart, OwnersCurrent;
    TrackApart(s, id, kind, hostChrome);
    AppendLists(s.viewOrder, s.views.Keys, id);
    assert Track(s, id, kind, hostChrome).views.Keys == s.views.Keys + {id};
  }

  lemma TrackApart(s: State, id: Id, kind: Kind, hostChrome: bool)
    ensures var s' := Track(s, id, kind, hostChrome);
      && (FocusExact(s) ==> FocusExact(s')) && (PendingApart(s) ==> PendingApart(s'))
      && (OwnersCurrent(s) ==> OwnersCurrent(s'))
  {
  }

  lemma TrackChildren(s: State, id: Id, kind: Kind, hostChrome: bool)
    requires ChildrenSane(s) && id !in s.views && id != SHELL
    ensures ChildrenSane(Track(s, id, kind, hostChrome))
    ensures GateShown(Track(s, id, kind, hostChrome)) <==> GateShown(s)
  {
    WithoutIn(s.children, Managed(id));
    var cs := Without(s.children, Managed(id));
    assert forall i :: 0 <= i < |cs| ==> cs[i] in cs;
  }

  lemma TrackInv(s: State, id: Id, kind: Kind, hostChrome: bool)
    requires Inv(s) && id !in s.views && id != "" && kind != Shell
    ensures Inv(Track(s, id, kind, hostChrome))
  {
    hide Table, ChildrenSane, Lists, GateShown;
    TrackTables(s, id, kind, hostChrome);
    TrackChildren(s, id, kind, hostChrome);
  }

  /** The guards of a restore hold in every state that has something to restore. */
  lemma RestoreGuardHolds(s: State, p: Id)
    requires Inv(s) && p in s.pending
    ensures RestoreGuard(s, s.pending[p])
  {
  }

  lemma PoppedFits(s: State, p: Id)
    requires Core(s) && p in s.pending && p in s.views && s.views[p].kind == Panel
    ensures var s1 := s.(pending := s.pending - {p}); Core(s1) && Steady(s, s1) && Fits(s1, s.pending[p])
  {
    hide Lists, Distinct;
  }

  lemma RestoreInv(s: State, p: Id)
    requires Inv(s) && p in s.views && s.views[p].kind == Panel
    ensures Inv(Restore(s, p))
  {
    hide Restack, Core, Steady, Inv, Reinstate, Fits;
    if p in s.pending {
      InvCore(s);
      RestoreGuardHolds(s, p);
      PoppedFits(s, p);
      var slot := s.pending[p];
      var s1 := s.(pending := s.pending - {p});
      ReinstateCore(s1, slot);
      BoundSteady(s1, slot);
      SteadyTransitive(s, s1, Reinstate(s1, slot));
      SteadyInv(s, Reinstate(s1, slot));
    }
  }

  lemma CreateInv(s: State, id: Id, kind: Kind, hostChrome: bool)
    requires Inv(s) && id != "" && kind != Shell
    ensures Inv(Create(s, id, kind, hostChrome).0)
    ensures Create(s, id, kind, hostChrome).1 == Done && Showing(Create(s, id, kind, hostChrome).0) ==>
              LayersRight(Create(s, id, kind, hostChrome).0)
  {
    hide Restack, Inv, Restore, Track, LayersRight;
    if id !in s.views {
      var s1 := Track(s, id, kind, hostChrome);
      TrackInv(s, id, kind, hostChrome);
      TrackView(s, id, kind, hostChrome);
      RestackInv(s1);
      RestackShows(s1);
      if kind == Panel {
        RestoreInv(s1, id);
        RestackInv(Restore(s1, id));
        RestackShows(Restore(s1, id));
      }
    }
  }

  lemma RestackShows(s: State)
    ensures Showing(Restack(s)) <==> Showing(s)
  {
    hide Restack;
    RestackFrames(s);
  }

  lemma TrackView(s: State, id: Id, kind: Kind, hostChrome: bool)
    ensures id in Track(s, id, kind, hostChrome).views && Track(s, id, kind, hostChrome).views[id].kind == kind
  {
  }

  lemma UntrackTables(s: State, id: Id)
    requires Table(s) && ViewsSane(s) && id != SHELL && id !in s.panelToSlot
    ensures Table(Untrack(s, id)) && ViewsSane(Untrack(s, id))
  {
    hide Lists;
    RemoveLists(s.viewOrder, s.views.Keys, id);
    assert Untrack(s, id).views.Keys == s.views.Keys - {id};
  }

  lemma UntrackChildren(s: State, id: Id)
    requires ChildrenSane(s) && id != SHELL
    ensures ChildrenSane(Untrack(s, id))
    ensures GateShown(Untrack(s, id)) <==> GateShown(s)
  {
    WithoutIn(s.children, Managed(id));
  }

  lemma UntrackInv(s: State, id: Id)
    requires Inv(s) && id != SHELL && id !in s.panelToSlot && !(s.ready && s.host == Some(id))
    ensures Inv(Untrack(s, id))
  {
    hide Table, ChildrenSane, Lists, GateShown;
    UntrackTables(s, id);
    UntrackChildren(s, id);
  }

  lemma RememberInv(s: State, p: Id)
    requires Inv(s)
    ensures Inv(Remember(s, p)) && p !in Remember(s, p).panelToSlot
    ensures Remember(s, p).ready == s.ready && Remember(s, p).host == s.host
  {
    hide Lists, ChildrenSane, Distinct, Without, GateShown;
    if p in s.panelToSlot {
      var k := s.panelToSlot[p];
      assert s.slots[k].panelId == p;
      RememberCore(s, p);
      ClearSlotSteady(s.(pending := s.pending[p := s.slots[k]]), k);
      assert Steady(s, Remember(s, p));
      SteadyInv(s, Remember(s, p));
    }
  }

  /** Clearing the slot of a destroyed panel frees the id that its remembered binding names. */
  lemma RememberCore(s: State, p: Id)
    requires Core(s) && p in s.panelToSlot
    ensures Core(Remember(s, p))
  {
    hide Lists, ChildrenSane;
    var k := s.panelToSlot[p];
    ClearSlotCore(s, k);
    var s1 := ClearSlot(s, k);
    var s2 := s1.(pending := s.pending[p := s.slots[k]]);
    assert Remember(s, p) == s2;
    RememberTable(s, p);
    PendingApartFromRest(s1, s2);
  }

  lemma RememberTable(s: State, p: Id)
    requires Table(s) && p in s.panelToSlot
    ensures Table(Remember(s, p))
  {
  }

  lemma PendingApartFromRest(s: State, s': State)
    requires s' == s.(pending := s'.pending)
    ensures ViewsSane(s) ==> ViewsSane(s')
    ensures ChildrenSane(s) ==> ChildrenSane(s')
  {
    hide Lists, Distinct;
  }

  lemma UnreadyIsNotReady(s: State, id: Id)
    ensures !Unready(s, id).ready
  {
    hide Reconciled, Plan;
  }

  lemma DestroyInv(s: State, id: Id)
    requires Inv(s) && id != SHELL
    ensures Inv(Destroy(s, id).0)
  {
    hide Unready, Untrack, Remember, Lists, ChildrenSane, Distinct, FocusExact, PendingApart, OwnersCurrent;
    if id in s.views {
      if s.views[id].kind == App && s.host == Some(id) {
        if MayHost(s, id) {
          InvCore(s);
          UnreadyInv(s, id);
          UnreadyIsNotReady(s, id);
          UntrackInv(Unready(s, id), id);
        }
      } else if s.views[id].kind == Panel {
        RememberInv(s, id);
        UntrackInv(Remember(s, id), id);
      } else {
        UntrackInv(s, id);
      }
    }
  }

  lemma SetChromeCore(s: State, id: Id, hostChrome: bool)
    requires Core(s) && id in s.views && s.views[id].kind == App
    ensures Core(SetChrome(s, id, hostChrome))
    ensures GateShown(SetChrome(s, id, hostChrome)) <==> GateShown(s)
  {
    SetChromeTable(s, id, hostChrome);
    hide Lists, Distinct, Table;
    assert SetChrome(s, id, hostChrome).views.Keys == s.views.Keys;
  }

  lemma SetChromeTable(s: State, id: Id, hostChrome: bool)
    requires Table(s) && id in s.views
    ensures Table(SetChrome(s, id, hostChrome))
  {
  }

  lemma UpdateAppInv(s: State, id: Id, hostChrome: bool)
    requires Inv(s)
    ensures Inv(UpdateApp(s, id, hostChrome).0)
    ensures UpdateApp(s, id, hostChrome).1 == Done && !hostChrome && s.host == Some(id) ==>
              LayersRight(UpdateApp(s, id, hostChrome).0)
  {
    hide Unready, Lists, ChildrenSane, Distinct, Table, ViewsSane, GateShown, LayersRight;
    if id in s.views && s.views[id].kind == App {
      InvCore(s);
      SetChromeCore(s, id, hostChrome);
      SetChromeCore(s, id, false);
      CoreIs(SetChrome(s, id, hostChrome));
      if !hostChrome && s.host == Some(id) {
        UnreadyInv(SetChrome(s, id, false), id);
      }
    }
  }

  lemma SetViewVisibleInv(s: State, id: Id, visible: bool)
    requires Inv(s)
    ensures Inv(SetViewVisible(s, id, visible))
    ensures visible && id in s.views && s.views[id].kind != Shell ==> LayersRight(SetViewVisible(s, id, visible))
  {
    hide SetViewVisible, Core, Table, ViewsSane, ChildrenSane, GateShown, LayersRight;
    CoreIs(s);
    SetViewVisibleCore(s, id, visible);
    var s' := SetViewVisible(s, id, visible);
    CoreIs(s');
    if s.ready {
      MayHostShape(s, s', s.host.value);
    }
  }

  // ---------------------------------------------------------------------------
  // Every run
  // ---------------------------------------------------------------------------

  /** Every public operation keeps the invariant, however it ends. */
  lemma StepInv(s: State, op: Op)
    requires Inv(s)
    ensures Inv(Step(s, op))
  {
    hide Inv, Create, Destroy, SetViewVisible, SetReady, Bind, Update, Clear, ClearAll, RendererGone, UpdateApp,
      Restack;
    if Enabled(op) {
      match op
      case CreateView(id, kind, hostChrome) => CreateInv(s, id, kind, hostChrome);
      case DestroyView(id) => DestroyInv(s, id);
      case ShowOrHide(id, visible) => SetViewVisibleInv(s, id, visible);
      case HostReady(owner, ready) => SetReadyInv(s, owner, ready);
      case BindSlot(owner, k, p, r, focused) => BindInv(s, owner, k, p, r, focused);
      case UpdateSlot(owner, k, r, focused) => UpdateInv(s, owner, k, r, focused);
      case ClearSlotOp(owner, k) => ClearInv(s, owner, k);
      case ClearAllSlots => ClearAllInv(s);
      case RendererDied(id) => RendererGoneInv(s, id);
      case UpdateAppView(id, hostChrome) => UpdateAppInv(s, id, hostChrome);
      case Reconcile => RestackInv(s);
      case ResizeWindow(width, height) => ResizeWindowInv(s, width, height);
      case ShowRows => ShowOverlayInv(s, ROWS);
      case HideRows(matches) => HideRowsInv(s, matches);
      case ShowContent => ShowOverlayInv(s, CONTENT);
      case HideContent => HideOverlayInv(s, CONTENT);
    }
  }

  lemma SetWindowInv(s: State, width: nat, height: nat)
    requires Inv(s)
    ensures Inv(SetWindow(s, width, height))
  {
    hide Lists, Distinct;
  }

  /** A resize changes no slot record and leaves the layers right. */
  lemma ResizeWindowInv(s: State, width: nat, height: nat)
    requires Inv(s)
    ensures var s' := Restack(SetWindow(s, width, height));
      Inv(s') && LayersRight(s') && s'.slots == s.slots
  {
    hide Inv, Restack, LayersRight;
    SetWindowInv(s, width, height);
    RestackInv(SetWindow(s, width, height));
    RestackFrames(SetWindow(s, width, height));
  }

  /** Overlays are not managed: nothing but the child list and the list of overlays depends on them. */
  lemma OverlaysApart(s: State, s': State)
    requires Inv(s) && s' == s.(overlays := s'.overlays, children := s'.children) && ChildrenSane(s')
    requires GateShown(s') <==> GateShown(s)
    ensures Inv(s')
  {
    hide Lists, ChildrenSane, GateShown;
  }

  lemma ShowOverlayInv(s: State, overlay: Child)
    requires Inv(s) && overlay.Overlay?
    ensures Inv(ShowOverlay(s, overlay))
  {
    hide Table, ViewsSane, HostSane;
    var s' := ShowOverlay(s, overlay);
    WithoutIn(s.children, overlay);
    var cs := Without(s.children, overlay);
    assert forall i :: 0 <= i < |cs| ==> cs[i] in cs;
    OverlaysApart(s, s');
  }

  lemma HideOverlayInv(s: State, overlay: Child)
    requires Inv(s)
    ensures Inv(HideOverlay(s, overlay))
  {
    hide Table, ViewsSane, HostSane;
    OverlaysApart(s, HideOverlay(s, overlay));
  }

  lemma HideRowsInv(s: State, matches: bool)
    requires Inv(s)
    ensures var s' := Restack(if matches then HideOverlay(s, ROWS) else s); Inv(s') && LayersRight(s')
  {
    hide Inv, Restack, HideOverlay, LayersRight;
    HideOverlayInv(s, ROWS);
    RestackInv(HideOverlay(s, ROWS));
    RestackInv(s);
  }

  lemma SetReadyInv(s: State, owner: Id, ready: bool)
    requires Inv(s)
    ensures Inv(SetReady(s, owner, ready).0)
    ensures SetReady(s, owner, ready).1 == Done ==> LayersRight(SetReady(s, owner, ready).0)
  {
    hide LayersRight, Inv, Unready, BecomeReady;
    if MayHost(s, owner) {
      InvCore(s);
      ReadyInv(s, owner);
      UnreadyInv(s, owner);
    }
  }

  lemma RendererGoneInv(s: State, id: Id)
    requires Inv(s)
    ensures Inv(RendererGone(s, id))
    ensures id in s.views && s.views[id].kind == App && s.host == Some(id) ==> LayersRight(RendererGone(s, id))
  {
    hide Inv, Unready, LayersRight;
    InvCore(s);
    UnreadyInv(s, id);
  }

  lemma InitialInv(hideUntilReady: bool, windowWidth: nat, windowHeight: nat)
    ensures Inv(Initial(hideUntilReady, windowWidth, windowHeight))
  {
  }

  lemma {:induction false} RunInv(s: State, ops: seq<Op>)
    requires Inv(s)
    ensures Inv(Run(s, ops))
    decreases |ops|
  {
    hide Inv, Step;
    if ops != [] {
      StepInv(s, ops[0]);
      RunInv(Step(s, ops[0]), ops[1..]);
    }
  }
}
