/**
 The layer guarantee on every run: whatever operations came before, and however they
 ended, every slotted panel is above the hosted shell and the focused one above every
 other.  Operations that do not reconcile only take views or slots away.
 */
module SlotLayers {
  import opened Options
  import opened LayerOrder
  import opened NativeSlots
  import opened SlotInvariants
  import opened SlotTheorems
  import opened SlotGuarantees

  /** One view is a child of the window and below another. */
  predicate Below(s: State, low: Id, high: Id) {
    0 <= IndexOf(s.children, Managed(low)) < IndexOf(s.children, Managed(high))
  }

  predicate FocusedOver(s: State, k: SlotId)
    requires k in s.slots
  {
    s.focused.Some? && s.focused.value in s.slots && s.focused.value != k ==>
      Below(s, s.slots[k].panelId, s.slots[s.focused.value].panelId)
  }

  /** While ready, the order that `ensureSlotLayerOrder` looks for, and the focused slot on top. */
  ghost predicate Above(s: State) {
    s.ready && s.host.Some? ==>
      forall k :: k in s.slots ==> Below(s, s.host.value, s.slots[k].panelId) && FocusedOver(s, k)
  }

  lemma LayersRightIsAbove(s: State)
    requires Inv(s) && LayersRight(s)
    ensures Above(s)
  {
    hide Inv, LayersRight, IndexOf;
    if s.ready && s.host.Some? {
      forall k | k in s.slots ensures Below(s, s.host.value, s.slots[k].panelId) && FocusedOver(s, k) {
        PanelsAreAboveShell(s, k);
      }
    }
  }

  /** Slots go, and with them perhaps the focus; nothing moves. */
  predicate OnlyFewer(s: State, s': State) {
    && s'.children == s.children && s'.ready == s.ready && s'.host == s.host
    && (forall k :: k in s'.slots ==> k in s.slots && s'.slots[k].panelId == s.slots[k].panelId)
    && (s'.focused == s.focused || s'.focused == None)
  }

  lemma FewerKeepsAbove(s: State, s': State)
    requires Above(s) && OnlyFewer(s, s')
    ensures Above(s')
  {
    hide IndexOf;
  }

  /** A view that is neither the hosted shell nor in a slot is taken out or raised. */
  lemma OtherKeepsAbove(s: State, s': State, c: Child)
    requires Above(s)
    requires s' == s.(children := s'.children, views := s'.views, viewOrder := s'.viewOrder, overlays := s'.overlays)
    requires s'.children == Without(s.children, c) || s'.children == Raise(s.children, c)
    requires s.host.Some? ==> c != Managed(s.host.value)
    requires forall k :: k in s.slots ==> c != Managed(s.slots[k].panelId)
    ensures Above(s')
  {
    hide IndexOf, Without;
    if s.ready && s.host.Some? {
      forall k | k in s.slots ensures Below(s', s.host.value, s.slots[k].panelId) && FocusedOver(s', k) {
        var p := Managed(s.slots[k].panelId);
        WithoutOrder(s.children, c, Managed(s.host.value), p);
        RaiseOrder(s.children, c, Managed(s.host.value), p);
        if s.focused.Some? && s.focused.value in s.slots && s.focused.value != k {
          assert FocusedOver(s, k);
          WithoutOrder(s.children, c, p, Managed(s.slots[s.focused.value].panelId));
          RaiseOrder(s.children, c, p, Managed(s.slots[s.focused.value].panelId));
        }
      }
    }
  }

  // ---------------------------------------------------------------------------
  // Operations that do not end in a reconcile
  // ---------------------------------------------------------------------------

  lemma CreateQuietly(s: State, id: Id, kind: Kind, hostChrome: bool)
    requires Above(s) && !(id !in s.views && Showing(Create(s, id, kind, hostChrome).0))
    ensures Above(Create(s, id, kind, hostChrome).0)
  {
    hide Create, IndexOf;
    if id in s.views {
      CreateThrows(s, id, kind, hostChrome);
    }
  }

  lemma CreateThrows(s: State, id: Id, kind: Kind, hostChrome: bool)
    requires id in s.views
    ensures Create(s, id, kind, hostChrome).0 == s
  {
  }

  lemma HideKeepsAbove(s: State, id: Id, visible: bool)
    requires Above(s) && !(visible && id in s.views && s.views[id].kind != Shell)
    requires id in s.views && s.views[id].hostChrome ==> s.views[id].kind != Shell
    ensures Above(SetViewVisible(s, id, visible))
  {
    hide IndexOf, Restack;
    FewerKeepsAbove(s, SetViewVisible(s, id, visible));
  }

  lemma BindThrowsAbove(s: State, owner: Id, k: SlotId, p: Id, r: RawBounds, focused: bool)
    requires Above(s) && Bind(s, owner, k, p, r, focused).1 != Done
    ensures Above(Bind(s, owner, k, p, r, focused).0)
  {
    hide IndexOf, Restack, Blank, BoundsOk, Clamp, Bound;
    FewerKeepsAbove(s, s);
    FewerKeepsAbove(s, MakeRoom(s, k, p));
  }

  lemma UpdateMissesAbove(s: State, owner: Id, k: SlotId, r: Option<RawBounds>, focused: Option<bool>)
    requires Above(s) && Update(s, owner, k, r, focused).1 != Done
    ensures Above(Update(s, owner, k, r, focused).0)
  {
    hide IndexOf, Restack, Blank, BoundsOk, Clamp, Resize, Refocus;
    FewerKeepsAbove(s, s);
    if k in s.slots {
      FewerKeepsAbove(s, ClearSlot(s, k));
    }
  }

  lemma NotReadyIsAbove(s: State)
    requires !s.ready
    ensures Above(s)
  {
  }

  lemma RemembersFewer(s: State, p: Id)
    ensures OnlyFewer(s, Remember(s, p))
  {
  }

  /** A view other than the active hosted shell goes; its slot, if it had one, went before. */
  lemma UntrackAbove(s: State, id: Id)
    requires Inv(s) && Above(s) && id !in s.panelToSlot && !(s.ready && s.host == Some(id))
    ensures Above(Untrack(s, id))
  {
    hide IndexOf, Without, Lists, ChildrenSane, GateExact, PendingApart, OwnersCurrent, FocusExact;
    if s.ready {
      OtherKeepsAbove(s, Untrack(s, id), Managed(id));
    }
  }

  lemma DestroyAbove(s: State, id: Id)
    requires Inv(s) && Above(s) && id != SHELL
    ensures Above(Destroy(s, id).0)
  {
    hide Inv, Above, Unready, Untrack, Remember, OnlyFewer;
    if id in s.views {
      if s.views[id].kind == App && s.host == Some(id) {
        UnreadyIsNotReady(s, id);
        UntrackReady(Unready(s, id), id);
        NotReadyIsAbove(Untrack(Unready(s, id), id));
      } else if s.views[id].kind == Panel {
        RememberInv(s, id);
        RemembersFewer(s, id);
        FewerKeepsAbove(s, Remember(s, id));
        HostIsNoPanel(s, id);
        UntrackAbove(Remember(s, id), id);
      } else {
        HostIsNoPanel(s, id);
        UntrackAbove(s, id);
      }
    }
  }

  lemma UntrackReady(s: State, id: Id)
    ensures Untrack(s, id).ready == s.ready
  {
  }

  lemma HostIsNoPanel(s: State, id: Id)
    requires Inv(s) && id in s.views
    ensures s.ready && s.host == Some(id) ==> s.views[id].kind == App
    ensures s.views[id].kind != Panel ==> id !in s.panelToSlot
  {
    hide Lists, ChildrenSane, GateExact;
  }

  lemma ChromeAbove(s: State, id: Id, hostChrome: bool)
    requires Above(s) && !(UpdateApp(s, id, hostChrome).1 == Done && !hostChrome && s.host == Some(id))
    ensures Above(UpdateApp(s, id, hostChrome).0)
  {
    hide IndexOf, Unready;
    FewerKeepsAbove(s, UpdateApp(s, id, hostChrome).0);
  }

  lemma OverlayAbove(s: State, overlay: Child)
    requires Above(s) && overlay.Overlay?
    ensures Above(ShowOverlay(s, overlay)) && Above(HideOverlay(s, overlay))
  {
    hide IndexOf, Without;
    OtherKeepsAbove(s, ShowOverlay(s, overlay), overlay);
    FewerKeepsAbove(s, HideOverlay(s, overlay));
  }

  lemma ShellHasNoChrome(s: State, id: Id)
    requires Inv(s) && id in s.views
    ensures s.views[id].hostChrome ==> s.views[id].kind != Shell
  {
    hide Table, Lists, ChildrenSane, GateExact;
  }

  // ---------------------------------------------------------------------------
  // Every operation, every run
  // ---------------------------------------------------------------------------

  lemma StepAbove(s: State, op: Op)
    requires Inv(s) && Above(s)
    ensures Above(Step(s, op))
  {
    hide Inv, Above, LayersRight, Create, Destroy, SetViewVisible, SetReady, Bind, Update, Clear, ClearAll,
      RendererGone, UpdateApp, Restack, ShowOverlay, HideOverlay, Showing;
    if Enabled(op) {
      if Reconciles(s, op) {
        StepInv(s, op);
        LayersAfterOperation(s, op);
        LayersRightIsAbove(Step(s, op));
      } else {
        QuietAbove(s, op);
      }
    }
  }

  lemma QuietAbove(s: State, op: Op)
    requires Inv(s) && Above(s) && Enabled(op) && !Reconciles(s, op)
    ensures Above(Step(s, op))
  {
    hide Inv, Above, Create, Destroy, SetViewVisible, BecomeReady, Unready, Bind, Update, UpdateApp, Restack,
      ShowOverlay, HideOverlay, Showing, ClearSlotIfAny;
    match op
    case CreateView(id, kind, hostChrome) => CreateQuietly(s, id, kind, hostChrome);
    case DestroyView(id) => DestroyAbove(s, id);
    case ShowOrHide(id, visible) =>
      if id in s.views {
        ShellHasNoChrome(s, id);
      }
      HideKeepsAbove(s, id, visible);
    case BindSlot(owner, k, p, r, focused) => BindThrowsAbove(s, owner, k, p, r, focused);
    case UpdateSlot(owner, k, r, focused) => UpdateMissesAbove(s, owner, k, r, focused);
    case UpdateAppView(id, hostChrome) => ChromeAbove(s, id, hostChrome);
    case ShowRows => OverlayAbove(s, ROWS);
    case ShowContent => OverlayAbove(s, CONTENT);
    case HideContent => OverlayAbove(s, CONTENT);
    case _ =>
  }

  lemma {:induction false} RunAbove(s: State, ops: seq<Op>)
    requires Inv(s) && Above(s)
    ensures Above(Run(s, ops))
    decreases |ops|
  {
    hide Inv, Above, Step;
    if ops != [] {
      StepInv(s, ops[0]);
      StepAbove(s, ops[0]);
      RunAbove(Step(s, ops[0]), ops[1..]);
    }
  }

  /**
   After every run: while the hosted shell is ready, every slotted panel is above it in
   the window, and the focused slot's panel above those of all other slots.
   */
  lemma PanelsAboveShellOnEveryRun(hideUntilReady: bool, width: nat, height: nat, ops: seq<Op>, k: SlotId)
    ensures var s := Run(Initial(hideUntilReady, width, height), ops);
      s.ready && k in s.slots ==>
        && s.host.Some?
        && 0 <= IndexOf(s.children, Managed(s.host.value)) < IndexOf(s.children, Managed(s.slots[k].panelId))
        && (s.focused.Some? && s.focused.value != k ==>
              && s.focused.value in s.slots
              && IndexOf(s.children, Managed(s.slots[k].panelId))
                 < IndexOf(s.children, Managed(s.slots[s.focused.value].panelId)))
  {
    hide Run, IndexOf, Lists, ChildrenSane, GateExact;
    var s0 := Initial(hideUntilReady, width, height);
    InitialInv(hideUntilReady, width, height);
    NotReadyIsAbove(s0);
    RunInv(s0, ops);
    RunAbove(s0, ops);
  }

  // ---------------------------------------------------------------------------
  // Overlays
  // ---------------------------------------------------------------------------

  /** The overlays that are showing are the topmost children, in order. */
  predicate OverlaysOnTop(s: State) {
    |s.overlays| <= |s.children| && s.children[|s.children| - |s.overlays|..] == s.overlays
  }

  /** A reconcile that moves anything puts the overlays that are showing back on top. */
  lemma RestackRaisesOverlays(s: State)
    requires Inv(s)
    ensures Restack(s) == s || OverlaysOnTop(Restack(s))
  {
    hide Plan, Lists, Table;
    var desired := AsChildren(Plan(s));
    var cs := RaiseAll(s.children, desired);
    RaiseAllShape(cs, s.overlays);
  }
}
