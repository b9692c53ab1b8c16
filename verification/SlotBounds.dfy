/**
 Where the slots are.  Accepted bounds end inside the window; a slot keeps its bounds
 when the window is resized, so on every run it is inside the largest window so far.
 */
module SlotBounds {
  import opened Options
  import opened LayerOrder
  import opened NativeSlots
  import opened SlotInvariants

  predicate Inside(b: Bounds, width: nat, height: nat) {
    && 0 <= b.x && 0 <= b.y && 0 <= b.width && 0 <= b.height
    && b.x + b.width <= width && b.y + b.height <= height
  }

  /** Accepted bounds end inside the window as it is then. */
  lemma ClampFits(s: State, r: RawBounds)
    ensures Inside(Clamp(s, r), s.windowWidth, s.windowHeight)
  {
  }

  /** The window is not larger than a given size, and no slot or remembered binding reaches out of that size. */
  ghost predicate Within(s: State, width: nat, height: nat) {
    && s.windowWidth <= width && s.windowHeight <= height
    && (forall k :: k in s.slots ==> Inside(s.slots[k].bounds, width, height))
    && (forall p :: p in s.pending ==> Inside(s.pending[p].bounds, width, height))
  }

  /** Every slot and remembered binding has bounds that one had before, and the window is the same. */
  ghost predicate NoNewBounds(s: State, s': State) {
    && s'.windowWidth == s.windowWidth && s'.windowHeight == s.windowHeight
    && (forall k :: k in s'.slots ==>
          (k in s.slots && s'.slots[k].bounds == s.slots[k].bounds)
          || (exists p :: p in s.pending && s.pending[p].bounds == s'.slots[k].bounds))
    && (forall p :: p in s'.pending ==>
          (p in s.pending && s'.pending[p].bounds == s.pending[p].bounds)
          || (exists k :: k in s.slots && s.slots[k].bounds == s'.pending[p].bounds))
  }

  lemma SameWithin(s: State, s': State, width: nat, height: nat)
    requires Within(s, width, height) && NoNewBounds(s, s')
    ensures Within(s', width, height)
  {
    hide Inside;
  }

  lemma RestackBounds(s: State, width: nat, height: nat)
    ensures Within(Restack(s), width, height) <==> Within(s, width, height)
  {
    hide Restack, Inside;
    RestackFrames(s);
  }

  // ---------------------------------------------------------------------------
  // Parts of operations
  // ---------------------------------------------------------------------------

  lemma ClearWithin(s: State, k: SlotId, width: nat, height: nat)
    requires Within(s, width, height)
    ensures Within(ClearSlotIfAny(s, k), width, height) && Within(ForgetSlot(s, k), width, height)
    ensures k in s.slots ==> Within(ClearSlot(s, k), width, height)
  {
    hide Inside, Without, SetVisible;
  }

  lemma EmptiedWithin(s: State, width: nat, height: nat)
    requires s.windowWidth <= width && s.windowHeight <= height
    ensures Within(Emptied(s), width, height)
  {
    hide Inside;
  }

  lemma UnreadyWithin(s: State, id: Id, width: nat, height: nat)
    requires s.windowWidth <= width && s.windowHeight <= height
    ensures Within(Unready(s, id), width, height)
  {
    hide Restack, Inside, Raise, SetVisible;
    var s0 := s.(ready := false);
    EmptiedWithin(s0, width, height);
    RestackBounds(Emptied(s0), width, height);
    var s1 := HideView(ClearAll(s0), id);
    SameWithin(ClearAll(s0), s1, width, height);
    SameWithin(s1, ShowGate(s1), width, height);
    RestackBounds(ShowGate(s1), width, height);
  }

  lemma ShowWithin(s: State, id: Id, visible: bool, width: nat, height: nat)
    requires Within(s, width, height)
    ensures Within(SetViewVisible(s, id, visible), width, height)
  {
    hide Restack, Inside, SetVisible;
    if id in s.views {
      var s1 := s.(views := SetVisible(s.views, id, visible));
      var s2 := s1.(visiblePanel := Some(id));
      SameWithin(s, s1, width, height);
      SameWithin(s, s2, width, height);
      RestackBounds(s1, width, height);
      RestackBounds(s2, width, height);
      if !(visible && (s.views[id].hostChrome || s.views[id].kind != Shell)) {
        SameWithin(s, SetViewVisible(s, id, visible), width, height);
      }
    }
  }

  lemma ReadyWithin(s: State, owner: Id, width: nat, height: nat)
    requires Within(s, width, height)
    ensures Within(BecomeReady(s, owner), width, height)
  {
    hide Restack, Inside, SetViewVisible, HideGate, Emptied;
    var s0 := s.(generation := s.generation + 1);
    EmptiedWithin(s0, width, height);
    RestackBounds(Emptied(s0), width, height);
    SameWithin(ClearAll(s0), HandOver(s, owner), width, height);
    GateWithin(s, width, height);
    GateWithin(HandOver(s, owner), width, height);
    ShowWithin(HideGate(s), owner, true, width, height);
    ShowWithin(HideGate(HandOver(s, owner)), owner, true, width, height);
    RestackBounds(SetViewVisible(HideGate(s), owner, true), width, height);
    RestackBounds(SetViewVisible(HideGate(HandOver(s, owner)), owner, true), width, height);
  }

  lemma GateWithin(s: State, width: nat, height: nat)
    requires Within(s, width, height)
    ensures Within(HideGate(s), width, height)
  {
    hide Inside, Without;
  }

  /** A slot with bounds inside is filled and perhaps focused. */
  lemma FilledWithin(s: State, slot: Slot, width: nat, height: nat)
    requires Within(s, width, height) && Inside(slot.bounds, width, height)
    ensures Within(Bound(s, slot), width, height) && Within(Reinstate(s, slot), width, height)
  {
    hide Inside, SetVisible;
  }

  lemma TunedWithin(s: State, k: SlotId, b: Bounds, focused: bool, width: nat, height: nat)
    requires Within(s, width, height) && k in s.slots && Inside(b, width, height)
    ensures Within(Resize(s, k, b), width, height) && Within(Refocus(s, k, focused), width, height)
    ensures k in Resize(s, k, b).slots
  {
    hide Inside;
  }

  lemma AcceptedInside(s: State, r: RawBounds, width: nat, height: nat)
    requires s.windowWidth <= width && s.windowHeight <= height
    ensures Inside(Clamp(s, r), width, height)
  {
    hide Clamp;
    ClampFits(s, r);
  }

  // ---------------------------------------------------------------------------
  // Operations
  // ---------------------------------------------------------------------------

  lemma BindWithin(s: State, owner: Id, k: SlotId, p: Id, r: RawBounds, focused: bool, width: nat, height: nat)
    requires Within(s, width, height)
    ensures Within(Bind(s, owner, k, p, r, focused).0, width, height)
  {
    hide Restack, Inside, ClearSlot, Bound, Blank, Clamp, BoundsOk;
    var s0 := Supersede(s, k, p);
    SameWithin(s, s0, width, height);
    ClearWithin(s0, k, width, height);
    var s1 := MakeRoom(s, k, p);
    AcceptedInside(s, r, width, height);
    var slot := Slot(k, p, Clamp(s, r), focused, owner, s.generation);
    FilledWithin(s1, slot, width, height);
    RestackBounds(Bound(s1, slot), width, height);
  }

  lemma UpdateWithin(
    s: State, owner: Id, k: SlotId, r: Option<RawBounds>, focused: Option<bool>, width: nat, height: nat)
    requires Within(s, width, height)
    ensures Within(Update(s, owner, k, r, focused).0, width, height)
  {
    hide Restack, Inside, ClearSlot, Resize, Refocus, Blank, Clamp, BoundsOk;
    if k in s.slots {
      ClearWithin(s, k, width, height);
      var b := if r.Some? then Clamp(s, r.value) else s.slots[k].bounds;
      if r.Some? {
        AcceptedInside(s, r.value, width, height);
      }
      var f := focused.Some? && focused.value;
      TunedWithin(s, k, b, f, width, height);
      var s1 := if r.Some? then Resize(s, k, b) else s;
      TunedWithin(s1, k, b, f, width, height);
      RestackBounds(s1, width, height);
      RestackBounds(Refocus(s1, k, f), width, height);
    }
  }

  lemma ClearOpWithin(s: State, owner: Id, k: SlotId, width: nat, height: nat)
    requires Within(s, width, height)
    ensures Within(Clear(s, owner, k).0, width, height)
  {
    hide Restack, Inside, ClearSlotIfAny, ForgetSlot;
    ClearWithin(s, k, width, height);
    var s1 := ForgetSlot(s, k);
    ClearWithin(s1, k, width, height);
    RestackBounds(ClearSlotIfAny(s1, k), width, height);
  }

  lemma CreateWithin(s: State, id: Id, kind: Kind, hostChrome: bool, width: nat, height: nat)
    requires Within(s, width, height)
    ensures Within(Create(s, id, kind, hostChrome).0, width, height)
  {
    hide Restack, Inside, Track, Restore;
    var s1 := Track(s, id, kind, hostChrome);
    TrackedWithin(s, id, kind, hostChrome, width, height);
    RestoreWithin(s1, id, width, height);
    RestackBounds(s1, width, height);
    RestackBounds(Restore(s1, id), width, height);
  }

  lemma TrackedWithin(s: State, id: Id, kind: Kind, hostChrome: bool, width: nat, height: nat)
    requires Within(s, width, height)
    ensures Within(Track(s, id, kind, hostChrome), width, height)
  {
    hide Inside, Raise;
  }

  lemma RestoreWithin(s: State, p: Id, width: nat, height: nat)
    requires Within(s, width, height)
    ensures Within(Restore(s, p), width, height)
  {
    hide Restack, Inside, Reinstate;
    if p in s.pending {
      var s1 := s.(pending := s.pending - {p});
      SameWithin(s, s1, width, height);
      FilledWithin(s1, s.pending[p], width, height);
      RestackBounds(Reinstate(s1, s.pending[p]), width, height);
    }
  }

  lemma DestroyWithin(s: State, id: Id, width: nat, height: nat)
    requires Within(s, width, height)
    ensures Within(Destroy(s, id).0, width, height)
  {
    hide Inside, Unready, Untrack, Remember;
    UnreadyWithin(s, id, width, height);
    RememberWithin(s, id, width, height);
    UntrackWithin(Unready(s, id), id, width, height);
    UntrackWithin(Remember(s, id), id, width, height);
    UntrackWithin(s, id, width, height);
  }

  lemma RememberWithin(s: State, p: Id, width: nat, height: nat)
    requires Within(s, width, height)
    ensures Within(Remember(s, p), width, height)
  {
    hide Inside, ClearSlot;
    if p in s.panelToSlot && s.panelToSlot[p] in s.slots {
      var s1 := s.(pending := s.pending[p := s.slots[s.panelToSlot[p]]]);
      assert Within(s1, width, height);
      ClearWithin(s1, s.panelToSlot[p], width, height);
    }
  }

  lemma UntrackWithin(s: State, id: Id, width: nat, height: nat)
    requires Within(s, width, height)
    ensures Within(Untrack(s, id), width, height)
  {
    hide Inside, Without;
  }

  /** A resize of the window within the given size. */
  predicate ResizedWithin(op: Op, width: nat, height: nat) {
    op.ResizeWindow? ==> op.width <= width && op.height <= height
  }

  lemma StepWithin(s: State, op: Op, width: nat, height: nat)
    requires Within(s, width, height) && ResizedWithin(op, width, height)
    ensures Within(Step(s, op), width, height)
  {
    hide Within, ResizedWithin, Apply;
    if Enabled(op) {
      if op.BindSlot? || op.UpdateSlot? || op.ClearSlotOp? || op.ClearAllSlots? || op.HostReady? || op.Reconcile? {
        SlotOpWithin(s, op, width, height);
      } else {
        ViewOpWithin(s, op, width, height);
      }
    }
  }

  lemma SlotOpWithin(s: State, op: Op, width: nat, height: nat)
    requires op.BindSlot? || op.UpdateSlot? || op.ClearSlotOp? || op.ClearAllSlots? || op.HostReady? || op.Reconcile?
    requires Within(s, width, height)
    ensures Within(Apply(s, op).0, width, height)
  {
    WindowWithin(s, width, height);
    hide Within, Restack, SetReady, Bind, Update, Clear, Emptied;
    match op
    case HostReady(owner, ready) => SetReadyWithin(s, owner, ready, width, height);
    case BindSlot(owner, k, p, r, focused) => BindWithin(s, owner, k, p, r, focused, width, height);
    case UpdateSlot(owner, k, r, focused) => UpdateWithin(s, owner, k, r, focused, width, height);
    case ClearSlotOp(owner, k) => ClearOpWithin(s, owner, k, width, height);
    case ClearAllSlots =>
      EmptiedWithin(s, width, height);
      RestackBounds(Emptied(s), width, height);
    case Reconcile => RestackBounds(s, width, height);
  }

  lemma SetReadyWithin(s: State, owner: Id, ready: bool, width: nat, height: nat)
    requires Within(s, width, height)
    ensures Within(SetReady(s, owner, ready).0, width, height)
  {
    WindowWithin(s, width, height);
    hide Within, BecomeReady, Unready;
    ReadyWithin(s, owner, width, height);
    UnreadyWithin(s, owner, width, height);
    if !MayHost(s, owner) {
      assert SetReady(s, owner, ready).0 == s;
    } else if ready {
      assert SetReady(s, owner, ready).0 == BecomeReady(s, owner);
    }
  }

  lemma WindowWithin(s: State, width: nat, height: nat)
    requires Within(s, width, height)
    ensures s.windowWidth <= width && s.windowHeight <= height
  {
  }

  lemma ViewOpWithin(s: State, op: Op, width: nat, height: nat)
    requires !(op.BindSlot? || op.UpdateSlot? || op.ClearSlotOp? || op.ClearAllSlots? || op.HostReady? || op.Reconcile?)
    requires Within(s, width, height) && ResizedWithin(op, width, height)
    ensures Within(Apply(s, op).0, width, height)
  {
    hide Inside, Restack, Create, Destroy, SetViewVisible, Unready, Raise;
    match op
    case CreateView(id, kind, hostChrome) => CreateWithin(s, id, kind, hostChrome, width, height);
    case DestroyView(id) => DestroyWithin(s, id, width, height);
    case ShowOrHide(id, visible) => ShowWithin(s, id, visible, width, height);
    case RendererDied(id) => UnreadyWithin(s, id, width, height);
    case UpdateAppView(id, hostChrome) =>
      if id in s.views {
        UnreadyWithin(SetChrome(s, id, false), id, width, height);
        SameWithin(s, SetChrome(s, id, hostChrome), width, height);
      }
    case ResizeWindow(w, h) => RestackBounds(SetWindow(s, w, h), width, height);
    case ShowRows => SameWithin(s, ShowOverlay(s, ROWS), width, height);
    case HideRows(matches) =>
      SameWithin(s, HideOverlay(s, ROWS), width, height);
      RestackBounds(HideOverlay(s, ROWS), width, height);
      RestackBounds(s, width, height);
    case ShowContent => SameWithin(s, ShowOverlay(s, CONTENT), width, height);
    case HideContent => SameWithin(s, HideOverlay(s, CONTENT), width, height);
  }

  lemma {:induction false} RunWithin(s: State, ops: seq<Op>, width: nat, height: nat)
    requires Within(s, width, height) && forall op :: op in ops ==> ResizedWithin(op, width, height)
    ensures Within(Run(s, ops), width, height)
    decreases |ops|
  {
    hide Within, Step, ResizedWithin;
    if ops != [] {
      assert ops[0] in ops;
      StepWithin(s, ops[0], width, height);
      RunWithin(Step(s, ops[0]), ops[1..], width, height);
    }
  }

  /**
   After every run every slot and every remembered binding lies inside any size that
   the window never exceeded; inside the window itself, if it was never resized.
   */
  lemma SlotsInsideOnEveryRun(hideUntilReady: bool, w: nat, h: nat, ops: seq<Op>, width: nat, height: nat)
    requires w <= width && h <= height && forall op :: op in ops ==> ResizedWithin(op, width, height)
    ensures var s := Run(Initial(hideUntilReady, w, h), ops);
      && (forall k :: k in s.slots ==> Inside(s.slots[k].bounds, width, height))
      && (forall p :: p in s.pending ==> Inside(s.pending[p].bounds, width, height))
  {
    hide Run, Inside, ResizedWithin;
    RunWithin(Initial(hideUntilReady, w, h), ops, width, height);
  }
}
