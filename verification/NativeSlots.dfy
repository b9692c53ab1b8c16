/**
 The native panel slots of `ViewManager`: which panel view sits in which slot of the
 hosted shell, what is remembered across a destroy and recreate, whether the
 bootstrap gate is attached, and which views the layer reconciler is asked to raise.
 This module is the specification, one function per public operation.
 */
module NativeSlots {
  import opened Options
  import opened LayerOrder

  type Id = string
  type SlotId = string

  datatype Kind = Shell | Panel | App

  datatype View = View(kind: Kind, hostChrome: bool, visible: bool)

  datatype Bounds = Bounds(x: int, y: int, width: int, height: int)

  datatype Slot = Slot(
    slotId: SlotId, panelId: Id, bounds: Bounds, focused: bool, ownerViewId: Id, ownerGeneration: nat)

  /** The bootstrap launch gate is the managed view with this id. */
  const SHELL: Id := "shell"

  /**
   `viewOrder` and `slotOrder` are the insertion orders of the view and slot maps;
   `overlays` are the overlay views that are showing.
   */
  datatype State = State(
    hideUntilReady: bool,
    windowWidth: nat,
    windowHeight: nat,
    views: map<Id, View>,
    viewOrder: seq<Id>,
    children: seq<Child>,
    overlays: seq<Child>,
    attached: bool,
    ready: bool,
    host: Option<Id>,
    generation: nat,
    slots: map<SlotId, Slot>,
    slotOrder: seq<SlotId>,
    panelToSlot: map<Id, SlotId>,
    focused: Option<SlotId>,
    pending: map<Id, Slot>,
    visiblePanel: Option<Id>)

  function Initial(hideUntilReady: bool, windowWidth: nat, windowHeight: nat): State {
    State(hideUntilReady, windowWidth, windowHeight,
          map[SHELL := View(Shell, false, true)], [SHELL], [Managed(SHELL)], [],
          true, false, None, 0, map[], [], map[], None, map[], None)
  }

  // ---------------------------------------------------------------------------
  // The plan
  // ---------------------------------------------------------------------------

  function PlanOne(plan: seq<Id>, views: map<Id, View>, id: Option<Id>): seq<Id> {
    if id == None || id == Some("") || id.value in plan || id.value !in views then plan else plan + [id.value]
  }

  function PlanEach(plan: seq<Id>, views: map<Id, View>, ids: seq<Id>): seq<Id>
    decreases |ids|
  {
    if ids == [] then plan else PlanEach(PlanOne(plan, views, Some(ids[0])), views, ids[1..])
  }

  /** The visible host-chrome views, in map order. */
  function ChromeViews(s: State, order: seq<Id>): seq<Id> {
    if order == [] then []
    else (if order[0] in s.views && s.views[order[0]].hostChrome && s.views[order[0]].visible
          then [order[0]] else []) + ChromeViews(s, order[1..])
  }

  /** The panels of the slots that are not focused, in map order. */
  function SlotPanels(s: State, order: seq<SlotId>): seq<Id> {
    if order == [] then []
    else (if order[0] in s.slots && s.focused != Some(order[0]) then [s.slots[order[0]].panelId] else [])
         + SlotPanels(s, order[1..])
  }

  function FocusedSlotPanel(s: State): Option<Id> {
    if s.focused.Some? && s.focused.value in s.slots then Some(s.slots[s.focused.value].panelId) else None
  }

  /** The legacy visible panel, when it has no slot. */
  function Fallback(s: State): Option<Id> {
    if s.visiblePanel.Some? && s.visiblePanel.value !in s.panelToSlot
       && s.visiblePanel.value in s.views && s.views[s.visiblePanel.value].visible
    then s.visiblePanel else None
  }

  function ChromePlan(s: State): seq<Id> {
    if s.ready then PlanOne(PlanEach([], s.views, ChromeViews(s, s.viewOrder)), s.views, s.host) else []
  }

  function PanelPlan(s: State): seq<Id> {
    if s.ready || !s.hideUntilReady then
      PlanOne(PlanEach(PlanOne(ChromePlan(s), s.views, Fallback(s)), s.views, SlotPanels(s, s.slotOrder)),
              s.views, FocusedSlotPanel(s))
    else ChromePlan(s)
  }

  /** The views to raise, bottom to top. */
  function Plan(s: State): seq<Id> {
    if s.ready then PanelPlan(s) else PlanOne(PanelPlan(s), s.views, Some(SHELL))
  }

  function AsChildren(ids: seq<Id>): seq<Child> {
    seq(|ids|, i requires 0 <= i < |ids| => Managed(ids[i]))
  }

  function Shown(s: State): set<Child> {
    set id | id in s.views && s.views[id].visible :: Managed(id)
  }

  /** `reconcileNativeLayerOrder`. */
  function Restack(s: State): State {
    s.(children := Reconciled(s.children, AsChildren(Plan(s)), Shown(s), s.overlays))
  }

  // ---------------------------------------------------------------------------
  // Parts of operations
  // ---------------------------------------------------------------------------

  function SetVisible(views: map<Id, View>, id: Id, visible: bool): map<Id, View> {
    if id in views then views[id := views[id].(visible := visible)] else views
  }

  function ShowGate(s: State): State {
    s.(children := if s.attached then s.children else Raise(s.children, Managed(SHELL)), attached := true)
  }

  function HideGate(s: State): State {
    s.(children := if s.attached then Without(s.children, Managed(SHELL)) else s.children, attached := false)
  }

  /** `clearPanelSlotInternal` on a slot that is active. */
  function ClearSlot(s: State, k: SlotId): State
    requires k in s.slots
  {
    s.(slots := s.slots - {k},
       slotOrder := Without(s.slotOrder, k),
       panelToSlot := s.panelToSlot - {s.slots[k].panelId},
       focused := FocusWithout(s, k),
       visiblePanel := VisibleWithout(s, k),
       views := SetVisible(s.views, s.slots[k].panelId, false))
  }

  function FocusWithout(s: State, k: SlotId): Option<SlotId> {
    if s.focused == Some(k) then None else s.focused
  }

  /** If the cleared panel was the visible one, the focused panel is now, if there is a focus. */
  function VisibleWithout(s: State, k: SlotId): Option<Id>
    requires k in s.slots
  {
    var focused := FocusWithout(s, k);
    if s.visiblePanel != Some(s.slots[k].panelId) || focused == None then s.visiblePanel
    else if focused.value in s.slots then Some(s.slots[focused.value].panelId) else None
  }

  function ClearSlotIfAny(s: State, k: SlotId): State {
    if k in s.slots then ClearSlot(s, k) else s
  }

  /** `setFocusedNativePanelSlot` on a slot that is active. */
  function Focus(s: State, k: SlotId): State
    requires k in s.slots
  {
    s.(slots := map j | j in s.slots :: s.slots[j].(focused := j == k),
       focused := Some(k),
       visiblePanel := if s.slots[k].panelId in s.views then Some(s.slots[k].panelId) else s.visiblePanel)
  }

  function Blur(s: State, k: SlotId): State {
    s.(focused := if s.focused == Some(k) then None else s.focused)
  }

  function SlotPanelSet(s: State): set<Id> {
    set k | k in s.slots :: s.slots[k].panelId
  }

  /** `clearAllPanelSlots` before its reconcile. */
  function Emptied(s: State): State {
    s.(pending := map[], slots := map[], slotOrder := [],
       panelToSlot := s.panelToSlot - SlotPanelSet(s),
       focused := None, visiblePanel := None,
       views := map id | id in s.views ::
         if id in SlotPanelSet(s) then s.views[id].(visible := false) else s.views[id])
  }

  function ClearAll(s: State): State {
    Restack(Emptied(s))
  }

  function HideView(s: State, id: Id): State {
    s.(views := SetVisible(s.views, id, false))
  }

  /** The hosted shell is gone: back to the launch gate. */
  function Unready(s: State, id: Id): State {
    Restack(ShowGate(HideView(ClearAll(s.(ready := false)), id)))
  }

  // ---------------------------------------------------------------------------
  // Operations
  // ---------------------------------------------------------------------------

  /** How an operation ends; an operation that throws may have changed the state before. */
  datatype Outcome = Done | Missing | Thrown

  /** `setViewVisible`. */
  function SetViewVisible(s: State, id: Id, visible: bool): State {
    if id !in s.views then s
    else
      var v := s.views[id];
      var s1 := s.(views := SetVisible(s.views, id, visible));
      if visible && v.hostChrome then Restack(s1)
      else if visible && v.kind != Shell then Restack(s1.(visiblePanel := Some(id)))
      else s1.(visiblePanel := if !visible && s.visiblePanel == Some(id) then None else s.visiblePanel)
  }

  predicate MayHost(s: State, id: Id) {
    id in s.views && s.views[id].kind == App && s.views[id].hostChrome
  }

  function HandOver(s: State, owner: Id): State {
    ClearAll(s.(generation := s.generation + 1)).(host := Some(owner), ready := true)
  }

  function BecomeReady(s: State, owner: Id): State {
    if s.ready && s.host == Some(owner) then Restack(SetViewVisible(HideGate(s), owner, true))
    else Restack(SetViewVisible(HideGate(HandOver(s, owner)), owner, true))
  }

  /** `setHostedShellReady`. */
  function SetReady(s: State, owner: Id, ready: bool): (State, Outcome) {
    if !MayHost(s, owner) then (s, Thrown)
    else if ready then (BecomeReady(s, owner), Done)
    else if s.host.Some? && s.host != Some(owner) then (s, Thrown)
    else (Unready(s, owner), Done)
  }

  predicate IsOwner(s: State, owner: Id) {
    s.ready && s.host == Some(owner)
  }

  /** The characters that trimming an id removes. */
  const WHITE_SPACE: set<char> :=
    {' ', '\t', '\n', '\r', '\U{000B}', '\U{000C}', '\U{00A0}', '\U{1680}', '\U{2000}', '\U{2001}', '\U{2002}',
     '\U{2003}', '\U{2004}', '\U{2005}', '\U{2006}', '\U{2007}', '\U{2008}', '\U{2009}', '\U{200A}', '\U{2028}',
     '\U{2029}', '\U{202F}', '\U{205F}', '\U{3000}', '\U{FEFF}'}

  predicate Blank(id: string) {
    forall i :: 0 <= i < |id| ==> id[i] in WHITE_SPACE
  }

  /** A caller's bounds: four numbers, which may not all be finite. */
  datatype RawBounds = RawBounds(x: int, y: int, width: int, height: int, finite: bool)

  predicate BoundsOk(r: RawBounds) {
    r.finite && r.width > 0 && r.height > 0
  }

  function Max(a: int, b: int): int { if a >= b then a else b }

  function Min(a: int, b: int): int { if a <= b then a else b }

  function Clamp(s: State, r: RawBounds): Bounds {
    var x, y, w, h := Max(0, r.x), Max(0, r.y), Max(0, r.width), Max(0, r.height);
    Bounds(Min(x, s.windowWidth), Min(y, s.windowHeight),
           Min(w, Max(0, s.windowWidth - x)), Min(h, Max(0, s.windowHeight - y)))
  }

  /** Remembered bindings that a bind of `p` to `k` supersedes are dropped. */
  function Supersede(s: State, k: SlotId, p: Id): State {
    s.(pending := map q | q in s.pending && q != p && s.pending[q].slotId != k :: s.pending[q])
  }

  predicate BindAllowed(s: State, owner: Id, k: SlotId, p: Id) {
    && IsOwner(s, owner) && !Blank(k) && !Blank(p)
    && p in s.views && s.views[p].kind == Panel
    && (p in s.panelToSlot ==> s.panelToSlot[p] == k)
  }

  /** The part of a bind that happens before the bounds are checked. */
  function MakeRoom(s: State, k: SlotId, p: Id): State {
    var s1 := Supersede(s, k, p);
    if k in s1.slots && s1.slots[k].panelId != p then ClearSlot(s1, k) else s1
  }

  function Occupy(s: State, slot: Slot): State {
    s.(slots := s.slots[slot.slotId := slot],
       slotOrder := if slot.slotId in s.slots then s.slotOrder else s.slotOrder + [slot.slotId],
       panelToSlot := s.panelToSlot[slot.panelId := slot.slotId],
       visiblePanel := Some(slot.panelId),
       views := SetVisible(s.views, slot.panelId, true))
  }

  function Bound(s: State, slot: Slot): State {
    if slot.focused then Focus(Occupy(s, slot), slot.slotId) else Blur(Occupy(s, slot), slot.slotId)
  }

  /** `bindPanelSlot`. */
  function Bind(s: State, owner: Id, k: SlotId, p: Id, r: RawBounds, focused: bool): (State, Outcome) {
    if !BindAllowed(s, owner, k, p) then (s, Thrown)
    else if !BoundsOk(r) then (MakeRoom(s, k, p), Thrown)
    else (Restack(Bound(MakeRoom(s, k, p), Slot(k, p, Clamp(s, r), focused, owner, s.generation))), Done)
  }

  function Resize(s: State, k: SlotId, b: Bounds): State
    requires k in s.slots
  {
    s.(slots := s.slots[k := s.slots[k].(bounds := b)])
  }

  function Refocus(s: State, k: SlotId, focused: bool): State
    requires k in s.slots
  {
    if focused then Focus(s, k) else Blur(s.(slots := s.slots[k := s.slots[k].(focused := false)]), k)
  }

  /** `updatePanelSlot`. */
  function Update(s: State, owner: Id, k: SlotId, r: Option<RawBounds>, focused: Option<bool>): (State, Outcome) {
    if !IsOwner(s, owner) || Blank(k) then (s, Thrown)
    else if k !in s.slots then (s, Missing)
    else if s.slots[k].ownerViewId != owner || s.slots[k].ownerGeneration != s.generation then (s, Thrown)
    else if s.slots[k].panelId !in s.views || s.views[s.slots[k].panelId].kind != Panel then (ClearSlot(s, k), Missing)
    else if r.Some? && !BoundsOk(r.value) then (s, Thrown)
    else
      var s1 := if r.Some? then Resize(s, k, Clamp(s, r.value)) else s;
      (Restack(if focused.Some? then Refocus(s1, k, focused.value) else s1), Done)
  }

  function ForgetSlot(s: State, k: SlotId): State {
    s.(pending := map q | q in s.pending && s.pending[q].slotId != k :: s.pending[q])
  }

  /** `clearPanelSlot`. */
  function Clear(s: State, owner: Id, k: SlotId): (State, Outcome) {
    if !IsOwner(s, owner) then (s, Thrown)
    else if k in s.slots && (s.slots[k].ownerViewId != owner || s.slots[k].ownerGeneration != s.generation)
    then (s, Thrown)
    else (Restack(ClearSlotIfAny(ForgetSlot(s, k), k)), Done)
  }

  predicate RestoreGuard(s: State, slot: Slot) {
    s.ready && slot.ownerGeneration == s.generation && slot.slotId !in s.slots
  }

  /** Put a remembered slot back; unlike a bind, an unfocused one leaves the focus alone. */
  function Reinstate(s: State, slot: Slot): State {
    if slot.focused then Focus(Occupy(s, slot), slot.slotId) else Occupy(s, slot)
  }

  /** `restorePanelSlotIfPending`. */
  function Restore(s: State, p: Id): State {
    if p !in s.pending then s
    else
      var slot := s.pending[p];
      var s1 := s.(pending := s.pending - {p});
      if RestoreGuard(s1, slot) then Restack(Reinstate(s1, slot)) else s1
  }

  function Track(s: State, id: Id, kind: Kind, hostChrome: bool): State {
    s.(children := Raise(s.children, Managed(id)),
       views := s.views[id := View(kind, kind == App && hostChrome, false)],
       viewOrder := s.viewOrder + [id])
  }

  predicate Showing(s: State) {
    s.slots != map[] || s.visiblePanel.Some?
  }

  function RestackIfShowing(s: State): State {
    if Showing(s) then Restack(s) else s
  }

  /** `createView`. */
  function Create(s: State, id: Id, kind: Kind, hostChrome: bool): (State, Outcome) {
    if id in s.views then (s, Thrown)
    else if kind == Panel then (RestackIfShowing(Restore(Track(s, id, kind, hostChrome), id)), Done)
    else (RestackIfShowing(Track(s, id, kind, hostChrome)), Done)
  }

  /** The binding of a panel is remembered before its slot is cleared. */
  function Remember(s: State, p: Id): State {
    if p in s.panelToSlot && s.panelToSlot[p] in s.slots
    then ClearSlot(s.(pending := s.pending[p := s.slots[s.panelToSlot[p]]]), s.panelToSlot[p])
    else s
  }

  function Untrack(s: State, id: Id): State {
    s.(children := Without(s.children, Managed(id)), views := s.views - {id}, viewOrder := Without(s.viewOrder, id))
  }

  /** `destroyView`. */
  function Destroy(s: State, id: Id): (State, Outcome) {
    if id !in s.views then (s, Done)
    else if s.views[id].kind == App && s.host == Some(id) then
      // Destroying the hosted shell first reports it not ready, which throws for a demoted app.
      if !MayHost(s, id) then (s, Thrown) else (Untrack(Unready(s, id), id), Done)
    else if s.views[id].kind == Panel then (Untrack(Remember(s, id), id), Done)
    else (Untrack(s, id), Done)
  }

  /** The `render-process-gone` listener. */
  function RendererGone(s: State, id: Id): State {
    if id in s.views && s.views[id].kind == App && s.host == Some(id) then Unready(s, id) else s
  }

  function SetChrome(s: State, id: Id, hostChrome: bool): State
    requires id in s.views
  {
    s.(views := s.views[id := s.views[id].(hostChrome := hostChrome)])
  }

  /** `updateAppView`, up to the load of the new URL. */
  function UpdateApp(s: State, id: Id, hostChrome: bool): (State, Outcome) {
    if id !in s.views || s.views[id].kind != App then (s, Thrown)
    else if !hostChrome && s.host == Some(id) then (Unready(SetChrome(s, id, false), id), Done)
    else (SetChrome(s, id, hostChrome), Done)
  }

  /** The window has another size; the slots keep their bounds until the hosted shell sends new ones. */
  function SetWindow(s: State, width: nat, height: nat): State {
    s.(windowWidth := width, windowHeight := height)
  }

  /** The suggestion overlay and the content overlay, in the order a restack raises them. */
  const ROWS: Child := Overlay(0)
  const CONTENT: Child := Overlay(1)

  function Overlays(rows: bool, content: bool): seq<Child> {
    (if rows then [ROWS] else []) + if content then [CONTENT] else []
  }

  /** Showing an overlay raises it above everything. */
  function ShowOverlay(s: State, overlay: Child): State {
    s.(overlays := Overlays(ROWS in s.overlays || overlay == ROWS, CONTENT in s.overlays || overlay == CONTENT),
       children := Raise(s.children, overlay))
  }

  /** A hidden overlay stays a child of the window. */
  function HideOverlay(s: State, overlay: Child): State {
    s.(overlays := Overlays(ROWS in s.overlays && overlay != ROWS, CONTENT in s.overlays && overlay != CONTENT))
  }

  // ---------------------------------------------------------------------------
  // Runs
  // ---------------------------------------------------------------------------

  datatype Op =
    | CreateView(id: Id, kind: Kind, hostChrome: bool)
    | DestroyView(id: Id)
    | ShowOrHide(id: Id, visible: bool)
    | HostReady(owner: Id, ready: bool)
    | BindSlot(owner: Id, slotId: SlotId, panelId: Id, bounds: RawBounds, focus: bool)
    | UpdateSlot(owner: Id, slotId: SlotId, newBounds: Option<RawBounds>, newFocus: Option<bool>)
    | ClearSlotOp(owner: Id, slotId: SlotId)
    | ClearAllSlots
    | RendererDied(id: Id)
    | UpdateAppView(id: Id, hostChrome: bool)
    | Reconcile
    | ResizeWindow(width: nat, height: nat)
    | ShowRows
    | HideRows(matches: bool)
    | ShowContent
    | HideContent

  /** The bootstrap view is created once, never destroyed, and no view has an empty id. */
  predicate Enabled(op: Op) {
    match op
    case CreateView(id, kind, _) => id != "" && kind != Shell
    case DestroyView(id) => id != SHELL
    case _ => true
  }

  function Apply(s: State, op: Op): (State, Outcome) {
    match op
    case CreateView(id, kind, hostChrome) => Create(s, id, kind, hostChrome)
    case DestroyView(id) => Destroy(s, id)
    case ShowOrHide(id, visible) => (SetViewVisible(s, id, visible), Done)
    case HostReady(owner, ready) => SetReady(s, owner, ready)
    case BindSlot(owner, k, p, r, focused) => Bind(s, owner, k, p, r, focused)
    case UpdateSlot(owner, k, r, focused) => Update(s, owner, k, r, focused)
    case ClearSlotOp(owner, k) => Clear(s, owner, k)
    case ClearAllSlots => (ClearAll(s), Done)
    case RendererDied(id) => (RendererGone(s, id), Done)
    case UpdateAppView(id, hostChrome) => UpdateApp(s, id, hostChrome)
    case Reconcile => (Restack(s), Done)
    case ResizeWindow(width, height) => (Restack(SetWindow(s, width, height)), Done)
    case ShowRows => (ShowOverlay(s, ROWS), Done)
    // Hiding the suggestions reconciles, also when another overlay id was meant.
    case HideRows(matches) => (Restack(if matches then HideOverlay(s, ROWS) else s), Done)
    case ShowContent => (ShowOverlay(s, CONTENT), Done)
    case HideContent => (HideOverlay(s, CONTENT), Done)
  }

  function Step(s: State, op: Op): State {
    if Enabled(op) then Apply(s, op).0 else s
  }

  function Run(s: State, ops: seq<Op>): State
    decreases |ops|
  {
    if ops == [] then s else Run(Step(s, ops[0]), ops[1..])
  }
}
