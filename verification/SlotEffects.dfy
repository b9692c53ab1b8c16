/**
 What the operations on panel slots do, stated outright: the slot record, the two maps,
 the focus and the views after one `Apply`, with every condition spelled out over the
 tables instead of through the operations' own parts.
 */
module SlotEffects {
  import opened Options
  import opened LayerOrder
  import opened NativeSlots
  import opened SlotInvariants
  import opened SlotTheorems
  import SlotGuarantees
  import SlotLayers

  // ---------------------------------------------------------------------------
  // Bounds
  // ---------------------------------------------------------------------------

  /** Along one axis: where a request of a positive size ends up in a window. */
  predicate Placed(at: int, size: int, window: nat, at': int, size': int) {
    && (0 <= at && at + size <= window ==> at' == at && size' == size)
    && (0 <= at < window < at + size ==> at' == at && at' + size' == window)
    && (window <= at ==> at' == window && size' == 0)
    && (at < 0 && size <= window ==> at' == 0 && size' == size)
    && (at < 0 && window < size ==> at' == 0 && size' == window)
  }

  predicate PlacedIn(s: State, r: RawBounds, b: Bounds) {
    Placed(r.x, r.width, s.windowWidth, b.x, b.width) && Placed(r.y, r.height, s.windowHeight, b.y, b.height)
  }

  predicate Covers(at: int, size: int, n: int) {
    at <= n < at + size
  }

  /**
   The placed bounds cover exactly the part of the request that is in the window, unless
   the request begins left of the window and ends inside it: then it is moved in whole.
   */
  lemma PlacedIsIntersectionIff(at: int, size: int, window: nat, at': int, size': int)
    requires size > 0 && Placed(at, size, window, at', size')
    ensures (forall n :: Covers(at', size', n) <==> Covers(0, window, n) && Covers(at, size, n))
            <==> at >= 0 || at + size >= window || window == 0
  {
    if at < 0 && at + size < window && window > 0 {
      var n := if at + size >= 0 then at + size else 0;
      assert Covers(at', size', n) && !Covers(at, size, n);
    }
  }

  /** A request at -100 of width 300 is accepted as 0 to 300, although only 0 to 200 of it is in the window. */
  lemma MovedInWhole()
    ensures Placed(-100, 300, 800, 0, 300) && !Placed(-100, 300, 800, 0, 200)
    ensures Covers(0, 300, 250) && !Covers(-100, 300, 250)
  {
  }

  lemma ClampPlaces(s: State, r: RawBounds)
    requires r.width > 0 && r.height > 0
    ensures PlacedIn(s, r, Clamp(s, r))
  {
  }

  // ---------------------------------------------------------------------------
  // Bind
  // ---------------------------------------------------------------------------

  /** The active hosted shell names a slot and an existing panel view that is free or already there. */
  predicate MayBind(s: State, owner: Id, k: SlotId, p: Id) {
    && s.ready && s.host == Some(owner) && !Blank(k) && !Blank(p)
    && p in s.views && s.views[p].kind == Panel
    && (p in s.panelToSlot ==> s.panelToSlot[p] == k)
  }

  /** The panel that a bind to `k` takes out of the slot, if there is another one. */
  function Ousted(s: State, k: SlotId, p: Id): set<Id> {
    if k in s.slots && s.slots[k].panelId != p then {s.slots[k].panelId} else {}
  }

  /** Every slot but `k` keeps its panel, bounds and owner, and loses its focus flag if `k` takes the focus. */
  predicate OthersKeep(s: State, s': State, k: SlotId, takesFocus: bool) {
    forall j :: j in s.slots && j != k ==>
      j in s'.slots && s'.slots[j] == s.slots[j].(focused := s.slots[j].focused && !takesFocus)
  }

  /** `p` is in slot `k`: the record, both directions of the table, and a visible view. */
  predicate InSlot(s: State, slot: Slot) {
    && slot.slotId in s.slots && s.slots[slot.slotId] == slot
    && slot.panelId in s.panelToSlot && s.panelToSlot[slot.panelId] == slot.slotId
    && slot.panelId in s.views && s.views[slot.panelId].visible
    && (slot.focused <==> s.focused == Some(slot.slotId))
  }

  /** The views are the same but for whether they are visible. */
  predicate Visibility(s: State, s': State, shown: set<Id>, hidden: set<Id>) {
    && s'.views.Keys == s.views.Keys
    && (forall id :: id in s.views ==>
          s'.views[id] == s.views[id].(visible := id in shown || (s.views[id].visible && id !in hidden)))
  }

  /** `slot` is put on the table in place of what was there, and its remembered rivals are dropped. */
  ghost predicate Seated(s: State, s': State, slot: Slot) {
    var k, p := slot.slotId, slot.panelId;
    && InSlot(s', slot)
    && s'.slots.Keys == s.slots.Keys + {k} && OthersKeep(s, s', k, slot.focused)
    && s'.panelToSlot == (s.panelToSlot - Ousted(s, k, p))[p := k]
    && Visibility(s, s', {p}, Ousted(s, k, p))
    && (slot.focused ==> s'.focused == Some(k))
    && (!slot.focused ==> s'.focused == if s.focused == Some(k) then None else s.focused)
    && s'.visiblePanel == Some(p)
    && (forall q :: q in s'.pending <==> q in s.pending && q != p && s.pending[q].slotId != k)
    && (forall q :: q in s'.pending ==> s'.pending[q] == s.pending[q])
    && s'.ready == s.ready && s'.host == s.host && s'.generation == s.generation
    && s'.viewOrder == s.viewOrder && s'.overlays == s.overlays && s'.attached == s.attached
    && s'.windowWidth == s.windowWidth && s'.windowHeight == s.windowHeight
  }

  /** A bind that may happen ends with the panel in the slot, at the requested place and with the requested focus. */
  lemma BindFills(s: State, owner: Id, k: SlotId, p: Id, r: RawBounds, focus: bool)
    requires MayBind(s, owner, k, p) && r.finite && r.width > 0 && r.height > 0
    ensures var (s', outcome) := Apply(s, BindSlot(owner, k, p, r, focus));
      && outcome == Done
      && k in s'.slots && PlacedIn(s, r, s'.slots[k].bounds)
      && Seated(s, s', Slot(k, p, s'.slots[k].bounds, focus, owner, s.generation))
  {
    hide Restack, Clamp, Blank, MakeRoom, Bound;
    var s1 := MakeRoom(s, k, p);
    var slot := Slot(k, p, Clamp(s, r), focus, owner, s.generation);
    var s2 := Bound(s1, slot);
    assert Apply(s, BindSlot(owner, k, p, r, focus)) == (Restack(s2), Done);
    hide Apply;
    ClampPlaces(s, r);
    hide PlacedIn, Placed;
    RoomIsMade(s, k, p);
    SlotIsFilled(s1, slot);
    RestackFrames(s2);
    SeatedAfterRoom(s, s1, s2, slot);
    SeatedFrames(s, s2, Restack(s2), slot);
  }

  /** A slot that is new, or has a new panel, comes last in slot order; one that keeps its panel keeps its place. */
  lemma BindOrder(s: State, owner: Id, k: SlotId, p: Id, r: RawBounds, focus: bool)
    requires MayBind(s, owner, k, p) && r.finite && r.width > 0 && r.height > 0
    ensures var s' := Apply(s, BindSlot(owner, k, p, r, focus)).0;
      && (k !in s.slots ==> s'.slotOrder == s.slotOrder + [k])
      && (k in s.slots && s.slots[k].panelId == p ==> s'.slotOrder == s.slotOrder)
      && (k in s.slots && s.slots[k].panelId != p ==> s'.slotOrder == Without(s.slotOrder, k) + [k])
  {
    hide Restack, Clamp, Blank, MakeRoom, Bound, Without;
    var s1 := MakeRoom(s, k, p);
    var slot := Slot(k, p, Clamp(s, r), focus, owner, s.generation);
    var s2 := Bound(s1, slot);
    assert Apply(s, BindSlot(owner, k, p, r, focus)) == (Restack(s2), Done);
    hide Apply;
    RoomOrder(s, k, p);
    FillOrder(s1, slot);
    RestackFrames(s2);
  }

  lemma RoomOrder(s: State, k: SlotId, p: Id)
    ensures var s' := MakeRoom(s, k, p);
      && (Ousted(s, k, p) == {} ==> s'.slotOrder == s.slotOrder && (k in s'.slots <==> k in s.slots))
      && (Ousted(s, k, p) != {} ==> s'.slotOrder == Without(s.slotOrder, k) && k !in s'.slots)
  {
    hide Without, SetVisible, VisibleWithout;
  }

  lemma FillOrder(s: State, slot: Slot)
    ensures Bound(s, slot).slotOrder == if slot.slotId in s.slots then s.slotOrder else s.slotOrder + [slot.slotId]
  {
    hide SetVisible;
  }

  /** What the first half of a bind does. */
  ghost predicate RoomFor(s: State, s': State, k: SlotId, p: Id) {
    && (k in s'.slots ==> k in s.slots && Ousted(s, k, p) == {})
    && s'.slots.Keys + {k} == s.slots.Keys + {k}
    && (forall j :: j in s'.slots ==> s'.slots[j] == s.slots[j])
    && s'.panelToSlot == s.panelToSlot - Ousted(s, k, p)
    && Visibility(s, s', {}, Ousted(s, k, p))
    && (s'.focused == s.focused || (s.focused == Some(k) && s'.focused == None))
    && (forall q :: q in s'.pending <==> q in s.pending && q != p && s.pending[q].slotId != k)
    && (forall q :: q in s'.pending ==> s'.pending[q] == s.pending[q])
    && s' == s.(slots := s'.slots, slotOrder := s'.slotOrder, panelToSlot := s'.panelToSlot, views := s'.views,
                focused := s'.focused, pending := s'.pending, visiblePanel := s'.visiblePanel)
  }

  lemma RoomIsMade(s: State, k: SlotId, p: Id)
    ensures RoomFor(s, MakeRoom(s, k, p), k, p)
  {
    hide Without, VisibleWithout;
    var s1 := Supersede(s, k, p);
    if k in s.slots && s.slots[k].panelId != p {
      assert MakeRoom(s, k, p) == ClearSlot(s1, k);
    } else {
      assert MakeRoom(s, k, p) == s1;
    }
  }

  /** What the second half does. */
  predicate Fills(s: State, s': State, slot: Slot) {
    && InSlot(s', slot)
    && s'.slots.Keys == s.slots.Keys + {slot.slotId} && OthersKeep(s, s', slot.slotId, slot.focused)
    && s'.panelToSlot == s.panelToSlot[slot.panelId := slot.slotId]
    && Visibility(s, s', {slot.panelId}, {})
    && (slot.focused ==> s'.focused == Some(slot.slotId))
    && (!slot.focused ==> s'.focused == if s.focused == Some(slot.slotId) then None else s.focused)
    && s'.visiblePanel == Some(slot.panelId)
    && s' == s.(slots := s'.slots, slotOrder := s'.slotOrder, panelToSlot := s'.panelToSlot, views := s'.views,
                focused := s'.focused, visiblePanel := s'.visiblePanel)
  }

  lemma SlotIsFilled(s: State, slot: Slot)
    requires slot.panelId in s.views
    ensures Fills(s, Bound(s, slot), slot)
  {
  }

  lemma SeatedAfterRoom(s: State, s1: State, s2: State, slot: Slot)
    requires RoomFor(s, s1, slot.slotId, slot.panelId) && Fills(s1, s2, slot)
    ensures Seated(s, s2, slot)
  {
    assert OthersKeep(s, s1, slot.slotId, false);
    assert OthersKeep(s, s2, slot.slotId, slot.focused);
  }

  /** The child list does not matter. */
  lemma SeatedFrames(s: State, s1: State, s2: State, slot: Slot)
    requires Seated(s, s1, slot) && s2 == s1.(children := s2.children)
    ensures Seated(s, s2, slot)
  {
  }

  /** Any other bind throws: one that may not happen before it changes anything, one with bad bounds half-way. */
  lemma BindIsRefused(s: State, owner: Id, k: SlotId, p: Id, r: RawBounds, focus: bool)
    requires !MayBind(s, owner, k, p) || !r.finite || r.width <= 0 || r.height <= 0
    ensures var (s', outcome) := Apply(s, BindSlot(owner, k, p, r, focus));
      outcome == Thrown && if MayBind(s, owner, k, p) then RoomFor(s, s', k, p) else s' == s
  {
    hide Restack, Clamp, Blank, MakeRoom, Bound, RoomFor;
    RoomIsMade(s, k, p);
  }

  // ---------------------------------------------------------------------------
  // Update
  // ---------------------------------------------------------------------------

  /** The active hosted shell names a slot of its own generation, with a panel view in it. */
  predicate MayUpdate(s: State, owner: Id, k: SlotId) {
    && s.ready && s.host == Some(owner) && !Blank(k)
    && k in s.slots && s.slots[k].ownerViewId == owner && s.slots[k].ownerGeneration == s.generation
    && s.slots[k].panelId in s.views && s.views[s.slots[k].panelId].kind == Panel
  }

  /** Only the slot's bounds and the focus have changed. */
  predicate Tuned(s: State, s': State, k: SlotId, focus: Option<bool>)
    requires k in s.slots
  {
    && s'.slots.Keys == s.slots.Keys && OthersKeep(s, s', k, focus == Some(true))
    && s'.slots[k] == s.slots[k].(
         bounds := s'.slots[k].bounds, focused := if focus.Some? then focus.value else s.slots[k].focused)
    && s'.focused == (if focus == Some(true) then Some(k)
                      else if focus == Some(false) && s.focused == Some(k) then None else s.focused)
    && s'.visiblePanel == (if focus == Some(true) then Some(s.slots[k].panelId) else s.visiblePanel)
    && s' == s.(slots := s'.slots, focused := s'.focused, visiblePanel := s'.visiblePanel, children := s'.children)
  }

  lemma UpdateTunes(s: State, owner: Id, k: SlotId, r: Option<RawBounds>, focus: Option<bool>)
    requires MayUpdate(s, owner, k) && (r.Some? ==> r.value.finite && r.value.width > 0 && r.value.height > 0)
    ensures var (s', outcome) := Apply(s, UpdateSlot(owner, k, r, focus));
      && outcome == Done && Tuned(s, s', k, focus)
      && (r.Some? ==> PlacedIn(s, r.value, s'.slots[k].bounds))
      && (r == None ==> s'.slots[k].bounds == s.slots[k].bounds)
  {
    hide Apply, Restack, Clamp, Resize, Refocus, Tuned, PlacedIn, MayUpdate;
    assert k in s.slots && s.slots[k].panelId in s.views by { MayUpdateSlot(s, owner, k); }
    var s1, s2 := s, s;
    NothingTuned(s, k);
    if r.Some? {
      s1 := Resize(s, k, Clamp(s, r.value));
      ResizeTunes(s, k, Clamp(s, r.value));
      ClampPlaces(s, r.value);
    }
    TunedKeeps(s, s1, k, None);
    if focus.Some? {
      s2 := Refocus(s1, k, focus.value);
      RefocusTunes(s1, k, focus.value);
    } else {
      s2 := s1;
      NothingTuned(s1, k);
    }
    UpdateStep(s, owner, k, r, focus, s1, s2);
    RestackFrames(s2);
    TunedTwice(s, s1, s2, Restack(s2), k, focus);
  }

  lemma MayUpdateSlot(s: State, owner: Id, k: SlotId)
    requires MayUpdate(s, owner, k)
    ensures k in s.slots && s.slots[k].panelId in s.views
  {
  }

  lemma NothingTuned(s: State, k: SlotId)
    requires k in s.slots
    ensures Tuned(s, s, k, None)
  {
  }

  lemma TunedKeeps(s: State, s': State, k: SlotId, focus: Option<bool>)
    requires k in s.slots && Tuned(s, s', k, focus)
    ensures k in s'.slots && s'.slots[k].panelId == s.slots[k].panelId && s'.views == s.views
  {
  }

  lemma TunedTwice(s: State, s1: State, s2: State, s3: State, k: SlotId, focus: Option<bool>)
    requires k in s.slots && Tuned(s, s1, k, None) && k in s1.slots && Tuned(s1, s2, k, focus)
    requires s3 == s2.(children := s3.children)
    ensures Tuned(s, s3, k, focus)
  {
  }

  lemma UpdateStep(
    s: State, owner: Id, k: SlotId, r: Option<RawBounds>, focus: Option<bool>, s1: State, s2: State)
    requires MayUpdate(s, owner, k) && (r.Some? ==> r.value.finite && r.value.width > 0 && r.value.height > 0)
    requires r.Some? ==> s1 == Resize(s, k, Clamp(s, r.value))
    requires r == None ==> s1 == s
    requires k in s1.slots
    requires focus.Some? ==> s2 == Refocus(s1, k, focus.value)
    requires focus == None ==> s2 == s1
    ensures Apply(s, UpdateSlot(owner, k, r, focus)) == (Restack(s2), Done)
  {
    hide Restack, Clamp, Blank, ClearSlot, Resize, Refocus;
  }

  lemma ResizeTunes(s: State, k: SlotId, b: Bounds)
    requires k in s.slots
    ensures Tuned(s, Resize(s, k, b), k, None) && Resize(s, k, b).slots[k].bounds == b
  {
  }

  lemma RefocusTunes(s: State, k: SlotId, focus: bool)
    requires k in s.slots && s.slots[k].panelId in s.views
    ensures Tuned(s, Refocus(s, k, focus), k, Some(focus))
    ensures Refocus(s, k, focus).slots[k].bounds == s.slots[k].bounds
  {
  }

  /** An update by another owner, of an unknown slot, or with bad bounds changes nothing. */
  lemma UpdateIsRefused(s: State, owner: Id, k: SlotId, r: Option<RawBounds>, focus: Option<bool>)
    requires !s.ready || s.host != Some(owner) || Blank(k) || k !in s.slots
      || s.slots[k].ownerViewId != owner || s.slots[k].ownerGeneration != s.generation
      || (MayUpdate(s, owner, k) && r.Some? && (!r.value.finite || r.value.width <= 0 || r.value.height <= 0))
    ensures var refused := if s.ready && s.host == Some(owner) && !Blank(k) && k !in s.slots then Missing else Thrown;
      Apply(s, UpdateSlot(owner, k, r, focus)) == (s, refused)
  {
    hide Restack, Clamp, Blank, ClearSlot, Resize, Refocus;
  }

  // ---------------------------------------------------------------------------
  // Clear
  // ---------------------------------------------------------------------------

  /** Slot `k` is taken off the table and its panel is hidden. */
  predicate Freed(s: State, s': State, k: SlotId)
    requires k in s.slots
  {
    && s'.slots == s.slots - {k} && s'.panelToSlot == s.panelToSlot - {s.slots[k].panelId}
    && s'.focused == (if s.focused == Some(k) then None else s.focused)
    && Visibility(s, s', {}, {s.slots[k].panelId})
  }

  lemma ClearFrees(s: State, owner: Id, k: SlotId)
    requires s.ready && s.host == Some(owner)
    requires k in s.slots ==> s.slots[k].ownerViewId == owner && s.slots[k].ownerGeneration == s.generation
    ensures var (s', outcome) := Apply(s, ClearSlotOp(owner, k));
      && outcome == Done
      && (k in s.slots ==> Freed(s, s', k))
      && (k !in s.slots ==> s' == s.(pending := s'.pending, children := s'.children))
      && (forall q :: q in s'.pending <==> q in s.pending && s.pending[q].slotId != k)
      && (forall q :: q in s'.pending ==> s'.pending[q] == s.pending[q])
  {
    hide Restack, ClearSlot;
    var s1 := ForgetSlot(s, k);
    var s2 := ClearSlotIfAny(s1, k);
    assert Apply(s, ClearSlotOp(owner, k)) == (Restack(s2), Done);
    hide Apply;
    RestackFrames(s2);
    if k in s.slots {
      SlotIsFreed(s1, k);
    }
  }

  lemma SlotIsFreed(s: State, k: SlotId)
    requires k in s.slots
    ensures var s' := ClearSlot(s, k);
      && Freed(s, s', k)
      && s' == s.(slots := s'.slots, slotOrder := s'.slotOrder, panelToSlot := s'.panelToSlot, views := s'.views,
                  focused := s'.focused, visiblePanel := s'.visiblePanel)
  {
    hide Without, VisibleWithout;
  }

  /** No other owner can. */
  lemma ClearIsRefused(s: State, owner: Id, k: SlotId)
    requires !s.ready || s.host != Some(owner)
      || (k in s.slots && (s.slots[k].ownerViewId != owner || s.slots[k].ownerGeneration != s.generation))
    ensures Apply(s, ClearSlotOp(owner, k)) == (s, Thrown)
  {
    hide Restack, ClearSlot;
  }

  /** The table is empty, nothing is remembered, and the panels that were in slots are hidden. */
  predicate TableEmptied(s: State, s': State) {
    && s'.slots == map[] && s'.slotOrder == [] && s'.pending == map[]
    && s'.focused == None && s'.visiblePanel == None
    && s'.panelToSlot == s.panelToSlot - (set k | k in s.slots :: s.slots[k].panelId)
    && s'.windowWidth == s.windowWidth && s'.windowHeight == s.windowHeight
    && s'.viewOrder == s.viewOrder && s'.overlays == s.overlays && s'.hideUntilReady == s.hideUntilReady
  }

  lemma ClearAllEmpties(s: State)
    ensures var (s', outcome) := Apply(s, ClearAllSlots);
      && outcome == Done && TableEmptied(s, s')
      && Visibility(s, s', {}, set k | k in s.slots :: s.slots[k].panelId)
  {
    hide Restack;
    RestackFrames(Emptied(s));
    SlotsAreEmptied(s);
    hide Emptied;
  }

  lemma SlotsAreEmptied(s: State)
    ensures var s' := Emptied(s);
      && TableEmptied(s, s') && Visibility(s, s', {}, set k | k in s.slots :: s.slots[k].panelId)
      && s' == s.(pending := map[], slots := map[], slotOrder := [], panelToSlot := s'.panelToSlot,
                  focused := None, visiblePanel := None, views := s'.views)
  {
  }

  // ---------------------------------------------------------------------------
  // The hosted shell
  // ---------------------------------------------------------------------------

  predicate IsHostApp(s: State, id: Id) {
    id in s.views && s.views[id].kind == App && s.views[id].hostChrome
  }

  /** A host-chrome app that was not the active shell takes over with a new generation and an empty table. */
  lemma ShellTakesOver(s: State, owner: Id)
    requires IsHostApp(s, owner) && !(s.ready && s.host == Some(owner))
    ensures var (s', outcome) := Apply(s, HostReady(owner, true));
      && outcome == Done && s'.ready && s'.host == Some(owner) && s'.generation == s.generation + 1 && !s'.attached
      && TableEmptied(s, s')
      && Visibility(s, s', {owner}, set k | k in s.slots :: s.slots[k].panelId)
  {
    hide Restack, SetViewVisible, HideGate, Emptied;
    var s0 := s.(generation := s.generation + 1);
    var s1 := ClearAll(s0);
    var s2 := HandOver(s, owner);
    var s3 := HideGate(s2);
    var s4 := SetViewVisible(s3, owner, true);
    assert Apply(s, HostReady(owner, true)) == (Restack(s4), Done);
    hide Apply;
    SlotsAreEmptied(s0);
    RestackFrames(Emptied(s0));
    GateIsHidden(s2);
    assert IsHostApp(s3, owner);
    ChromeIsShown(s3, owner);
    RestackFrames(s4);
  }

  lemma GateIsHidden(s: State)
    ensures HideGate(s) == s.(attached := false, children := HideGate(s).children)
  {
    hide Without;
  }

  lemma ChromeIsShown(s: State, id: Id)
    requires IsHostApp(s, id)
    ensures var s' := SetViewVisible(s, id, true);
      Visibility(s, s', {id}, {}) && s' == s.(views := s'.views, children := s'.children)
  {
    hide Restack;
    RestackFrames(s.(views := SetVisible(s.views, id, true)));
  }

  /** The active shell says so again: its slots stay as they are. */
  lemma ShellStays(s: State, owner: Id)
    requires IsHostApp(s, owner) && s.ready && s.host == Some(owner)
    ensures var (s', outcome) := Apply(s, HostReady(owner, true));
      && outcome == Done && Visibility(s, s', {owner}, {})
      && s' == s.(attached := false, views := s'.views, children := s'.children)
  {
    hide Restack, SetViewVisible, HideGate;
    var s1 := HideGate(s);
    var s2 := SetViewVisible(s1, owner, true);
    assert Apply(s, HostReady(owner, true)) == (Restack(s2), Done);
    hide Apply;
    GateIsHidden(s);
    ChromeIsShown(s1, owner);
    RestackFrames(s2);
  }

  /** The shell is lost: back to the gate with an empty table and its view hidden. */
  predicate ShellLost(s: State, s': State, id: Id) {
    && !s'.ready && s'.attached && s'.host == s.host && s'.generation == s.generation
    && TableEmptied(s, s')
    && Visibility(s, s', {}, (set k | k in s.slots :: s.slots[k].panelId) + {id})
  }

  lemma ShellLeaves(s: State, owner: Id)
    requires IsHostApp(s, owner) && (s.host == None || s.host == Some(owner))
    ensures var (s', outcome) := Apply(s, HostReady(owner, false)); outcome == Done && ShellLost(s, s', owner)
  {
    hide Unready;
    ShellIsLost(s, owner);
  }

  lemma ShellIsLost(s: State, id: Id)
    ensures ShellLost(s, Unready(s, id), id)
  {
    hide Restack, Emptied, SetVisible, Raise;
    var s0 := s.(ready := false);
    var s1 := ClearAll(s0);
    var s2 := HideView(s1, id);
    var s3 := ShowGate(s2);
    SlotsAreEmptied(s0);
    RestackFrames(Emptied(s0));
    ViewIsHidden(s1, id);
    RestackFrames(s3);
  }

  lemma ViewIsHidden(s: State, id: Id)
    ensures Visibility(s, HideView(s, id), {}, {id}) && HideView(s, id) == s.(views := HideView(s, id).views)
  {
  }

  /** Nobody else can report readiness, and another app cannot report the active shell gone. */
  lemma ReadinessIsRefused(s: State, owner: Id, ready: bool)
    requires !IsHostApp(s, owner) || (!ready && s.host.Some? && s.host != Some(owner))
    ensures Apply(s, HostReady(owner, ready)) == (s, Thrown)
  {
    hide BecomeReady, Unready;
  }

  /** The renderer of the hosted shell dies, or its app is demoted: the shell is lost. */
  lemma ShellDies(s: State, id: Id)
    requires id in s.views && s.views[id].kind == App && s.host == Some(id)
    ensures ShellLost(s, Apply(s, RendererDied(id)).0, id)
  {
    hide Unready;
    ShellIsLost(s, id);
  }

  lemma ShellIsDemoted(s: State, id: Id)
    requires id in s.views && s.views[id].kind == App && s.host == Some(id)
    ensures var (s', outcome) := Apply(s, UpdateAppView(id, false));
      && outcome == Done
      && ShellLost(s.(views := s.views[id := s.views[id].(hostChrome := false)]), s', id)
  {
    hide Unready;
    ShellIsLost(SetChrome(s, id, false), id);
  }

  /** Another renderer that dies leaves everything as it is. */
  lemma OthersDie(s: State, id: Id)
    requires !(id in s.views && s.views[id].kind == App && s.host == Some(id))
    ensures Apply(s, RendererDied(id)).0 == s
  {
    hide Unready;
  }

  // ---------------------------------------------------------------------------
  // Views
  // ---------------------------------------------------------------------------

  /** A new view is hidden, is the topmost child, and only an app can be host chrome. */
  lemma ViewIsCreated(s: State, id: Id, kind: Kind, hostChrome: bool)
    requires id !in s.views && (kind == Panel ==> id !in s.pending) && s.slots == map[] && s.visiblePanel == None
    ensures Apply(s, CreateView(id, kind, hostChrome))
         == (s.(views := s.views[id := View(kind, kind == App && hostChrome, false)],
                viewOrder := s.viewOrder + [id],
                children := Without(s.children, Managed(id)) + [Managed(id)]), Done)
  {
    hide Restack, Without;
  }

  /** Above slots or a visible panel it is put in its layer at once. */
  lemma ViewIsCreatedBelow(s: State, id: Id, kind: Kind, hostChrome: bool)
    requires id !in s.views && (kind == Panel ==> id !in s.pending)
    ensures var (s', outcome) := Apply(s, CreateView(id, kind, hostChrome));
      && outcome == Done
      && s' == s.(views := s.views[id := View(kind, kind == App && hostChrome, false)],
                  viewOrder := s.viewOrder + [id], children := s'.children)
  {
    hide Restack, Raise;
    var s1 := Track(s, id, kind, hostChrome);
    assert Restore(s1, id) == s1 || kind != Panel;
    assert Apply(s, CreateView(id, kind, hostChrome)) == (RestackIfShowing(s1), Done);
    hide Apply;
    RestackFrames(s1);
  }

  /** Destroying a panel in a slot frees the slot and remembers its record. */
  lemma SlottedPanelIsDestroyed(s: State, p: Id, k: SlotId)
    requires Inv(s) && p in s.panelToSlot && s.panelToSlot[p] == k
    ensures var (s', outcome) := Apply(s, DestroyView(p));
      && outcome == Done && k in s.slots
      && s'.slots == s.slots - {k} && s'.panelToSlot == s.panelToSlot - {p}
      && s'.focused == (if s.focused == Some(k) then None else s.focused)
      && s'.pending == s.pending[p := s.slots[k]]
      && s'.views == s.views - {p} && Managed(p) !in s'.children
  {
    hide Lists, ChildrenSane, GateExact, HostSane, FocusExact, OwnersCurrent, PendingApart, ClearSlot, Without;
    assert k in s.slots && s.slots[k].panelId == p && p in s.views && s.views[p].kind == Panel;
    var s1 := s.(pending := s.pending[p := s.slots[k]]);
    var s2 := ClearSlot(s1, k);
    assert Apply(s, DestroyView(p)) == (Untrack(s2, p), Done);
    hide Apply, Inv;
    SlotIsFreed(s1, k);
    assert s2.views - {p} == s.views - {p};
    WithoutIn(s2.children, Managed(p));
  }

  /** A panel that was destroyed in a slot goes back there when created again; only a focused one takes the focus. */
  lemma ViewIsRestored(s: State, p: Id, hostChrome: bool)
    requires Inv(s) && p != "" && p !in s.views && p in s.pending
    ensures var (s', outcome) := Apply(s, CreateView(p, Panel, hostChrome)); var slot := s.pending[p];
      && outcome == Done && Restored(s, s', slot)
      && s'.views.Keys == s.views.Keys + {p} && s'.views[p] == View(Panel, false, true)
  {
    hide Apply, Inv, Restack, Reinstate, Track, Restore, Restored;
    var slot := s.pending[p];
    var s1 := Track(s, p, Panel, hostChrome);
    TrackInv(s, p, Panel, hostChrome);
    TrackedTables(s, p, hostChrome);
    RestoreGuardHolds(s1, p);
    PendingIsOwn(s, p);
    var s2 := s1.(pending := s1.pending - {p});
    SlotIsReinstated(s2, slot);
    var s3 := Reinstate(s2, slot);
    RestackFrames(s3);
    RestackFrames(Restack(s3));
    CreatingStep(s, p, hostChrome, slot, s2, s3);
    RestoredTables(s, s1, s2, s3, Restack(Restack(s3)), slot);
  }

  /** `slot` is on the table again, every other slot as it was but for the focus, and it is no longer remembered. */
  predicate Restored(s: State, s': State, slot: Slot) {
    && InSlot(s', slot)
    && s'.slots.Keys == s.slots.Keys + {slot.slotId} && OthersKeep(s, s', slot.slotId, slot.focused)
    && s'.panelToSlot == s.panelToSlot[slot.panelId := slot.slotId] && s'.pending == s.pending - {slot.panelId}
    && s'.focused == (if slot.focused then Some(slot.slotId) else s.focused)
    && s'.visiblePanel == Some(slot.panelId)
    && s'.ready == s.ready && s'.host == s.host && s'.generation == s.generation
  }

  lemma TrackedTables(s: State, p: Id, hostChrome: bool)
    ensures var s1 := Track(s, p, Panel, hostChrome);
      s1 == s.(views := s.views[p := View(Panel, false, false)], viewOrder := s1.viewOrder, children := s1.children)
  {
    hide Raise;
  }

  lemma PendingIsOwn(s: State, p: Id)
    requires Inv(s) && p in s.pending
    ensures s.pending[p].panelId == p && s.pending[p].slotId !in s.slots && s.focused != Some(s.pending[p].slotId)
  {
    hide ViewsSane, ChildrenSane, GateExact, HostSane, OwnersCurrent, Bijective;
  }

  lemma SlotIsReinstated(s: State, slot: Slot)
    requires slot.panelId in s.views && slot.slotId !in s.slots && s.focused != Some(slot.slotId)
    ensures var s' := Reinstate(s, slot);
      && InSlot(s', slot)
      && s'.slots.Keys == s.slots.Keys + {slot.slotId} && OthersKeep(s, s', slot.slotId, slot.focused)
      && s'.panelToSlot == s.panelToSlot[slot.panelId := slot.slotId]
      && s'.focused == (if slot.focused then Some(slot.slotId) else s.focused)
      && s'.visiblePanel == Some(slot.panelId)
      && s'.views == s.views[slot.panelId := s.views[slot.panelId].(visible := true)]
      && s' == s.(slots := s'.slots, slotOrder := s'.slotOrder, panelToSlot := s'.panelToSlot, views := s'.views,
                  focused := s'.focused, visiblePanel := s'.visiblePanel)
  {
  }

  lemma CreatingStep(s: State, p: Id, hostChrome: bool, slot: Slot, s2: State, s3: State)
    requires p !in s.views
    requires var s1 := Track(s, p, Panel, hostChrome);
      && p in s1.pending && s1.pending[p] == slot && RestoreGuard(s1, slot)
      && s2 == s1.(pending := s1.pending - {p}) && s3 == Reinstate(s2, slot) && s3.visiblePanel.Some?
    requires Restack(s3) == s3.(children := Restack(s3).children)
    ensures Apply(s, CreateView(p, Panel, hostChrome)) == (Restack(Restack(s3)), Done)
  {
    hide Restack, Reinstate, Track;
    assert RestoreGuard(s2, slot);
    assert Restore(Track(s, p, Panel, hostChrome), p) == Restack(s3);
  }

  lemma RestoredTables(s: State, s1: State, s2: State, s3: State, s': State, slot: Slot)
    requires s1 == s.(views := s1.views, viewOrder := s1.viewOrder, children := s1.children)
    requires s2 == s1.(pending := s1.pending - {slot.panelId})
    requires InSlot(s3, slot) && s3.slots.Keys == s2.slots.Keys + {slot.slotId}
    requires OthersKeep(s2, s3, slot.slotId, slot.focused)
    requires s3.panelToSlot == s2.panelToSlot[slot.panelId := slot.slotId] && s3.visiblePanel == Some(slot.panelId)
    requires s3.focused == if slot.focused then Some(slot.slotId) else s2.focused
    requires s3 == s2.(slots := s3.slots, slotOrder := s3.slotOrder, panelToSlot := s3.panelToSlot, views := s3.views,
                       focused := s3.focused, visiblePanel := s3.visiblePanel)
    requires s' == s3.(children := s'.children)
    ensures Restored(s, s', slot)
  {
  }

  /** Showing or hiding a view touches its visibility and which panel is the visible one. */
  lemma ViewIsShown(s: State, id: Id, visible: bool)
    requires id in s.views
    ensures var (s', outcome) := Apply(s, ShowOrHide(id, visible));
      && outcome == Done && s'.views == s.views[id := s.views[id].(visible := visible)]
      && s'.visiblePanel == (if visible && !s.views[id].hostChrome && s.views[id].kind != Shell then Some(id)
                             else if !visible && s.visiblePanel == Some(id) then None else s.visiblePanel)
      && s' == s.(views := s'.views, visiblePanel := s'.visiblePanel, children := s'.children)
  {
    hide Restack;
    var s1 := s.(views := SetVisible(s.views, id, visible));
    RestackFrames(s1);
    RestackFrames(s1.(visiblePanel := Some(id)));
  }

  /** Showing the suggestions or the content overlay puts it on top; it is one of the overlays from then on. */
  lemma OverlaysAreShown(s: State)
    ensures var rows, content := Apply(s, ShowRows).0, Apply(s, ShowContent).0;
      && rows == s.(overlays := rows.overlays, children := Without(s.children, Overlay(0)) + [Overlay(0)])
      && content == s.(overlays := content.overlays, children := Without(s.children, Overlay(1)) + [Overlay(1)])
      && rows.overlays == (if Overlay(1) in s.overlays then [Overlay(0), Overlay(1)] else [Overlay(0)])
      && content.overlays == (if Overlay(0) in s.overlays then [Overlay(0), Overlay(1)] else [Overlay(1)])
  {
    hide Without;
  }

  /** Hiding one takes it out of the overlays that a reconcile raises, and leaves it a child. */
  lemma OverlaysAreHidden(s: State)
    ensures var rows, content := Apply(s, HideRows(true)).0, Apply(s, HideContent).0;
      && rows == s.(overlays := rows.overlays, children := rows.children)
      && content == s.(overlays := content.overlays)
      && rows.overlays == (if Overlay(1) in s.overlays then [Overlay(1)] else [])
      && content.overlays == (if Overlay(0) in s.overlays then [Overlay(0)] else [])
  {
    hide Restack;
    RestackFrames(HideOverlay(s, ROWS));
  }

  // ---------------------------------------------------------------------------
  // A run
  // ---------------------------------------------------------------------------

  const NEW_APP := CreateView("app", App, true)
  const APP_READY := HostReady("app", true)
  const NEW_PANEL := CreateView("p", Panel, false)
  const BINDS := BindSlot("app", "k", "p", RawBounds(10, 10, 300, 200, true), true)

  /** An app becomes the hosted shell and binds a panel: the panel is in its slot, focused and above the shell. */
  lemma PanelIsShown(hideUntilReady: bool)
    ensures var s := Run(Initial(hideUntilReady, 800, 600), [NEW_APP, APP_READY, NEW_PANEL, BINDS]);
      && s.slots == map["k" := Slot("k", "p", Bounds(10, 10, 300, 200), true, "app", 1)]
      && s.panelToSlot == map["p" := "k"] && s.focused == Some("k")
      && "p" in s.views && s.views["p"].visible
      && 0 <= IndexOf(s.children, Managed("app")) < IndexOf(s.children, Managed("p"))
  {
    hide Step, Run, IndexOf;
    var s3 := ReadyWithPanel(hideUntilReady);
    NotBlank("k");
    NotBlank("p");
    var s4 := Step(s3, BINDS);
    BindsPanel(s3);
    SlotLayers.PanelsAboveShellOnEveryRun(hideUntilReady, 800, 600, [NEW_APP, APP_READY, NEW_PANEL, BINDS], "k");
  }

  lemma BindsPanel(s: State)
    requires MayBind(s, "app", "k", "p") && s.slots == map[] && s.panelToSlot == map[] && s.generation == 1
    requires s.windowWidth == 800 && s.windowHeight == 600
    ensures var s' := Step(s, BINDS);
      && s'.slots == map["k" := Slot("k", "p", Bounds(10, 10, 300, 200), true, "app", 1)]
      && s'.panelToSlot == map["p" := "k"] && s'.focused == Some("k")
      && "p" in s'.views && s'.views["p"].visible && s'.ready && s'.host == Some("app")
  {
    hide Apply, Blank;
    var s' := Step(s, BINDS);
    assert Ousted(s, "k", "p") == {};
    BindFills(s, "app", "k", "p", RawBounds(10, 10, 300, 200, true), true);
    assert s'.slots.Keys == {"k"};
    assert s'.slots["k"].bounds == Bounds(10, 10, 300, 200);
  }

  lemma ReadyWithPanel(hideUntilReady: bool) returns (s: State)
    ensures Run(Initial(hideUntilReady, 800, 600), [NEW_APP, APP_READY, NEW_PANEL, BINDS]) == Step(s, BINDS)
    ensures !Blank("k") && !Blank("p") ==> MayBind(s, "app", "k", "p")
    ensures s.slots == map[] && s.panelToSlot == map[] && s.generation == 1
    ensures s.windowWidth == 800 && s.windowHeight == 600
  {
    hide Run, Apply;
    var s0 := Initial(hideUntilReady, 800, 600);
    ViewIsCreated(s0, "app", App, true);
    var s1 := Step(s0, NEW_APP);
    ShellTakesOver(s1, "app");
    var s2 := Step(s1, APP_READY);
    assert "p" !in s2.views;
    ViewIsCreatedBelow(s2, "p", Panel, false);
    s := Step(s2, NEW_PANEL);
    RunFour(s0, NEW_APP, APP_READY, NEW_PANEL, BINDS);
  }

  lemma NotBlank(id: string)
    requires |id| > 0 && id[0] !in WHITE_SPACE
    ensures !Blank(id)
  {
  }

  lemma RunFour(s: State, a: Op, b: Op, c: Op, d: Op)
    ensures Run(s, [a, b, c, d]) == Step(Step(Step(Step(s, a), b), c), d)
  {
    hide Step;
    SlotGuarantees.RunThree(Step(s, a), b, c, d);
    assert [a, b, c, d][1..] == [b, c, d];
  }
}
