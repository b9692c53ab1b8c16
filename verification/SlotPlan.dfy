/**
 Which views a reconcile raises, and in which order: exactly the visible chrome, the
 hosted shell, the visible panel without a slot, the panels in slots and the gate, in
 layers from bottom to top.
 */
module SlotPlan {
  import opened Options
  import opened LayerOrder
  import opened LayerPositions
  import opened NativeSlots
  import opened SlotInvariants
  import opened SlotGuarantees

  ghost predicate Before(xs: seq<Id>, x: Id, y: Id) {
    exists i, j :: 0 <= i < j < |xs| && xs[i] == x && xs[j] == y
  }

  /** The chrome layer: visible host-chrome views and the hosted shell. */
  predicate InChrome(s: State, x: Id) {
    x in s.views && ((s.views[x].hostChrome && s.views[x].visible) || s.host == Some(x))
  }

  /** The visible panel of a window without slots for it. */
  predicate IsFallback(s: State, x: Id) {
    s.visiblePanel == Some(x) && x !in s.panelToSlot && x in s.views && s.views[x].visible
  }

  predicate InSomeSlot(s: State, x: Id) {
    x in s.panelToSlot && s.panelToSlot[x] in s.slots && s.slots[s.panelToSlot[x]].panelId == x
  }

  // ---------------------------------------------------------------------------
  // Lists
  // ---------------------------------------------------------------------------

  lemma BeforeInPrefix(xs: seq<Id>, ys: seq<Id>, x: Id, y: Id)
    requires Before(xs, x, y) && xs <= ys
    ensures Before(ys, x, y)
  {
    var i, j :| 0 <= i < j < |xs| && xs[i] == x && xs[j] == y;
    assert ys[i] == x && ys[j] == y;
  }

  lemma PrefixIsBefore(xs: seq<Id>, ys: seq<Id>, x: Id, y: Id)
    requires xs <= ys && x in xs && y in ys && y !in xs
    ensures Before(ys, x, y)
  {
    var i :| 0 <= i < |xs| && xs[i] == x;
    var j :| 0 <= j < |ys| && ys[j] == y;
    assert forall n :: 0 <= n < |xs| ==> ys[n] == xs[n];
    assert forall n :: 0 <= n < |xs| ==> ys[n] != y;
  }

  lemma BeforeInTail(xs: seq<Id>, ys: seq<Id>, x: Id, y: Id)
    requires Before(ys, x, y)
    ensures Before(xs + ys, x, y)
  {
    var i, j :| 0 <= i < j < |ys| && ys[i] == x && ys[j] == y;
    assert (xs + ys)[|xs| + i] == x && (xs + ys)[|xs| + j] == y;
  }

  lemma HeadIsBefore(x: Id, ys: seq<Id>, y: Id)
    requires y in ys
    ensures Before([x] + ys, x, y)
  {
    var j :| 0 <= j < |ys| && ys[j] == y;
    assert ([x] + ys)[0] == x && ([x] + ys)[j + 1] == y;
  }

  /** Views that are not planned yet are appended as they come. */
  lemma {:induction false} PlanEachAppends(plan: seq<Id>, views: map<Id, View>, ids: seq<Id>)
    requires Distinct(ids) && forall i :: 0 <= i < |ids| ==> ids[i] != "" && ids[i] in views && ids[i] !in plan
    ensures PlanEach(plan, views, ids) == plan + ids
    decreases |ids|
  {
    if ids != [] {
      var more := PlanOne(plan, views, Some(ids[0]));
      assert more == plan + [ids[0]];
      assert forall i :: 1 <= i < |ids| ==> ids[i] !in more;
      PlanEachAppends(more, views, ids[1..]);
      assert more + ids[1..] == plan + ids;
    } else {
      assert plan + ids == plan;
    }
  }

  // ---------------------------------------------------------------------------
  // Chrome
  // ---------------------------------------------------------------------------

  lemma {:induction false} ChromeIn(s: State, order: seq<Id>, x: Id)
    ensures x in ChromeViews(s, order) <==>
              x in order && x in s.views && s.views[x].hostChrome && s.views[x].visible
  {
    if order != [] {
      ChromeIn(s, order[1..], x);
    }
  }

  lemma {:induction false} ChromeDistinct(s: State, order: seq<Id>)
    requires Distinct(order)
    ensures Distinct(ChromeViews(s, order))
  {
    if order != [] {
      ChromeDistinct(s, order[1..]);
      ChromeIn(s, order[1..], order[0]);
    }
  }

  lemma {:induction false} ChromeBefore(s: State, order: seq<Id>, i: nat, j: nat)
    requires i < j < |order| && order[i] in ChromeViews(s, order) && order[j] in ChromeViews(s, order)
    ensures Before(ChromeViews(s, order), order[i], order[j])
  {
    ChromeIn(s, order, order[i]);
    ChromeIn(s, order, order[j]);
    var rest := ChromeViews(s, order[1..]);
    ChromeIn(s, order[1..], order[j]);
    if i == 0 {
      HeadIsBefore(order[0], rest, order[j]);
    } else {
      ChromeIn(s, order[1..], order[i]);
      ChromeBefore(s, order[1..], i - 1, j - 1);
      BeforeInTail(if order[0] in s.views && s.views[order[0]].hostChrome && s.views[order[0]].visible
                   then [order[0]] else [], rest, order[i], order[j]);
    }
  }

  /** While ready, the chrome part of the plan begins with the visible chrome in the order of creation. */
  lemma ChromePlanHolds(s: State)
    requires ViewsSane(s) && s.ready
    ensures ChromeViews(s, s.viewOrder) <= ChromePlan(s)
    ensures forall x :: x in ChromePlan(s) <==> InChrome(s, x)
  {
    var chrome := ChromeViews(s, s.viewOrder);
    ChromeDistinct(s, s.viewOrder);
    forall i | 0 <= i < |chrome| ensures chrome[i] != "" && chrome[i] in s.views {
      ChromeIn(s, s.viewOrder, chrome[i]);
    }
    PlanEachAppends([], s.views, chrome);
    assert [] + chrome == chrome;
    forall x ensures x in ChromePlan(s) <==> InChrome(s, x) {
      ChromeIn(s, s.viewOrder, x);
    }
  }

  // ---------------------------------------------------------------------------
  // Slots
  // ---------------------------------------------------------------------------

  lemma {:induction false} PanelsDistinct(s: State, order: seq<SlotId>)
    requires Bijective(s) && Distinct(order)
    ensures Distinct(SlotPanels(s, order))
  {
    if order != [] {
      var rest := SlotPanels(s, order[1..]);
      PanelsDistinct(s, order[1..]);
      SlotPanelsAre(s, order[1..]);
      if order[0] in s.slots && s.focused != Some(order[0]) {
        var p := s.slots[order[0]].panelId;
        assert s.panelToSlot[p] == order[0];
        forall k | k in s.slots && k in order[1..] ensures s.slots[k].panelId != p {
          assert s.panelToSlot[s.slots[k].panelId] == k;
        }
        assert p !in rest;
        DistinctCons(p, rest);
        assert SlotPanels(s, order) == [p] + rest;
      } else {
        assert SlotPanels(s, order) == [] + rest == rest;
      }
    }
  }

  lemma DistinctCons(x: Id, xs: seq<Id>)
    requires Distinct(xs) && x !in xs
    ensures Distinct([x] + xs)
  {
  }

  lemma {:induction false} PanelsBefore(s: State, order: seq<SlotId>, i: nat, j: nat)
    requires i < j < |order| && order[i] in s.slots && order[j] in s.slots
    requires s.focused != Some(order[i]) && s.focused != Some(order[j])
    ensures Before(SlotPanels(s, order), s.slots[order[i]].panelId, s.slots[order[j]].panelId)
  {
    var rest := SlotPanels(s, order[1..]);
    SlotPanelsAre(s, order[1..]);
    if i == 0 {
      assert order[j] in order[1..];
      HeadIsBefore(s.slots[order[0]].panelId, rest, s.slots[order[j]].panelId);
    } else {
      PanelsBefore(s, order[1..], i - 1, j - 1);
      BeforeInTail(if order[0] in s.slots && s.focused != Some(order[0]) then [s.slots[order[0]].panelId] else [],
                   rest, s.slots[order[i]].panelId, s.slots[order[j]].panelId);
    }
  }

  // ---------------------------------------------------------------------------
  // The layers
  // ---------------------------------------------------------------------------

  /** The two lower layers, to which the slots' panels are appended. */
  function LowerPlan(s: State): seq<Id> {
    PlanOne(ChromePlan(s), s.views, Fallback(s))
  }

  lemma LowerHolds(s: State)
    requires ViewsSane(s) && Bijective(s) && s.ready
    ensures ChromePlan(s) <= LowerPlan(s) && Planned(LowerPlan(s), s.views)
    ensures forall x :: x in LowerPlan(s) <==> InChrome(s, x) || IsFallback(s, x)
  {
    ChromePlanHolds(s);
    ChromePlanIs(s);
    hide ChromePlan, Lists;
    PlanOnePlanned(ChromePlan(s), s.views, Fallback(s));
    forall x ensures x in LowerPlan(s) <==> InChrome(s, x) || IsFallback(s, x) {
      PlanOneIs(ChromePlan(s), s.views, Fallback(s), x);
    }
  }

  /** No slot's panel is in a lower layer. */
  lemma SlotsAreHigher(s: State, k: SlotId)
    requires Inv(s) && s.ready && k in s.slots
    ensures s.slots[k].panelId !in LowerPlan(s) && s.slots[k].panelId in s.views && s.slots[k].panelId != ""
  {
    LowerHolds(s);
    hide LowerPlan, Lists, ChildrenSane, GateExact;
  }

  /** While ready the slots without the focus follow the lower layers in slot order, and the focused one is last. */
  lemma PlanIsLayers(s: State)
    requires Inv(s) && s.ready
    ensures var panels := SlotPanels(s, s.slotOrder);
      Plan(s) == LowerPlan(s) + panels
                 + (if s.focused.Some? then [s.slots[s.focused.value].panelId] else [])
  {
    hide Plan, PlanEach, SlotPanels, LowerPlan, ViewsSane, ChildrenSane, GateExact, Lists;
    var panels := SlotPanels(s, s.slotOrder);
    PanelPlanIs(s, panels);
    PanelsAppend(s, panels);
    if s.focused.Some? {
      FocusedIsNew(s);
      SlotsAreHigher(s, s.focused.value);
    }
  }

  lemma PanelsAppend(s: State, panels: seq<Id>)
    requires Inv(s) && s.ready && panels == SlotPanels(s, s.slotOrder)
    ensures PlanEach(LowerPlan(s), s.views, panels) == LowerPlan(s) + panels
  {
    SlotPanelsAre(s, s.slotOrder);
    PanelsDistinct(s, s.slotOrder);
    hide Plan, PlanEach, SlotPanels, LowerPlan, Table, ViewsSane, ChildrenSane, GateExact, Lists;
    forall i | 0 <= i < |panels|
      ensures panels[i] != "" && panels[i] in s.views && panels[i] !in LowerPlan(s) {
      assert panels[i] in panels;
      var k :| k in s.slots && k in s.slotOrder && s.focused != Some(k) && s.slots[k].panelId == panels[i];
      SlotsAreHigher(s, k);
    }
    PlanEachAppends(LowerPlan(s), s.views, panels);
  }

  lemma PanelPlanIs(s: State, panels: seq<Id>)
    requires s.ready && panels == SlotPanels(s, s.slotOrder)
    ensures Plan(s) == PlanOne(PlanEach(LowerPlan(s), s.views, panels), s.views, FocusedSlotPanel(s))
  {
  }

  lemma FocusedIsNew(s: State)
    requires Table(s) && s.focused.Some?
    ensures s.focused.value in s.slots && s.slots[s.focused.value].panelId !in SlotPanels(s, s.slotOrder)
  {
    SlotPanelsAre(s, s.slotOrder);
    var p := s.slots[s.focused.value].panelId;
    forall k | k in s.slots && s.focused != Some(k) ensures s.slots[k].panelId != p {
      assert s.panelToSlot[s.slots[k].panelId] == k;
    }
  }

  /** Exactly the views that are raised. */
  lemma PlanHolds(s: State, x: Id)
    requires Inv(s)
    ensures x in Plan(s) <==>
      if s.ready then InChrome(s, x) || IsFallback(s, x) || InSomeSlot(s, x)
      else x == SHELL || (!s.hideUntilReady && IsFallback(s, x))
  {
    if s.ready {
      PlanIsLayers(s);
      LowerHolds(s);
      SlotPanelsAre(s, s.slotOrder);
      hide Plan, LowerPlan, SlotPanels, Distinct, ChildrenSane, GateExact;
      SlotsHold(s, x);
    } else {
      NoPanels(s, s.slotOrder);
    }
  }

  lemma {:induction false} NoPanels(s: State, order: seq<SlotId>)
    requires s.slots == map[]
    ensures SlotPanels(s, order) == []
  {
    if order != [] {
      NoPanels(s, order[1..]);
    }
  }

  lemma SlotsHold(s: State, x: Id)
    requires Table(s) && Lists(s.slotOrder, s.slots.Keys)
    ensures InSomeSlot(s, x) <==>
      x in SlotPanels(s, s.slotOrder) || (s.focused.Some? && s.slots[s.focused.value].panelId == x)
  {
    SlotPanelsAre(s, s.slotOrder);
  }

  /** Chrome is below every panel, and the fallback below every panel in a slot. */
  lemma ChromeIsBelow(s: State, x: Id, y: Id)
    requires Inv(s) && s.ready && InChrome(s, x) && (IsFallback(s, y) || InSomeSlot(s, y)) && !InChrome(s, y)
    ensures Before(Plan(s), x, y)
  {
    PlanIsLayers(s);
    LowerHolds(s);
    ChromePlanHolds(s);
    PlanHolds(s, y);
    hide Inv, Plan, LowerPlan, ChromePlan, InChrome, IsFallback, InSomeSlot;
    PrefixIsBefore(ChromePlan(s), Plan(s), x, y);
  }

  lemma FallbackIsBelow(s: State, x: Id, y: Id)
    requires Inv(s) && s.ready && IsFallback(s, x) && InSomeSlot(s, y)
    ensures Before(Plan(s), x, y)
  {
    PlanIsLayers(s);
    LowerHolds(s);
    PlanHolds(s, y);
    SlotsAreHigher(s, s.panelToSlot[y]);
    hide Inv, Plan, LowerPlan, IsFallback, InSomeSlot;
    PrefixIsBefore(LowerPlan(s), Plan(s), x, y);
  }

  /** Visible chrome is stacked in the order of creation. */
  lemma ChromeInOrder(s: State, i: nat, j: nat)
    requires Inv(s) && s.ready && i < j < |s.viewOrder|
    requires s.viewOrder[i] in s.views && s.views[s.viewOrder[i]].hostChrome && s.views[s.viewOrder[i]].visible
    requires s.viewOrder[j] in s.views && s.views[s.viewOrder[j]].hostChrome && s.views[s.viewOrder[j]].visible
    ensures Before(Plan(s), s.viewOrder[i], s.viewOrder[j])
  {
    PlanIsLayers(s);
    LowerHolds(s);
    ChromePlanHolds(s);
    ChromeIn(s, s.viewOrder, s.viewOrder[i]);
    ChromeIn(s, s.viewOrder, s.viewOrder[j]);
    hide Inv, Plan, LowerPlan, ChromePlan, InChrome;
    ChromeBefore(s, s.viewOrder, i, j);
    BeforeInPrefix(ChromeViews(s, s.viewOrder), Plan(s), s.viewOrder[i], s.viewOrder[j]);
  }

  /** Slots without the focus are stacked in slot order. */
  lemma SlotsInOrder(s: State, i: nat, j: nat)
    requires Inv(s) && s.ready && i < j < |s.slotOrder| && s.slotOrder[i] in s.slots && s.slotOrder[j] in s.slots
    requires s.focused != Some(s.slotOrder[i]) && s.focused != Some(s.slotOrder[j])
    ensures Before(Plan(s), s.slots[s.slotOrder[i]].panelId, s.slots[s.slotOrder[j]].panelId)
  {
    PlanIsLayers(s);
    hide Inv, Plan, LowerPlan;
    var x, y := s.slots[s.slotOrder[i]].panelId, s.slots[s.slotOrder[j]].panelId;
    var panels := SlotPanels(s, s.slotOrder);
    PanelsBefore(s, s.slotOrder, i, j);
    BeforeInTail(LowerPlan(s), panels, x, y);
    BeforeInPrefix(LowerPlan(s) + panels, Plan(s), x, y);
  }

  /** While not ready the gate is raised last. */
  lemma GateIsLast(s: State)
    requires Inv(s) && !s.ready
    ensures |Plan(s)| > 0 && Plan(s)[|Plan(s)| - 1] == SHELL
  {
    PanelPlanHasNoGate(s);
    ShellIsNotFallback(s);
    hide PanelPlan, Lists, ChildrenSane;
  }

  /**
   A reconcile changes only the child list: it stays if no visible view is above the
   planned ones, which are in order, and otherwise these and then the overlays come on top.
   */
  lemma ReconcileMoves(s: State, desired: seq<Child>, shown: set<Child>)
    requires Inv(s) && forall c :: c in shown <==> c.Managed? && c.id in s.views && s.views[c.id].visible
    requires |desired| == |Plan(s)| && forall i :: 0 <= i < |desired| ==> desired[i] == Managed(Plan(s)[i])
    ensures var (s', outcome) := Apply(s, Reconcile);
      && outcome == Done && s' == s.(children := s'.children)
      && (Right(s.children, desired, shown) ==> s'.children == s.children)
      && (!Right(s.children, desired, shown) ==>
            s'.children
            == Others(s.children, (set c | c in desired) + set c | c in s.overlays) + desired + s.overlays)
  {
    hide Reconciled, Plan, Lists, Right, Others;
    PlanIs(s);
    AsChildrenDistinct(Plan(s));
    ShownIs(s, shown);
    assert desired == AsChildren(Plan(s));
    assert Apply(s, Reconcile) == (Restack(s), Done);
    hide Apply;
    ReconcileIs(s.children, AsChildren(Plan(s)), Shown(s), s.overlays);
  }

  lemma ShownIs(s: State, shown: set<Child>)
    requires forall c :: c in shown <==> c.Managed? && c.id in s.views && s.views[c.id].visible
    ensures Shown(s) == shown
  {
    forall c ensures c in Shown(s) <==> c in shown {
    }
  }
}
