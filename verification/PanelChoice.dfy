/**
 The focus after a close, stated over the lists of ids that a tree consists of: the last
 other sibling, else the parent, and for a root the next root, else the one before it.
 */
module PanelChoice {
  import opened Options
  import opened PanelTree
  import opened PanelClose
  import opened PanelFocus

  /** The ids of the panels side by side at the top. */
  function RootIds(f: Forest): seq<Id> {
    match f
    case Nil => []
    case Cons(p, rest) => [p.id] + RootIds(rest)
  }

  /** Somewhere in the tree the panel `parent` has these children, in this order. */
  predicate HasChildren(f: Forest, parent: Id, children: seq<Id>) {
    match f
    case Nil => false
    case Cons(p, rest) =>
      || (p.id == parent && RootIds(p.children) == children)
      || HasChildren(p.children, parent, children)
      || HasChildren(rest, parent, children)
  }

  lemma {:induction false} RootIdsAre(f: Forest, id: Id)
    ensures HasRoot(f, id) <==> id in RootIds(f)
    ensures id in RootIds(f) ==> id in Ids(f)
    ensures |RootIds(f)| == 0 <==> f == Nil
  {
    match f
    case Nil =>
    case Cons(p, rest) => RootIdsAre(rest, id);
  }

  lemma {:induction false} ChildrenAreIn(f: Forest, parent: Id, children: seq<Id>, id: Id)
    requires HasChildren(f, parent, children) && id in children
    ensures id in Ids(f) && parent in Ids(f)
  {
    var Cons(p, rest) := f;
    if p.id == parent && RootIds(p.children) == children {
      RootIdsAre(p.children, id);
    } else if HasChildren(p.children, parent, children) {
      ChildrenAreIn(p.children, parent, children, id);
    } else {
      ChildrenAreIn(rest, parent, children, id);
    }
  }

  /** The panel found as the parent is the one whose children hold the id. */
  lemma {:induction false} ParentHolds(f: Forest, parent: Id, children: seq<Id>, id: Id)
    requires Unique(f) && HasChildren(f, parent, children) && id in children
    ensures FindParent(f, id).Some? && FindParent(f, id).value.id == parent
    ensures RootIds(FindParent(f, id).value.children) == children && Unique(FindParent(f, id).value.children)
  {
    var Cons(p, rest) := f;
    RootIdsAre(p.children, id);
    if p.id == parent && RootIds(p.children) == children {
    } else if HasChildren(p.children, parent, children) {
      ChildrenAreIn(p.children, parent, children, id);
      NotAlsoARoot(p.children, parent, children, id);
      ParentHolds(p.children, parent, children, id);
    } else {
      ChildrenAreIn(rest, parent, children, id);
      ParentHolds(rest, parent, children, id);
      NoParent(p.children, id);
    }
  }

  /** A child is not a root as well. */
  lemma {:induction false} NotAlsoARoot(f: Forest, parent: Id, children: seq<Id>, id: Id)
    requires Unique(f) && HasChildren(f, parent, children) && id in children
    ensures !HasRoot(f, id)
  {
    var Cons(p, rest) := f;
    RootIdsAre(rest, id);
    RootsAreIn(rest, id);
    if p.id == parent && RootIds(p.children) == children {
      RootIdsAre(p.children, id);
    } else if HasChildren(p.children, parent, children) {
      ChildrenAreIn(p.children, parent, children, id);
    } else {
      ChildrenAreIn(rest, parent, children, id);
      NotAlsoARoot(rest, parent, children, id);
    }
  }

  lemma {:induction false} LastOtherIs(f: Forest, id: Id, i: nat)
    requires Unique(f) && i < |RootIds(f)| && RootIds(f)[i] == id
    ensures var ids := RootIds(f);
      LastOther(f, id) == if |ids| == 1 then None
                          else if i == |ids| - 1 then Some(ids[i - 1]) else Some(ids[|ids| - 1])
  {
    var Cons(p, rest) := f;
    if i == 0 {
      RootIdsAre(rest, id);
      if rest.Cons? {
        LastOfOthers(rest, id);
      }
    } else {
      RootIdsAre(rest, id);
      LastOtherIs(rest, id, i - 1);
    }
  }

  lemma {:induction false} LastOfOthers(f: Forest, id: Id)
    requires f.Cons? && id !in RootIds(f)
    ensures LastOther(f, id) == Some(RootIds(f)[|RootIds(f)| - 1])
  {
    if f.rest.Cons? {
      LastOfOthers(f.rest, id);
    }
  }

  lemma {:induction false} NeighbourIs(f: Forest, id: Id, before: Option<Id>, i: nat)
    requires Unique(f) && i < |RootIds(f)| && RootIds(f)[i] == id
    ensures var ids := RootIds(f);
      NeighbourRoot(f, id, before)
      == if i + 1 < |ids| then Some(ids[i + 1]) else if i > 0 then Some(ids[i - 1]) else before
  {
    var Cons(p, rest) := f;
    if i > 0 {
      RootIdsAre(rest, id);
      NeighbourIs(rest, id, Some(p.id), i - 1);
    }
  }

  // ---------------------------------------------------------------------------
  // The choice
  // ---------------------------------------------------------------------------

  /** A closed child hands the focus to the last of its siblings, an only child to its parent. */
  lemma ChildChoice(roots: Forest, focused: Option<Id>, parent: Id, children: seq<Id>, i: nat)
    requires Unique(roots) && HasChildren(roots, parent, children) && i < |children|
    requires WillClose(roots, focused, children[i])
    ensures FocusAfterClose(roots, focused, children[i])
         == Some(if |children| == 1 then parent
                 else if i == |children| - 1 then children[i - 1] else children[|children| - 1])
  {
    var id := children[i];
    ParentHolds(roots, parent, children, id);
    LastOtherIs(FindParent(roots, id).value.children, id, i);
  }

  /** A closed root hands it to the next root, the last root to the one before it, the only root to none. */
  lemma RootChoice(roots: Forest, focused: Option<Id>, i: nat)
    requires Unique(roots) && i < |RootIds(roots)|
    requires WillClose(roots, focused, RootIds(roots)[i])
    ensures var ids := RootIds(roots);
      FocusAfterClose(roots, focused, ids[i])
      == if i + 1 < |ids| then Some(ids[i + 1]) else if i > 0 then Some(ids[i - 1]) else None
  {
    var id := RootIds(roots)[i];
    RootIdsAre(roots, id);
    RootHasNoParent(roots, id);
    NeighbourIs(roots, id, None, i);
  }

  lemma {:induction false} RootHasNoParent(f: Forest, id: Id)
    requires Unique(f) && HasRoot(f, id)
    ensures FindParent(f, id) == None
  {
    var Cons(p, rest) := f;
    RootIdsAre(rest, id);
    RootIdsAre(p.children, id);
    NoParent(p.children, id);
    if p.id == id {
      NoParent(rest, id);
    } else {
      RootHasNoParent(rest, id);
    }
  }

  /** Every panel is a root or some panel's child. */
  lemma {:induction false} RootOrSomeChild(f: Forest, id: Id) returns (parent: Id, children: seq<Id>)
    requires id in Ids(f)
    ensures id in RootIds(f) || (HasChildren(f, parent, children) && id in children)
  {
    var Cons(p, rest) := f;
    if id in Ids(p.children) {
      parent, children := RootOrSomeChild(p.children, id);
      if id in RootIds(p.children) {
        parent, children := p.id, RootIds(p.children);
      }
    } else if id in Ids(rest) {
      parent, children := RootOrSomeChild(rest, id);
    } else {
      parent, children := id, [];
    }
  }

  // ---------------------------------------------------------------------------
  // When the focus is closing
  // ---------------------------------------------------------------------------

  /** `above` is reached from `id` by going from a child to its parent `n` times. */
  ghost predicate Up(f: Forest, id: Id, above: Id, n: nat)
    decreases n
  {
    if n == 0 then id == above && id in Ids(f)
    else exists child, children :: HasChildren(f, above, children) && child in children && Up(f, id, child, n - 1)
  }

  lemma {:induction false} UpIsAncestor(f: Forest, id: Id, above: Id, n: nat)
    requires Unique(f)
    ensures Up(f, id, above, n) <==> Ancestor(f, id, n) == Some(above)
    decreases n
  {
    AncestorIn(f, id, n);
    if n == 0 {
      AncestorIn(f, id, 0);
    } else if Up(f, id, above, n) {
      var child, children :| HasChildren(f, above, children) && child in children && Up(f, id, child, n - 1);
      UpIsAncestor(f, id, child, n - 1);
      ParentHolds(f, above, children, child);
      ParentIsNext(f, id, n - 1);
    } else if Ancestor(f, id, n) == Some(above) {
      Highest(f, id, n);
      Highest(f, id, n - 1);
      var child := Ancestor(f, id, n - 1).value;
      UpIsAncestor(f, id, child, n - 1);
      ParentIsNext(f, id, n - 1);
      ParentHasChildren(f, child);
      assert false;
    }
  }

  lemma {:induction false} ParentHasChildren(f: Forest, id: Id)
    requires FindParent(f, id).Some?
    ensures var parent := FindParent(f, id).value; var children := RootIds(parent.children);
      HasChildren(f, parent.id, children) && id in children
  {
    var Cons(p, rest) := f;
    RootIdsAre(p.children, id);
    if HasRoot(p.children, id) {
    } else if FindParent(p.children, id).Some? {
      ParentHasChildren(p.children, id);
    } else {
      ParentHasChildren(rest, id);
    }
  }

  lemma {:induction false} AncestorDistance(f: Forest, id: Id, above: Id, n: nat)
    requires Unique(f)
    ensures Ancestor(f, id, n) == Some(above)
       <==> Find(f, above).Some? && Distance(Find(f, above).value, id) == Some(n)
  {
    match f
    case Nil =>
    case Cons(p, rest) =>
      AncestorDistance(p.children, id, above, n);
      AncestorDistance(rest, id, above, n);
      AncestorIn(p.children, id, n);
      AncestorIn(rest, id, n);
      Highest(p.children, id, n);
      FindIn(p.children, above);
      FindIn(rest, above);
  }

  /** The focus is closing exactly if it is the closed panel or up to 100 parents above it is the closed panel. */
  lemma ClosingIff(roots: Forest, focused: Id, id: Id)
    requires Unique(roots) && id in Ids(roots)
    ensures WillClose(roots, Some(focused), id) <==> exists n: nat :: n <= 100 && Up(roots, focused, id, n)
  {
    FindIn(roots, id);
    var down := Distance(Find(roots, id).value, focused);
    if n: nat :| n <= 100 && Up(roots, focused, id, n) {
      UpIsAncestor(roots, focused, id, n);
      AncestorDistance(roots, focused, id, n);
    }
    if down.Some? {
      AncestorDistance(roots, focused, id, down.value);
      UpIsAncestor(roots, focused, id, down.value);
    }
    assert focused == id ==> down == Some(0);
  }

  // ---------------------------------------------------------------------------
  // The selected path
  // ---------------------------------------------------------------------------

  /** Going from `id` to its parent fewer than 100 times ends at `child`, a child of `x`. */
  ghost predicate WayDown(f: Forest, id: Id, x: Id, child: Id) {
    exists n: nat, children :: n < 100 && Up(f, id, child, n) && HasChildren(f, x, children) && child in children
  }

  lemma {:induction false} FoundHasChildren(f: Forest, x: Id)
    requires Find(f, x).Some?
    ensures HasChildren(f, x, RootIds(Find(f, x).value.children))
  {
    var Cons(p, rest) := f;
    FindIn(f, x);
    if p.id == x {
    } else if Find(p.children, x).Some? {
      FoundHasChildren(p.children, x);
    } else {
      FoundHasChildren(rest, x);
    }
  }

  /** What is below a panel is found in the tree as it is found there. */
  lemma {:induction false} FindBelow(f: Forest, x: Id, y: Id)
    requires Unique(f) && Find(f, x).Some? && y in Ids(Find(f, x).value.children)
    ensures Find(f, y) == Find(Find(f, x).value.children, y) && y in Ids(f)
    ensures Unique(Find(f, x).value.children)
  {
    var Cons(p, rest) := f;
    FindIn(p.children, y);
    FindIn(rest, y);
    if p.id == x {
    } else if Find(p.children, x).Some? {
      FindBelow(p.children, x, y);
    } else {
      FindBelow(rest, x, y);
    }
  }

  lemma ChildOnIsUp(f: Forest, id: Id, x: Id)
    requires Unique(f) && Find(f, x).Some?
    requires ChildOn(Find(f, x).value.children, id).Some?
    ensures var (child, n) := ChildOn(Find(f, x).value.children, id).value;
      && Up(f, id, child, n)
      && HasChildren(f, x, RootIds(Find(f, x).value.children)) && child in RootIds(Find(f, x).value.children)
  {
    var below := Find(f, x).value.children;
    var (child, n) := ChildOn(below, id).value;
    Highest(below, id, n);
    RootIdsAre(below, child);
    FoundHasChildren(f, x);
    FindBelow(f, x, child);
    AncestorDistance(below, id, child, n);
    AncestorDistance(f, id, child, n);
    UpIsAncestor(f, id, child, n);
  }

  lemma UpIsChildOn(f: Forest, id: Id, x: Id, child: Id, n: nat, children: seq<Id>)
    requires Unique(f) && Find(f, x).Some?
    requires Up(f, id, child, n) && HasChildren(f, x, children) && child in children
    ensures x != id && ChildOn(Find(f, x).value.children, id) == Some((child, n))
  {
    assert Up(f, id, x, n + 1);
    UpIsAncestor(f, id, x, n + 1);
    AncestorDistance(f, id, x, n + 1);
    FindIn(f, x);
    ChildOnIsUp(f, id, x);
    UpIsAncestor(f, id, child, n);
    UpIsAncestor(f, id, ChildOn(Find(f, x).value.children, id).value.0, n);
  }

  lemma WayDownIs(f: Forest, id: Id, x: Id, child: Id)
    requires Unique(f) && Find(f, x).Some?
    ensures var on := ChildOn(Find(f, x).value.children, id);
      WayDown(f, id, x, child) <==> x != id && on.Some? && on.value.0 == child && on.value.1 < 100
  {
    var on := ChildOn(Find(f, x).value.children, id);
    if WayDown(f, id, x, child) {
      var n: nat, children :| n < 100 && Up(f, id, child, n) && HasChildren(f, x, children) && child in children;
      UpIsChildOn(f, id, x, child, n, children);
    } else if on.Some? && on.value.0 == child {
      ChildOnIsUp(f, id, x);
    }
  }

  lemma {:induction false} SelectedPanel(f: Forest, id: Id, x: Id)
    ensures Find(Select(f, id), x)
         == if Find(f, x).Some?
            then Some(Find(f, x).value.(children := Select(Find(f, x).value.children, id),
                                        selected := Chosen(Find(f, x).value, id)))
            else None
  {
    match f
    case Nil =>
    case Cons(p, rest) =>
      SelectedPanel(p.children, id, x);
      SelectedPanel(rest, id, x);
  }

  /**
   After a focus change exactly the panels on the way down to the focused one, up to 100
   of them, select the next panel on it; nothing else about any panel changes.
   */
  lemma SelectFollows(f: Forest, id: Id, x: Id)
    requires Unique(f) && x in Ids(f)
    ensures Find(f, x).Some? && Find(Select(f, id), x).Some?
    ensures var was, now := Find(f, x).value, Find(Select(f, id), x).value;
      && (forall child :: WayDown(f, id, x, child) ==> now.selected == Some(child))
      && ((forall child :: !WayDown(f, id, x, child)) ==> now.selected == was.selected)
      && now.title == was.title && now.position == was.position && now.snapshot == was.snapshot
      && now.artifacts == was.artifacts
  {
    hide WayDown, Find, ChildOn, Select;
    FindIn(f, x);
    SelectedPanel(f, id, x);
    forall child ensures var on := ChildOn(Find(f, x).value.children, id);
      WayDown(f, id, x, child) <==> x != id && on.Some? && on.value.0 == child && on.value.1 < 100 {
      WayDownIs(f, id, x, child);
    }
    var on := ChildOn(Find(f, x).value.children, id);
    if on.Some? {
      WayDownIs(f, id, x, on.value.0);
    }
  }

  // ---------------------------------------------------------------------------
  // A family
  // ---------------------------------------------------------------------------

  function Child(id: Id, rest: Forest): Forest {
    Cons(Panel(id, "", None, None, Snapshot("app", "ctx", None, "null"), NO_ARTIFACTS, Nil), rest)
  }

  function Family(children: Forest): Forest {
    Cons(Panel("p", "", None, None, Snapshot("app", "ctx", None, "null"), NO_ARTIFACTS, children), Nil)
  }

  /** Of three children the middle one hands the focus to the last, and the last one to the middle one. */
  lemma MiddleChild()
    ensures var roots := Family(Child("c1", Child("c2", Child("c3", Nil))));
      && Unique(roots)
      && FocusAfterClose(roots, Some("c2"), "c2") == Some("c3")
      && FocusAfterClose(roots, Some("c3"), "c3") == Some("c2")
  {
    var siblings := Child("c1", Child("c2", Child("c3", Nil)));
    var roots := Family(siblings);
    assert RootIds(siblings) == ["c1", "c2", "c3"];
    assert "c1" != "c2" && "c2" != "c3" && "c1" != "c3" && "c1"[0] != "p"[0];
    assert Ids(siblings) == {"c1", "c2", "c3"} && Unique(siblings);
    ChildChoice(roots, Some("c2"), "p", ["c1", "c2", "c3"], 1);
    ChildChoice(roots, Some("c3"), "p", ["c1", "c2", "c3"], 2);
  }
}
