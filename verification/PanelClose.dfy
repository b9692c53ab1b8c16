/**
 Closing a panel: which panel gets the focus.  The choice is made before the server
 removes the subtree, so it has to be one that is still there afterwards.
 */
module PanelClose {
  import opened Options
  import opened PanelTree

  /** The tree after the panel and everything below it is gone. */
  function Remove(f: Forest, id: Id): Forest {
    match f
    case Nil => Nil
    case Cons(p, rest) =>
      if p.id == id then rest else Cons(p.(children := Remove(p.children, id)), Remove(rest, id))
  }

  predicate HasRoot(f: Forest, id: Id) {
    f.Cons? && (f.panel.id == id || HasRoot(f.rest, id))
  }

  /** `findParentId`. */
  function FindParent(f: Forest, id: Id): Option<Panel> {
    match f
    case Nil => None
    case Cons(p, rest) =>
      if HasRoot(p.children, id) then Some(p)
      else if FindParent(p.children, id).Some? then FindParent(p.children, id)
      else FindParent(rest, id)
  }

  /** `isDescendantOf` walks at most 100 parents up. */
  predicate WillClose(roots: Forest, focused: Option<Id>, id: Id) {
    && focused.Some?
    && (focused.value == id
        || (Find(roots, id).Some? && Distance(Find(roots, id).value, focused.value).Some?
            && Distance(Find(roots, id).value, focused.value).value <= MAX_DEPTH))
  }

  /** The last of the siblings other than the one that closes. */
  function LastOther(f: Forest, id: Id): Option<Id> {
    match f
    case Nil => None
    case Cons(p, rest) =>
      if LastOther(rest, id).Some? then LastOther(rest, id)
      else if p.id != id then Some(p.id) else None
  }

  /** The root after the one that closes, or else the one before it. */
  function NeighbourRoot(f: Forest, id: Id, before: Option<Id>): Option<Id> {
    match f
    case Nil => None
    case Cons(p, rest) =>
      if p.id == id then (if rest.Cons? then Some(rest.panel.id) else before)
      else NeighbourRoot(rest, id, Some(p.id))
  }

  /** The panel that `closePanel` navigates to, if any. */
  function FocusAfterClose(roots: Forest, focused: Option<Id>, id: Id): Option<Id> {
    if !WillClose(roots, focused, id) then None
    else
      match FindParent(roots, id)
      case Some(parent) =>
        var sibling := LastOther(parent.children, id);
        if sibling.Some? then sibling else Some(parent.id)
      case None => NeighbourRoot(roots, id, None)
  }

  // ---------------------------------------------------------------------------
  // The choice survives the close
  // ---------------------------------------------------------------------------

  lemma {:induction false} RootsAreIn(f: Forest, id: Id)
    ensures HasRoot(f, id) ==> id in Ids(f)
  {
    match f
    case Nil =>
    case Cons(p, rest) => RootsAreIn(rest, id);
  }

  lemma {:induction false} RemoveAbsent(f: Forest, id: Id)
    requires id !in Ids(f)
    ensures Remove(f, id) == f
  {
    match f
    case Nil =>
    case Cons(p, rest) =>
      RemoveAbsent(p.children, id);
      RemoveAbsent(rest, id);
  }

  /** Removing a panel takes its own ids away and no others. */
  lemma {:induction false} RemovedIds(f: Forest, id: Id)
    requires Unique(f)
    ensures Ids(Remove(f, id))
         == if Find(f, id).Some? then Ids(f) - {id} - Ids(Find(f, id).value.children) else Ids(f)
    ensures Find(f, id).Some? ==> Ids(Find(f, id).value.children) <= Ids(f)
  {
    match f
    case Nil =>
    case Cons(p, rest) =>
      FindIn(p.children, id);
      FindIn(rest, id);
      RemovedIds(p.children, id);
      RemovedIds(rest, id);
  }

  /** Another panel beside the one that is removed stays. */
  lemma {:induction false} OtherRootStays(f: Forest, id: Id, other: Id)
    requires Unique(f) && HasRoot(f, other) && other != id && HasRoot(f, id)
    ensures other in Ids(Remove(f, id))
  {
    match f
    case Cons(p, rest) =>
      RootsAreIn(rest, other);
      RootsAreIn(rest, id);
      if p.id != id && p.id != other {
        OtherRootStays(rest, id, other);
      }
  }

  /** The parent stays, and so does any sibling. */
  lemma {:induction false} ParentStays(f: Forest, id: Id, other: Id)
    requires Unique(f) && FindParent(f, id).Some?
    ensures id in Ids(f)
    ensures FindParent(f, id).value.id in Ids(Remove(f, id))
    ensures HasRoot(FindParent(f, id).value.children, other) && other != id ==> other in Ids(Remove(f, id))
  {
    match f
    case Cons(p, rest) =>
      RootsAreIn(p.children, id);
      if HasRoot(p.children, id) {
        if HasRoot(p.children, other) && other != id {
          OtherRootStays(p.children, id, other);
        }
      } else if FindParent(p.children, id).Some? {
        ParentStays(p.children, id, other);
      } else {
        ParentStays(rest, id, other);
      }
  }

  lemma {:induction false} LastOtherIsRoot(f: Forest, id: Id)
    ensures LastOther(f, id).Some? ==> HasRoot(f, LastOther(f, id).value) && LastOther(f, id).value != id
  {
    match f
    case Nil =>
    case Cons(p, rest) =>
      LastOtherIsRoot(rest, id);
  }

  lemma {:induction false} NeighbourIsRoot(f: Forest, id: Id, before: Option<Id>)
    requires Unique(f) && HasRoot(f, id)
    ensures var n := NeighbourRoot(f, id, before);
      && (n.Some? ==> n == before || (HasRoot(f, n.value) && n.value != id))
      && (n == None <==> before == None && f.panel.id == id && f.rest == Nil)
  {
    match f
    case Cons(p, rest) =>
      if p.id != id {
        NeighbourIsRoot(rest, id, Some(p.id));
      } else if rest.Cons? {
        RootsAreIn(rest, rest.panel.id);
      }
  }

  lemma {:induction false} RootOrChild(f: Forest, id: Id)
    requires id in Ids(f)
    ensures HasRoot(f, id) || FindParent(f, id).Some?
  {
    match f
    case Cons(p, rest) =>
      if id in Ids(p.children) {
        RootOrChild(p.children, id);
      } else if id in Ids(rest) {
        RootOrChild(rest, id);
      }
  }

  /** The panel chosen for focus is still in the tree after the close. */
  lemma FocusSurvivesClose(roots: Forest, focused: Option<Id>, id: Id)
    requires Unique(roots) && id in Ids(roots)
    ensures var next := FocusAfterClose(roots, focused, id);
      next.Some? ==> next.value in Ids(Remove(roots, id))
  {
    if WillClose(roots, focused, id) {
      RootOrChild(roots, id);
      var parent := FindParent(roots, id);
      if parent.Some? {
        LastOtherIsRoot(parent.value.children, id);
        var sibling := LastOther(parent.value.children, id);
        ParentStays(roots, id, if sibling.Some? then sibling.value else id);
      } else {
        NeighbourIsRoot(roots, id, None);
        var next := NeighbourRoot(roots, id, None);
        if next.Some? {
          OtherRootStays(roots, id, next.value);
        }
      }
    }
  }

  /** Nothing is chosen exactly when the focus is not closing, or the only root is. */
  lemma NoFocusExactly(roots: Forest, focused: Option<Id>, id: Id)
    requires Unique(roots) && id in Ids(roots)
    ensures FocusAfterClose(roots, focused, id) == None <==>
              !WillClose(roots, focused, id)
              || (FindParent(roots, id) == None && roots.panel.id == id && roots.rest == Nil)
  {
    RootOrChild(roots, id);
    if FindParent(roots, id) == None {
      NeighbourIsRoot(roots, id, None);
    }
  }

  lemma {:induction false} ChildOnIn(f: Forest, id: Id)
    ensures ChildOn(f, id).Some? <==> id in Ids(f)
  {
    match f
    case Nil =>
    case Cons(p, rest) =>
      ChildOnIn(p.children, id);
      ChildOnIn(rest, id);
  }

  /**
   The focus is closing, by what the close removes, exactly when it is found to be,
   except for a panel more than 100 levels below the one that closes: that one is
   removed and nothing else is focused.
   */
  lemma ClosingIsNoticedUnlessDeep(roots: Forest, focused: Id, id: Id)
    requires Unique(roots) && id in Ids(roots) && focused in Ids(roots)
    ensures Find(roots, id).Some?
    ensures var down := Distance(Find(roots, id).value, focused);
      && (focused !in Ids(Remove(roots, id)) <==> down.Some?)
      && (WillClose(roots, Some(focused), id) <==> down.Some? && down.value <= MAX_DEPTH)
  {
    FindIn(roots, id);
    RemovedIds(roots, id);
    ChildOnIn(Find(roots, id).value.children, focused);
  }

  // ---------------------------------------------------------------------------
  // A panel that is too deep
  // ---------------------------------------------------------------------------

  /** The id of the panel at a level, with as many strokes. */
  function Level(n: nat): Id {
    if n == 0 then "p" else Level(n - 1) + "|"
  }

  /** A panel at a level with a single panel below it, and so on for some levels. */
  function Chain(level: nat, below: nat): Forest
    decreases below
  {
    var children := if below == 0 then Nil else Chain(level + 1, below - 1);
    Cons(Panel(Level(level), "", None, None, Snapshot("app", "ctx", None, "null"), NO_ARTIFACTS, children), Nil)
  }

  lemma {:induction false} LevelLength(n: nat)
    ensures |Level(n)| == n + 1
  {
    if n > 0 {
      LevelLength(n - 1);
    }
  }

  lemma {:induction false} ChainIds(level: nat, below: nat)
    ensures forall id :: id in Ids(Chain(level, below)) ==> level < |id| <= level + below + 1
    ensures Unique(Chain(level, below)) && Level(level + below) in Ids(Chain(level, below))
    decreases below
  {
    LevelLength(level);
    if below > 0 {
      ChainIds(level + 1, below - 1);
    }
  }

  lemma {:induction false} ChainDistance(level: nat, below: nat)
    ensures Distance(Chain(level, below).panel, Level(level + below)) == Some(below)
    decreases below
  {
    LevelLength(level);
    LevelLength(level + below);
    if below > 0 {
      ChainDistance(level + 1, below - 1);
    }
  }

  /** In a chain of 102 panels closing the first removes the focused last one, and nothing else is focused. */
  lemma DeepFocusIsLost()
    ensures var roots, focused := Chain(0, 101), Level(101);
      && Unique(roots) && Level(0) in Ids(roots) && focused in Ids(roots)
      && focused !in Ids(Remove(roots, Level(0)))
      && !WillClose(roots, Some(focused), Level(0))
      && FocusAfterClose(roots, Some(focused), Level(0)) == None
  {
    hide Chain, Level, Distance, Remove, Ids, Unique;
    var roots, focused := Chain(0, 101), Level(101);
    ChainIds(0, 101);
    ChainIds(0, 0);
    ChainDistance(0, 101);
    ChainFirst(0, 101);
    ClosingIsNoticedUnlessDeep(roots, focused, Level(0));
  }

  lemma ChainFirst(level: nat, below: nat)
    ensures Find(Chain(level, below), Level(level)) == Some(Chain(level, below).panel)
    ensures Level(level) in Ids(Chain(level, below))
  {
  }
}
