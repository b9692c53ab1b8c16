/**
 The registry's walk from a focused panel up to its root, which selects each ancestor's
 child on the way, and the selection that the mirror's specification gives.
 */
module PanelFocus {
  import opened Options
  import opened PanelTree
  import opened PanelClose

  /** Selection by the ancestors of a panel up to some steps above it. */
  function SelectUpTo(f: Forest, id: Id, n: nat): Forest {
    match f
    case Nil => Nil
    case Cons(p, rest) =>
      Cons(p.(children := SelectUpTo(p.children, id, n), selected := ChosenUpTo(p, id, n)), SelectUpTo(rest, id, n))
  }

  function ChosenUpTo(p: Panel, id: Id, n: nat): Option<Id> {
    var child := ChildOn(p.children, id);
    if p.id != id && child.Some? && child.value.1 < n then Some(child.value.0) else p.selected
  }

  /** `selectedChildId` of one panel. */
  function SetSelected(f: Forest, id: Id, child: Id): Forest {
    match f
    case Nil => Nil
    case Cons(p, rest) =>
      var selected := if p.id == id then Some(child) else p.selected;
      Cons(p.(selected := selected, children := SetSelected(p.children, id, child)), SetSelected(rest, id, child))
  }

  /** The panel some steps above another one. */
  function Ancestor(f: Forest, id: Id, n: nat): Option<Id> {
    match f
    case Nil => None
    case Cons(p, rest) =>
      var d := Distance(p, id);
      if d == None then Ancestor(rest, id, n)
      else if n == d.value then Some(p.id)
      else if n < d.value then Ancestor(p.children, id, n)
      else None
  }

  lemma {:induction false} SelectUpToAll(f: Forest, id: Id)
    ensures SelectUpTo(f, id, MAX_DEPTH) == Select(f, id)
  {
    match f
    case Nil =>
    case Cons(p, rest) =>
      SelectUpToAll(p.children, id);
      SelectUpToAll(rest, id);
  }

  lemma {:induction false} SelectUpToNone(f: Forest, id: Id)
    ensures SelectUpTo(f, id, 0) == f
  {
    match f
    case Nil =>
    case Cons(p, rest) =>
      SelectUpToNone(p.children, id);
      SelectUpToNone(rest, id);
  }

  /** A panel that is not there has no ancestors, and selects nothing. */
  lemma {:induction false} NoAncestors(f: Forest, id: Id, n: nat)
    requires id !in Ids(f)
    ensures ChildOn(f, id) == None && Ancestor(f, id, n) == None && SelectUpTo(f, id, n) == f
  {
    match f
    case Nil =>
    case Cons(p, rest) =>
      NoAncestors(p.children, id, n);
      NoAncestors(rest, id, n);
  }

  lemma {:induction false} SetAbsent(f: Forest, id: Id, child: Id)
    requires id !in Ids(f)
    ensures SetSelected(f, id, child) == f
  {
    match f
    case Nil =>
    case Cons(p, rest) =>
      SetAbsent(p.children, id, child);
      SetAbsent(rest, id, child);
  }

  lemma {:induction false} SelectUpToIds(f: Forest, id: Id, n: nat)
    ensures Ids(SelectUpTo(f, id, n)) == Ids(f) && Shape(SelectUpTo(f, id, n)) == Shape(f)
  {
    match f
    case Nil =>
    case Cons(p, rest) =>
      SelectUpToIds(p.children, id, n);
      SelectUpToIds(rest, id, n);
  }

  /** Ancestors are in the tree, and there are some exactly when the panel is. */
  lemma {:induction false} AncestorIn(f: Forest, id: Id, n: nat)
    ensures Ancestor(f, id, n).Some? ==> Ancestor(f, id, n).value in Ids(f) && id in Ids(f)
    ensures ChildOn(f, id).Some? <==> id in Ids(f)
    ensures id in Ids(f) ==> Ancestor(f, id, 0) == Some(id)
  {
    match f
    case Nil =>
    case Cons(p, rest) =>
      AncestorIn(p.children, id, n);
      AncestorIn(rest, id, n);
  }

  /** The highest ancestor is the root that `ChildOn` finds. */
  lemma {:induction false} Highest(f: Forest, id: Id, n: nat)
    ensures ChildOn(f, id).Some? ==>
              && HasRoot(f, ChildOn(f, id).value.0)
              && Ancestor(f, id, ChildOn(f, id).value.1) == Some(ChildOn(f, id).value.0)
              && (n > ChildOn(f, id).value.1 ==> Ancestor(f, id, n) == None)
              && (n <= ChildOn(f, id).value.1 ==> Ancestor(f, id, n).Some?)
  {
    match f
    case Nil =>
    case Cons(p, rest) =>
      Highest(p.children, id, n);
      Highest(rest, id, n);
  }

  /** Different steps up are different panels. */
  lemma {:induction false} AncestorsDiffer(f: Forest, id: Id, i: nat, j: nat)
    requires Unique(f) && i < j && Ancestor(f, id, i).Some? && Ancestor(f, id, j).Some?
    ensures Ancestor(f, id, i) != Ancestor(f, id, j)
  {
    match f
    case Cons(p, rest) =>
      var d := Distance(p, id);
      if d == None {
        AncestorsDiffer(rest, id, i, j);
      } else if j == d.value {
        AncestorIn(p.children, id, i);
      } else {
        AncestorsDiffer(p.children, id, i, j);
      }
  }

  /** A panel in the tree that is not a root of it is below one. */
  lemma {:induction false} NoParent(f: Forest, id: Id)
    requires id !in Ids(f)
    ensures FindParent(f, id) == None && !HasRoot(f, id)
  {
    match f
    case Nil =>
    case Cons(p, rest) =>
      NoParent(p.children, id);
      NoParent(rest, id);
  }

  lemma {:induction false} RootHasNoParent(f: Forest, id: Id)
    requires Unique(f) && HasRoot(f, id)
    ensures FindParent(f, id) == None
  {
    match f
    case Cons(p, rest) =>
      if p.id == id {
        NoParent(p.children, id);
        NoParent(rest, id);
      } else {
        RootsAreIn(rest, id);
        NoParent(p.children, id);
        RootHasNoParent(rest, id);
      }
  }

  /** The parent of an ancestor is the next one. */
  lemma {:induction false} ParentIsNext(f: Forest, id: Id, n: nat)
    requires Unique(f) && Ancestor(f, id, n).Some?
    ensures var parent := FindParent(f, Ancestor(f, id, n).value);
      Ancestor(f, id, n + 1) == if parent.Some? then Some(parent.value.id) else None
  {
    match f
    case Cons(p, rest) =>
      var c := Ancestor(f, id, n).value;
      var d := Distance(p, id);
      AncestorIn(p.children, id, n);
      AncestorIn(rest, id, n);
      if d == None {
        NoParent(p.children, c);
        ParentIsNext(rest, id, n);
      } else if n == d.value {
        RootHasNoParent(f, c);
      } else {
        BelowRoot(p, id, n);
        if n + 1 < d.value {
          Highest(p.children, id, n + 1);
          ParentIsNext(p.children, id, n);
        }
      }
  }

  /** Below a panel, only the highest ancestor is one of its children. */
  lemma BelowRoot(p: Panel, id: Id, n: nat)
    requires Unique(p.children) && Distance(p, id).Some? && n < Distance(p, id).value
    ensures Ancestor(p.children, id, n).Some?
    ensures HasRoot(p.children, Ancestor(p.children, id, n).value) <==> n + 1 == Distance(p, id).value
  {
    Highest(p.children, id, n);
    Highest(p.children, id, n + 1);
    if n + 1 < Distance(p, id).value {
      ParentExists(p.children, id, n);
    }
  }

  lemma {:induction false} ParentExists(f: Forest, id: Id, n: nat)
    requires Unique(f) && Ancestor(f, id, n).Some? && Ancestor(f, id, n + 1).Some?
    ensures !HasRoot(f, Ancestor(f, id, n).value)
  {
    match f
    case Cons(p, rest) =>
      AncestorIn(p.children, id, n);
      AncestorIn(rest, id, n);
      var c := Ancestor(f, id, n).value;
      if Distance(p, id) == None {
        ParentExists(rest, id, n);
      } else {
        NoParent(rest, c);
      }
  }

  /** One step of the walk. */
  lemma {:induction false} SelectStep(f: Forest, id: Id, n: nat)
    requires Unique(f) && Ancestor(f, id, n).Some? && Ancestor(f, id, n + 1).Some?
    ensures SelectUpTo(f, id, n + 1)
         == SetSelected(SelectUpTo(f, id, n), Ancestor(f, id, n + 1).value, Ancestor(f, id, n).value)
    decreases f, 1
  {
    match f
    case Cons(p, rest) =>
      var c, q := Ancestor(f, id, n).value, Ancestor(f, id, n + 1).value;
      AncestorIn(p.children, id, n + 1);
      AncestorIn(rest, id, n + 1);
      if Distance(p, id) == None {
        NothingSelected(p.children, id, n);
        SetAbsent(p.children, q, c);
        SelectStep(rest, id, n);
      } else {
        AncestorIn(p.children, id, n);
        NothingSelected(rest, id, n);
        SetAbsent(rest, q, c);
        SelectStepBelow(p, id, n);
      }
  }

  lemma SelectStepBelow(p: Panel, id: Id, n: nat)
    requires p.id !in Ids(p.children) && Unique(p.children) && Distance(p, id).Some? && n < Distance(p, id).value
    ensures var last := n + 1 == Distance(p, id).value;
      && Ancestor(p.children, id, n).Some? && (!last ==> Ancestor(p.children, id, n + 1).Some?)
      && var c := Ancestor(p.children, id, n).value;
         var q := if last then p.id else Ancestor(p.children, id, n + 1).value;
         && SelectUpTo(p.children, id, n + 1) == SetSelected(SelectUpTo(p.children, id, n), q, c)
         && ChosenUpTo(p, id, n + 1) == (if last then Some(c) else ChosenUpTo(p, id, n))
         && (!last ==> q != p.id)
    decreases p.children, 2
  {
    Highest(p.children, id, n);
    Highest(p.children, id, n + 1);
    AncestorIn(p.children, id, n + 1);
    if n + 1 == Distance(p, id).value {
      SelectDone(p.children, id, n);
      SelectUpToIds(p.children, id, n);
      SetAbsent(SelectUpTo(p.children, id, n), p.id, Ancestor(p.children, id, n).value);
    } else {
      SelectStep(p.children, id, n);
    }
  }

  /** Past the root there is nothing left to select. */
  lemma {:induction false} SelectDone(f: Forest, id: Id, n: nat)
    requires Unique(f) && Ancestor(f, id, n + 1) == None
    ensures SelectUpTo(f, id, n + 1) == SelectUpTo(f, id, n) && Ancestor(f, id, n + 2) == None
  {
    match f
    case Nil =>
    case Cons(p, rest) =>
      AncestorIn(p.children, id, n);
      AncestorIn(rest, id, n);
      if id !in Ids(p.children) {
        NothingSelected(p.children, id, n);
      } else {
        Highest(p.children, id, n + 1);
        SelectDone(p.children, id, n);
      }
      if id !in Ids(rest) {
        NothingSelected(rest, id, n);
      } else {
        SelectDone(rest, id, n);
      }
  }

  lemma NothingSelected(f: Forest, id: Id, n: nat)
    requires id !in Ids(f)
    ensures SelectUpTo(f, id, n + 1) == SelectUpTo(f, id, n) == f
    ensures forall k :: Ancestor(f, id, k) == None
  {
    forall k ensures Ancestor(f, id, k) == None {
      NoAncestors(f, id, k);
    }
    NoAncestors(f, id, n);
    NoAncestors(f, id, n + 1);
  }

  lemma {:induction false} SelectDoneFor(f: Forest, id: Id, n: nat, m: nat)
    requires Unique(f) && Ancestor(f, id, n + 1) == None && n <= m
    ensures SelectUpTo(f, id, m) == SelectUpTo(f, id, n)
    decreases m - n
  {
    if n < m {
      SelectDone(f, id, n);
      SelectDoneFor(f, id, n + 1, m);
    }
  }

  // ---------------------------------------------------------------------------
  // The walk
  // ---------------------------------------------------------------------------

  lemma {:induction false} SameParents(a: Forest, b: Forest, id: Id)
    requires Shape(a) == Shape(b)
    ensures HasRoot(a, id) <==> HasRoot(b, id)
    ensures FindParent(a, id).Some? <==> FindParent(b, id).Some?
    ensures FindParent(a, id).Some? ==> FindParent(a, id).value.id == FindParent(b, id).value.id
  {
    match (a, b)
    case (Cons(p, ps), Cons(q, qs)) =>
      SameParents(p.children, q.children, id);
      SameParents(ps, qs, id);
    case _ =>
  }

  /** What is true before every step up: how far the walk is, and that it has not been here. */
  ghost predicate Walked(roots: Forest, after: Forest, id: Id, current: Id, depth: nat, visited: set<Id>) {
    && after == SelectUpTo(roots, id, depth)
    && (if id in Ids(roots) then Ancestor(roots, id, depth) == Some(current) else depth == 0 && current == id)
    && (forall v :: v in visited ==> exists i :: 0 <= i < depth && Ancestor(roots, id, i) == Some(v))
  }

  lemma NotVisited(roots: Forest, after: Forest, id: Id, current: Id, depth: nat, visited: set<Id>)
    requires Unique(roots) && Walked(roots, after, id, current, depth, visited)
    ensures current !in visited
  {
    if current in visited {
      var i :| 0 <= i < depth && Ancestor(roots, id, i) == Some(current);
      AncestorsDiffer(roots, id, i, depth);
    }
  }

  /** The walk ends at a root. */
  lemma WalkEnds(roots: Forest, after: Forest, id: Id, current: Id, depth: nat, visited: set<Id>)
    requires Unique(roots) && Walked(roots, after, id, current, depth, visited) && depth <= MAX_DEPTH
    requires FindParent(after, current) == None
    ensures after == Select(roots, id)
  {
    SelectUpToAll(roots, id);
    if id in Ids(roots) {
      SelectUpToIds(roots, id, depth);
      SameParents(roots, after, current);
      ParentIsNext(roots, id, depth);
      SelectDoneFor(roots, id, depth, MAX_DEPTH);
    } else {
      NoAncestors(roots, id, MAX_DEPTH);
      NoAncestors(roots, id, depth);
    }
  }

  lemma WalkGoesOn(roots: Forest, after: Forest, id: Id, current: Id, depth: nat, visited: set<Id>)
    requires Unique(roots) && Walked(roots, after, id, current, depth, visited) && FindParent(after, current).Some?
    ensures var parent := FindParent(after, current).value.id;
      Walked(roots, SetSelected(after, parent, current), id, parent, depth + 1, visited + {current})
  {
    SelectUpToIds(roots, id, depth);
    SameParents(roots, after, current);
    if id !in Ids(roots) {
      NoParent(roots, current);
    } else {
      ParentIsNext(roots, id, depth);
      SelectStep(roots, id, depth);
    }
  }

  /** `updateSelectedPath`: at most 100 steps up, each selecting the panel it comes from. */
  method UpdateSelectedPath(roots: Forest, id: Id) returns (after: Forest)
    requires Unique(roots)
    ensures after == Select(roots, id)
  {
    hide Walked, Select, SetSelected, FindParent;
    after := roots;
    var current, depth, visited := id, 0, {};
    WalkStarts(roots, id);
    while depth < MAX_DEPTH
      invariant depth <= MAX_DEPTH && Walked(roots, after, id, current, depth, visited)
    {
      NotVisited(roots, after, id, current, depth, visited);
      if current in visited {
        break;
      }
      var parent := FindParent(after, current);
      if parent == None {
        WalkEnds(roots, after, id, current, depth, visited);
        return;
      }
      WalkGoesOn(roots, after, id, current, depth, visited);
      after := SetSelected(after, parent.value.id, current);
      visited := visited + {current};
      current, depth := parent.value.id, depth + 1;
    }
    WalkIsDone(roots, after, id, current, visited);
  }

  lemma WalkStarts(roots: Forest, id: Id)
    ensures Walked(roots, roots, id, id, 0, {})
  {
    SelectUpToNone(roots, id);
    AncestorIn(roots, id, 0);
  }

  lemma WalkIsDone(roots: Forest, after: Forest, id: Id, current: Id, visited: set<Id>)
    requires Walked(roots, after, id, current, MAX_DEPTH, visited)
    ensures after == Select(roots, id)
  {
    SelectUpToAll(roots, id);
  }
}
