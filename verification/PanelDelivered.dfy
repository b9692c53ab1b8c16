/**
 The mirror after a newer snapshot, panel by panel: the ids side by side at every level,
 and the position, the current snapshot and the selected child of each panel.
 */
module PanelDelivered {
  import opened Options
  import opened PanelTree
  import opened PanelMirror
  import opened PanelConvergence
  import opened PanelChoice

  // ---------------------------------------------------------------------------
  // The same shape
  // ---------------------------------------------------------------------------

  /** The same children below the same panels. */
  ghost predicate SameFamilies(f: Forest, g: Forest) {
    && Ids(f) == Ids(g) && RootIds(f) == RootIds(g)
    && forall parent, children :: HasChildren(f, parent, children) <==> HasChildren(g, parent, children)
  }

  lemma {:induction false} SemanticPanel(f: Forest, id: Id)
    ensures Find(Semantic(f), id)
         == if Find(f, id).Some?
            then Some(Find(f, id).value.(artifacts := NO_ARTIFACTS, children := Semantic(Find(f, id).value.children)))
            else None
  {
    match f
    case Nil =>
    case Cons(p, rest) =>
      SemanticPanel(p.children, id);
      SemanticPanel(rest, id);
  }

  lemma {:induction false} SemanticFamilies(f: Forest)
    ensures SameFamilies(f, Semantic(f))
  {
    match f
    case Nil =>
    case Cons(p, rest) =>
      SemanticFamilies(p.children);
      SemanticFamilies(rest);
  }

  lemma {:induction false} RetitledFamilies(keep: map<Id, string>, f: Forest)
    ensures SameFamilies(f, Retitle(keep, f))
  {
    match f
    case Nil =>
    case Cons(p, rest) =>
      RetitledFamilies(keep, p.children);
      RetitledFamilies(keep, rest);
  }

  lemma {:induction false} RetitledPanel(keep: map<Id, string>, f: Forest, id: Id)
    ensures Find(f, id).Some? <==> Find(Retitle(keep, f), id).Some?
    ensures Find(f, id).Some? ==>
      var was, now := Find(f, id).value, Find(Retitle(keep, f), id).value;
      && now.position == was.position && now.snapshot == was.snapshot && now.selected == was.selected
      && RootIds(now.children) == RootIds(was.children)
  {
    match f
    case Nil =>
    case Cons(p, rest) =>
      RetitledFamilies(keep, p.children);
      RetitledPanel(keep, p.children, id);
      RetitledPanel(keep, rest, id);
  }

  lemma {:induction false} SelectedRoots(f: Forest, id: Id)
    ensures RootIds(Select(f, id)) == RootIds(f)
  {
    match f
    case Nil =>
    case Cons(p, rest) => SelectedRoots(rest, id);
  }

  lemma {:induction false} SameUp(f: Forest, g: Forest, id: Id, above: Id, n: nat)
    requires SameFamilies(f, g)
    ensures Up(f, id, above, n) <==> Up(g, id, above, n)
    decreases n
  {
    if n > 0 {
      var fewer := n - 1;
      forall child ensures Up(f, id, child, fewer) <==> Up(g, id, child, fewer) {
        SameUp(f, g, id, child, fewer);
      }
    }
  }

  lemma SameWayDown(f: Forest, g: Forest, id: Id, x: Id, child: Id)
    requires SameFamilies(f, g)
    ensures WayDown(f, id, x, child) <==> WayDown(g, id, x, child)
  {
    hide Up;
    if n: nat, children :| n < 100 && Up(f, id, child, n) && HasChildren(f, x, children) && child in children {
      SameUp(f, g, id, child, n);
    }
    if n: nat, children :| n < 100 && Up(g, id, child, n) && HasChildren(g, x, children) && child in children {
      SameUp(f, g, id, child, n);
    }
  }

  // ---------------------------------------------------------------------------
  // The delivered tree
  // ---------------------------------------------------------------------------

  /** Everything of a panel but its title and its build. */
  predicate SamePlace(was: Panel, now: Panel) {
    now.position == was.position && now.snapshot == was.snapshot && RootIds(now.children) == RootIds(was.children)
  }

  /** The panel selects the next one on the way down to the focus, if it is on that way, and otherwise the same. */
  ghost predicate SelectsFor(f: Forest, focused: Option<Id>, x: Id, was: Option<Id>, now: Option<Id>) {
    && (focused == None ==> now == was)
    && (focused.Some? ==>
          && (forall child :: WayDown(f, focused.value, x, child) ==> now == Some(child))
          && ((forall child :: !WayDown(f, focused.value, x, child)) ==> now == was))
  }

  lemma SemanticPlace(f: Forest, x: Id)
    requires Find(f, x).Some?
    ensures Find(Semantic(f), x).Some? && SamePlace(Find(f, x).value, Find(Semantic(f), x).value)
    ensures Find(Semantic(f), x).value.selected == Find(f, x).value.selected
  {
    SemanticPanel(f, x);
    SemanticFamilies(Find(f, x).value.children);
  }

  lemma SelectedPlace(f: Forest, focused: Option<Id>, x: Id)
    requires Unique(f) && Find(f, x).Some?
    ensures Find(SelectFocus(f, focused), x).Some?
    ensures var was, now := Find(f, x).value, Find(SelectFocus(f, focused), x).value;
      SamePlace(was, now) && SelectsFor(f, focused, x, was.selected, now.selected)
    ensures RootIds(SelectFocus(f, focused)) == RootIds(f)
  {
    if focused.Some? {
      FindIn(f, x);
      SelectFollows(f, focused.value, x);
      SelectedPanel(f, focused.value, x);
      SelectedRoots(Find(f, x).value.children, focused.value);
      SelectedRoots(f, focused.value);
    }
  }

  /**
   After a newer snapshot the mirror has exactly the snapshot's panels in the snapshot's
   order at every level, each at its position and with its current snapshot; and each
   selects what it does there, except on the way down to the focused panel.
   */
  lemma TreeDelivered(m: Mirror, d: Delivery, x: Id)
    requires Healthy(m) && WellFormed(d) && d.snapshot.revision > m.revision && x in Ids(d.snapshot.roots)
    ensures var roots := Apply(m, d).0.roots;
      && Ids(roots) == Ids(d.snapshot.roots) && RootIds(roots) == RootIds(d.snapshot.roots)
      && Find(d.snapshot.roots, x).Some? && Find(roots, x).Some?
      && var was, now := Find(d.snapshot.roots, x).value, Find(roots, x).value;
         SamePlace(was, now) && SelectsFor(d.snapshot.roots, m.focused, x, was.selected, now.selected)
  {
    hide Apply, Find, Semantic, Retitle, SelectFocus, RootIds, Unique, SelectsFor;
    var top := d.snapshot.roots;
    var roots := Apply(m, d).0.roots;
    var incoming := Retitle(Kept(m), top);
    var semantic := Semantic(incoming);
    ThreePathsOneResult(m, d);
    SameIds(m, d);
    IncomingKeeps(m, d.snapshot);
    FindIn(top, x);
    FindIn(roots, x);
    RetitledPanel(Kept(m), top, x);
    RetitledFamilies(Kept(m), top);
    SemanticPlace(incoming, x);
    SemanticFamilies(incoming);
    SemanticUnique(incoming);
    SelectedPlace(semantic, m.focused, x);
    SemanticPlace(roots, x);
    SemanticFamilies(roots);
    SameSelection(semantic, top, m.focused, x, Find(top, x).value.selected, Find(roots, x).value.selected);
  }

  lemma SemanticUnique(f: Forest)
    ensures Unique(Semantic(f)) <==> Unique(f)
  {
    UntitledKeeps(f);
    UntitledKeeps(Semantic(f));
  }

  lemma SameSelection(f: Forest, g: Forest, focused: Option<Id>, x: Id, was: Option<Id>, now: Option<Id>)
    requires SameFamilies(f, g) && SelectsFor(f, focused, x, was, now)
    ensures SelectsFor(g, focused, x, was, now)
  {
    if focused.Some? {
      forall child ensures WayDown(f, focused.value, x, child) <==> WayDown(g, focused.value, x, child) {
        SameWayDown(f, g, focused.value, x, child);
      }
    }
  }
}
