/**
 Panel trees: what the orchestrator compares, retitles and re-selects.  The semantic
 part of a tree is everything but the build artifacts; two trees match exactly when
 their semantic parts are equal and every panel has a current snapshot.
 */
module PanelTree {
  import opened Options

  type Id = string

  /** The current snapshot of a panel; `Broken` when the history index is out of range. */
  datatype Snapshot =
    | Broken
    | Snapshot(source: string, contextId: string, ref: Option<string>, stateArgs: string)

  /** The build of a panel, known only to this process: its state, and whether there is something to show. */
  datatype Artifacts = Artifacts(state: string, built: bool)

  const NO_ARTIFACTS := Artifacts("", false)

  datatype Panel = Panel(
    id: Id, title: string, position: Option<string>, selected: Option<Id>, snapshot: Snapshot, artifacts: Artifacts,
    children: Forest)

  datatype Forest = Nil | Cons(panel: Panel, rest: Forest)

  function Ids(f: Forest): set<Id> {
    match f
    case Nil => {}
    case Cons(p, rest) => {p.id} + Ids(p.children) + Ids(rest)
  }

  predicate Unique(f: Forest) {
    match f
    case Nil => true
    case Cons(p, rest) =>
      && p.id !in Ids(p.children) && p.id !in Ids(rest) && Ids(p.children) !! Ids(rest)
      && Unique(p.children) && Unique(rest)
  }

  /** Every panel has a current snapshot. */
  predicate Sound(f: Forest) {
    match f
    case Nil => true
    case Cons(p, rest) => p.snapshot.Snapshot? && Sound(p.children) && Sound(rest)
  }

  /** The panel with an id, as the registry finds it. */
  function Find(f: Forest, id: Id): Option<Panel> {
    match f
    case Nil => None
    case Cons(p, rest) =>
      if p.id == id then Some(p)
      else if Find(p.children, id).Some? then Find(p.children, id)
      else Find(rest, id)
  }

  function TitleOf(f: Forest, id: Id): Option<string> {
    if Find(f, id).Some? then Some(Find(f, id).value.title) else None
  }

  function SnapshotOf(f: Forest, id: Id): Option<Snapshot> {
    if Find(f, id).Some? then Some(Find(f, id).value.snapshot) else None
  }

  // ---------------------------------------------------------------------------
  // Matching, as the orchestrator does it
  // ---------------------------------------------------------------------------

  predicate SnapshotsMatch(a: Snapshot, b: Snapshot) {
    a.Snapshot? && b.Snapshot?
    && a.source == b.source && a.contextId == b.contextId && a.ref == b.ref && a.stateArgs == b.stateArgs
  }

  predicate TreesMatch(a: Forest, b: Forest) {
    match (a, b)
    case (Nil, Nil) => true
    case (Cons(p, ps), Cons(q, qs)) =>
      && p.id == q.id && p.title == q.title && p.position == q.position && p.selected == q.selected
      && SnapshotsMatch(p.snapshot, q.snapshot)
      && TreesMatch(p.children, q.children) && TreesMatch(ps, qs)
    case _ => false
  }

  predicate TreesMatchIgnoringTitles(a: Forest, b: Forest) {
    match (a, b)
    case (Nil, Nil) => true
    case (Cons(p, ps), Cons(q, qs)) =>
      && p.id == q.id && p.position == q.position && p.selected == q.selected
      && SnapshotsMatch(p.snapshot, q.snapshot)
      && TreesMatchIgnoringTitles(p.children, q.children) && TreesMatchIgnoringTitles(ps, qs)
    case _ => false
  }

  /** The semantic part of a tree. */
  function Semantic(f: Forest): Forest {
    match f
    case Nil => Nil
    case Cons(p, rest) => Cons(p.(artifacts := NO_ARTIFACTS, children := Semantic(p.children)), Semantic(rest))
  }

  /** The semantic part without the titles. */
  function Untitled(f: Forest): Forest {
    match f
    case Nil => Nil
    case Cons(p, rest) =>
      Cons(p.(title := "", artifacts := NO_ARTIFACTS, children := Untitled(p.children)), Untitled(rest))
  }

  lemma {:induction false} MatchIsSemanticEquality(a: Forest, b: Forest)
    ensures TreesMatch(a, b) <==> Sound(a) && Semantic(a) == Semantic(b)
  {
    match (a, b)
    case (Cons(p, ps), Cons(q, qs)) =>
      MatchIsSemanticEquality(p.children, q.children);
      MatchIsSemanticEquality(ps, qs);
    case _ =>
  }

  lemma {:induction false} LooseMatchIsUntitledEquality(a: Forest, b: Forest)
    ensures TreesMatchIgnoringTitles(a, b) <==> Sound(a) && Untitled(a) == Untitled(b)
  {
    match (a, b)
    case (Cons(p, ps), Cons(q, qs)) =>
      LooseMatchIsUntitledEquality(p.children, q.children);
      LooseMatchIsUntitledEquality(ps, qs);
    case _ =>
  }

  lemma {:induction false} UntitledKeeps(f: Forest)
    ensures Ids(Untitled(f)) == Ids(f) && (Unique(Untitled(f)) <==> Unique(f)) && (Sound(Untitled(f)) <==> Sound(f))
    ensures Untitled(Semantic(f)) == Untitled(f)
  {
    match f
    case Nil =>
    case Cons(p, rest) =>
      UntitledKeeps(p.children);
      UntitledKeeps(rest);
  }

  lemma {:induction false} SemanticSound(f: Forest)
    ensures Sound(Semantic(f)) <==> Sound(f)
  {
    match f
    case Nil =>
    case Cons(p, rest) =>
      SemanticSound(p.children);
      SemanticSound(rest);
  }

  lemma {:induction false} FindIn(f: Forest, id: Id)
    ensures Find(f, id).Some? <==> id in Ids(f)
    ensures Find(f, id).Some? ==> Find(f, id).value.id == id
  {
    match f
    case Nil =>
    case Cons(p, rest) =>
      FindIn(p.children, id);
      FindIn(rest, id);
  }

  /** A tree is its untitled form plus its titles. */
  lemma {:induction false} TitlesDetermine(a: Forest, b: Forest)
    requires Unique(a) && Untitled(a) == Untitled(b)
    requires forall id :: id in Ids(a) ==> TitleOf(a, id) == TitleOf(b, id)
    ensures Semantic(a) == Semantic(b)
  {
    match (a, b)
    case (Cons(p, ps), Cons(q, qs)) =>
      assert TitleOf(a, p.id) == TitleOf(b, p.id);
      SubtreeIds(p, ps, q, qs);
      forall id | id in Ids(p.children) ensures TitleOf(p.children, id) == TitleOf(q.children, id) {
        assert TitleOf(a, id) == TitleOf(b, id);
        FindIn(p.children, id);
        FindIn(q.children, id);
      }
      forall id | id in Ids(ps) ensures TitleOf(ps, id) == TitleOf(qs, id) {
        assert TitleOf(a, id) == TitleOf(b, id);
        FindIn(p.children, id);
        FindIn(q.children, id);
      }
      TitlesDetermine(p.children, q.children);
      TitlesDetermine(ps, qs);
    case _ =>
  }

  lemma SubtreeIds(p: Panel, ps: Forest, q: Panel, qs: Forest)
    requires Untitled(Cons(p, ps)) == Untitled(Cons(q, qs))
    ensures p.id == q.id && Untitled(p.children) == Untitled(q.children) && Untitled(ps) == Untitled(qs)
    ensures Ids(p.children) == Ids(q.children) && Ids(ps) == Ids(qs)
  {
    UntitledKeeps(p.children);
    UntitledKeeps(q.children);
    UntitledKeeps(ps);
    UntitledKeeps(qs);
  }

  // ---------------------------------------------------------------------------
  // Titles
  // ---------------------------------------------------------------------------

  /** `preserveExplicitTitlesInSnapshot`: the given titles win over the snapshot's own. */
  function Retitle(keep: map<Id, string>, f: Forest): Forest {
    match f
    case Nil => Nil
    case Cons(p, rest) =>
      Cons(p.(title := if p.id in keep then keep[p.id] else p.title, children := Retitle(keep, p.children)),
           Retitle(keep, rest))
  }

  /** `updateTitle` on the registry. */
  function SetTitle(f: Forest, id: Id, title: string): Forest {
    match f
    case Nil => Nil
    case Cons(p, rest) =>
      Cons(p.(title := if p.id == id then title else p.title, children := SetTitle(p.children, id, title)),
           SetTitle(rest, id, title))
  }

  lemma {:induction false} RetitleIs(keep: map<Id, string>, f: Forest)
    ensures Untitled(Retitle(keep, f)) == Untitled(f)
    ensures Semantic(Retitle(keep, f)) == Retitle(keep, Semantic(f))
  {
    match f
    case Nil =>
    case Cons(p, rest) =>
      RetitleIs(keep, p.children);
      RetitleIs(keep, rest);
  }

  /** The kept titles win where there is a panel to carry them. */
  lemma {:induction false} RetitledTitle(keep: map<Id, string>, f: Forest, id: Id)
    ensures TitleOf(Retitle(keep, f), id)
         == if TitleOf(f, id).Some? && id in keep then Some(keep[id]) else TitleOf(f, id)
    ensures Find(Retitle(keep, f), id).Some? <==> Find(f, id).Some?
  {
    match f
    case Nil =>
    case Cons(p, rest) =>
      RetitledTitle(keep, p.children, id);
      RetitledTitle(keep, rest, id);
  }

  lemma {:induction false} SetTitleIs(f: Forest, id: Id, title: string)
    ensures Untitled(SetTitle(f, id, title)) == Untitled(f)
  {
    match f
    case Nil =>
    case Cons(p, rest) =>
      SetTitleIs(p.children, id, title);
      SetTitleIs(rest, id, title);
  }

  lemma {:induction false} SetTitleTitle(f: Forest, id: Id, title: string, x: Id)
    ensures TitleOf(SetTitle(f, id, title), x) == if x == id && TitleOf(f, x).Some? then Some(title) else TitleOf(f, x)
    ensures Find(SetTitle(f, id, title), x).Some? <==> Find(f, x).Some?
  {
    match f
    case Nil =>
    case Cons(p, rest) =>
      SetTitleTitle(p.children, id, title, x);
      SetTitleTitle(rest, id, title, x);
  }

  // ---------------------------------------------------------------------------
  // Artifacts
  // ---------------------------------------------------------------------------

  /** What is known of a build wins over what the snapshot says. */
  function Merged(next: Artifacts, known: Artifacts): Artifacts {
    Artifacts(if known.state != "" then known.state else next.state, next.built || known.built)
  }

  /** `preserveRuntimeState`: a panel that is still in its context keeps its artifacts. */
  predicate CarriesOver(before: Forest, p: Panel) {
    && SnapshotOf(before, p.id).Some? && SnapshotOf(before, p.id).value.Snapshot? && p.snapshot.Snapshot?
    && SnapshotOf(before, p.id).value.contextId == p.snapshot.contextId
  }

  function Carried(before: Forest, f: Forest): Forest {
    match f
    case Nil => Nil
    case Cons(p, rest) => Cons(CarriedPanel(before, p), Carried(before, rest))
  }

  function CarriedPanel(before: Forest, p: Panel): Panel {
    var artifacts :=
      if CarriesOver(before, p) then Merged(p.artifacts, Find(before, p.id).value.artifacts) else p.artifacts;
    p.(artifacts := artifacts, children := Carried(before, p.children))
  }

  lemma {:induction false} CarriedIs(before: Forest, f: Forest)
    ensures Semantic(Carried(before, f)) == Semantic(f) && Ids(Carried(before, f)) == Ids(f)
    ensures Unique(Carried(before, f)) <==> Unique(f)
    ensures Sound(Carried(before, f)) <==> Sound(f)
  {
    match f
    case Nil =>
    case Cons(p, rest) =>
      CarriedIs(before, p.children);
      CarriedIs(before, rest);
  }

  /** A panel has the artifacts it had if it is still in its context, and everything else as in the snapshot. */
  lemma {:induction false} CarriedFind(before: Forest, f: Forest, id: Id)
    ensures Find(Carried(before, f), id)
         == if Find(f, id).Some? then Some(CarriedPanel(before, Find(f, id).value)) else None
  {
    match f
    case Nil =>
    case Cons(p, rest) =>
      CarriedFind(before, p.children, id);
      CarriedFind(before, rest, id);
  }

  // ---------------------------------------------------------------------------
  // The selected path
  // ---------------------------------------------------------------------------

  const MAX_DEPTH: nat := 100

  /** How far below a panel another one is. */
  function Distance(p: Panel, id: Id): Option<nat> {
    if p.id == id then Some(0)
    else
      var child := ChildOn(p.children, id);
      if child.Some? then Some(child.value.1 + 1) else None
  }

  /** The child whose subtree has the panel, and how far below that child it is. */
  function ChildOn(f: Forest, id: Id): Option<(Id, nat)> {
    match f
    case Nil => None
    case Cons(p, rest) =>
      if Distance(p, id).Some? then Some((p.id, Distance(p, id).value)) else ChildOn(rest, id)
  }

  /** `updateSelectedPath`: the ancestors of the focused panel select the way down to it, at most 100 of them. */
  function Select(f: Forest, id: Id): Forest {
    match f
    case Nil => Nil
    case Cons(p, rest) =>
      Cons(p.(children := Select(p.children, id), selected := Chosen(p, id)), Select(rest, id))
  }

  function Chosen(p: Panel, id: Id): Option<Id> {
    var child := ChildOn(p.children, id);
    if p.id != id && child.Some? && child.value.1 < MAX_DEPTH then Some(child.value.0) else p.selected
  }

  function SelectFocus(f: Forest, focused: Option<Id>): Forest {
    if focused.Some? then Select(f, focused.value) else f
  }

  /** The path down to the focused panel is already selected. */
  predicate PathSelected(f: Forest, id: Id) {
    match f
    case Nil => true
    case Cons(p, rest) => p.selected == Chosen(p, id) && PathSelected(p.children, id) && PathSelected(rest, id)
  }

  lemma {:induction false} ChildOnSame(a: Forest, b: Forest, id: Id)
    requires Shape(a) == Shape(b)
    ensures ChildOn(a, id) == ChildOn(b, id)
  {
    match (a, b)
    case (Cons(p, ps), Cons(q, qs)) =>
      ChildOnSame(p.children, q.children, id);
      ChildOnSame(ps, qs, id);
    case _ =>
  }

  /** Only the ids. */
  function Shape(f: Forest): Forest {
    match f
    case Nil => Nil
    case Cons(p, rest) => Cons(Panel(p.id, "", None, None, Broken, NO_ARTIFACTS, Shape(p.children)), Shape(rest))
  }

  lemma {:induction false} SelectShape(f: Forest, id: Id)
    ensures Shape(Select(f, id)) == Shape(f) && Ids(Select(f, id)) == Ids(f)
    ensures Unique(f) ==> Unique(Select(f, id))
    ensures Sound(f) ==> Sound(Select(f, id))
  {
    match f
    case Nil =>
    case Cons(p, rest) =>
      SelectShape(p.children, id);
      SelectShape(rest, id);
  }

  lemma {:induction false} SelectFind(f: Forest, id: Id, x: Id)
    ensures TitleOf(Select(f, id), x) == TitleOf(f, x) && SnapshotOf(Select(f, id), x) == SnapshotOf(f, x)
    ensures Find(Select(f, id), x).Some? <==> Find(f, x).Some?
  {
    match f
    case Nil =>
    case Cons(p, rest) =>
      SelectFind(p.children, id, x);
      SelectFind(rest, id, x);
  }

  /** Selecting changes nothing exactly when the path is already selected; afterwards it is. */
  lemma {:induction false} SelectIsIdentity(f: Forest, id: Id)
    ensures Select(f, id) == f <==> PathSelected(f, id)
    ensures PathSelected(Select(f, id), id)
  {
    match f
    case Nil =>
    case Cons(p, rest) =>
      SelectIsIdentity(p.children, id);
      SelectIsIdentity(rest, id);
      SelectShape(p.children, id);
      ChildOnSame(p.children, Select(p.children, id), id);
  }

  lemma {:induction false} SemanticShape(f: Forest)
    ensures Shape(Semantic(f)) == Shape(f) && Shape(Untitled(f)) == Shape(f)
  {
    match f
    case Nil =>
    case Cons(p, rest) =>
      SemanticShape(p.children);
      SemanticShape(rest);
  }

  /** Selection only looks at ids and only changes selections. */
  lemma {:induction false} SelectCommutes(f: Forest, id: Id)
    ensures Semantic(Select(f, id)) == Select(Semantic(f), id)
    ensures PathSelected(Untitled(f), id) <==> PathSelected(f, id)
    ensures PathSelected(Semantic(f), id) <==> PathSelected(f, id)
  {
    match f
    case Nil =>
    case Cons(p, rest) =>
      SelectCommutes(p.children, id);
      SelectCommutes(rest, id);
      SemanticShape(p.children);
      ChildOnSame(p.children, Semantic(p.children), id);
      ChildOnSame(p.children, Untitled(p.children), id);
  }
}
