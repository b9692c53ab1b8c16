/**
 Unloading a panel with everything below it.  The orchestrator looks every panel up
 again by id, releases its runtime after those of its children, and marks it for a
 rebuild; the semantic tree does not notice.
 */
module PanelUnload {
  import opened Options
  import opened PanelTree

  const UNLOADED := Artifacts("pending", false)

  /** A panel that already waits for its first build is left alone; any other forgets its build. */
  function UnloadedArtifacts(a: Artifacts): Artifacts {
    if a.state == "pending" && !a.built then a else UNLOADED
  }

  /** The tree with a set of panels unloaded. */
  function Unloaded(f: Forest, ids: set<Id>): Forest {
    match f
    case Nil => Nil
    case Cons(p, rest) => Cons(UnloadedPanel(p, ids), Unloaded(rest, ids))
  }

  function UnloadedPanel(p: Panel, ids: set<Id>): Panel {
    p.(artifacts := if p.id in ids then UnloadedArtifacts(p.artifacts) else p.artifacts,
       children := Unloaded(p.children, ids))
  }

  /** The order of releases: children first. */
  function PostOrder(f: Forest): seq<Id> {
    match f
    case Nil => []
    case Cons(p, rest) => PostOrder(p.children) + [p.id] + PostOrder(rest)
  }

  function ReleaseOrder(p: Panel): seq<Id> {
    PostOrder(p.children) + [p.id]
  }

  function Subtree(p: Panel): set<Id> {
    {p.id} + Ids(p.children)
  }

  function Size(f: Forest): nat {
    match f
    case Nil => 0
    case Cons(p, rest) => 1 + Size(p.children) + Size(rest)
  }

  lemma {:induction false} UnloadedKeeps(f: Forest, ids: set<Id>)
    ensures Ids(Unloaded(f, ids)) == Ids(f) && (Unique(f) <==> Unique(Unloaded(f, ids)))
    ensures PostOrder(Unloaded(f, ids)) == PostOrder(f) && Size(Unloaded(f, ids)) == Size(f)
  {
    match f
    case Nil =>
    case Cons(p, rest) =>
      UnloadedKeeps(p.children, ids);
      UnloadedKeeps(rest, ids);
  }

  lemma {:induction false} UnloadedFind(f: Forest, ids: set<Id>, id: Id)
    ensures Find(Unloaded(f, ids), id)
         == if Find(f, id).Some? then Some(UnloadedPanel(Find(f, id).value, ids)) else None
  {
    match f
    case Nil =>
    case Cons(p, rest) =>
      UnloadedFind(p.children, ids, id);
      UnloadedFind(rest, ids, id);
  }

  lemma {:induction false} UnloadedNone(f: Forest)
    ensures Unloaded(f, {}) == f
  {
    match f
    case Nil =>
    case Cons(p, rest) =>
      UnloadedNone(p.children);
      UnloadedNone(rest);
  }

  /** Unloading one set and then another unloads both. */
  lemma {:induction false} UnloadedUnion(f: Forest, xs: set<Id>, ys: set<Id>)
    ensures Unloaded(Unloaded(f, xs), ys) == Unloaded(f, xs + ys)
  {
    match f
    case Nil =>
    case Cons(p, rest) =>
      UnloadedUnion(p.children, xs, ys);
      UnloadedUnion(rest, xs, ys);
  }

  /** Looking a descendant up again finds the same panel. */
  lemma {:induction false} FindBelow(f: Forest, id: Id, x: Id)
    requires Unique(f) && Find(f, id).Some? && Find(Find(f, id).value.children, x).Some?
    ensures Find(f, x) == Find(Find(f, id).value.children, x)
    ensures x != id
  {
    match f
    case Cons(p, rest) =>
      FindIn(p.children, x);
      FindIn(p.children, id);
      FindIn(rest, id);
      if p.id != id {
        if Find(p.children, id).Some? {
          FindBelow(p.children, id, x);
          FindIn(p.children, x);
        } else {
          FindBelow(rest, id, x);
          FindIn(rest, x);
        }
      }
  }

  lemma {:induction false} FoundIsUnique(f: Forest, id: Id)
    requires Unique(f) && Find(f, id).Some?
    ensures var p := Find(f, id).value;
      Unique(p.children) && id !in Ids(p.children) && p.id == id && Subtree(p) <= Ids(f) && Size(p.children) < Size(f)
  {
    match f
    case Cons(p, rest) =>
      if p.id != id {
        if Find(p.children, id).Some? {
          FoundIsUnique(p.children, id);
        } else {
          FoundIsUnique(rest, id);
        }
      }
  }

  // ---------------------------------------------------------------------------
  // What an unload does
  // ---------------------------------------------------------------------------

  lemma {:induction false} PostOrderMembers(f: Forest)
    ensures forall x :: x in PostOrder(f) <==> x in Ids(f)
  {
    match f
    case Nil =>
    case Cons(p, rest) =>
      PostOrderMembers(p.children);
      PostOrderMembers(rest);
  }

  lemma {:induction false} PostOrderOnce(f: Forest, x: Id)
    requires Unique(f)
    ensures multiset(PostOrder(f))[x] == if x in Ids(f) then 1 else 0
  {
    match f
    case Nil =>
    case Cons(p, rest) =>
      PostOrderOnce(p.children, x);
      PostOrderOnce(rest, x);
      assert multiset(PostOrder(f)) == multiset(PostOrder(p.children)) + multiset{p.id} + multiset(PostOrder(rest));
  }

  /** Every panel of the subtree is released exactly once, and no other. */
  lemma EachReleasedOnce(roots: Forest, id: Id, x: Id)
    requires Unique(roots) && Find(roots, id).Some?
    ensures var p := Find(roots, id).value;
      multiset(ReleaseOrder(p))[x] == if x in Subtree(p) then 1 else 0
  {
    var p := Find(roots, id).value;
    FoundIsUnique(roots, id);
    PostOrderOnce(p.children, x);
    assert multiset(ReleaseOrder(p)) == multiset(PostOrder(p.children)) + multiset{p.id};
  }

  /** What is below a panel has been released before it. */
  lemma {:induction false} BelowComesFirst(f: Forest, j: nat, x: Id)
    requires Unique(f) && j < |PostOrder(f)|
    requires Find(f, PostOrder(f)[j]).Some? && x in Ids(Find(f, PostOrder(f)[j]).value.children)
    ensures x in PostOrder(f)[..j]
  {
    match f
    case Cons(p, rest) =>
      var inner, order := PostOrder(p.children), PostOrder(f);
      var y := order[j];
      PostOrderMembers(p.children);
      PostOrderMembers(rest);
      FindIn(p.children, y);
      if j < |inner| {
        assert y in inner;
        BelowComesFirst(p.children, j, x);
        assert inner[..j] == order[..j];
      } else if j == |inner| {
        assert order[..j] == inner;
      } else {
        var k := j - |inner| - 1;
        assert y == PostOrder(rest)[k];
        assert y in PostOrder(rest);
        BelowComesFirst(rest, k, x);
        assert order[..j] == inner + [p.id] + PostOrder(rest)[..k];
      }
  }

  /** An unload is invisible to the comparison of trees. */
  lemma {:induction false} UnloadIsNotSemantic(f: Forest, ids: set<Id>)
    ensures Semantic(Unloaded(f, ids)) == Semantic(f)
  {
    match f
    case Nil =>
    case Cons(p, rest) =>
      UnloadIsNotSemantic(p.children, ids);
      UnloadIsNotSemantic(rest, ids);
  }

  /** So the same snapshots still match, on either side. */
  lemma UnloadKeepsMatches(f: Forest, ids: set<Id>, snapshot: Forest)
    ensures TreesMatch(Unloaded(f, ids), snapshot) <==> TreesMatch(f, snapshot)
    ensures TreesMatchIgnoringTitles(Unloaded(f, ids), snapshot) <==> TreesMatchIgnoringTitles(f, snapshot)
  {
    var g := Unloaded(f, ids);
    UnloadIsNotSemantic(f, ids);
    SemanticSound(f);
    SemanticSound(g);
    MatchIsSemanticEquality(g, snapshot);
    MatchIsSemanticEquality(f, snapshot);
    LooseMatchIsUntitledEquality(g, snapshot);
    LooseMatchIsUntitledEquality(f, snapshot);
    UntitledKeeps(f);
    UntitledKeeps(g);
  }

  /** Afterwards the panels of the subtree are unloaded and the others have their artifacts. */
  lemma UnloadedExactly(roots: Forest, id: Id, x: Id)
    requires Unique(roots) && Find(roots, id).Some? && Find(roots, x).Some?
    ensures var after := Find(Unloaded(roots, Subtree(Find(roots, id).value)), x);
      && after.Some?
      && (x in Subtree(Find(roots, id).value) ==>
            after.value.artifacts.state == "pending" && !after.value.artifacts.built)
      && (x !in Subtree(Find(roots, id).value) ==> after.value.artifacts == Find(roots, x).value.artifacts)
  {
    UnloadedFind(roots, Subtree(Find(roots, id).value), x);
    FindIn(roots, x);
  }
}
