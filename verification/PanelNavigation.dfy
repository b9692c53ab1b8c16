/**
 What a navigation does to a protected panel, stated over the sources and contexts in
 the two trees: when the protection of its title ends, which title it has after the next
 snapshot, and what is still known of its build.
 */
module PanelNavigation {
  import opened Options
  import opened PanelTree
  import opened PanelMirror
  import opened PanelConvergence

  /** Somewhere in the tree the panel `id` is at this source in this context. */
  predicate Located(f: Forest, id: Id, source: string, context: string) {
    match f
    case Nil => false
    case Cons(p, rest) =>
      || (p.id == id && p.snapshot.Snapshot? && p.snapshot.source == source && p.snapshot.contextId == context)
      || Located(p.children, id, source, context)
      || Located(rest, id, source, context)
  }

  predicate IsBrowserPage(source: string) {
    |source| >= 8 && source[..8] == "browser:"
  }

  /** In place, or driven by its own web contents: the panel is not loaded anew. */
  predicate NotReloaded(source: string, context: string, source': string, context': string) {
    || (source == source' && context == context')
    || IsBrowserPage(source) || IsBrowserPage(source')
  }

  lemma {:induction false} LocatedIs(f: Forest, id: Id, source: string, context: string)
    requires Unique(f) && Located(f, id, source, context)
    ensures id in Ids(f) && Find(f, id).Some?
    ensures var s := Find(f, id).value.snapshot; s.Snapshot? && s.source == source && s.contextId == context
  {
    var Cons(p, rest) := f;
    FindIn(p.children, id);
    FindIn(rest, id);
    if Located(p.children, id, source, context) {
      LocatedIs(p.children, id, source, context);
    } else if Located(rest, id, source, context) {
      LocatedIs(rest, id, source, context);
    }
  }

  lemma BrowserIs(source: string)
    ensures IsBrowserPage(source) <==> IsBrowser(source)
  {
    assert |"browser:"| == 8;
  }

  /**
   After a newer snapshot a protected panel that is still there is protected exactly when
   it has no native view, or its source and context are both the same, or it was or is a
   browser page.
   */
  lemma ProtectionAfterNavigation(
    m: Mirror, d: Delivery, id: Id, source: string, context: string, source': string, context': string)
    requires Healthy(m) && WellFormed(d) && d.snapshot.revision > m.revision
    requires Located(m.roots, id, source, context) && Located(d.snapshot.roots, id, source', context')
    ensures id in Apply(m, d).0.explicit <==>
      id in m.explicit && (id !in d.hosted || NotReloaded(source, context, source', context'))
  {
    DeliveredProtection(m, d, id);
    hide Apply;
    LocatedIs(m.roots, id, source, context);
    LocatedIs(d.snapshot.roots, id, source', context');
    BrowserIs(source);
    BrowserIs(source');
  }

  /** A panel that is gone is not protected any more. */
  lemma GoneIsUnprotected(m: Mirror, d: Delivery, id: Id)
    requires Healthy(m) && WellFormed(d) && d.snapshot.revision > m.revision && id !in Ids(d.snapshot.roots)
    ensures id !in Apply(m, d).0.explicit
  {
    DeliveredProtection(m, d, id);
    hide Apply;
  }

  /** A newer snapshot gives every panel its title there, except that a protected one keeps its own. */
  lemma TitleDelivered(m: Mirror, d: Delivery, id: Id)
    requires Healthy(m) && WellFormed(d) && d.snapshot.revision > m.revision && id in Ids(d.snapshot.roots)
    ensures TitleOf(Apply(m, d).0.roots, id)
         == if id in m.explicit then TitleOf(m.roots, id) else TitleOf(d.snapshot.roots, id)
  {
    hide Apply, Incoming;
    if id in m.explicit {
      ExplicitTitleSurvives(m, d, id);
    } else {
      ThreePathsOneResult(m, d);
      var incoming := Incoming(m, d.snapshot);
      UnprotectedTitle(m, d.snapshot, id);
      SemanticTitle(Apply(m, d).0.roots, id);
      SemanticTitle(incoming, id);
      if m.focused.Some? {
        SelectFind(Semantic(incoming), m.focused.value, id);
      }
    }
  }

  lemma UnprotectedTitle(m: Mirror, snapshot: TreeSnapshot, id: Id)
    requires id !in m.explicit
    ensures TitleOf(Incoming(m, snapshot), id) == TitleOf(snapshot.roots, id)
  {
    RetitledTitle(Kept(m), snapshot.roots, id);
  }

  /** So the snapshot after a navigation renames a protected panel exactly when the panel was loaded anew. */
  lemma TitleAfterNavigation(
    m: Mirror, d: Delivery, e: Delivery, id: Id, source: string, context: string, source': string, context': string)
    requires Healthy(m) && WellFormed(d) && WellFormed(e)
    requires m.revision < d.snapshot.revision < e.snapshot.revision
    requires Located(m.roots, id, source, context) && Located(d.snapshot.roots, id, source', context')
    requires id in m.explicit && id in Ids(e.snapshot.roots)
    ensures TitleOf(Deliver(m, [d, e]).roots, id)
         == if id !in d.hosted || NotReloaded(source, context, source', context')
            then TitleOf(m.roots, id) else TitleOf(e.snapshot.roots, id)
  {
    hide Apply, Healthy, WellFormed, NotReloaded;
    var m1 := Apply(m, d).0;
    ProtectionAfterNavigation(m, d, id, source, context, source', context');
    WellFormedIds(d);
    LocatedIs(d.snapshot.roots, id, source', context');
    TitleDelivered(m, d, id);
    DeliveryKeeps(m, d);
    ApplyRevision(m, d);
    TitleDelivered(m1, e, id);
    DeliverTwo(m, d, e);
  }

  lemma WellFormedIds(d: Delivery)
    requires WellFormed(d)
    ensures Unique(d.snapshot.roots)
  {
  }

  lemma ApplyRevision(m: Mirror, d: Delivery)
    requires d.snapshot.revision > m.revision
    ensures Apply(m, d).0.revision == d.snapshot.revision
  {
  }

  lemma DeliverTwo(m: Mirror, d: Delivery, e: Delivery)
    ensures Deliver(m, [d, e]) == Apply(Apply(m, d).0, e).0
  {
    hide Apply;
    assert [d, e][1..] == [e] && [e][1..] == [];
    var m1 := Apply(m, d).0;
    assert Deliver(Apply(m1, e).0, []) == Apply(m1, e).0;
    assert Deliver(m1, [e]) == Apply(m1, e).0;
  }

  /** A snapshot that is not newer changes nothing. */
  lemma StaleIsIgnored(m: Mirror, d: Delivery)
    requires d.snapshot.revision <= m.revision
    ensures Apply(m, d) == (m, true)
  {
    hide Incoming, Repopulated;
  }

  /** Only an explicit title of a panel that is there protects, and no title event takes protection away. */
  lemma TitleEventProtects(m: Mirror, id: Id, title: string, isExplicit: bool, x: Id)
    ensures x in TitleUpdate(m, id, title, isExplicit).explicit
       <==> x in m.explicit || (isExplicit && x == id && id in Ids(m.roots))
  {
    FindIn(m.roots, id);
    hide SetTitle, Find;
  }

  // ---------------------------------------------------------------------------
  // Witnesses
  // ---------------------------------------------------------------------------

  function At(title: string, source: string, context: string): Forest {
    Cons(Panel("a", title, None, None, Snapshot(source, context, None, "null"), NO_ARTIFACTS, Nil), Nil)
  }

  function Titled(source: string, context: string): Mirror {
    Mirror(At("mine", source, context), None, {"a"}, 0)
  }

  /** The title of "a", protected as "mine", after it moves while hosted and is then called "theirs". */
  function TitleAfterMove(source: string, context: string, source': string, context': string): Option<string> {
    var moved := Delivery(TreeSnapshot(1, At("other", source', context')), {"a"});
    var renamed := Delivery(TreeSnapshot(2, At("theirs", source', context')), {"a"});
    TitleOf(Deliver(Titled(source, context), [moved, renamed]).roots, "a")
  }

  lemma OnePanel(title: string, source: string, context: string)
    ensures var f := At(title, source, context);
      && Unique(f) && Sound(f) && Ids(f) == {"a"} && TitleOf(f, "a") == Some(title)
      && Located(f, "a", source, context)
  {
    assert Unique(Nil) && Ids(Nil) == {} && Sound(Nil);
  }

  lemma MovedTitle(source: string, context: string, source': string, context': string)
    ensures TitleAfterMove(source, context, source', context')
         == Some(if NotReloaded(source, context, source', context') then "mine" else "theirs")
  {
    hide NotReloaded, Deliver;
    var m := Titled(source, context);
    var moved := Delivery(TreeSnapshot(1, At("other", source', context')), {"a"});
    var renamed := Delivery(TreeSnapshot(2, At("theirs", source', context')), {"a"});
    OnePanel("mine", source, context);
    OnePanel("other", source', context');
    OnePanel("theirs", source', context');
    hide Find, At, Located;
    TitleAfterNavigation(m, moved, renamed, "a", source, context, source', context');
  }

  /** Another context alone ends the protection; a page change of a browser panel does not. */
  lemma ContextAloneEndsProtection()
    ensures TitleAfterMove("app", "ctx", "app", "ctx2") == Some("theirs")
    ensures TitleAfterMove("app", "ctx", "app2", "ctx") == Some("theirs")
    ensures TitleAfterMove("app", "ctx", "app", "ctx") == Some("mine")
    ensures TitleAfterMove("browser:x", "ctx", "browser:y", "ctx2") == Some("mine")
    ensures TitleAfterMove("app", "ctx", "browser:y", "ctx") == Some("mine")
  {
    hide TitleAfterMove;
    MovedTitle("app", "ctx", "app", "ctx2");
    MovedTitle("app", "ctx", "app2", "ctx");
    MovedTitle("app", "ctx", "app", "ctx");
    MovedTitle("browser:x", "ctx", "browser:y", "ctx2");
    MovedTitle("app", "ctx", "browser:y", "ctx");
    assert "browser:x"[..8] == "browser:" && "browser:y"[..8] == "browser:";
    assert "ctx" != "ctx2" && "app" != "app2";
  }

  // ---------------------------------------------------------------------------
  // Builds
  // ---------------------------------------------------------------------------

  lemma {:induction false} RetitledArtifacts(keep: map<Id, string>, f: Forest, id: Id)
    ensures ArtifactsOf(Retitle(keep, f), id) == ArtifactsOf(f, id)
    ensures Find(Retitle(keep, f), id).Some? <==> Find(f, id).Some?
  {
    match f
    case Nil =>
    case Cons(p, rest) =>
      RetitledArtifacts(keep, p.children, id);
      RetitledArtifacts(keep, rest, id);
  }

  /** What a repopulate leaves of the builds in the two trees. */
  lemma RegisteredArtifacts(m: Mirror, incoming: Forest, id: Id)
    requires Find(m.roots, id).Some? && Find(m.roots, id).value.snapshot.Snapshot?
    requires Find(incoming, id).Some? && Find(incoming, id).value.snapshot.Snapshot?
    ensures var before, next := Find(m.roots, id).value, Find(incoming, id).value;
      var known := before.artifacts;
      ArtifactsOf(Registered(m, incoming), id)
      == Some(if before.snapshot.contextId != next.snapshot.contextId then next.artifacts
              else Artifacts(if known.state != "" then known.state else next.artifacts.state,
                             next.artifacts.built || known.built))
  {
    CarriedFind(m.roots, incoming, id);
    FindIn(incoming, id);
    if m.focused.Some? {
      hide Select, Find, Carried;
      SelectArtifacts(Carried(m.roots, incoming), m.focused.value, id);
    }
  }

  /**
   When a newer snapshot changes more than titles, a panel that stays in its context keeps
   what is known of its build, and in another context nothing of the old build goes over.
   */
  lemma BuildAfterNavigation(
    m: Mirror, d: Delivery, id: Id, source: string, context: string, source': string, context': string)
    requires Healthy(m) && WellFormed(d) && d.snapshot.revision > m.revision
    requires Located(m.roots, id, source, context) && Located(d.snapshot.roots, id, source', context')
    requires !TreesMatchIgnoringTitles(m.roots, Incoming(m, d.snapshot))
    ensures var known, next := ArtifactsOf(m.roots, id), ArtifactsOf(d.snapshot.roots, id);
      && known.Some? && next.Some?
      && ArtifactsOf(Apply(m, d).0.roots, id)
         == if context != context' then next
            else Some(Artifacts(if known.value.state != "" then known.value.state else next.value.state,
                                next.value.built || known.value.built))
  {
    var incoming := Incoming(m, d.snapshot);
    LocatedIs(m.roots, id, source, context);
    LocatedIs(d.snapshot.roots, id, source', context');
    RetitledSnapshot(Kept(m), d.snapshot.roots, id);
    RetitledArtifacts(Kept(m), d.snapshot.roots, id);
    var m1 := m.(revision := d.snapshot.revision);
    if TreesMatch(m.roots, incoming) {
      MatchIsLooseMatch(m.roots, incoming);
      assert false;
    }
    RegisteredArtifacts(m1, incoming, id);
    hide Registered, Find, Kept, Located, Incoming;
  }
}
