/** The generated router on internal addresses: a source of any depth, found by trying. */
module DoRouter {
  import opened Options
  import opened Percent
  import opened DoAddress

  /** `Usage` for a path with too few parts, status 400; `NotFound` for no class, status 404. */
  datatype Route = Usage | NotFound | Throws | Found(className: string, key: string, rest: seq<string>)

  /** What the router makes of one position for the class; `NotFound` to try the next. */
  function RouteAt(parts: seq<string>, table: set<string>, i: nat): Route
    requires 2 <= i && i + 1 < |parts|
  {
    var source, className, key := DecodeEach(parts[1..i]), DecodeComponent(parts[i]), DecodeComponent(parts[i + 1]);
    if source == None || className == None || key == None then Throws
    else
      var path := Join(source.value, '/');
      if path == "" || className.value == "" || key.value == "" || path + ":" + className.value !in table then NotFound
      else Found(className.value, key.value, parts[i + 2..])
  }

  /** The first position that is not passed over decides. */
  ghost predicate Routed(parts: seq<string>, table: set<string>, route: Route) {
    if |parts| < 5 then route == Usage
    else if route == NotFound then forall i :: 2 <= i <= |parts| - 3 ==> RouteAt(parts, table, i) == NotFound
    else exists i :: 2 <= i <= |parts| - 3 && route == RouteAt(parts, table, i)
                     && forall j :: 2 <= j < i ==> RouteAt(parts, table, j) == NotFound
  }

  /** The router's loop. */
  method RouteInternal(parts: seq<string>, table: set<string>) returns (route: Route)
    ensures Routed(parts, table, route)
  {
    hide RouteAt;
    if |parts| < 5 {
      return Usage;
    }
    var i := 2;
    while i <= |parts| - 3
      invariant 2 <= i <= |parts| - 2
      invariant forall j :: 2 <= j < i ==> RouteAt(parts, table, j) == NotFound
    {
      route := RouteAt(parts, table, i);
      if route != NotFound {
        return;
      }
      i := i + 1;
    }
    return NotFound;
  }

  lemma InternalParts(ref: Ref, operation: string)
    requires ref.source == INTERNAL_SOURCE
    ensures PathParts(InternalUrl(ref, operation))
         == ["_w"] + NonEmpty(EncodeEach(Names(ref))) + NonEmpty(MethodParts(operation))
  {
    InternalSegments(ref, operation);
    hide EncodeEach, MethodParts, InternalUrl, Split, Names;
    NonEmptyConcat(["", "_w"] + EncodeEach(Names(ref)), MethodParts(operation));
    NonEmptyConcat(["", "_w"], EncodeEach(Names(ref)));
    NonEmptyPair("", "_w");
  }

  /** What follows the source: class and key unless they are empty, and the non-empty segments of the method. */
  function Words(ref: Ref, operation: string): seq<string> {
    NonEmpty([ref.className, ref.objectKey]) + NonEmpty(Split(operation, '/'))
  }

  const SOURCE: seq<string> := ["natstack", "internal"]

  lemma WordsInPath(ref: Ref, operation: string)
    requires ref.source == INTERNAL_SOURCE
    ensures PathParts(InternalUrl(ref, operation)) == ["_w"] + EncodeEach(SOURCE + Words(ref, operation))
  {
    hide EncodeComponent, EncodeEach, NonEmpty, Split, PathParts, InternalUrl, Names;
    InternalParts(ref, operation);
    NamesInPath(ref);
    NonEmptyEach(Names(ref));
    NonEmptyEach(Split(operation, '/'));
    EachConcat(SOURCE + NonEmpty([ref.className, ref.objectKey]), NonEmpty(Split(operation, '/')));
    Regroup(["_w"], EncodeEach(NonEmpty(Names(ref))), EncodeEach(NonEmpty(Split(operation, '/'))));
    Regroup(SOURCE, NonEmpty([ref.className, ref.objectKey]), NonEmpty(Split(operation, '/')));
  }

  lemma Regroup(a: seq<string>, b: seq<string>, c: seq<string>)
    ensures (a + b) + c == a + (b + c)
  {
  }

  lemma NamesInPath(ref: Ref)
    requires ref.source == INTERNAL_SOURCE
    ensures NonEmpty(Names(ref)) == SOURCE + NonEmpty([ref.className, ref.objectKey])
  {
    InternalSourceIsTwoSegments();
    hide EncodeComponent, EncodeEach, NonEmpty, Split;
    NonEmptyConcat(SOURCE, [ref.className, ref.objectKey]);
    NonEmptyPair("natstack", "internal");
    assert Names(ref) == SOURCE + [ref.className, ref.objectKey];
  }

  lemma NoEmptyWord(ref: Ref, operation: string)
    ensures "" !in Words(ref, operation)
  {
    NonEmptyIs([ref.className, ref.objectKey]);
    NonEmptyIs(Split(operation, '/'));
  }

  // ---------------------------------------------------------------------------
  // One position
  // ---------------------------------------------------------------------------

  lemma {:induction false} EachAt(words: seq<string>, i: nat)
    requires i < |words|
    ensures |EncodeEach(words)| == |words| && EncodeEach(words)[i] == EncodeComponent(words[i])
  {
    hide EncodeComponent;
    EachRoundTrip(words);
    if i > 0 {
      EachAt(words[1..], i - 1);
    }
  }

  lemma EachCut(words: seq<string>, i: nat)
    requires i <= |words|
    ensures |EncodeEach(words)| == |words|
    ensures EncodeEach(words)[..i] == EncodeEach(words[..i]) && EncodeEach(words)[i..] == EncodeEach(words[i..])
  {
    hide EncodeEach;
    EachRoundTrip(words);
    EachRoundTrip(words[..i]);
    EachConcat(words[..i], words[i..]);
    assert words == words[..i] + words[i..];
  }

  lemma {:induction false} JoinIsNotEmpty(words: seq<string>)
    requires words != [] && "" !in words
    ensures Join(words, '/') != ""
  {
    assert words[0] in words;
  }

  /** What a position means when the path is made of encoded words. */
  lemma RouteAtIs(prefix: string, words: seq<string>, table: set<string>, i: nat)
    requires "" !in words && 2 <= i <= |words| - 1
    ensures |EncodeEach(words)| == |words|
    ensures RouteAt([prefix] + EncodeEach(words), table, i)
         == if Join(words[..i - 1], '/') + ":" + words[i - 1] in table
            then Found(words[i - 1], words[i], EncodeEach(words[i + 1..])) else NotFound
  {
    hide EncodeComponent, DecodeComponent, EncodeEach, DecodeEach, Join;
    var parts := [prefix] + EncodeEach(words);
    EachRoundTrip(words);
    EachCut(words, i - 1);
    EachCut(words, i + 1);
    EachAt(words, i - 1);
    EachAt(words, i);
    assert parts[1..i] == EncodeEach(words)[..i - 1];
    assert parts[i + 2..] == EncodeEach(words)[i + 1..];
    EachRoundTrip(words[..i - 1]);
    ComponentRoundTrip(words[i - 1]);
    ComponentRoundTrip(words[i]);
    assert words[i - 1] in words && words[i] in words;
    assert forall w :: w in words[..i - 1] ==> w in words;
    JoinIsNotEmpty(words[..i - 1]);
  }

  // ---------------------------------------------------------------------------
  // The route of every internal call
  // ---------------------------------------------------------------------------

  /** The table that is generated: only classes of the internal source have services of their own. */
  predicate InternalOnly(table: set<string>) {
    forall key :: key in table ==> INTERNAL_SOURCE + ":" <= key
  }

  lemma OtherSource(rest: string)
    ensures !(INTERNAL_SOURCE + ":" <= "natstack:" + rest) && !(INTERNAL_SOURCE + ":" <= INTERNAL_SOURCE + "/" + rest)
  {
    assert ("natstack:" + rest)[8] == ':';
    assert (INTERNAL_SOURCE + "/" + rest)[17] == '/';
    assert (INTERNAL_SOURCE + ":")[8] == '/' && (INTERNAL_SOURCE + ":")[17] == ':';
  }

  /** The second position is passed over, and so is every one after the third. */
  lemma OthersArePassedOver(words: seq<string>, table: set<string>, i: nat)
    requires "" !in words && InternalOnly(table) && 2 <= i <= |words| + 1 && i != 3
    ensures |EncodeEach(SOURCE + words)| == 2 + |words|
    ensures RouteAt(["_w"] + EncodeEach(SOURCE + words), table, i) == NotFound
  {
    hide EncodeEach, RouteAt;
    var all := SOURCE + words;
    assert "" !in all;
    RouteAtIs("_w", all, table, i);
    if i == 2 {
      assert all[..1] == ["natstack"] && all[1] == "internal";
      JoinOne("natstack");
      OtherSource("internal");
      assert Join(all[..1], '/') + ":" + all[1] == "natstack:" + "internal";
    } else {
      assert all[..i - 1] == SOURCE + words[..i - 3];
      JoinConcat(SOURCE, words[..i - 3], '/');
      JoinOf2("natstack", "internal", '/');
      var rest := Join(words[..i - 3], '/') + ":" + all[i - 1];
      OtherSource(rest);
      hide Join;
      assert "natstack" + "/" + "internal" == INTERNAL_SOURCE;
      assert Join(all[..i - 1], '/') + ":" + all[i - 1] == INTERNAL_SOURCE + "/" + rest;
    }
  }

  lemma JoinOne(text: string)
    ensures Join([text], '/') == text
  {
  }

  lemma ThirdIsTheClass(words: seq<string>, table: set<string>)
    requires "" !in words && |words| >= 2
    ensures |EncodeEach(SOURCE + words)| == 2 + |words|
    ensures RouteAt(["_w"] + EncodeEach(SOURCE + words), table, 3)
         == if INTERNAL_SOURCE + ":" + words[0] in table then Found(words[0], words[1], EncodeEach(words[2..]))
            else NotFound
  {
    hide EncodeEach, RouteAt, Join;
    var all := SOURCE + words;
    assert "" !in all;
    RouteAtIs("_w", all, table, 3);
    assert all[..2] == ["natstack", "internal"] && all[4..] == words[2..];
    JoinOf2("natstack", "internal", '/');
    assert "natstack" + "/" + "internal" == INTERNAL_SOURCE;
  }

  /** The router on some words after the source: class and key are the first two, and there must be another. */
  function RouteOf(words: seq<string>, table: set<string>): Route {
    if |words| < 2 then Usage
    else if |words| == 2 || INTERNAL_SOURCE + ":" + words[0] !in table then NotFound
    else Found(words[0], words[1], EncodeEach(words[2..]))
  }

  lemma WordsAreRouted(words: seq<string>, table: set<string>, route: Route)
    requires "" !in words && InternalOnly(table)
    requires Routed(["_w"] + EncodeEach(SOURCE + words), table, route)
    ensures route == RouteOf(words, table)
  {
    hide EncodeEach, RouteAt;
    var parts := ["_w"] + EncodeEach(SOURCE + words);
    EachRoundTrip(SOURCE + words);
    forall i: nat | 2 <= i <= |parts| - 3 && i != 3 ensures RouteAt(parts, table, i) == NotFound {
      OthersArePassedOver(words, table, i);
    }
    if |words| > 2 {
      ThirdIsTheClass(words, table);
    }
  }

  /** The route of every internal call, also one with an empty class or key. */
  lemma InternalRoute(ref: Ref, operation: string, table: set<string>, route: Route)
    requires ref.source == INTERNAL_SOURCE && InternalOnly(table)
    requires Routed(PathParts(InternalUrl(ref, operation)), table, route)
    ensures route == RouteOf(Words(ref, operation), table)
  {
    hide InternalUrl, NonEmpty, RouteAt, PathParts, Routed, Words, RouteOf, EncodeEach;
    WordsInPath(ref, operation);
    NoEmptyWord(ref, operation);
    WordsAreRouted(Words(ref, operation), table, route);
  }

  /**
   An internal call reaches the object it names, with the non-empty segments of its
   method, exactly when its class has a service, its key is not empty and its method
   has such a segment.
   */
  lemma InternalDelivery(ref: Ref, operation: string, table: set<string>, route: Route)
    requires ref.source == INTERNAL_SOURCE && InternalOnly(table)
    requires Routed(PathParts(InternalUrl(ref, operation)), table, route)
    ensures route == Found(ref.className, ref.objectKey, NonEmpty(MethodParts(operation)))
       <==> ref.className != "" && INTERNAL_SOURCE + ":" + ref.className in table
            && ref.objectKey != "" && NonEmpty(MethodParts(operation)) != []
  {
    hide InternalUrl, RouteAt, PathParts, Routed, NonEmpty, EncodeEach, Split;
    InternalRoute(ref, operation, table, route);
    NonEmptyEach(Split(operation, '/'));
    EachRoundTrip(NonEmpty(Split(operation, '/')));
    NonEmptyPair(ref.className, ref.objectKey);
    NoEmptyWord(ref, operation);
    var words, segments := Words(ref, operation), NonEmpty(Split(operation, '/'));
    if ref.className != "" && ref.objectKey != "" {
      assert words[2..] == segments;
    } else {
      assert forall i :: 0 <= i < |words| ==> words[i] in words;
    }
  }

  /**
   With an empty key the first segment of the method is taken for it: the call goes to
   that object when the method has two segments or more, and nowhere otherwise.
   */
  lemma EmptyKeyIsMisread(ref: Ref, operation: string, table: set<string>, route: Route)
    requires ref.source == INTERNAL_SOURCE && ref.className != "" && ref.objectKey == ""
    requires INTERNAL_SOURCE + ":" + ref.className in table && InternalOnly(table)
    requires Routed(PathParts(InternalUrl(ref, operation)), table, route)
    ensures var segments := NonEmpty(Split(operation, '/'));
      route == if segments == [] then Usage
               else if |segments| == 1 then NotFound
               else Found(ref.className, segments[0], EncodeEach(segments[1..]))
  {
    hide InternalUrl, RouteAt, PathParts, Routed, NonEmpty, EncodeEach, Split;
    InternalRoute(ref, operation, table, route);
    NonEmptyPair(ref.className, ref.objectKey);
    var segments := NonEmpty(Split(operation, '/'));
    assert Words(ref, operation) == [ref.className] + segments;
    assert segments != [] ==> ([ref.className] + segments)[2..] == segments[1..];
  }

  /** Five parts pass the usage check, but the loop needs six: a call without a method is not found. */
  lemma NoMethodIsNotFound(ref: Ref, operation: string, table: set<string>, route: Route)
    requires ref.source == INTERNAL_SOURCE && ref.className != "" && ref.objectKey != ""
    requires InternalOnly(table) && NonEmpty(Split(operation, '/')) == []
    requires Routed(PathParts(InternalUrl(ref, operation)), table, route)
    ensures |PathParts(InternalUrl(ref, operation))| == 5 && route == NotFound
  {
    hide InternalUrl, RouteAt, PathParts, Routed, NonEmpty, EncodeEach, Split;
    InternalRoute(ref, operation, table, route);
    WordsInPath(ref, operation);
    NonEmptyPair(ref.className, ref.objectKey);
    assert Words(ref, operation) == [ref.className, ref.objectKey];
    EachRoundTrip(SOURCE + Words(ref, operation));
  }
}
