/**
 Addresses of Durable Objects.  The dispatcher packs a reference and a method into a
 path; the documented layout, the generated router and the host of userland objects
 each read it back.
 */
module DoAddress {
  import opened Options
  import opened Percent

  datatype Ref = Ref(source: string, className: string, objectKey: string)

  const INTERNAL_SOURCE := "natstack/internal"

  /** `encodeUniversalKey`. */
  function UniversalKey(ref: Ref): string {
    Join(EncodeEach([ref.source, ref.className, ref.objectKey]), '|')
  }

  function MethodPath(operation: string): string {
    Join(EncodeEach(Split(operation, '/')), '/')
  }

  function InternalUrl(ref: Ref, operation: string): string {
    "/_w/" + Join(EncodeEach(Split(ref.source, '/')), '/') + "/" + EncodeComponent(ref.className) + "/"
    + EncodeComponent(ref.objectKey) + "/" + MethodPath(operation)
  }

  function UserlandUrl(ref: Ref, operation: string): string {
    "/_u/" + EncodeComponent(UniversalKey(ref)) + "/" + MethodPath(operation)
  }

  /** `doRefUrl`. */
  function DoRefUrl(ref: Ref, operation: string): string {
    if ref.source == INTERNAL_SOURCE then InternalUrl(ref, operation) else UserlandUrl(ref, operation)
  }

  /** `decodeKey` of the host of userland objects: a missing part is empty. */
  function DecodeKey(packed: string): Option<Ref> {
    var p := Split(packed, '|');
    var source, className, key :=
      DecodeComponent(p[0]),
      DecodeComponent(if |p| > 1 then p[1] else ""),
      DecodeComponent(if |p| > 2 then p[2] else "");
    if source == None || className == None || key == None then None
    else Some(Ref(source.value, className.value, key.value))
  }

  // ---------------------------------------------------------------------------
  // The documented layout
  // ---------------------------------------------------------------------------

  /** Reads a path by its segments: a packed key, or a source of two segments, a class and a key. */
  function ParseUrl(url: string): Option<(Ref, string)> {
    var parts := Split(url, '/');
    if |parts| >= 3 && parts[0] == "" && parts[1] == "_u" then
      var key, operation := DecodeComponent(parts[2]), DecodeEach(parts[3..]);
      if key == None || operation == None || DecodeKey(key.value) == None then None
      else Some((DecodeKey(key.value).value, Join(operation.value, '/')))
    else if |parts| >= 6 && parts[0] == "" && parts[1] == "_w" then
      var names, operation := DecodeEach(parts[2..6]), DecodeEach(parts[6..]);
      if names == None || operation == None || |names.value| != 4 then None
      else Some((Ref(Join(names.value[..2], '/'), names.value[2], names.value[3]), Join(operation.value, '/')))
    else None
  }

  lemma KeyRoundTrip(ref: Ref)
    ensures DecodeKey(UniversalKey(ref)) == Some(ref)
  {
    var parts := [ref.source, ref.className, ref.objectKey];
    EachOf3(ref.source, ref.className, ref.objectKey);
    hide EncodeEach, EncodeComponent, DecodeComponent, Split, Join;
    EachHasNone(parts, '|');
    SplitJoin(EncodeEach(parts), '|');
    ComponentRoundTrip(ref.source);
    ComponentRoundTrip(ref.className);
    ComponentRoundTrip(ref.objectKey);
  }

  lemma EachOf2(a: string, b: string)
    ensures EncodeEach([a, b]) == [EncodeComponent(a), EncodeComponent(b)]
  {
    hide EncodeComponent;
    assert [a, b][1..] == [b] && [b][1..] == [];
    assert EncodeEach([]) == [];
    assert EncodeEach([b]) == [EncodeComponent(b)];
  }

  lemma EachOf3(a: string, b: string, c: string)
    ensures EncodeEach([a, b, c]) == [EncodeComponent(a), EncodeComponent(b), EncodeComponent(c)]
  {
    hide EncodeComponent;
    EachOf2(b, c);
    assert [a, b, c][1..] == [b, c];
  }

  lemma {:induction false} JoinConcat(xs: seq<string>, ys: seq<string>, sep: char)
    requires xs != [] && ys != []
    ensures Join(xs + ys, sep) == Join(xs, sep) + [sep] + Join(ys, sep)
    decreases |xs|
  {
    if |xs| == 1 {
      assert xs + ys == [xs[0]] + ys && (xs + ys)[1..] == ys;
    } else {
      assert (xs + ys)[0] == xs[0] && (xs + ys)[1..] == xs[1..] + ys;
      JoinConcat(xs[1..], ys, sep);
      assert Join(xs + ys, sep) == xs[0] + [sep] + (Join(xs[1..], sep) + [sep] + Join(ys, sep));
    }
  }

  /** The segments of an encoded method, which always has one. */
  function MethodParts(operation: string): seq<string> {
    EncodeEach(Split(operation, '/'))
  }

  lemma MethodPartsAre(operation: string)
    ensures MethodParts(operation) != [] && (forall part :: part in MethodParts(operation) ==> '/' !in part)
    ensures DecodeEach(MethodParts(operation)) == Some(Split(operation, '/'))
    ensures Join(Split(operation, '/'), '/') == operation
  {
    EachRoundTrip(Split(operation, '/'));
    EachHasNone(Split(operation, '/'), '/');
    JoinSplit(operation, '/');
  }

  lemma UserlandSegments(ref: Ref, operation: string)
    ensures Split(UserlandUrl(ref, operation), '/')
         == ["", "_u", EncodeComponent(UniversalKey(ref))] + MethodParts(operation)
  {
    var key := EncodeComponent(UniversalKey(ref));
    var parts := ["", "_u", key] + MethodParts(operation);
    hide EncodeComponent, EncodeEach, Split, UniversalKey;
    EncodedHasNone(UniversalKey(ref), '/');
    MethodPartsAre(operation);
    JoinConcat(["", "_u", key], MethodParts(operation), '/');
    JoinOf3("", "_u", key, '/');
    assert "" + "/" + "_u" + "/" + key == "/_u/" + key;
    SplitJoin(parts, '/');
  }

  lemma JoinOf3(a: string, b: string, c: string, sep: char)
    ensures Join([a, b, c], sep) == a + [sep] + b + [sep] + c
  {
    assert [a, b, c][1..] == [b, c] && [b, c][1..] == [c];
    assert Join([c], sep) == c;
    assert Join([b, c], sep) == b + [sep] + c;
  }

  /** The names in an internal path. */
  function Names(ref: Ref): seq<string> {
    Split(ref.source, '/') + [ref.className, ref.objectKey]
  }

  lemma InternalSegments(ref: Ref, operation: string)
    ensures Split(InternalUrl(ref, operation), '/') == ["", "_w"] + EncodeEach(Names(ref)) + MethodParts(operation)
  {
    hide EncodeComponent, EncodeEach, Split, MethodParts, Join, InternalUrl, Names;
    InternalJoin(ref, operation);
    EachHasNone(Names(ref), '/');
    MethodPartsAre(operation);
    var parts := ["", "_w"] + EncodeEach(Names(ref)) + MethodParts(operation);
    SplitJoin(parts, '/');
  }

  lemma InternalJoin(ref: Ref, operation: string)
    ensures Join(["", "_w"] + EncodeEach(Names(ref)) + MethodParts(operation), '/') == InternalUrl(ref, operation)
  {
    hide EncodeComponent, EncodeEach, Split, Join;
    var source := EncodeEach(Split(ref.source, '/'));
    var className, key := EncodeComponent(ref.className), EncodeComponent(ref.objectKey);
    var front := ["", "_w"] + source;
    EachOf2(ref.className, ref.objectKey);
    EachConcat(Split(ref.source, '/'), [ref.className, ref.objectKey]);
    EachRoundTrip(Split(ref.source, '/'));
    EachRoundTrip(Split(operation, '/'));
    JoinConcat(["", "_w"], source, '/');
    JoinOf2("", "_w", '/');
    JoinConcat(front, [className, key], '/');
    JoinOf2(className, key, '/');
    JoinConcat(front + [className, key], MethodParts(operation), '/');
    assert front + [className, key] == ["", "_w"] + EncodeEach(Names(ref));
    assert "" + ['/'] + "_w" == "/_w" && "/_w" + ['/'] == "/_w/";
  }

  lemma JoinOf2(a: string, b: string, sep: char)
    ensures Join([a, b], sep) == a + [sep] + b
  {
    assert [a, b][1..] == [b];
  }

  lemma {:induction false} EachConcat(xs: seq<string>, ys: seq<string>)
    ensures EncodeEach(xs + ys) == EncodeEach(xs) + EncodeEach(ys)
    decreases |xs|
  {
    hide EncodeComponent;
    if xs == [] {
      assert xs + ys == ys;
    } else {
      assert (xs + ys)[0] == xs[0] && (xs + ys)[1..] == xs[1..] + ys;
      EachConcat(xs[1..], ys);
    }
  }

  /** Every userland reference and method comes back from its path. */
  lemma UserlandRoundTrip(ref: Ref, operation: string)
    ensures ParseUrl(UserlandUrl(ref, operation)) == Some((ref, operation))
  {
    UserlandSegments(ref, operation);
    hide EncodeComponent, DecodeComponent, DecodeEach, Split, UniversalKey, DecodeKey, UserlandUrl, MethodParts, Join;
    ComponentRoundTrip(UniversalKey(ref));
    KeyRoundTrip(ref);
    MethodPartsAre(operation);
    var parts := Split(UserlandUrl(ref, operation), '/');
    assert parts[3..] == MethodParts(operation);
  }

  /** So does every internal one whose source has two segments. */
  lemma InternalRoundTrip(ref: Ref, operation: string)
    requires |Split(ref.source, '/')| == 2
    ensures ParseUrl(InternalUrl(ref, operation)) == Some((ref, operation))
  {
    var source, names := Split(ref.source, '/'), Names(ref);
    InternalSegments(ref, operation);
    JoinSplit(ref.source, '/');
    EachRoundTrip(names);
    MethodPartsAre(operation);
    hide EncodeComponent, DecodeComponent, DecodeEach, EncodeEach, Split, InternalUrl, MethodParts, Join, DecodeKey;
    var parts := Split(InternalUrl(ref, operation), '/');
    assert parts[2..6] == EncodeEach(names);
    assert parts[6..] == MethodParts(operation);
    assert names[..2] == source;
  }

  lemma InternalSourceIsTwoSegments()
    ensures Split(INTERNAL_SOURCE, '/') == ["natstack", "internal"]
  {
    hide Split;
    SplitFirst("natstack", "internal", '/');
    SplitWhole("internal", '/');
    assert INTERNAL_SOURCE == "natstack" + "/" + "internal";
  }

  /** The path determines the reference and the method. */
  lemma AddressRoundTrip(ref: Ref, operation: string)
    ensures ParseUrl(DoRefUrl(ref, operation)) == Some((ref, operation))
  {
    hide ParseUrl, InternalUrl, UserlandUrl;
    if ref.source == INTERNAL_SOURCE {
      InternalSourceIsTwoSegments();
      InternalRoundTrip(ref, operation);
    } else {
      UserlandRoundTrip(ref, operation);
    }
  }

  lemma AddressesAreInjective(a: Ref, m: string, b: Ref, n: string)
    requires DoRefUrl(a, m) == DoRefUrl(b, n)
    ensures a == b && m == n
  {
    AddressRoundTrip(a, m);
    AddressRoundTrip(b, n);
  }

  lemma KeysAreInjective(a: Ref, b: Ref)
    requires UniversalKey(a) == UniversalKey(b)
    ensures a == b
  {
    KeyRoundTrip(a);
    KeyRoundTrip(b);
  }

  // ---------------------------------------------------------------------------
  // The generated router and the host
  // ---------------------------------------------------------------------------

  /** `filter(Boolean)`. */
  function NonEmpty(parts: seq<string>): seq<string> {
    if parts == [] then [] else (if parts[0] == "" then [] else [parts[0]]) + NonEmpty(parts[1..])
  }

  function PathParts(path: string): seq<string> {
    NonEmpty(Split(path, '/'))
  }

  /** The path that the router hands to the host of a packed key. */
  function HostPath(key: string, rest: seq<string>): string {
    "/" + EncodeComponent(key) + if rest == [] then "" else "/" + Join(rest, '/')
  }

  /** The router on a userland path; nothing where it answers with an error or throws. */
  function RouteUserland(url: string): Option<string> {
    var parts := PathParts(url);
    if |parts| < 2 || parts[0] != "_u" then None
    else if DecodeComponent(parts[1]) == None || DecodeComponent(parts[1]).value == "" then None
    else Some(HostPath(DecodeComponent(parts[1]).value, parts[2..]))
  }

  /** The host: which object, and the segments of the method; it refuses an empty source or class. */
  function HostReceives(path: string): Option<(Ref, seq<string>)> {
    var parts := PathParts(path);
    if parts == [] || DecodeComponent(parts[0]) == None || DecodeComponent(parts[0]).value == "" then None
    else
      var ref := DecodeKey(DecodeComponent(parts[0]).value);
      if ref == None || ref.value.source == "" || ref.value.className == "" then None
      else Some((ref.value, parts[1..]))
  }

  lemma {:induction false} NonEmptyConcat(xs: seq<string>, ys: seq<string>)
    ensures NonEmpty(xs + ys) == NonEmpty(xs) + NonEmpty(ys)
    decreases |xs|
  {
    if xs == [] {
      assert xs + ys == ys;
    } else {
      assert (xs + ys)[0] == xs[0] && (xs + ys)[1..] == xs[1..] + ys;
      NonEmptyConcat(xs[1..], ys);
    }
  }

  lemma {:induction false} NonEmptyIs(xs: seq<string>)
    ensures "" !in NonEmpty(xs) && (forall x :: x in NonEmpty(xs) ==> x in xs)
    ensures "" !in xs <==> NonEmpty(xs) == xs
    ensures |NonEmpty(xs)| <= |xs|
    decreases |xs|
  {
    if xs != [] {
      NonEmptyIs(xs[1..]);
      assert xs == [xs[0]] + xs[1..];
    }
  }

  lemma NonEmptyPair(first: string, second: string)
    ensures NonEmpty([first, second]) == (if first == "" then [] else [first]) + if second == "" then [] else [second]
  {
    assert [first, second][1..] == [second] && [second][1..] == [];
    assert NonEmpty([second]) == if second == "" then [] else [second];
  }

  lemma KeyIsNotEmpty(ref: Ref)
    ensures UniversalKey(ref) != ""
  {
    EachOf3(ref.source, ref.className, ref.objectKey);
    hide EncodeComponent, EncodeEach;
    JoinOf3(EncodeComponent(ref.source), EncodeComponent(ref.className), EncodeComponent(ref.objectKey), '|');
    assert UniversalKey(ref)[|EncodeComponent(ref.source)|] == '|';
  }

  lemma HostPathParts(key: string, rest: seq<string>)
    requires key != "" && "" !in rest && forall part :: part in rest ==> '/' !in part
    ensures PathParts(HostPath(key, rest)) == [EncodeComponent(key)] + rest
  {
    var encoded := EncodeComponent(key);
    EncodedIsEmpty(key);
    hide EncodeComponent, Split;
    EncodedHasNone(key, '/');
    NonEmptyPair("", encoded);
    NonEmptyIs(rest);
    NonEmptyConcat(["", encoded], rest);
    JoinOf2("", encoded, '/');
    var parts := ["", encoded] + rest;
    if rest != [] {
      JoinConcat(["", encoded], rest, '/');
    } else {
      assert parts == ["", encoded];
    }
    assert HostPath(key, rest) == Join(parts, '/');
    SplitJoin(parts, '/');
  }

  /**
   Through router and host: a userland call reaches the object it names, with the
   non-empty segments of its method, exactly when source and class are not empty.
   */
  lemma UserlandDelivery(ref: Ref, operation: string)
    ensures RouteUserland(UserlandUrl(ref, operation)).Some?
    ensures HostReceives(RouteUserland(UserlandUrl(ref, operation)).value)
         == if ref.source == "" || ref.className == "" then None else Some((ref, NonEmpty(MethodParts(operation))))
  {
    var key := UniversalKey(ref);
    var url, rest := UserlandUrl(ref, operation), NonEmpty(MethodParts(operation));
    UserlandParts(ref, operation);
    hide EncodeComponent, DecodeComponent, UniversalKey, DecodeKey, UserlandUrl, MethodParts, PathParts, HostPath;
    ComponentRoundTrip(key);
    KeyIsNotEmpty(ref);
    KeyRoundTrip(ref);
    MethodPartsAre(operation);
    NonEmptyIs(MethodParts(operation));
    var parts := PathParts(url);
    assert parts[0] == "_u" && parts[1] == EncodeComponent(key);
    assert parts[2..] == rest;
    HostPathParts(key, rest);
    assert PathParts(HostPath(key, rest))[1..] == rest;
  }

  lemma UserlandParts(ref: Ref, operation: string)
    ensures PathParts(UserlandUrl(ref, operation))
         == ["_u", EncodeComponent(UniversalKey(ref))] + NonEmpty(MethodParts(operation))
  {
    var encoded := EncodeComponent(UniversalKey(ref));
    UserlandSegments(ref, operation);
    KeyIsNotEmpty(ref);
    EncodedIsEmpty(UniversalKey(ref));
    hide EncodeComponent, UniversalKey, MethodParts, UserlandUrl, Split;
    assert ["", "_u", encoded][1..] == ["_u", encoded];
    NonEmptyPair("_u", encoded);
    NonEmptyConcat(["", "_u", encoded], MethodParts(operation));
  }

  /** The object sees the method as it was called exactly when it has no empty segment, or is empty. */
  lemma MethodSurvivesIff(operation: string)
    ensures DecodeEach(NonEmpty(MethodParts(operation))) == Some(NonEmpty(Split(operation, '/')))
    ensures Join(NonEmpty(Split(operation, '/')), '/') == operation <==> operation == "" || "" !in Split(operation, '/')
  {
    var parts := Split(operation, '/');
    NonEmptyEach(parts);
    EachRoundTrip(NonEmpty(parts));
    JoinSplit(operation, '/');
    NonEmptyIs(parts);
    if "" in parts && operation != "" && Join(NonEmpty(parts), '/') == operation {
      if NonEmpty(parts) != [] {
        SplitJoin(NonEmpty(parts), '/');
      }
    }
  }

  lemma {:induction false} NonEmptyEach(parts: seq<string>)
    ensures NonEmpty(EncodeEach(parts)) == EncodeEach(NonEmpty(parts))
    decreases |parts|
  {
    if parts != [] {
      EncodedIsEmpty(parts[0]);
      hide EncodeComponent;
      NonEmptyEach(parts[1..]);
      NonEmptyCons(EncodeComponent(parts[0]), EncodeEach(parts[1..]));
      NonEmptyCons(parts[0], parts[1..]);
      assert parts == [parts[0]] + parts[1..];
      EachCons(parts[0], NonEmpty(parts[1..]));
    }
  }

  lemma NonEmptyCons(first: string, rest: seq<string>)
    ensures NonEmpty([first] + rest) == if first == "" then NonEmpty(rest) else [first] + NonEmpty(rest)
  {
    assert ([first] + rest)[1..] == rest;
  }

  lemma EachCons(first: string, rest: seq<string>)
    ensures EncodeEach([first] + rest) == [EncodeComponent(first)] + EncodeEach(rest)
  {
    hide EncodeComponent;
    assert ([first] + rest)[1..] == rest;
  }

  /** Such an operation: two slashes in a row reach the object as one. */
  lemma EmptySegmentIsLost()
    ensures Split("a//b", '/') == ["a", "", "b"]
    ensures Join(NonEmpty(Split("a//b", '/')), '/') == "a/b" != "a//b"
  {
    var parts := ["a", "", "b"];
    JoinOf3("a", "", "b", '/');
    assert "a" + "/" + "" + "/" + "b" == "a//b";
    SplitJoin(parts, '/');
    assert parts == ["a"] + ["", "b"];
    NonEmptyCons("a", ["", "b"]);
    NonEmptyPair("", "b");
    JoinOf2("a", "b", '/');
    assert ["a"] + ["b"] == ["a", "b"];
  }
}
