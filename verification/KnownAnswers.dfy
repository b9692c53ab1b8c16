/** Known answers of the codecs: which bytes and characters they write, not only that they read them back. */
module KnownAnswers {
  import opened Options
  import opened Utf8
  import JsonText
  import Framing
  import Base64
  import opened Percent
  import opened DoAddress

  /** Section 3 of RFC 3629: one byte below U+0080, then two, three and four; a lone surrogate is replaced. */
  lemma Utf8Answers()
    ensures Encode(0x24) == [0x24] && Encode(0x7F) == [0x7F]
    ensures Encode(0x80) == [0xC2, 0x80] && Encode(0xE9) == [0xC3, 0xA9]
    ensures Encode(0x800) == [0xE0, 0xA0, 0x80] && Encode(0x20AC) == [0xE2, 0x82, 0xAC]
    ensures Encode(0x10000) == [0xF0, 0x90, 0x80, 0x80] && Encode(0x1F600) == [0xF0, 0x9F, 0x98, 0x80]
    ensures Encode(0xD800) == [0xEF, 0xBF, 0xBD]
  {
  }

  /** One replacement character for each part of a sequence that does not go on. */
  lemma Utf8Repairs()
    ensures Decode(READY, [0xFF]).1 == [0xFFFD]
    ensures Decode(READY, [0xE2, 0x82, 0x41]).1 == [0xFFFD, 0x41]
    ensures Decode(READY, [0xC0, 0x80]).1 == [0xFFFD, 0xFFFD]
    ensures Decode(READY, [0xE2, 0x82]).1 == [] && Flush(Decode(READY, [0xE2, 0x82]).0) == [0xFFFD]
    ensures Decode(START, [0xEF, 0xBB, 0xBF, 0x41]).1 == [0x41]
  {
    One(READY, 0xFF);
    Three(READY, 0xE2, 0x82, 0x41);
    Two(READY, 0xC0, 0x80);
    Two(READY, 0xE2, 0x82);
    Four(START, 0xEF, 0xBB, 0xBF, 0x41);
  }

  lemma One(d: Decoder, a: Byte)
    ensures Decode(d, [a]) == Step(d, a)
  {
    Decode1(d, a);
  }

  lemma Two(d: Decoder, a: Byte, b: Byte)
    ensures Decode(d, [a, b]) == (Step(Step(d, a).0, b).0, Step(d, a).1 + Step(Step(d, a).0, b).1)
  {
    hide Step;
    assert [a, b][1..] == [b];
    One(Step(d, a).0, b);
  }

  lemma Three(d: Decoder, a: Byte, b: Byte, c: Byte)
    ensures Decode(d, [a, b, c]) == (Decode(Step(d, a).0, [b, c]).0, Step(d, a).1 + Decode(Step(d, a).0, [b, c]).1)
    ensures var d1 := Step(d, a).0; var d2 := Step(d1, b).0;
      Decode(d, [a, b, c]) == (Step(d2, c).0, Step(d, a).1 + (Step(d1, b).1 + Step(d2, c).1))
  {
    hide Step;
    assert [a, b, c][1..] == [b, c];
    Two(Step(d, a).0, b, c);
  }

  lemma Four(d: Decoder, a: Byte, b: Byte, c: Byte, e: Byte)
    ensures var d1 := Step(d, a).0; var d2 := Step(d1, b).0; var d3 := Step(d2, c).0;
      Decode(d, [a, b, c, e]) == (Step(d3, e).0, Step(d, a).1 + (Step(d1, b).1 + (Step(d2, c).1 + Step(d3, e).1)))
  {
    hide Step;
    assert [a, b, c, e][1..] == [b, c, e];
    Three(Step(d, a).0, b, c, e);
  }

  lemma EscapeAnswers()
    ensures JsonText.Escape(34) == [92, 34] && JsonText.Escape(92) == [92, 92] && JsonText.Escape(10) == [92, 110]
    ensures JsonText.Escape(1) == [92, 117, 48, 48, 48, 49]
    ensures JsonText.Escape(0xD83D) == [92, 117, 100, 56, 51, 100]
    ensures JsonText.Escape(65) == [65]
  {
    assert JsonText.Hex4(1) == [48, 48, 48, 49] && JsonText.Hex4(0xD83D) == [100, 56, 51, 100];
  }

  lemma JsonCons(c: Point, rest: seq<Point>)
    ensures JsonText.EscapeAll([c] + rest) == JsonText.Escape(c) + JsonText.EscapeAll(rest)
    ensures JsonText.EscapeAll([]) == []
  {
    hide JsonText.Escape;
    assert ([c] + rest)[1..] == rest;
  }

  /** A quote, a backslash, a line break and a letter as a literal. */
  lemma JsonAnswers()
    ensures JsonText.Quote([34, 92, 10, 65]) == [34, 92, 34, 92, 92, 92, 110, 65, 34]
  {
    hide JsonText.Escape, JsonText.EscapeAll;
    EscapeAnswers();
    JsonCons(65, []);
    JsonCons(10, [65]);
    JsonCons(92, [10, 65]);
    JsonCons(34, [92, 10, 65]);
    assert [65] + [] == [65] && [10] + [65] == [10, 65];
    assert [92] + [10, 65] == [92, 10, 65] && [34] + [92, 10, 65] == [34, 92, 10, 65];
  }

  /** A control character and a lone surrogate. */
  lemma JsonCodes()
    ensures JsonText.Quote([1, 0xD83D]) == [34, 92, 117, 48, 48, 48, 49, 92, 117, 100, 56, 51, 100, 34]
  {
    hide JsonText.Escape, JsonText.EscapeAll;
    EscapeAnswers();
    JsonCons(0xD83D, []);
    JsonCons(1, [0xD83D]);
    assert [0xD83D] + [] == [0xD83D] && [1] + [0xD83D] == [1, 0xD83D];
  }

  lemma TextCons(c: Point, rest: seq<Point>)
    ensures EncodeText([c] + rest) == Encode(c) + EncodeText(rest)
    ensures EncodeText([]) == []
  {
    hide Encode;
    assert ([c] + rest)[1..] == rest;
  }

  lemma FrameAnswers()
    ensures Framing.Frame([233]) == [34, 233, 34, 10]
  {
    JsonCons(233, []);
    assert [233] + [] == [233];
  }

  /** A message on the wire: a literal and a line break. */
  lemma WireAnswers()
    ensures Framing.Wire([[233]]) == [34, 0xC3, 0xA9, 34, 10]
  {
    FrameAnswers();
    Utf8Answers();
    hide Framing.Frame, EncodeText;
    assert Encode(34) == [34] && Encode(10) == [10];
    TextCons(10, []);
    TextCons(34, [10]);
    TextCons(233, [34, 10]);
    TextCons(34, [233, 34, 10]);
    assert [10] + [] == [10] && [34] + [10] == [34, 10] && [233] + [34, 10] == [233, 34, 10];
    assert [34] + [233, 34, 10] == [34, 233, 34, 10];
    assert [[233]][1..] == [];
  }

  lemma CodeAnswers()
    ensures Base64.Code(0) == 'A' && Base64.Code(4) == 'E' && Base64.Code(5) == 'F' && Base64.Code(24) == 'Y'
    ensures Base64.Code(25) == 'Z' && Base64.Code(32) == 'g' && Base64.Code(38) == 'm' && Base64.Code(47) == 'v'
    ensures Base64.Code(50) == 'y' && Base64.Code(60) == '8' && Base64.Code(61) == '9' && Base64.Code(62) == '+'
    ensures Base64.Code(63) == '/'
  {
  }

  lemma GroupFrom(n: nat, w: Base64.Sextet, x: Base64.Sextet, y: Base64.Sextet, z: Base64.Sextet)
    requires n == w * 262144 + x * 4096 + y * 64 + z
    ensures Base64.Group(n) == [Base64.Code(w), Base64.Code(x), Base64.Code(y), Base64.Code(z)]
  {
    hide Base64.Code;
    DigitsFrom(n, w, x, y, z);
    assert Base64.Digit(n, 262144) == w && Base64.Digit(n, 4096) == x && Base64.Digit(n, 64) == y;
    assert Base64.Digit(n, 1) == z;
    hide Base64.Digit;
  }

  lemma DigitsFrom(n: nat, w: Base64.Sextet, x: Base64.Sextet, y: Base64.Sextet, z: Base64.Sextet)
    requires n == w * 262144 + x * 4096 + y * 64 + z
    ensures n / 262144 % 64 == w && n / 4096 % 64 == x && n / 64 % 64 == y && n / 1 % 64 == z
  {
    assert n / 64 == w * 4096 + x * 64 + y;
    assert n / 4096 == w * 64 + x;
    assert n / 262144 == w;
  }

  lemma GroupAnswers()
    ensures Base64.Group(Base64.Word(102, 111, 111)) == "Zm9v" && Base64.Group(Base64.Word(98, 97, 114)) == "YmFy"
    ensures Base64.Group(Base64.Word(102, 0, 0)) == "ZgAA" && Base64.Group(Base64.Word(102, 111, 0)) == "Zm8A"
    ensures Base64.Group(Base64.Word(98, 0, 0)) == "YgAA" && Base64.Group(Base64.Word(98, 97, 0)) == "YmEA"
    ensures Base64.Group(Base64.Word(251, 255, 0)) == "+/8A"
  {
    hide Base64.Group, Base64.Code;
    CodeAnswers();
    GroupFrom(6713199, 25, 38, 61, 47);
    GroupFrom(6447474, 24, 38, 5, 50);
    GroupFrom(6684672, 25, 32, 0, 0);
    GroupFrom(6713088, 25, 38, 60, 0);
    GroupFrom(6422528, 24, 32, 0, 0);
    GroupFrom(6447360, 24, 38, 4, 0);
    GroupFrom(16514816, 62, 63, 60, 0);
  }

  lemma Base64Cons(a: Byte, b: Byte, c: Byte, rest: seq<Byte>)
    ensures Base64.Encoded([a, b, c] + rest) == Base64.Group(Base64.Word(a, b, c)) + Base64.Encoded(rest)
    ensures Base64.Encoded([]) == ""
    ensures Base64.Encoded([a]) == Base64.Group(Base64.Word(a, 0, 0))[..2] + "=="
    ensures Base64.Encoded([a, b]) == Base64.Group(Base64.Word(a, b, 0))[..3] + "="
  {
    hide Base64.Group, Base64.Word;
    assert ([a, b, c] + rest)[3..] == rest;
    assert "==" == [Base64.PAD, Base64.PAD] && "=" == [Base64.PAD];
  }

  /** The test vectors of section 10 of RFC 4648, and the last two digits. */
  lemma Base64Answers()
    ensures Base64.Encoded([]) == "" && Base64.Encoded([102]) == "Zg==" && Base64.Encoded([102, 111]) == "Zm8="
    ensures Base64.Encoded([102, 111, 111]) == "Zm9v"
    ensures Base64.Encoded([102, 111, 111, 98]) == "Zm9vYg=="
    ensures Base64.Encoded([102, 111, 111, 98, 97]) == "Zm9vYmE="
    ensures Base64.Encoded([102, 111, 111, 98, 97, 114]) == "Zm9vYmFy"
    ensures Base64.Encoded([251, 255]) == "+/8="
  {
    hide Base64.Encoded, Base64.Group, Base64.Word;
    GroupAnswers();
    Base64Cons(102, 111, 111, []);
    Base64Cons(98, 97, 114, []);
    Base64Cons(251, 255, 0, []);
    Base64Cons(102, 111, 111, [98]);
    Base64Cons(102, 111, 111, [98, 97]);
    Base64Cons(102, 111, 111, [98, 97, 114]);
    assert [102, 111, 111] + [] == [102, 111, 111] && [98, 97, 114] + [] == [98, 97, 114];
    assert [102, 111, 111] + [98] == [102, 111, 111, 98];
    assert [102, 111, 111] + [98, 97] == [102, 111, 111, 98, 97];
    assert [102, 111, 111] + [98, 97, 114] == [102, 111, 111, 98, 97, 114];
  }

  lemma OctetAnswers(b: Byte, rest: seq<Byte>)
    ensures Octets([b] + rest) == ['%', HexDigit(b / 16), HexDigit(b % 16)] + Octets(rest)
    ensures Octets([]) == ""
  {
    assert ([b] + rest)[1..] == rest;
  }

  lemma OctetsOf1(a: Byte)
    ensures Octets([a]) == ['%', HexDigit(a / 16), HexDigit(a % 16)]
  {
    OctetAnswers(a, []);
    assert [a] + [] == [a];
  }

  lemma OctetsOf2(a: Byte, b: Byte)
    ensures Octets([a, b]) == ['%', HexDigit(a / 16), HexDigit(a % 16), '%', HexDigit(b / 16), HexDigit(b % 16)]
  {
    OctetsOf1(b);
    OctetAnswers(a, [b]);
    assert [a] + [b] == [a, b];
  }

  /** The characters that stay, and two separators and a letter that do not. */
  lemma PercentAnswers()
    ensures EncodeChar('a') == "a" && EncodeChar('~') == "~" && EncodeChar('\'') == "'" && EncodeChar('(') == "("
    ensures EncodeChar('/') == "%2F" && EncodeChar('|') == "%7C" && EncodeChar('%') == "%25"
    ensures EncodeChar('\U{00E9}') == "%C3%A9"
  {
    Utf8Answers();
    assert Encode(0x2F) == [0x2F] && Encode(0x7C) == [0x7C] && Encode(0x25) == [0x25];
    hide Encode, Octets;
    OctetsOf1(0x2F);
    OctetsOf1(0x7C);
    OctetsOf1(0x25);
    OctetsOf2(0xC3, 0xA9);
  }

  lemma {:induction false} KeptStays(t: string)
    requires forall i :: 0 <= i < |t| ==> Kept(t[i])
    ensures EncodeComponent(t) == t
  {
    if t != "" {
      KeptStays(t[1..]);
    }
  }

  lemma {:induction false} ComponentConcat(a: string, b: string)
    ensures EncodeComponent(a + b) == EncodeComponent(a) + EncodeComponent(b)
    decreases |a|
  {
    hide EncodeChar;
    if a == "" {
      assert a + b == b;
    } else {
      assert (a + b)[0] == a[0] && (a + b)[1..] == a[1..] + b;
      ComponentConcat(a[1..], b);
    }
  }

  predicate Plain(t: string) {
    forall i :: 0 <= i < |t| ==> Kept(t[i])
  }

  lemma BarIsEncoded()
    ensures EncodeComponent("|") == "%7C"
  {
    PercentAnswers();
    hide EncodeChar;
    assert "|"[1..] == "";
  }

  lemma FivePieces(a: string, b: string, c: string, d: string, e: string)
    ensures EncodeComponent(a + b + c + d + e)
         == EncodeComponent(a) + EncodeComponent(b) + EncodeComponent(c) + EncodeComponent(d) + EncodeComponent(e)
  {
    hide EncodeComponent;
    ComponentConcat(a + b + c + d, e);
    ComponentConcat(a + b + c, d);
    ComponentConcat(a + b, c);
    ComponentConcat(a, b);
  }

  /** A key of plain parts: the parts between bars, and the bars are escaped in the path. */
  lemma PlainKey(ref: Ref)
    requires Plain(ref.source) && Plain(ref.className) && Plain(ref.objectKey)
    ensures UniversalKey(ref) == ref.source + "|" + ref.className + "|" + ref.objectKey
    ensures EncodeComponent(UniversalKey(ref)) == ref.source + "%7C" + ref.className + "%7C" + ref.objectKey
  {
    var a, b, c := ref.source, ref.className, ref.objectKey;
    KeptStays(a);
    KeptStays(b);
    KeptStays(c);
    hide EncodeComponent, Join, EncodeEach, Plain;
    EachOf3(a, b, c);
    JoinOf3(a, b, c, '|');
    BarIsEncoded();
    assert ['|'] == "|";
    FivePieces(a, "|", b, "|", c);
  }

  /** The address of a userland object with plain parts, and of an internal one. */
  lemma PlainAddress(ref: Ref, operation: string)
    requires Plain(ref.source) && Plain(ref.className) && Plain(ref.objectKey) && Plain(operation)
    ensures DoRefUrl(ref, operation)
         == "/_u/" + (ref.source + "%7C" + ref.className + "%7C" + ref.objectKey) + "/" + operation
    ensures DoRefUrl(ref.(source := "natstack/internal"), operation)
         == "/_w/" + "natstack/internal" + "/" + ref.className + "/" + ref.objectKey + "/" + operation
  {
    PlainKey(ref);
    KeptStays(ref.className);
    KeptStays(ref.objectKey);
    PlainMethod(operation);
    InternalPart();
    assert ref.source != INTERNAL_SOURCE by {
      assert INTERNAL_SOURCE[8] == '/' && !Kept('/');
    }
    hide EncodeComponent, UniversalKey, Plain, Kept, MethodPath, Join, EncodeEach, Split;
  }

  lemma PlainMethod(operation: string)
    requires Plain(operation)
    ensures MethodPath(operation) == operation
  {
    assert !Kept('/');
    assert '/' !in operation;
    KeptStays(operation);
    SplitWhole(operation, '/');
    hide EncodeComponent, Split;
    assert [operation][1..] == [] && EncodeEach([]) == [];
    assert EncodeEach([operation]) == [operation];
  }

  lemma InternalPart()
    ensures Join(EncodeEach(Split(INTERNAL_SOURCE, '/')), '/') == "natstack/internal"
  {
    hide EncodeComponent, Split, Join, EncodeEach;
    InternalSourceIsTwoSegments();
    PlainNames();
    PlainPair(INTERNAL_SOURCE, "natstack", "internal");
  }

  lemma PlainNames()
    ensures Plain("natstack") && Plain("internal")
  {
  }

  lemma PlainPair(s: string, a: string, b: string)
    requires Split(s, '/') == [a, b] && Plain(a) && Plain(b)
    ensures Join(EncodeEach(Split(s, '/')), '/') == s
  {
    KeptStays(a);
    KeptStays(b);
    EachOf2(a, b);
    JoinSplit(s, '/');
  }
}
