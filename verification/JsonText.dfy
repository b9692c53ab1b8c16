/**
 JSON string literals, as `JSON.stringify` prints them and as the grammar of section 7
 of RFC 8259 reads them.
 */
module JsonText {
  import opened Options
  import opened Hex
  import opened Utf8

  const NEWLINE: Point := 10
  const QUOTE: Point := 34
  const SLASH: Point := 47
  const BACKSLASH: Point := 92

  function Hex4(c: nat): seq<Point>
    requires c < 0x10000
  {
    [LowerDigit(c / 4096), LowerDigit(c / 256 % 16), LowerDigit(c / 16 % 16), LowerDigit(c % 16)]
  }

  function HexValue4(s: seq<nat>): Option<nat>
    requires |s| == 4
  {
    var a, b, c, d := HexValue(s[0]), HexValue(s[1]), HexValue(s[2]), HexValue(s[3]);
    if a.Some? && b.Some? && c.Some? && d.Some? then Some(a.value * 4096 + b.value * 256 + c.value * 16 + d.value)
    else None
  }

  /** The letter of a two-character escape. */
  function ShortEscape(c: Point): Option<Point> {
    if c == QUOTE then Some(QUOTE)
    else if c == BACKSLASH then Some(BACKSLASH)
    else if c == 8 then Some(98)
    else if c == 12 then Some(102)
    else if c == NEWLINE then Some(110)
    else if c == 13 then Some(114)
    else if c == 9 then Some(116)
    else None
  }

  function ShortEscaped(letter: nat): Option<nat> {
    if letter == QUOTE || letter == BACKSLASH || letter == SLASH then Some(letter)
    else if letter == 98 then Some(8)
    else if letter == 102 then Some(12)
    else if letter == 110 then Some(NEWLINE)
    else if letter == 114 then Some(13)
    else if letter == 116 then Some(9)
    else None
  }

  /** Control characters and lone surrogates are written as `\u` and four digits. */
  function Escape(c: Point): seq<Point> {
    if ShortEscape(c).Some? then [BACKSLASH, ShortEscape(c).value]
    else if c < 0x20 || Surrogate(c) then [BACKSLASH, 117] + Hex4(c)
    else [c]
  }

  function EscapeAll(t: seq<Point>): seq<Point> {
    if t == [] then [] else Escape(t[0]) + EscapeAll(t[1..])
  }

  function Quote(t: seq<Point>): seq<Point> {
    [QUOTE] + EscapeAll(t) + [QUOTE]
  }

  /** One character of a literal and how much of the input it takes. */
  function ReadChar(s: seq<nat>): Option<(nat, nat)>
    ensures ReadChar(s).Some? ==> 0 < ReadChar(s).value.1 <= |s|
  {
    if s == [] || s[0] == QUOTE || s[0] < 0x20 then None
    else if s[0] != BACKSLASH then Some((s[0], 1))
    else if |s| == 1 then None
    else if s[1] == 117 then
      (if |s| < 6 || HexValue4(s[2..6]) == None then None else Some((HexValue4(s[2..6]).value, 6)))
    else if ShortEscaped(s[1]).Some? then Some((ShortEscaped(s[1]).value, 2))
    else None
  }

  /** The characters up to the closing quote, which must be the end. */
  function ReadChars(s: seq<nat>): Option<seq<nat>>
    decreases |s|
  {
    if s == [QUOTE] then Some([])
    else if ReadChar(s) == None then None
    else
      var (c, n) := ReadChar(s).value;
      var rest := ReadChars(s[n..]);
      if rest == None then None else Some([c] + rest.value)
  }

  function Unquote(s: seq<nat>): Option<seq<nat>> {
    if s == [] || s[0] != QUOTE then None else ReadChars(s[1..])
  }

  lemma Hex4Value(c: nat)
    requires c < 0x10000
    ensures HexValue4(Hex4(c)) == Some(c)
  {
    DigitValue(c / 4096);
    DigitValue(c / 256 % 16);
    DigitValue(c / 16 % 16);
    DigitValue(c % 16);
    assert c / 4096 == c / 256 / 16 && c / 256 == c / 16 / 16;
  }

  lemma EscapeReads(c: Point, rest: seq<nat>)
    ensures ReadChar(Escape(c) + rest) == Some((c, |Escape(c)|))
  {
    var s := Escape(c) + rest;
    if ShortEscape(c).Some? {
      assert s[0] == BACKSLASH && s[1] == ShortEscape(c).value;
    } else if c < 0x20 || Surrogate(c) {
      hide Hex4, HexValue4;
      Hex4Value(c);
      assert |Hex4(c)| == 4 by { HexLength(c); }
      assert s[2..6] == Hex4(c);
    } else {
      assert s[0] == c;
    }
  }

  lemma HexLength(c: nat)
    requires c < 0x10000
    ensures |Hex4(c)| == 4
  {
  }

  lemma {:induction false} CharsRoundTrip(t: seq<Point>)
    ensures ReadChars(EscapeAll(t) + [QUOTE]) == Some(t)
    decreases |t|
  {
    hide Escape, ReadChar;
    if t == [] {
      assert EscapeAll(t) + [QUOTE] == [QUOTE];
    } else {
      var rest := EscapeAll(t[1..]) + [QUOTE];
      var s := EscapeAll(t) + [QUOTE];
      assert s == Escape(t[0]) + rest;
      EscapeReads(t[0], rest);
      NotJustQuote(t[0], rest);
      assert s[|Escape(t[0])|..] == rest;
      CharsRoundTrip(t[1..]);
      assert t == [t[0]] + t[1..];
    }
  }

  lemma NotJustQuote(c: Point, rest: seq<nat>)
    requires rest != []
    ensures Escape(c) + rest != [QUOTE]
  {
    assert |Escape(c)| >= 1;
    assert |Escape(c) + rest| >= 2;
  }

  /** Reading a printed literal gives the text back. */
  lemma QuoteRoundTrip(t: seq<Point>)
    ensures Unquote(Quote(t)) == Some(t)
  {
    CharsRoundTrip(t);
    assert Quote(t)[1..] == EscapeAll(t) + [QUOTE];
  }

  /** A printed literal has no line break, and nothing that UTF-8 cannot carry. */
  lemma {:induction false} EscapedIsPrintable(t: seq<Point>)
    ensures NEWLINE !in EscapeAll(t) && Scalars(EscapeAll(t))
    decreases |t|
  {
    hide EscapeAll, Hex4;
    if t == [] {
      assert EscapeAll(t) == [] by { EscapeNone(t); }
    } else {
      EscapeSome(t);
      EscapeIsPrintable(t[0]);
      EscapedIsPrintable(t[1..]);
    }
  }

  lemma EscapeNone(t: seq<Point>)
    requires t == []
    ensures EscapeAll(t) == []
  {
  }

  lemma EscapeSome(t: seq<Point>)
    requires t != []
    ensures EscapeAll(t) == Escape(t[0]) + EscapeAll(t[1..])
  {
  }

  lemma EscapeIsPrintable(c: Point)
    ensures NEWLINE !in Escape(c) && Scalars(Escape(c))
  {
    if ShortEscape(c) == None && (c < 0x20 || Surrogate(c)) {
      assert forall x :: x in Hex4(c) ==> x < 0x80 && x != NEWLINE;
    }
  }

  lemma QuoteIsPrintable(t: seq<Point>)
    ensures NEWLINE !in Quote(t) && Scalars(Quote(t)) && Quote(t) != [] && Quote(t)[0] == QUOTE
  {
    EscapedIsPrintable(t);
  }
}
