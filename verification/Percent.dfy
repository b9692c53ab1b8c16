/**
 Percent-encoding of text (section 2.1 of RFC 3986), as `encodeURIComponent` writes it
 and `decodeURIComponent` reads it, and lists of segments joined by a separator.
 */
module Percent {
  import opened Options
  import opened Hex
  import opened Utf8

  /** The characters that are not escaped. */
  predicate Kept(c: char) {
    'A' <= c <= 'Z' || 'a' <= c <= 'z' || '0' <= c <= '9'
    || c == '-' || c == '_' || c == '.' || c == '!' || c == '~' || c == '*' || c == '\'' || c == '(' || c == ')'
  }

  function HexDigit(n: nat): char
    requires n < 16
  {
    UpperDigit(n) as char
  }

  function Octets(bytes: seq<Byte>): string {
    if bytes == [] then []
    else ['%', HexDigit(bytes[0] / 16), HexDigit(bytes[0] % 16)] + Octets(bytes[1..])
  }

  function EncodeChar(c: char): string {
    if Kept(c) then [c] else Octets(Encode(c as int))
  }

  function EncodeComponent(t: string): string {
    if t == "" then "" else EncodeChar(t[0]) + EncodeComponent(t[1..])
  }

  /** One octet at the front of the text. */
  function ReadOctet(s: string): Option<Byte> {
    if |s| < 3 || s[0] != '%' || HexValue(s[1] as int) == None || HexValue(s[2] as int) == None then None
    else Some(HexValue(s[1] as int).value * 16 + HexValue(s[2] as int).value)
  }

  function ReadOctets(s: string, n: nat): (r: Option<seq<Byte>>)
    ensures r.Some? ==> |s| >= 3 * n
  {
    if n == 0 then Some([])
    else if ReadOctet(s) == None || ReadOctets(s[3..], n - 1) == None then None
    else Some([ReadOctet(s).value] + ReadOctets(s[3..], n - 1).value)
  }

  /** How many octets a character has, by the first. */
  function OctetCount(b: Byte): nat {
    if b < 0x80 then 1 else if b < 0xE0 then 2 else if b < 0xF0 then 3 else 4
  }

  /** The character that some octets encode, if they are the encoding of one. */
  function FromOctets(bytes: seq<Byte>): Option<char> {
    var (d, out) := Decode(READY, bytes);
    if |out| == 1 && out[0] < 0x110000 && !Surrogate(out[0]) && Encode(out[0]) == bytes then Some(out[0] as char)
    else None
  }

  /** One character and how much of the text it takes. */
  function ReadChar(s: string): (r: Option<(char, nat)>)
    requires s != ""
    ensures r.Some? ==> 0 < r.value.1 <= |s|
  {
    if s[0] != '%' then Some((s[0], 1))
    else if ReadOctet(s) == None then None
    else
      var n := OctetCount(ReadOctet(s).value);
      var bytes := ReadOctets(s, n);
      if bytes == None || FromOctets(bytes.value) == None then None else Some((FromOctets(bytes.value).value, 3 * n))
  }

  /** `None` where the source throws. */
  function DecodeComponent(s: string): Option<string>
    decreases |s|
  {
    if s == "" then Some("")
    else if ReadChar(s) == None then None
    else
      var (c, n) := ReadChar(s).value;
      var rest := DecodeComponent(s[n..]);
      if rest == None then None else Some([c] + rest.value)
  }

  lemma HexRoundTrip(n: nat)
    requires n < 16
    ensures HexValue(HexDigit(n) as int) == Some(n) && Kept(HexDigit(n))
  {
    DigitValue(n);
  }

  lemma OneOctet(b: Byte, rest: string)
    ensures ReadOctet(['%', HexDigit(b / 16), HexDigit(b % 16)] + rest) == Some(b)
  {
    HexRoundTrip(b / 16);
    HexRoundTrip(b % 16);
  }

  lemma {:induction false} OctetsRoundTrip(bytes: seq<Byte>, rest: string)
    ensures |Octets(bytes)| == 3 * |bytes| && ReadOctets(Octets(bytes) + rest, |bytes|) == Some(bytes)
    decreases |bytes|
  {
    if bytes != [] {
      hide HexDigit, ReadOctet;
      var s := Octets(bytes) + rest;
      var tail := Octets(bytes[1..]) + rest;
      assert s == ['%', HexDigit(bytes[0] / 16), HexDigit(bytes[0] % 16)] + tail;
      OneOctet(bytes[0], tail);
      assert s[3..] == tail;
      OctetsRoundTrip(bytes[1..], rest);
      assert bytes == [bytes[0]] + bytes[1..];
    }
  }

  lemma OctetsAreCounted(c: Point)
    requires !Surrogate(c)
    ensures Encode(c) != [] && |Encode(c)| == OctetCount(Encode(c)[0])
  {
  }

  lemma CharRoundTrip(c: char, rest: string)
    ensures EncodeChar(c) != "" && ReadChar(EncodeChar(c) + rest) == Some((c, |EncodeChar(c)|))
  {
    if !Kept(c) {
      var bytes := Encode(c as int);
      OctetsAreCounted(c as int);
      EncodeDecode(READY, c as int);
      hide Encode, Octets, ReadOctets;
      OctetsRoundTrip(bytes, rest);
      FirstOctet(Octets(bytes) + rest, |bytes|);
    }
  }

  lemma FirstOctet(s: string, n: nat)
    requires n > 0 && ReadOctets(s, n).Some?
    ensures ReadOctet(s) == Some(ReadOctets(s, n).value[0]) && s[0] == '%'
  {
  }

  /** Decoding an encoded text gives it back. */
  lemma {:induction false} ComponentRoundTrip(t: string)
    ensures DecodeComponent(EncodeComponent(t)) == Some(t)
    decreases |t|
  {
    hide EncodeChar, ReadChar;
    if t != "" {
      var rest := EncodeComponent(t[1..]);
      var s := EncodeComponent(t);
      assert s == EncodeChar(t[0]) + rest;
      CharRoundTrip(t[0], rest);
      assert s[|EncodeChar(t[0])|..] == rest;
      ComponentRoundTrip(t[1..]);
      assert t == [t[0]] + t[1..];
    }
  }

  lemma {:induction false} OctetsAreClean(bytes: seq<Byte>, c: char)
    requires c in Octets(bytes)
    ensures Kept(c) || c == '%'
    decreases |bytes|
  {
    if bytes != [] {
      HexRoundTrip(bytes[0] / 16);
      HexRoundTrip(bytes[0] % 16);
      if c in Octets(bytes[1..]) {
        OctetsAreClean(bytes[1..], c);
      }
    }
  }

  /** An encoded text has no character with a meaning in a path or a packed key. */
  lemma {:induction false} EncodedIsClean(t: string, c: char)
    requires c in EncodeComponent(t)
    ensures Kept(c) || c == '%'
    decreases |t|
  {
    hide Octets, Kept;
    if t != "" {
      if c in EncodeChar(t[0]) {
        if !Kept(t[0]) {
          OctetsAreClean(Encode(t[0] as int), c);
        }
      } else {
        EncodedIsClean(t[1..], c);
      }
    }
  }

  lemma EncodedHasNone(t: string, sep: char)
    requires !Kept(sep) && sep != '%'
    ensures sep !in EncodeComponent(t)
  {
    hide EncodeComponent;
    if sep in EncodeComponent(t) {
      EncodedIsClean(t, sep);
    }
  }

  lemma {:induction false} EncodedIsEmpty(t: string)
    ensures EncodeComponent(t) == "" <==> t == ""
  {
    if t != "" {
      CharRoundTrip(t[0], "");
    }
  }

  // ---------------------------------------------------------------------------
  // Segments
  // ---------------------------------------------------------------------------

  function Split(s: string, sep: char): (r: seq<string>)
    ensures r != []
  {
    if s == "" then [""]
    else
      var rest := Split(s[1..], sep);
      if s[0] == sep then [""] + rest else [[s[0]] + rest[0]] + rest[1..]
  }

  function Join(parts: seq<string>, sep: char): string {
    if parts == [] then ""
    else if |parts| == 1 then parts[0]
    else parts[0] + [sep] + Join(parts[1..], sep)
  }

  lemma {:induction false} JoinSplit(s: string, sep: char)
    ensures Join(Split(s, sep), sep) == s
    ensures forall part :: part in Split(s, sep) ==> sep !in part
    decreases |s|
  {
    if s != "" {
      var parts, rest := Split(s, sep), Split(s[1..], sep);
      JoinSplit(s[1..], sep);
      if s[0] == sep {
        assert parts[1..] == rest;
        assert Join(parts, sep) == "" + [sep] + s[1..];
      } else {
        assert rest[0] in rest;
        assert parts[1..] == rest[1..];
        assert Join(parts, sep) == [s[0]] + Join(rest, sep);
      }
    }
  }

  lemma {:induction false} SplitFirst(part: string, rest: string, sep: char)
    requires sep !in part
    ensures Split(part + [sep] + rest, sep) == [part] + Split(rest, sep)
    decreases |part|
  {
    var s := part + [sep] + rest;
    if part == "" {
      assert s[1..] == rest;
    } else {
      assert s[1..] == part[1..] + [sep] + rest;
      SplitFirst(part[1..], rest, sep);
      var tail := Split(s[1..], sep);
      assert tail[1..] == Split(rest, sep) && [s[0]] + tail[0] == part;
    }
  }

  lemma {:induction false} SplitWhole(part: string, sep: char)
    requires sep !in part
    ensures Split(part, sep) == [part]
    decreases |part|
  {
    if part != "" {
      SplitWhole(part[1..], sep);
      assert [part[0]] + part[1..] == part;
    }
  }

  lemma {:induction false} SplitJoin(parts: seq<string>, sep: char)
    requires parts != [] && forall part :: part in parts ==> sep !in part
    ensures Split(Join(parts, sep), sep) == parts
    decreases |parts|
  {
    assert parts[0] in parts;
    if |parts| == 1 {
      SplitWhole(parts[0], sep);
    } else {
      SplitFirst(parts[0], Join(parts[1..], sep), sep);
      SplitJoin(parts[1..], sep);
      assert parts == [parts[0]] + parts[1..];
    }
  }

  function EncodeEach(parts: seq<string>): seq<string> {
    if parts == [] then [] else [EncodeComponent(parts[0])] + EncodeEach(parts[1..])
  }

  function DecodeEach(parts: seq<string>): Option<seq<string>> {
    if parts == [] then Some([])
    else if DecodeComponent(parts[0]) == None || DecodeEach(parts[1..]) == None then None
    else Some([DecodeComponent(parts[0]).value] + DecodeEach(parts[1..]).value)
  }

  lemma {:induction false} EachRoundTrip(parts: seq<string>)
    ensures DecodeEach(EncodeEach(parts)) == Some(parts) && |EncodeEach(parts)| == |parts|
    decreases |parts|
  {
    hide EncodeComponent, DecodeComponent;
    if parts != [] {
      ComponentRoundTrip(parts[0]);
      EachRoundTrip(parts[1..]);
      assert EncodeEach(parts)[1..] == EncodeEach(parts[1..]);
      assert parts == [parts[0]] + parts[1..];
    }
  }

  lemma {:induction false} EachHasNone(parts: seq<string>, sep: char)
    requires !Kept(sep) && sep != '%'
    ensures forall part :: part in EncodeEach(parts) ==> sep !in part
    decreases |parts|
  {
    hide EncodeComponent;
    if parts != [] {
      EncodedHasNone(parts[0], sep);
      EachHasNone(parts[1..], sep);
    }
  }
}
