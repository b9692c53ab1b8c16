/**
 Base64 (section 4 of RFC 4648), as the mobile shell prints it, and the streams it
 prints: a bundle goes to the native host one encoded chunk at a time.
 */
module Base64 {
  import opened Options
  import opened Utf8

  type Sextet = n: nat | n < 64

  const PAD: char := '='

  function Code(n: Sextet): char {
    if n < 26 then 'A' + n as char
    else if n < 52 then 'a' + (n - 26) as char
    else if n < 62 then '0' + (n - 52) as char
    else if n == 62 then '+' else '/'
  }

  function Value(c: char): Option<Sextet> {
    if 'A' <= c <= 'Z' then Some(c as int - 'A' as int)
    else if 'a' <= c <= 'z' then Some(c as int - 'a' as int + 26)
    else if '0' <= c <= '9' then Some(c as int - '0' as int + 52)
    else if c == '+' then Some(62)
    else if c == '/' then Some(63)
    else None
  }

  /** A group of three bytes is a number of 24 bits, and four digits. */
  function Word(a: Byte, b: Byte, c: Byte): nat {
    a * 65536 + b * 256 + c
  }

  function Digit(n: nat, shift: nat): Sextet
    requires shift > 0
  {
    n / shift % 64
  }

  function Group(n: nat): string {
    [Code(Digit(n, 262144)), Code(Digit(n, 4096)), Code(Digit(n, 64)), Code(Digit(n, 1))]
  }

  /** The encoding: whole groups, and one or two bytes with padding. */
  function Encoded(bytes: seq<Byte>): string {
    if |bytes| == 0 then ""
    else if |bytes| == 1 then Group(Word(bytes[0], 0, 0))[..2] + [PAD, PAD]
    else if |bytes| == 2 then Group(Word(bytes[0], bytes[1], 0))[..3] + [PAD]
    else Group(Word(bytes[0], bytes[1], bytes[2])) + Encoded(bytes[3..])
  }

  function FirstByte(a: Sextet, b: Sextet): Byte {
    a * 4 + b / 16
  }

  function SecondByte(b: Sextet, c: Sextet): Byte {
    b % 16 * 16 + c / 4
  }

  function ThirdByte(c: Sextet, d: Sextet): Byte {
    c % 4 * 64 + d
  }

  /** The decoding; the bits that padding leaves over must be zero. */
  function Decoded(s: string): Option<seq<Byte>> {
    if s == "" then Some([])
    else if |s| < 4 || Value(s[0]) == None || Value(s[1]) == None then None
    else
      var a, b := Value(s[0]).value, Value(s[1]).value;
      if |s| == 4 && s[2] == PAD then
        (if s[3] == PAD && b % 16 == 0 then Some([FirstByte(a, b)]) else None)
      else if Value(s[2]) == None then None
      else
        var c := Value(s[2]).value;
        if |s| == 4 && s[3] == PAD then (if c % 4 == 0 then Some([FirstByte(a, b), SecondByte(b, c)]) else None)
        else if Value(s[3]) == None || Decoded(s[4..]) == None then None
        else Some([FirstByte(a, b), SecondByte(b, c), ThirdByte(c, Value(s[3]).value)] + Decoded(s[4..]).value)
  }

  lemma CodeRoundTrip(n: Sextet)
    ensures Value(Code(n)) == Some(n) && Code(n) != PAD
  {
  }

  lemma WordDigits(a: Byte, b: Byte, c: Byte)
    ensures var n := Word(a, b, c);
      && Digit(n, 262144) == a / 4 && Digit(n, 4096) == a % 4 * 16 + b / 16
      && Digit(n, 64) == b % 16 * 4 + c / 64 && Digit(n, 1) == c % 64
  {
    var n := Word(a, b, c);
    assert n / 64 == a * 1024 + b * 4 + c / 64;
    assert n / 4096 == n / 64 / 64 && n / 262144 == n / 4096 / 64;
    assert n / 4096 == a * 16 + b / 16;
  }

  lemma {:induction false} EncodedLength(bytes: seq<Byte>)
    ensures |Encoded(bytes)| == (|bytes| + 2) / 3 * 4
    decreases |bytes|
  {
    hide Code, Digit;
    if |bytes| >= 3 {
      EncodedLength(bytes[3..]);
    }
  }

  function SecondDigit(a: Byte, b: Byte): Sextet {
    a % 4 * 16 + b / 16
  }

  function ThirdDigit(b: Byte, c: Byte): Sextet {
    b % 16 * 4 + c / 64
  }

  lemma DigitsRejoin(a: Byte, b: Byte, c: Byte)
    ensures FirstByte(a / 4, SecondDigit(a, b)) == a
    ensures SecondByte(SecondDigit(a, b), ThirdDigit(b, c)) == b
    ensures ThirdByte(ThirdDigit(b, c), c % 64) == c
    ensures SecondDigit(a, 0) % 16 == 0 && ThirdDigit(b, 0) % 4 == 0
  {
    assert SecondDigit(a, b) / 16 == a % 4 && SecondDigit(a, b) % 16 == b / 16;
    assert ThirdDigit(b, c) / 4 == b % 16 && ThirdDigit(b, c) % 4 == c / 64;
  }

  /** The values of the digits of a group. */
  lemma GroupValues(a: Byte, b: Byte, c: Byte)
    ensures var g := Group(Word(a, b, c));
      && |g| == 4 && PAD !in g
      && Value(g[0]) == Some(a / 4) && Value(g[1]) == Some(SecondDigit(a, b))
      && Value(g[2]) == Some(ThirdDigit(b, c)) && Value(g[3]) == Some(c % 64)
  {
    var n := Word(a, b, c);
    WordDigits(a, b, c);
    hide Word, Code, Value, Digit;
    CodeRoundTrip(Digit(n, 262144));
    CodeRoundTrip(Digit(n, 4096));
    CodeRoundTrip(Digit(n, 64));
    CodeRoundTrip(Digit(n, 1));
  }

  lemma WholeGroupDecodes(a: Byte, b: Byte, c: Byte, rest: string)
    requires Decoded(rest).Some?
    ensures Decoded(Group(Word(a, b, c)) + rest) == Some([a, b, c] + Decoded(rest).value)
  {
    GroupValues(a, b, c);
    DigitsRejoin(a, b, c);
    hide Group, Value, Word, FirstByte, SecondByte, ThirdByte, SecondDigit, ThirdDigit;
    var s := Group(Word(a, b, c)) + rest;
    assert s[4..] == rest && s[2] != PAD && s[3] != PAD;
  }

  lemma OneByteDecodes(a: Byte)
    ensures Decoded(Group(Word(a, 0, 0))[..2] + [PAD, PAD]) == Some([a])
  {
    GroupValues(a, 0, 0);
    DigitsRejoin(a, 0, 0);
    hide Group, Value, Word, FirstByte, SecondByte, ThirdByte, SecondDigit, ThirdDigit;
    var g := Group(Word(a, 0, 0));
    var s := g[..2] + [PAD, PAD];
    assert |s| == 4 && s[0] == g[0] && s[1] == g[1] && s[2] == PAD && s[3] == PAD;
  }

  lemma TwoBytesDecode(a: Byte, b: Byte)
    ensures Decoded(Group(Word(a, b, 0))[..3] + [PAD]) == Some([a, b])
  {
    GroupValues(a, b, 0);
    DigitsRejoin(a, b, 0);
    hide Group, Value, Word, FirstByte, SecondByte, ThirdByte, SecondDigit, ThirdDigit;
    var s := Group(Word(a, b, 0))[..3] + [PAD];
    assert s[2] == Group(Word(a, b, 0))[2] && s[2] != PAD && s[3] == PAD;
  }

  /** Decoding gives the bytes back. */
  lemma {:induction false} EncodedDecodes(bytes: seq<Byte>)
    ensures Decoded(Encoded(bytes)) == Some(bytes)
    decreases |bytes|
  {
    hide Group, Word, Decoded;
    if |bytes| == 0 {
      NothingDecodes();
    } else if |bytes| == 1 {
      OneByteDecodes(bytes[0]);
      assert bytes == [bytes[0]];
    } else if |bytes| == 2 {
      TwoBytesDecode(bytes[0], bytes[1]);
      assert bytes == [bytes[0], bytes[1]];
    } else {
      EncodedDecodes(bytes[3..]);
      WholeGroupDecodes(bytes[0], bytes[1], bytes[2], Encoded(bytes[3..]));
      assert bytes == [bytes[0], bytes[1], bytes[2]] + bytes[3..];
    }
  }

  lemma NothingDecodes()
    ensures Decoded("") == Some([])
  {
  }

  lemma {:induction false} EncodedPadding(bytes: seq<Byte>, i: nat)
    requires i < |Encoded(bytes)|
    ensures Encoded(bytes)[i] == PAD <==>
              (|bytes| % 3 == 1 && i >= |Encoded(bytes)| - 2) || (|bytes| % 3 == 2 && i == |Encoded(bytes)| - 1)
    decreases |bytes|
  {
    hide Code, Digit, Word;
    if |bytes| == 1 {
      GroupHasNoPad(Word(bytes[0], 0, 0));
    } else if |bytes| == 2 {
      GroupHasNoPad(Word(bytes[0], bytes[1], 0));
    } else if |bytes| >= 3 {
      GroupHasNoPad(Word(bytes[0], bytes[1], bytes[2]));
      EncodedLength(bytes[3..]);
      if i >= 4 {
        EncodedPadding(bytes[3..], i - 4);
      }
    }
  }

  lemma GroupHasNoPad(n: nat)
    ensures PAD !in Group(n)
  {
    CodeRoundTrip(Digit(n, 262144));
    CodeRoundTrip(Digit(n, 4096));
    CodeRoundTrip(Digit(n, 64));
    CodeRoundTrip(Digit(n, 1));
  }

  lemma {:induction false} EncodedGroups(a: seq<Byte>, b: seq<Byte>)
    requires |a| % 3 == 0
    ensures Encoded(a + b) == Encoded(a) + Encoded(b)
    decreases |a|
  {
    hide Group, Word;
    if a == [] {
      assert a + b == b;
    } else {
      assert (a + b)[3..] == a[3..] + b;
      EncodedGroups(a[3..], b);
    }
  }

  /** Encoding two chunks apart is encoding them together exactly when no padding falls between. */
  lemma ChunksEncodeAsOneIff(a: seq<Byte>, b: seq<Byte>)
    ensures Encoded(a) + Encoded(b) == Encoded(a + b) <==> |a| % 3 == 0 || b == []
  {
    hide Encoded;
    if |a| % 3 == 0 {
      EncodedGroups(a, b);
    } else if b == [] {
      EncodedLength(b);
      assert a + b == a;
    } else {
      EncodedLength(a);
      EncodedLength(b);
      EncodedLength(a + b);
      var last := |Encoded(a)| - 1;
      EncodedPadding(a, last);
      if |Encoded(a)| + |Encoded(b)| == |Encoded(a + b)| {
        EncodedPadding(a + b, last);
        assert (Encoded(a) + Encoded(b))[last] == PAD;
      }
    }
  }

  // ---------------------------------------------------------------------------
  // Streams
  // ---------------------------------------------------------------------------

  /** What the native host has written: every appended text decoded, one after another. */
  function DecodedAll(parts: seq<string>): Option<seq<Byte>> {
    if parts == [] then Some([])
    else if Decoded(parts[0]) == None || DecodedAll(parts[1..]) == None then None
    else Some(Decoded(parts[0]).value + DecodedAll(parts[1..]).value)
  }

  /** The non-empty chunks, encoded one by one. */
  function EncodedAll(chunks: seq<seq<Byte>>): seq<string> {
    if chunks == [] then []
    else (if chunks[0] == [] then [] else [Encoded(chunks[0])]) + EncodedAll(chunks[1..])
  }

  /** Decoding the chunks and joining them gives the whole stream, however it was cut. */
  lemma {:induction false} ChunksDecode(chunks: seq<seq<Byte>>)
    ensures DecodedAll(EncodedAll(chunks)) == Some(Joined(chunks))
    decreases |chunks|
  {
    hide Encoded, Decoded;
    if chunks != [] {
      EncodedDecodes(chunks[0]);
      ChunksDecode(chunks[1..]);
      if chunks[0] != [] {
        assert EncodedAll(chunks)[1..] == EncodedAll(chunks[1..]);
      } else {
        assert EncodedAll(chunks) == EncodedAll(chunks[1..]);
        assert Joined(chunks) == Joined(chunks[1..]);
      }
    }
  }

  lemma {:induction false} EncodedAllConcat(xs: seq<seq<Byte>>, ys: seq<seq<Byte>>)
    ensures EncodedAll(xs + ys) == EncodedAll(xs) + EncodedAll(ys)
    decreases |xs|
  {
    hide Encoded;
    if xs == [] {
      assert xs + ys == ys;
    } else {
      assert (xs + ys)[0] == xs[0] && (xs + ys)[1..] == xs[1..] + ys;
      EncodedAllConcat(xs[1..], ys);
    }
  }
}
