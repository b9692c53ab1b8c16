/**
 UTF-8 as the stream between server and host uses it: the encoder, and a decoder
 that takes the bytes one at a time and keeps what it needs between chunks.
 */
module Utf8 {

  type Byte = b: nat | b < 0x100

  /** A byte inside a sequence. */
  type Tail = b: nat | 0x80 <= b < 0xC0 witness 0x80

  /** A code point; a surrogate stands for one that has no partner. */
  type Point = c: nat | c < 0x110000

  const REPLACEMENT: Point := 0xFFFD
  const BYTE_ORDER_MARK: Point := 0xFEFF

  predicate Surrogate(c: nat) {
    0xD800 <= c < 0xE000
  }

  predicate Scalars(t: seq<nat>) {
    forall c :: c in t ==> c < 0x110000 && !Surrogate(c)
  }

  function Encode(c: Point): seq<Byte> {
    if c < 0x80 then [c]
    else if c < 0x800 then [0xC0 + c / 64, 0x80 + c % 64]
    else if Surrogate(c) then [0xEF, 0xBF, 0xBD]
    else if c < 0x10000 then [0xE0 + c / 4096, 0x80 + c / 64 % 64, 0x80 + c % 64]
    else [0xF0 + c / 262144, 0x80 + c / 4096 % 64, 0x80 + c / 64 % 64, 0x80 + c % 64]
  }

  function EncodeText(t: seq<Point>): seq<Byte> {
    if t == [] then [] else Encode(t[0]) + EncodeText(t[1..])
  }

  /** The state between two bytes; `started` once a leading byte order mark has been ruled out. */
  datatype Decoder = Decoder(point: nat, left: nat, lower: Tail, upper: Tail, started: bool)

  const START := Decoder(0, 0, 0x80, 0xBF, false)
  const READY := Decoder(0, 0, 0x80, 0xBF, true)

  /** A code point comes out, unless it is a byte order mark at the very start. */
  function Out(d: Decoder, c: nat): (Decoder, seq<nat>) {
    (READY, if !d.started && c == BYTE_ORDER_MARK then [] else [c])
  }

  function Lead(d: Decoder, b: Byte): (Decoder, seq<nat>) {
    if b < 0x80 then Out(d, b)
    else if 0xC2 <= b < 0xE0 then (Decoder(b - 0xC0, 1, 0x80, 0xBF, d.started), [])
    else if 0xE0 <= b < 0xF0 then
      (Decoder(b - 0xE0, 2, if b == 0xE0 then 0xA0 else 0x80, if b == 0xED then 0x9F else 0xBF, d.started), [])
    else if 0xF0 <= b < 0xF5 then
      (Decoder(b - 0xF0, 3, if b == 0xF0 then 0x90 else 0x80, if b == 0xF4 then 0x8F else 0xBF, d.started), [])
    else Out(d, REPLACEMENT)
  }

  /** A byte that cannot continue a sequence is taken again as the first of the next. */
  function Step(d: Decoder, b: Byte): (Decoder, seq<nat>) {
    if d.left == 0 then Lead(d, b)
    else if b < d.lower || b > d.upper then
      var (d1, out) := Out(d, REPLACEMENT);
      var (d2, more) := Lead(d1, b);
      (d2, out + more)
    else
      var point := d.point * 64 + (b - 0x80);
      if d.left == 1 then Out(d, point)
      else (Decoder(point, d.left - 1, 0x80, 0xBF, d.started), [])
  }

  function Decode(d: Decoder, bytes: seq<Byte>): (Decoder, seq<nat>)
    decreases |bytes|
  {
    if bytes == [] then (d, [])
    else
      var (d1, out) := Step(d, bytes[0]);
      var (d2, more) := Decode(d1, bytes[1..]);
      (d2, out + more)
  }

  /** What an unfinished sequence leaves at the end of the stream. */
  function Flush(d: Decoder): seq<nat> {
    if d.left == 0 then [] else Out(d, REPLACEMENT).1
  }

  /** Decoding goes on where it stopped, wherever the bytes are cut. */
  lemma {:induction false} DecodeConcat(d: Decoder, a: seq<Byte>, b: seq<Byte>)
    ensures var (d1, out) := Decode(d, a); var (d2, more) := Decode(d1, b);
      Decode(d, a + b) == (d2, out + more)
    decreases |a|
  {
    hide Step;
    var (d1, out) := Decode(d, a);
    var (d2, more) := Decode(d1, b);
    if a == [] {
      assert a + b == b && out + more == more;
    } else {
      assert (a + b)[0] == a[0] && (a + b)[1..] == a[1..] + b;
      var (e, first) := Step(d, a[0]);
      DecodeConcat(e, a[1..], b);
      assert out == first + Decode(e, a[1..]).1;
      assert out + more == first + (Decode(e, a[1..]).1 + more);
    }
  }

  lemma Decode1(d: Decoder, a: Byte)
    ensures Decode(d, [a]) == Step(d, a)
  {
    hide Step;
    assert [a][1..] == [];
    assert Decode(Step(d, a).0, []) == (Step(d, a).0, []);
    assert Step(d, a).1 + [] == Step(d, a).1;
  }

  lemma DecodeThen(d: Decoder, a: Byte, rest: seq<Byte>)
    requires Step(d, a).1 == []
    ensures Decode(d, [a] + rest) == Decode(Step(d, a).0, rest)
  {
    hide Step;
    assert ([a] + rest)[1..] == rest;
    assert [] + Decode(Step(d, a).0, rest).1 == Decode(Step(d, a).0, rest).1;
  }

  lemma EncodeDecode(d: Decoder, c: Point)
    requires d == START || d == READY
    requires !Surrogate(c)
    ensures Decode(d, Encode(c)) == Out(d, c)
  {
    var bytes := Encode(c);
    if c < 0x80 {
      Decode1(d, c);
    } else if c < 0x800 {
      Decode2(d, c);
    } else if c < 0x10000 {
      Decode3(d, c);
    } else {
      Decode4(d, c);
    }
  }

  lemma Decode2(d: Decoder, c: Point)
    requires (d == START || d == READY) && 0x80 <= c < 0x800
    ensures Decode(d, Encode(c)) == Out(d, c)
  {
    var b0, b1 := 0xC0 + c / 64, 0x80 + c % 64;
    assert Encode(c) == [b0] + [b1];
    DecodeThen(d, b0, [b1]);
    Decode1(Step(d, b0).0, b1);
  }

  lemma Decode3(d: Decoder, c: Point)
    requires (d == START || d == READY) && 0x800 <= c < 0x10000 && !Surrogate(c)
    ensures Decode(d, Encode(c)) == Out(d, c)
  {
    var b0, b1, b2 := 0xE0 + c / 4096, 0x80 + c / 64 % 64, 0x80 + c % 64;
    assert Encode(c) == [b0] + ([b1] + [b2]);
    DecodeThen(d, b0, [b1] + [b2]);
    var d1 := Step(d, b0).0;
    assert c / 4096 == c / 64 / 64;
    DecodeThen(d1, b1, [b2]);
    Decode1(Step(d1, b1).0, b2);
  }

  lemma Decode4(d: Decoder, c: Point)
    requires (d == START || d == READY) && 0x10000 <= c
    ensures Decode(d, Encode(c)) == Out(d, c)
  {
    var b0, b1, b2, b3 := 0xF0 + c / 262144, 0x80 + c / 4096 % 64, 0x80 + c / 64 % 64, 0x80 + c % 64;
    assert Encode(c) == [b0] + ([b1] + ([b2] + [b3]));
    DecodeThen(d, b0, [b1] + ([b2] + [b3]));
    var d1 := Step(d, b0).0;
    assert c / 4096 == c / 64 / 64 && c / 262144 == c / 4096 / 64;
    DecodeThen(d1, b1, [b2] + [b3]);
    var d2 := Step(d1, b1).0;
    DecodeThen(d2, b2, [b3]);
    Decode1(Step(d2, b2).0, b3);
  }

  /** What is encoded is decoded, and the decoder is left between two characters. */
  lemma {:induction false} RoundTrip(t: seq<Point>)
    requires Scalars(t)
    ensures Decode(READY, EncodeText(t)) == (READY, t)
    decreases |t|
  {
    hide Encode;
    if t != [] {
      EncodeDecode(READY, t[0]);
      DecodeConcat(READY, Encode(t[0]), EncodeText(t[1..]));
      assert t == [t[0]] + t[1..];
      RoundTrip(t[1..]);
    }
  }

  /** From the start of a stream too, unless it begins with a byte order mark. */
  lemma StreamRoundTrip(t: seq<Point>)
    requires Scalars(t)
    ensures t != [] ==> Decode(START, EncodeText(t)) == (READY, if t[0] == BYTE_ORDER_MARK then t[1..] else t)
  {
    hide Encode, Decode;
    if t != [] {
      var first, rest := t[0], t[1..];
      assert first in t;
      EncodeDecode(START, first);
      DecodeConcat(START, Encode(first), EncodeText(rest));
      RoundTrip(rest);
      assert Decode(START, EncodeText(t)) == (READY, Out(START, first).1 + rest);
      assert Out(START, first).1 + rest == if first == BYTE_ORDER_MARK then rest else t;
    }
  }

  /** The bytes of a stream that arrives in chunks. */
  function Joined(chunks: seq<seq<Byte>>): seq<Byte> {
    if chunks == [] then [] else chunks[0] + Joined(chunks[1..])
  }

  lemma {:induction false} JoinedConcat(xs: seq<seq<Byte>>, ys: seq<seq<Byte>>)
    ensures Joined(xs + ys) == Joined(xs) + Joined(ys)
    decreases |xs|
  {
    if xs == [] {
      assert xs + ys == ys;
    } else {
      assert (xs + ys)[0] == xs[0] && (xs + ys)[1..] == xs[1..] + ys;
      JoinedConcat(xs[1..], ys);
    }
  }

  lemma JoinedTwo(a: seq<Byte>, b: seq<Byte>)
    ensures Joined([a, b]) == a + b
  {
    assert [a, b][1..] == [b] && [b][1..] == [];
    assert Joined([]) == [];
    assert b + [] == b;
    assert Joined([b]) == b;
  }
}
