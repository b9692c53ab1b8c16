/**
 The message stream from the server's provider channel to a remote host.  The server
 prints every message as a JSON string on a line of its own; the host reads bytes in
 chunks of any size, decodes them, cuts lines and parses each.
 */
module Framing {
  import opened Options
  import opened Utf8
  import opened JsonText

  type Message = seq<nat>

  datatype Event = Received(text: Message) | Failed | Closed

  /**
   What the host makes of a line that is not a string literal, by parsing it as any
   other JSON value and printing that again.  Nothing here depends on it.
   */
  type Otherwise = seq<nat> -> Option<Message>

  function Parse(line: seq<nat>, otherwise: Otherwise): Option<Message> {
    if Unquote(line).Some? then Unquote(line) else otherwise(line)
  }

  // ---------------------------------------------------------------------------
  // Sender
  // ---------------------------------------------------------------------------

  function Frame(m: seq<Point>): seq<Point> {
    Quote(m) + [NEWLINE]
  }

  function Frames(ms: seq<seq<Point>>): seq<Point> {
    if ms == [] then [] else Frame(ms[0]) + Frames(ms[1..])
  }

  /** The bytes of all the messages sent. */
  function Wire(ms: seq<seq<Point>>): seq<Byte> {
    if ms == [] then [] else EncodeText(Frame(ms[0])) + Wire(ms[1..])
  }

  // ---------------------------------------------------------------------------
  // Lines
  // ---------------------------------------------------------------------------

  /** The complete lines of a text. */
  function Lines(s: seq<nat>): seq<seq<nat>>
    decreases |s|
  {
    if s == [] then []
    else
      var rest := Lines(s[1..]);
      if s[0] == NEWLINE then [[]] + rest
      else if rest == [] then []
      else [[s[0]] + rest[0]] + rest[1..]
  }

  /** What comes after the last line break. */
  function Remainder(s: seq<nat>): seq<nat>
    decreases |s|
  {
    if NEWLINE in s then Remainder(s[1..]) else s
  }

  lemma {:induction false} NoLines(s: seq<nat>)
    ensures Lines(s) == [] <==> NEWLINE !in s
    decreases |s|
  {
    if s != [] {
      NoLines(s[1..]);
      assert s == [s[0]] + s[1..];
    }
  }

  /** A line break ends the first line. */
  lemma {:induction false} FirstLine(line: seq<nat>, rest: seq<nat>)
    requires NEWLINE !in line
    ensures Lines(line + [NEWLINE] + rest) == [line] + Lines(rest)
    ensures Remainder(line + [NEWLINE] + rest) == Remainder(rest)
    decreases |line|
  {
    var s := line + [NEWLINE] + rest;
    assert s[|line|] == NEWLINE;
    if line == [] {
      assert s[1..] == rest && s[0] == NEWLINE;
    } else {
      assert s[1..] == line[1..] + [NEWLINE] + rest && s[0] == line[0];
      FirstLine(line[1..], rest);
      assert ([line[1..]] + Lines(rest))[1..] == Lines(rest);
      assert line == [line[0]] + line[1..];
    }
  }

  /** `indexOf` of a line break. */
  method NextBreak(s: seq<nat>, from: nat) returns (k: int)
    requires from <= |s|
    ensures k == -1 ==> NEWLINE !in s[from..]
    ensures k != -1 ==> from <= k < |s| && s[k] == NEWLINE && NEWLINE !in s[from..k]
  {
    for i := from to |s|
      invariant NEWLINE !in s[from..i]
    {
      if s[i] == NEWLINE {
        return i;
      }
      assert s[from..i + 1] == s[from..i] + [s[i]];
    }
    assert s[from..|s|] == s[from..];
    return -1;
  }

  lemma {:induction false} CutAtBreak(s: seq<nat>) returns (line: seq<nat>, rest: seq<nat>)
    requires NEWLINE in s
    ensures s == line + [NEWLINE] + rest && NEWLINE !in line && |rest| < |s|
    decreases |s|
  {
    if s[0] == NEWLINE {
      line, rest := [], s[1..];
    } else {
      assert s == [s[0]] + s[1..];
      line, rest := CutAtBreak(s[1..]);
      line := [s[0]] + line;
      assert s == line + [NEWLINE] + rest;
    }
  }

  /** Lines of a longer text: those so far, then those of the remainder and what follows. */
  lemma {:induction false} LinesConcat(a: seq<nat>, b: seq<nat>)
    ensures Lines(a + b) == Lines(a) + Lines(Remainder(a) + b)
    ensures Remainder(a + b) == Remainder(Remainder(a) + b)
    decreases |a|
  {
    hide Lines;
    NoLines(a);
    if NEWLINE in a {
      hide Remainder;
      var line, rest := CutAtBreak(a);
      assert a + b == line + [NEWLINE] + (rest + b);
      FirstLine(line, rest);
      FirstLine(line, rest + b);
      LinesConcat(rest, b);
    } else {
      assert Remainder(a) == a;
      assert [] + Lines(a + b) == Lines(a + b);
    }
  }

  lemma {:induction false} RemainderHasNoBreak(s: seq<nat>)
    ensures NEWLINE !in Remainder(s)
    decreases |s|
  {
    if NEWLINE in s {
      RemainderHasNoBreak(s[1..]);
    }
  }

  // ---------------------------------------------------------------------------
  // Receiver
  // ---------------------------------------------------------------------------

  /** A line that fails the connection; empty lines are skipped. */
  predicate Malformed(line: seq<nat>, otherwise: Otherwise) {
    line != [] && Parse(line, otherwise) == None
  }

  predicate Breaks(lines: seq<seq<nat>>, otherwise: Otherwise) {
    exists line :: line in lines && Malformed(line, otherwise)
  }

  /** What a line emits: a failure closes once, but later lines are still emitted. */
  function Emits(line: seq<nat>, closed: bool, otherwise: Otherwise): seq<Event> {
    if line == [] then []
    else if Malformed(line, otherwise) then (if closed then [] else [Failed, Closed])
    else [Received(Parse(line, otherwise).value)]
  }

  function Emitted(lines: seq<seq<nat>>, closed: bool, otherwise: Otherwise): seq<Event> {
    if lines == [] then []
    else
      var later := Emitted(lines[1..], closed || Malformed(lines[0], otherwise), otherwise);
      Emits(lines[0], closed, otherwise) + later
  }

  datatype Reader = Reader(decoder: Decoder, buffered: seq<nat>, closed: bool, events: seq<Event>)

  const FRESH := Reader(START, [], false, [])

  /** One chunk. */
  function Take(r: Reader, bytes: seq<Byte>, otherwise: Otherwise): Reader {
    var (d, text) := Decode(r.decoder, bytes);
    TakeText(r.(decoder := d), text, otherwise)
  }

  function TakeText(r: Reader, text: seq<nat>, otherwise: Otherwise): Reader {
    var lines := Lines(r.buffered + text);
    Reader(r.decoder, Remainder(r.buffered + text), r.closed || Breaks(lines, otherwise),
           r.events + Emitted(lines, r.closed, otherwise))
  }

  /** Reads until the stream ends; a failure cancels it, so no later chunk arrives. */
  function Reading(r: Reader, chunks: seq<seq<Byte>>, otherwise: Otherwise): Reader
    decreases |chunks|
  {
    if chunks == [] || r.closed then r else Reading(Take(r, chunks[0], otherwise), chunks[1..], otherwise)
  }

  /** Everything the socket emits for a stream: at the end it closes if it has not yet. */
  function Outcome(chunks: seq<seq<Byte>>, otherwise: Otherwise): seq<Event> {
    var r := Reading(FRESH, chunks, otherwise);
    if r.closed then r.events else r.events + [Closed]
  }

  // ---------------------------------------------------------------------------
  // Chunks do not matter
  // ---------------------------------------------------------------------------

  lemma {:induction false} EmittedConcat(xs: seq<seq<nat>>, ys: seq<seq<nat>>, closed: bool, otherwise: Otherwise)
    ensures Emitted(xs + ys, closed, otherwise)
         == Emitted(xs, closed, otherwise) + Emitted(ys, closed || Breaks(xs, otherwise), otherwise)
    ensures Breaks(xs + ys, otherwise) <==> Breaks(xs, otherwise) || Breaks(ys, otherwise)
    decreases |xs|
  {
    hide Emits, Malformed;
    if xs == [] {
      assert xs + ys == ys;
    } else {
      assert (xs + ys)[0] == xs[0] && (xs + ys)[1..] == xs[1..] + ys;
      EmittedConcat(xs[1..], ys, closed || Malformed(xs[0], otherwise), otherwise);
      assert xs == [xs[0]] + xs[1..];
      assert Breaks(xs, otherwise) <==> Malformed(xs[0], otherwise) || Breaks(xs[1..], otherwise) by {
        BreaksFirst(xs, otherwise);
      }
    }
  }

  lemma BreaksFirst(lines: seq<seq<nat>>, otherwise: Otherwise)
    requires lines != []
    ensures Breaks(lines, otherwise) <==> Malformed(lines[0], otherwise) || Breaks(lines[1..], otherwise)
  {
    assert lines == [lines[0]] + lines[1..];
  }

  /** Taking two chunks is taking them as one. */
  lemma TakeConcat(r: Reader, a: seq<Byte>, b: seq<Byte>, otherwise: Otherwise)
    ensures Take(Take(r, a, otherwise), b, otherwise) == Take(r, a + b, otherwise)
  {
    hide Decode, Lines, Remainder, Breaks, Emitted;
    DecodeConcat(r.decoder, a, b);
    var (d1, s) := Decode(r.decoder, a);
    var (d2, t) := Decode(d1, b);
    assert r.buffered + (s + t) == (r.buffered + s) + t;
    LinesConcat(r.buffered + s, t);
    EmittedConcat(Lines(r.buffered + s), Lines(Remainder(r.buffered + s) + t), r.closed, otherwise);
  }

  lemma TakeNothing(r: Reader, otherwise: Otherwise)
    requires NEWLINE !in r.buffered
    ensures Take(r, [], otherwise) == r
  {
    NoLines(r.buffered);
    assert r.buffered + [] == r.buffered;
    assert r.events + [] == r.events;
  }

  lemma TakeKeepsRemainder(r: Reader, bytes: seq<Byte>, otherwise: Otherwise)
    ensures NEWLINE !in Take(r, bytes, otherwise).buffered
  {
    RemainderHasNoBreak(r.buffered + Decode(r.decoder, bytes).1);
  }

  /** Reading chunks is taking, as one, all that arrived before the reader was cancelled. */
  lemma {:induction false} ReadingIsTaking(r: Reader, chunks: seq<seq<Byte>>, otherwise: Otherwise) returns (k: nat)
    requires NEWLINE !in r.buffered
    ensures k <= |chunks| && Reading(r, chunks, otherwise) == Take(r, Joined(chunks[..k]), otherwise)
    ensures k == |chunks| || Reading(r, chunks, otherwise).closed
    decreases |chunks|
  {
    hide Take;
    if chunks == [] || r.closed {
      TakeNothing(r, otherwise);
      k := 0;
    } else {
      TakeKeepsRemainder(r, chunks[0], otherwise);
      var j := ReadingIsTaking(Take(r, chunks[0], otherwise), chunks[1..], otherwise);
      TakeConcat(r, chunks[0], Joined(chunks[1..][..j]), otherwise);
      k := j + 1;
      assert chunks[..k][0] == chunks[0] && chunks[..k][1..] == chunks[1..][..j];
    }
  }

  // ---------------------------------------------------------------------------
  // What was sent is received
  // ---------------------------------------------------------------------------

  function Quotes(ms: seq<seq<Point>>): seq<seq<nat>> {
    if ms == [] then [] else [Quote(ms[0])] + Quotes(ms[1..])
  }

  function Receipts(ms: seq<seq<Point>>): seq<Event> {
    if ms == [] then [] else [Received(ms[0])] + Receipts(ms[1..])
  }

  lemma FrameCarries(m: seq<Point>)
    ensures Scalars(Frame(m)) && Frame(m) != [] && Frame(m)[0] == QUOTE
    ensures Decode(READY, EncodeText(Frame(m))) == (READY, Frame(m))
    ensures Decode(START, EncodeText(Frame(m))) == (READY, Frame(m))
  {
    QuoteIsPrintable(m);
    hide Decode, EncodeText, Quote;
    RoundTrip(Frame(m));
    StreamRoundTrip(Frame(m));
  }

  lemma {:induction false} WireCarries(ms: seq<seq<Point>>)
    ensures Decode(READY, Wire(ms)) == (READY, Frames(ms))
    decreases |ms|
  {
    hide EncodeText, Frame;
    if ms != [] {
      hide Decode;
      FrameCarries(ms[0]);
      WireCarries(ms[1..]);
      DecodeConcat(READY, EncodeText(Frame(ms[0])), Wire(ms[1..]));
    }
  }

  lemma WireCarriesFromStart(ms: seq<seq<Point>>)
    ensures Decode(START, Wire(ms)).1 == Frames(ms)
  {
    hide EncodeText, Frame;
    if ms != [] {
      hide Decode;
      FrameCarries(ms[0]);
      WireCarries(ms[1..]);
      DecodeConcat(START, EncodeText(Frame(ms[0])), Wire(ms[1..]));
    }
  }

  lemma {:induction false} FramesAreLines(ms: seq<seq<Point>>)
    ensures Lines(Frames(ms)) == Quotes(ms) && Remainder(Frames(ms)) == []
    decreases |ms|
  {
    if ms != [] {
      hide Lines, Remainder, Quote;
      QuoteIsPrintable(ms[0]);
      FirstLine(Quote(ms[0]), Frames(ms[1..]));
      FramesAreLines(ms[1..]);
    }
  }

  lemma {:induction false} QuotesAreReceived(ms: seq<seq<Point>>, otherwise: Otherwise)
    ensures Emitted(Quotes(ms), false, otherwise) == Receipts(ms) && !Breaks(Quotes(ms), otherwise)
    decreases |ms|
  {
    hide Quote, Unquote, Breaks;
    if ms == [] {
      NothingBreaks(otherwise);
    } else {
      QuoteRoundTrip(ms[0]);
      QuoteIsPrintable(ms[0]);
      QuotesAreReceived(ms[1..], otherwise);
      assert Quotes(ms)[1..] == Quotes(ms[1..]);
      BreaksFirst(Quotes(ms), otherwise);
    }
  }

  lemma NothingBreaks(otherwise: Otherwise)
    ensures !Breaks([], otherwise)
  {
  }

  /**
   Framing: however the stream is cut into chunks, inside a character too, the host
   receives exactly the messages sent, in order, and closes once with nothing left over.
   */
  lemma SentIsReceived(ms: seq<seq<Point>>, chunks: seq<seq<Byte>>, otherwise: Otherwise)
    requires Joined(chunks) == Wire(ms)
    ensures Outcome(chunks, otherwise) == Receipts(ms) + [Closed]
    ensures Reading(FRESH, chunks, otherwise).buffered == []
  {
    hide Decode, Lines, Remainder, Breaks, Emitted, Reading;
    var k := ReadingIsTaking(FRESH, chunks, otherwise);
    var whole := Take(FRESH, Wire(ms), otherwise);
    WireCarriesFromStart(ms);
    FramesAreLines(ms);
    QuotesAreReceived(ms, otherwise);
    assert [] + Frames(ms) == Frames(ms);
    assert [] + Receipts(ms) == Receipts(ms);
    assert !whole.closed && whole.events == Receipts(ms) && whole.buffered == [];
    assert chunks == chunks[..k] + chunks[k..];
    JoinedConcat(chunks[..k], chunks[k..]);
    TakeConcat(FRESH, Joined(chunks[..k]), Joined(chunks[k..]), otherwise);
    var r := Take(FRESH, Joined(chunks[..k]), otherwise);
    var later := Take(r, Joined(chunks[k..]), otherwise);
    assert later.closed || !r.closed;
    assert chunks[..|chunks|] == chunks;
  }

  // ---------------------------------------------------------------------------
  // Arbitrary streams
  // ---------------------------------------------------------------------------

  /** The complete lines of a byte stream. */
  function StreamLines(bytes: seq<Byte>): seq<seq<nat>> {
    Lines(Decode(START, bytes).1)
  }

  /** No message follows a malformed line. */
  predicate QuietAfterFailure(lines: seq<seq<nat>>, otherwise: Otherwise) {
    forall i, j :: 0 <= i < j < |lines| && Malformed(lines[i], otherwise) ==>
      lines[j] == [] || Malformed(lines[j], otherwise)
  }

  lemma WholeStream(bytes: seq<Byte>, otherwise: Otherwise)
    ensures var r := Take(FRESH, bytes, otherwise);
      && Reading(FRESH, [bytes], otherwise) == r
      && r.events == Emitted(StreamLines(bytes), false, otherwise) && r.closed == Breaks(StreamLines(bytes), otherwise)
  {
    hide Lines, Remainder, Breaks, Emitted, Decode;
    assert [bytes][1..] == [];
    var text := Decode(START, bytes).1;
    assert [] + text == text;
    assert [] + Emitted(Lines(text), false, otherwise) == Emitted(Lines(text), false, otherwise);
    var r := Take(FRESH, bytes, otherwise);
    assert Reading(r, [], otherwise) == r;
  }

  lemma {:induction false} QuietEmitsNothing(lines: seq<seq<nat>>, otherwise: Otherwise)
    ensures (forall j :: 0 <= j < |lines| ==> lines[j] == [] || Malformed(lines[j], otherwise)) <==>
              Emitted(lines, true, otherwise) == []
    decreases |lines|
  {
    hide Malformed;
    if lines != [] {
      QuietEmitsNothing(lines[1..], otherwise);
      assert lines == [lines[0]] + lines[1..];
      if Emitted(lines, true, otherwise) == [] {
        assert Emits(lines[0], true, otherwise) == [];
      }
    }
  }

  /** A stream is emitted the same way in parts, as far as the lines go. */
  lemma StreamLinesConcat(a: seq<Byte>, b: seq<Byte>)
    ensures StreamLines(a) <= StreamLines(a + b)
  {
    hide Decode, Lines, Remainder;
    DecodeConcat(START, a, b);
    LinesConcat(Decode(START, a).1, Decode(Decode(START, a).0, b).1);
  }

  lemma StepHasOneBreak(d: Decoder, b: Byte)
    ensures |Step(d, b).1| <= 2 && |Lines(Step(d, b).1)| <= 1
  {
    var out := Step(d, b).1;
    if |out| == 2 {
      assert out == [REPLACEMENT] + Lead(READY, b).1;
      assert out[0] != NEWLINE;
      assert Lines(out[1..][1..]) == [];
    } else if |out| == 1 {
      assert Lines(out[1..]) == [];
    }
  }

  lemma {:induction false} BreaksBound(buffered: seq<nat>, text: seq<nat>)
    requires NEWLINE !in buffered
    ensures |Lines(buffered + text)| == |Lines(text)|
    decreases |buffered|
  {
    if buffered == [] {
      assert buffered + text == text;
    } else {
      assert (buffered + text)[1..] == buffered[1..] + text;
      BreaksBound(buffered[1..], text);
    }
  }

  /** One more byte ends at most one more line. */
  lemma OneByteOneLine(a: seq<Byte>, b: Byte)
    ensures |StreamLines(a + [b])| <= |StreamLines(a)| + 1
  {
    hide Decode, Lines, Remainder, Step;
    var (d, s) := Decode(START, a);
    DecodeConcat(START, a, [b]);
    Decode1(d, b);
    StepHasOneBreak(d, b);
    LinesConcat(s, Step(d, b).1);
    RemainderHasNoBreak(s);
    BreaksBound(Remainder(s), Step(d, b).1);
  }

  /** The stream can be cut after any of its lines. */
  lemma {:induction false} CutAfterLine(bytes: seq<Byte>, n: nat) returns (a: seq<Byte>, b: seq<Byte>)
    requires n <= |StreamLines(bytes)|
    ensures bytes == a + b && StreamLines(a) == StreamLines(bytes)[..n]
    decreases |bytes|
  {
    hide StreamLines;
    if n == |StreamLines(bytes)| {
      a, b := bytes, [];
    } else {
      EmptyStream();
      var short, last := bytes[..|bytes| - 1], bytes[|bytes| - 1];
      assert bytes == short + [last];
      OneByteOneLine(short, last);
      StreamLinesConcat(short, [last]);
      a, b := CutAfterLine(short, n);
      b := b + [last];
      assert StreamLines(short)[..n] == StreamLines(bytes)[..n];
    }
  }

  lemma EmptyStream()
    ensures StreamLines([]) == []
  {
  }

  /** What a chunking emits differs from the whole only by what follows a failure. */
  lemma OutcomeOf(chunks: seq<seq<Byte>>, otherwise: Otherwise) returns (a: seq<Byte>, b: seq<Byte>)
    ensures Joined(chunks) == a + b
    ensures Outcome(chunks, otherwise) == Outcome([a], otherwise)
    ensures b == [] || Breaks(StreamLines(a), otherwise)
  {
    hide Decode, Lines, Remainder, Breaks, Emitted, Reading, StreamLines, Take;
    var k := ReadingIsTaking(FRESH, chunks, otherwise);
    assert chunks == chunks[..k] + chunks[k..];
    JoinedConcat(chunks[..k], chunks[k..]);
    a, b := Joined(chunks[..k]), Joined(chunks[k..]);
    WholeStream(a, otherwise);
  }

  lemma SplitOutcome(a: seq<Byte>, b: seq<Byte>, otherwise: Otherwise)
    requires Breaks(StreamLines(a), otherwise)
    ensures StreamLines(a) <= StreamLines(a + b)
    ensures var late := StreamLines(a + b)[|StreamLines(a)|..];
      Outcome([a + b], otherwise) == Outcome([a], otherwise) + Emitted(late, true, otherwise)
  {
    hide Breaks, Emitted, Reading, StreamLines, Take;
    WholeStream(a, otherwise);
    WholeStream(a + b, otherwise);
    StreamLinesConcat(a, b);
    var late := StreamLines(a + b)[|StreamLines(a)|..];
    assert StreamLines(a + b) == StreamLines(a) + late;
    EmittedConcat(StreamLines(a), late, false, otherwise);
  }

  /**
   For any stream at all: the way it is cut makes no difference exactly when no
   message follows a malformed line.
   */
  lemma ChunksDoNotMatterIff(bytes: seq<Byte>, otherwise: Otherwise)
    ensures (forall chunks :: Joined(chunks) == bytes ==> Outcome(chunks, otherwise) == Outcome([bytes], otherwise))
       <==> QuietAfterFailure(StreamLines(bytes), otherwise)
  {
    if QuietAfterFailure(StreamLines(bytes), otherwise) {
      forall chunks | Joined(chunks) == bytes ensures Outcome(chunks, otherwise) == Outcome([bytes], otherwise) {
        QuietStream(chunks, otherwise);
      }
    } else {
      var chunks := LoudStream(bytes, otherwise);
    }
  }

  lemma QuietStream(chunks: seq<seq<Byte>>, otherwise: Otherwise)
    requires QuietAfterFailure(StreamLines(Joined(chunks)), otherwise)
    ensures Outcome(chunks, otherwise) == Outcome([Joined(chunks)], otherwise)
  {
    hide Outcome, Emitted, StreamLines, Malformed;
    var a, b := OutcomeOf(chunks, otherwise);
    if b == [] {
      assert a + b == a;
    } else {
      SplitOutcome(a, b, otherwise);
      var late := StreamLines(a + b)[|StreamLines(a)|..];
      var bad :| bad in StreamLines(a) && Malformed(bad, otherwise);
      var i :| 0 <= i < |StreamLines(a)| && StreamLines(a)[i] == bad;
      forall j | 0 <= j < |late| ensures late[j] == [] || Malformed(late[j], otherwise) {
        assert late[j] == StreamLines(a + b)[|StreamLines(a)| + j];
        assert StreamLines(a + b)[i] == bad;
      }
      QuietEmitsNothing(late, otherwise);
    }
  }

  /** Otherwise a cut right after the malformed line loses the messages that follow it. */
  lemma LoudStream(bytes: seq<Byte>, otherwise: Otherwise) returns (chunks: seq<seq<Byte>>)
    requires !QuietAfterFailure(StreamLines(bytes), otherwise)
    ensures Joined(chunks) == bytes && Outcome(chunks, otherwise) != Outcome([bytes], otherwise)
  {
    hide Emitted, StreamLines, Malformed, Outcome, Joined;
    var lines := StreamLines(bytes);
    var i, j :| 0 <= i < j < |lines| && Malformed(lines[i], otherwise)
      && lines[j] != [] && !Malformed(lines[j], otherwise);
    var a, b := CutAfterLine(bytes, i + 1);
    assert StreamLines(a)[i] == lines[i];
    SplitOutcome(a, b, otherwise);
    var late := lines[i + 1..];
    assert late[j - i - 1] == lines[j];
    QuietEmitsNothing(late, otherwise);
    chunks := [a, b];
    JoinedTwo(a, b);
    CutAfterFailure(a, b, otherwise);
    assert |Outcome([bytes], otherwise)| > |Outcome([a], otherwise)|;
  }

  /** A chunk that breaks the stream is the last one that is read. */
  lemma CutAfterFailure(a: seq<Byte>, b: seq<Byte>, otherwise: Otherwise)
    requires Breaks(StreamLines(a), otherwise)
    ensures Outcome([a, b], otherwise) == Outcome([a], otherwise)
  {
    hide StreamLines, Take, Breaks, Emitted;
    WholeStream(a, otherwise);
    assert [a, b][0] == a;
    var r := Take(FRESH, a, otherwise);
    assert Reading(r, [a, b][1..], otherwise) == r;
  }

  // ---------------------------------------------------------------------------
  // A stream for which the cut matters
  // ---------------------------------------------------------------------------

  const BRACE: Point := 123

  /** A line that is no JSON value, and the empty message. */
  const BAD_LINE: seq<Point> := [BRACE, NEWLINE]
  const GOOD_LINE: seq<Point> := Frame([])

  /**
   With the malformed line and the message in one chunk the message is emitted after
   the close; with a cut between them it is lost.
   */
  lemma CutDecides(otherwise: Otherwise)
    requires otherwise([BRACE]) == None
    ensures var bad, good := EncodeText(BAD_LINE), EncodeText(GOOD_LINE);
      && !QuietAfterFailure(StreamLines(bad + good), otherwise)
      && Outcome([bad + good], otherwise) == [Failed, Closed, Received([])]
      && Outcome([bad, good], otherwise) == [Failed, Closed]
  {
    var bad, good := EncodeText(BAD_LINE), EncodeText(GOOD_LINE);
    CutLines();
    BadLineEmits(otherwise);
    hide StreamLines, Outcome, Emitted, Malformed, Emits, EncodeText;
    var lines := StreamLines(bad + good);
    assert lines[0] == [BRACE] && lines[1] == [QUOTE, QUOTE];
    assert StreamLines(bad)[0] == [BRACE];
    CutAfterFailure(bad, good, otherwise);
    SplitOutcome(bad, good, otherwise);
    assert lines[1..] == [[QUOTE, QUOTE]];
    BadOutcome(bad, otherwise);
  }

  lemma BadOutcome(bad: seq<Byte>, otherwise: Otherwise)
    requires StreamLines(bad) == [[BRACE]] && Emitted([[BRACE]], false, otherwise) == [Failed, Closed]
    requires Malformed([BRACE], otherwise)
    ensures Outcome([bad], otherwise) == [Failed, Closed]
  {
    hide StreamLines, Take, Emitted, Malformed;
    WholeStream(bad, otherwise);
    assert [BRACE] in StreamLines(bad);
  }

  lemma BadLineEmits(otherwise: Otherwise)
    requires otherwise([BRACE]) == None
    ensures Malformed([BRACE], otherwise) && !Malformed([QUOTE, QUOTE], otherwise)
    ensures Emitted([[BRACE]], false, otherwise) == [Failed, Closed]
    ensures Emitted([[QUOTE, QUOTE]], true, otherwise) == [Received([])]
  {
    QuoteRoundTrip([]);
    assert EscapeAll([]) == [];
    assert Quote([]) == [QUOTE, QUOTE];
    hide Unquote;
    assert Unquote([BRACE]) == None by { NotQuoted(); }
    OneEmitted([BRACE], false, otherwise);
    OneEmitted([QUOTE, QUOTE], true, otherwise);
  }

  lemma NotQuoted()
    ensures Unquote([BRACE]) == None
  {
  }

  lemma OneEmitted(line: seq<nat>, closed: bool, otherwise: Otherwise)
    ensures Emitted([line], closed, otherwise) == Emits(line, closed, otherwise)
  {
    assert [line][1..] == [];
    var now := closed || Malformed(line, otherwise);
    assert Emitted([], now, otherwise) == [];
  }

  lemma CutLines()
    ensures StreamLines(EncodeText(BAD_LINE)) == [[BRACE]]
    ensures StreamLines(EncodeText(BAD_LINE) + EncodeText(GOOD_LINE)) == [[BRACE], [QUOTE, QUOTE]]
  {
    hide Decode, EncodeText, Lines, Remainder, Quote;
    var bad, good := BAD_LINE, GOOD_LINE;
    EmptyFrame();
    StreamRoundTrip(bad);
    RoundTrip(good);
    DecodeConcat(START, EncodeText(bad), EncodeText(good));
    LinesOf([BRACE]);
    LinesOf([QUOTE, QUOTE]);
    assert bad == [BRACE] + [NEWLINE];
    LinesConcat(bad, good);
    assert [] + good == good;
  }

  lemma EmptyFrame()
    ensures GOOD_LINE == [QUOTE, QUOTE] + [NEWLINE] && Scalars(GOOD_LINE) && Scalars(BAD_LINE)
  {
    assert EscapeAll([]) == [];
  }

  lemma LinesOf(line: seq<nat>)
    requires NEWLINE !in line
    ensures Lines(line + [NEWLINE]) == [line] && Remainder(line + [NEWLINE]) == []
  {
    FirstLine(line, []);
    assert line + [NEWLINE] + [] == line + [NEWLINE];
  }
}
