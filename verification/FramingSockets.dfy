/** The two ends of the message stream, as objects that change in place. */
module FramingSockets {
  import opened Options
  import opened Utf8
  import opened JsonText
  import opened Framing

  /** What the socket does with one buffer: `indexOf` from a moving cursor. */
  method EmitBuffered(buffered: seq<nat>, closed: bool, otherwise: Otherwise)
    returns (rest: seq<nat>, events: seq<Event>, closed': bool)
    ensures rest == Remainder(buffered) && events == Emitted(Lines(buffered), closed, otherwise)
    ensures closed' == (closed || Breaks(Lines(buffered), otherwise))
  {
    hide Lines, Remainder, Emits, Breaks, Malformed, Unquote;
    var cursor := 0;
    events, closed' := [], closed;
    NothingBreaks(otherwise);
    ghost var done: seq<seq<nat>> := [];
    var newline := NextBreak(buffered, cursor);
    assert buffered[0..] == buffered;
    while newline != -1
      invariant 0 <= cursor <= |buffered|
      invariant newline == -1 ==> NEWLINE !in buffered[cursor..]
      invariant newline != -1 ==> cursor <= newline < |buffered| && buffered[newline] == NEWLINE
                                  && NEWLINE !in buffered[cursor..newline]
      invariant Lines(buffered) == done + Lines(buffered[cursor..])
      invariant Remainder(buffered) == Remainder(buffered[cursor..])
      invariant events == Emitted(done, closed, otherwise) && closed' == (closed || Breaks(done, otherwise))
      decreases |buffered| - cursor
    {
      var line := buffered[cursor..newline];
      assert buffered[cursor..] == line + [NEWLINE] + buffered[newline + 1..];
      FirstLine(line, buffered[newline + 1..]);
      cursor := newline + 1;
      EmittedOne(done, line, closed, otherwise);
      if line != [] {
        var frame, failed := EmitFrame(line, closed', otherwise);
        events, closed' := events + frame, failed;
      }
      done := done + [line];
      newline := NextBreak(buffered, cursor);
    }
    rest := buffered[cursor..];
    NoLines(rest);
    LastRemainder(rest);
    assert Lines(buffered) == done + [] == done;
  }

  lemma LastRemainder(s: seq<nat>)
    requires NEWLINE !in s
    ensures Remainder(s) == s
  {
  }

  lemma EmittedOne(done: seq<seq<nat>>, line: seq<nat>, closed: bool, otherwise: Otherwise)
    ensures Emitted(done + [line], closed, otherwise)
         == Emitted(done, closed, otherwise) + Emits(line, closed || Breaks(done, otherwise), otherwise)
    ensures Breaks(done + [line], otherwise) <==> Breaks(done, otherwise) || Malformed(line, otherwise)
    ensures line == [] ==>
              !Malformed(line, otherwise) && Emits(line, closed || Breaks(done, otherwise), otherwise) == []
  {
    hide Breaks;
    var now := closed || Breaks(done, otherwise);
    EmittedConcat(done, [line], closed, otherwise);
    assert [line][1..] == [];
    BreaksFirst([line], otherwise);
    NothingBreaks(otherwise);
    assert Emitted([], now || Malformed(line, otherwise), otherwise) == [];
    assert Emitted([line], now, otherwise) == Emits(line, now, otherwise);
  }

  method EmitFrame(line: seq<nat>, closed: bool, otherwise: Otherwise) returns (events: seq<Event>, closed': bool)
    requires line != []
    ensures events == Emits(line, closed, otherwise) && closed' == (closed || Malformed(line, otherwise))
  {
    var payload := Parse(line, otherwise);
    if payload.Some? {
      return [Received(payload.value)], closed;
    }
    return if closed then [] else [Failed, Closed], true;
  }

  /** The host's end: it emits events until the stream ends or fails. */
  class RemoteSocket {
    var closed: bool
    var events: seq<Event>

    constructor ()
      ensures !closed && events == []
    {
      closed, events := false, [];
    }

    method Close()
      modifies this
      ensures closed && events == if old(closed) then old(events) else old(events) + [Closed]
    {
      if !closed {
        closed, events := true, events + [Closed];
      }
    }

    method Emit(buffered: seq<nat>, otherwise: Otherwise) returns (rest: seq<nat>)
      modifies this
      ensures rest == Remainder(buffered) && closed == (old(closed) || Breaks(Lines(buffered), otherwise))
      ensures events == old(events) + Emitted(Lines(buffered), old(closed), otherwise)
    {
      var emitted, now;
      rest, emitted, now := EmitBuffered(buffered, closed, otherwise);
      closed, events := now, events + emitted;
    }

    method ReadLoop(chunks: seq<seq<Byte>>, otherwise: Otherwise)
      requires !closed && events == []
      modifies this
      ensures var r := Reading(FRESH, chunks, otherwise); closed == r.closed && events == r.events
    {
      hide Decode, Lines, Remainder, Breaks, Emitted;
      var decoder, buffered, i := START, [], 0;
      while i < |chunks| && !closed
        invariant 0 <= i <= |chunks| && NEWLINE !in buffered
        invariant Reading(FRESH, chunks, otherwise)
               == Reading(Reader(decoder, buffered, closed, events), chunks[i..], otherwise)
      {
        var (next, text) := Decode(decoder, chunks[i]);
        decoder := next;
        RemainderHasNoBreak(buffered + text);
        assert chunks[i..][0] == chunks[i] && chunks[i..][1..] == chunks[i + 1..];
        buffered := Emit(buffered + text, otherwise);
        i := i + 1;
      }
      FlushHasNoBreak(buffered, decoder, otherwise);
      var rest := Emit(buffered + Flush(decoder), otherwise);
    }

    /** From the open response to the end of its body. */
    method Open(chunks: seq<seq<Byte>>, otherwise: Otherwise)
      requires !closed && events == []
      modifies this
      ensures closed && events == Outcome(chunks, otherwise)
    {
      ReadLoop(chunks, otherwise);
      Close();
    }
  }

  /** The end of the stream completes no line. */
  lemma FlushHasNoBreak(buffered: seq<nat>, decoder: Decoder, otherwise: Otherwise)
    requires NEWLINE !in buffered
    ensures var lines := Lines(buffered + Flush(decoder));
      && lines == [] && !Breaks(lines, otherwise)
      && Emitted(lines, true, otherwise) == [] == Emitted(lines, false, otherwise)
  {
    NoLines(buffered + Flush(decoder));
  }

  lemma {:induction false} WireAppend(ms: seq<seq<Point>>, m: seq<Point>)
    ensures Wire(ms + [m]) == Wire(ms) + EncodeText(Frame(m))
    decreases |ms|
  {
    hide EncodeText, Frame;
    if ms == [] {
      assert ms + [m] == [m] && [m][1..] == [];
      assert Wire([]) == [] && EncodeText(Frame(m)) + [] == EncodeText(Frame(m));
    } else {
      assert (ms + [m])[0] == ms[0] && (ms + [m])[1..] == ms[1..] + [m];
      WireAppend(ms[1..], m);
    }
  }

  /** The server's end: what it has put on the wire is what it accepted while open. */
  class RpcConnection {
    var closed: bool
    var wire: seq<Byte>
    ghost var sent: seq<seq<Point>>

    ghost predicate Valid()
      reads this
    {
      wire == Wire(sent)
    }

    constructor ()
      ensures Valid() && !closed && sent == []
    {
      closed, wire, sent := false, [], [];
    }

    /** `accepts` is false when the stream was cancelled by its reader: the connection fails and closes. */
    method Send(m: seq<Point>, accepts: bool)
      requires Valid()
      modifies this
      ensures Valid() && closed == (old(closed) || !accepts)
      ensures sent == if old(closed) || !accepts then old(sent) else old(sent) + [m]
    {
      if closed {
        return;
      }
      if accepts {
        wire := wire + EncodeText(Frame(m));
        WireAppend(sent, m);
        sent := sent + [m];
      } else {
        closed := true;
      }
    }
  }
}
