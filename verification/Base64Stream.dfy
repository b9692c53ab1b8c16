/** The loops of the mobile shell's asset stream, over arrays with running offsets. */
module Base64Stream {
  import opened Options
  import opened Utf8
  import opened Base64

  const JOIN_SIZE: nat := 0x8000

  lemma AppendGroup(bytes: seq<Byte>, i: nat)
    requires i % 3 == 0 && i + 3 <= |bytes|
    ensures Encoded(bytes[..i + 3]) == Encoded(bytes[..i]) + Group(Word(bytes[i], bytes[i + 1], bytes[i + 2]))
  {
    hide Group, Word;
    var last := [bytes[i], bytes[i + 1], bytes[i + 2]];
    assert bytes[..i + 3] == bytes[..i] + last;
    EncodedGroups(bytes[..i], last);
    assert last[3..] == [];
    assert Encoded(last) == Group(Word(bytes[i], bytes[i + 1], bytes[i + 2])) + "";
  }

  lemma AppendRest(bytes: seq<Byte>, fullEnd: nat)
    requires fullEnd % 3 == 0 && fullEnd <= |bytes|
    ensures Encoded(bytes) == Encoded(bytes[..fullEnd]) + Encoded(bytes[fullEnd..])
    ensures |Encoded(bytes[..fullEnd])| == fullEnd / 3 * 4
  {
    hide Encoded;
    assert bytes == bytes[..fullEnd] + bytes[fullEnd..];
    EncodedGroups(bytes[..fullEnd], bytes[fullEnd..]);
    EncodedLength(bytes[..fullEnd]);
  }

  /** `uint8ToBase64`: every place of the output is filled. */
  method Uint8ToBase64(bytes: array<Byte>) returns (s: string)
    ensures s == Encoded(bytes[..])
    ensures |s| == (bytes.Length + 2) / 3 * 4
  {
    hide Group, Word, Encoded;
    var len := bytes.Length;
    var out := new char[(len + 2) / 3 * 4](_ => '\0');
    var fullEnd := len - len % 3;
    FillGroups(bytes, out, fullEnd);
    AppendRest(bytes[..], fullEnd);
    EncodedLength(bytes[..]);
    FillRest(bytes, out, fullEnd);
    assert out[..] == Encoded(bytes[..]);
    s := FromCodes(out);
  }

  method FillGroups(bytes: array<Byte>, out: array<char>, fullEnd: nat)
    requires fullEnd <= bytes.Length && fullEnd % 3 == 0 && out.Length >= fullEnd / 3 * 4
    modifies out
    ensures out[..fullEnd / 3 * 4] == Encoded(bytes[..fullEnd])
  {
    hide Group, Word, Code, Encoded;
    var o, i := 0, 0;
    EncodedLength(bytes[..0]);
    while i < fullEnd
      invariant 0 <= i <= fullEnd && i % 3 == 0 && o == i / 3 * 4
      invariant out[..o] == Encoded(bytes[..i])
    {
      ghost var before := out[..o];
      var n := Word(bytes[i], bytes[i + 1], bytes[i + 2]);
      PutGroup(out, o, n);
      AppendGroup(bytes[..], i);
      assert bytes[..][..i] == bytes[..i] && bytes[..][..i + 3] == bytes[..i + 3];
      assert out[..o + 4] == before + Group(n);
      i, o := i + 3, o + 4;
    }
  }

  method PutGroup(out: array<char>, o: nat, n: nat)
    requires o + 4 <= out.Length
    modifies out
    ensures out[o..o + 4] == Group(n)
    ensures out[..o] == old(out[..o])
  {
    hide Code, Digit;
    out[o] := Code(Digit(n, 262144));
    out[o + 1] := Code(Digit(n, 4096));
    out[o + 2] := Code(Digit(n, 64));
    out[o + 3] := Code(Digit(n, 1));
    assert out[o..o + 4] == [out[o], out[o + 1], out[o + 2], out[o + 3]];
  }

  method FillRest(bytes: array<Byte>, out: array<char>, fullEnd: nat)
    requires fullEnd <= bytes.Length <= fullEnd + 2 && fullEnd % 3 == 0
    requires out.Length == (bytes.Length + 2) / 3 * 4
    modifies out
    ensures out[fullEnd / 3 * 4..] == Encoded(bytes[fullEnd..])
    ensures out[..fullEnd / 3 * 4] == old(out[..fullEnd / 3 * 4])
  {
    hide Code, Digit, Word;
    var o := fullEnd / 3 * 4;
    var rem := bytes.Length - fullEnd;
    if rem == 1 {
      var n := Word(bytes[fullEnd], 0, 0);
      out[o] := Code(Digit(n, 262144));
      out[o + 1] := Code(Digit(n, 4096));
      out[o + 2] := PAD;
      out[o + 3] := PAD;
      assert out[o..] == [out[o], out[o + 1], out[o + 2], out[o + 3]];
    } else if rem == 2 {
      var n := Word(bytes[fullEnd], bytes[fullEnd + 1], 0);
      out[o] := Code(Digit(n, 262144));
      out[o + 1] := Code(Digit(n, 4096));
      out[o + 2] := Code(Digit(n, 64));
      out[o + 3] := PAD;
      assert out[o..] == [out[o], out[o + 1], out[o + 2], out[o + 3]];
    }
  }

  /** The characters of the codes, taken in parts. */
  method FromCodes(out: array<char>) returns (s: string)
    ensures s == out[..]
  {
    s := "";
    var p := 0;
    while p < out.Length
      invariant 0 <= p
      invariant s == out[..if p < out.Length then p else out.Length]
    {
      var end := if p + JOIN_SIZE < out.Length then p + JOIN_SIZE else out.Length;
      assert out[..p] + out[p..end] == out[..end];
      s := s + out[p..end];
      p := p + JOIN_SIZE;
    }
  }

  /** `drainStream`: one array with all the chunks, one after another. */
  method DrainStream(body: seq<seq<Byte>>) returns (out: array<Byte>)
    ensures fresh(out) && out[..] == Joined(body)
  {
    var chunks, total := Collect(body);
    out := new Byte[total](_ => 0);
    var offset := 0;
    for i := 0 to |chunks|
      invariant offset == |Joined(chunks[..i])| <= total
      invariant offset + |Joined(chunks[i..])| == total
      invariant out[..offset] == Joined(chunks[..i])
    {
      assert chunks[..i + 1] == chunks[..i] + [chunks[i]] && chunks[i..][1..] == chunks[i + 1..];
      JoinedConcat(chunks[..i], [chunks[i]]);
      JoinedOne(chunks[i]);
      SetAt(out, chunks[i], offset);
      assert out[..offset + |chunks[i]|] == out[..offset] + out[offset..offset + |chunks[i]|];
      offset := offset + |chunks[i]|;
    }
    assert chunks[..|chunks|] == chunks && out[..] == out[..total];
  }

  lemma JoinedOne(chunk: seq<Byte>)
    ensures Joined([chunk]) == chunk
  {
    assert [chunk][1..] == [];
    assert Joined([]) == [];
  }

  /** The chunks that have anything, and how much that is. */
  method Collect(body: seq<seq<Byte>>) returns (chunks: seq<seq<Byte>>, total: nat)
    ensures Joined(chunks) == Joined(body) && total == |Joined(body)|
    ensures [] !in chunks
  {
    chunks, total := [], 0;
    for i := 0 to |body|
      invariant Joined(chunks) == Joined(body[..i]) && total == |Joined(chunks)| && [] !in chunks
    {
      assert body[..i + 1] == body[..i] + [body[i]];
      JoinedConcat(body[..i], [body[i]]);
      JoinedConcat(chunks, [body[i]]);
      JoinedOne(body[i]);
      if body[i] != [] {
        chunks, total := chunks + [body[i]], total + |body[i]|;
      }
    }
    assert body[..|body|] == body;
  }

  /** `out.set(chunk, offset)`. */
  method SetAt(out: array<Byte>, chunk: seq<Byte>, offset: nat)
    requires offset + |chunk| <= out.Length
    modifies out
    ensures out[offset..offset + |chunk|] == chunk
    ensures out[..offset] == old(out[..offset])
  {
    for k := 0 to |chunk|
      invariant out[offset..offset + k] == chunk[..k]
      invariant out[..offset] == old(out[..offset])
    {
      out[offset + k] := chunk[k];
      assert out[offset..offset + k + 1] == out[offset..offset + k] + [chunk[k]];
    }
  }

  /**
   `streamArtifactToNative` after the status check: what is appended decodes to the
   whole body, the first append alone says so, and an empty body is an error.
   */
  method StreamToNative(body: seq<seq<Byte>>) returns (appended: seq<string>, firsts: seq<bool>, ok: bool)
    ensures appended == EncodedAll(body) && DecodedAll(appended) == Some(Joined(body))
    ensures |firsts| == |appended| && forall k :: 0 <= k < |firsts| ==> (firsts[k] <==> k == 0)
    ensures ok <==> Joined(body) != []
  {
    hide Encoded;
    appended, firsts := [], [];
    var first := true;
    for i := 0 to |body|
      invariant appended == EncodedAll(body[..i]) && |firsts| == |appended|
      invariant first <==> appended == []
      invariant first <==> Joined(body[..i]) == []
      invariant forall k :: 0 <= k < |firsts| ==> (firsts[k] <==> k == 0)
    {
      assert body[..i + 1] == body[..i] + [body[i]];
      EncodedAllConcat(body[..i], [body[i]]);
      JoinedConcat(body[..i], [body[i]]);
      JoinedOne(body[i]);
      OneEncoded(body[i]);
      if body[i] != [] {
        var value := new Byte[|body[i]|](k requires 0 <= k < |body[i]| => body[i][k]);
        assert value[..] == body[i];
        var text := Uint8ToBase64(value);
        appended, firsts := appended + [text], firsts + [first];
        first := false;
      }
    }
    assert body[..|body|] == body;
    ChunksDecode(body);
    ok := !first;
  }

  lemma OneEncoded(chunk: seq<Byte>)
    ensures EncodedAll([chunk]) == if chunk == [] then [] else [Encoded(chunk)]
  {
    hide Encoded;
    assert [chunk][1..] == [];
    assert EncodedAll([]) == [];
  }
}
