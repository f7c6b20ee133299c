/**
 * Consuming a streamed completion: the accumulator starts empty, takes the
 * non-empty delta content of each chunk in arrival order and stops at the
 * first `None` chunk; when the stream itself is missing it stays empty.
 */
module Streaming {
  import opened Wrappers
  import opened Completion

  /** The position of the first `None` chunk, or the length of the stream. */
  function FirstNone(chunks: seq<Chunk>): (k: nat)
    ensures k <= |chunks|
    ensures forall j :: 0 <= j < k ==> chunks[j].Some?
    ensures k < |chunks| ==> chunks[k].None?
  {
    if chunks == [] || chunks[0].None? then 0 else 1 + FirstNone(chunks[1..])
  }

  /** A chunk whose delta content is non-empty (Python: truthy). */
  predicate Carries(c: Chunk) {
    c.Some? && c.value.content.Some? && c.value.content.value != ""
  }

  /** The non-empty delta contents of `chunks`, in order. */
  function Fragments(chunks: seq<Chunk>): (fs: seq<string>)
    ensures |fs| <= |chunks|
    ensures forall i :: 0 <= i < |fs| ==> fs[i] != ""
  {
    if chunks == [] then []
    else
      var last := chunks[|chunks| - 1];
      Fragments(chunks[..|chunks| - 1]) + (if Carries(last) then [last.value.content.value] else [])
  }

  /** Concatenation of a sequence of texts. */
  function Concat(ss: seq<string>): string {
    if ss == [] then "" else Concat(ss[..|ss| - 1]) + ss[|ss| - 1]
  }

  /** The text a stream delivers: its fragments before the first `None`. */
  function Assembled(chunks: seq<Chunk>): string {
    Concat(Fragments(chunks[..FirstNone(chunks)]))
  }

  /** The text the front end accumulates from `get_completion`'s stream reply. */
  function StreamedText(response: Option<seq<Chunk>>): string {
    if response.None? then "" else Assembled(response.value)
  }

  /** The accumulation loop of the submit handler. */
  method AccumulateStream(response: Option<seq<Chunk>>) returns (acc: string)
    ensures acc == StreamedText(response)
  {
    acc := "";
    if response.Some? {
      var chunks := response.value;
      var i := 0;
      while i < |chunks|
        invariant i <= FirstNone(chunks)
        invariant acc == Concat(Fragments(chunks[..i]))
      {
        var chunk := chunks[i];
        assert chunks[..i + 1][..i] == chunks[..i];
        assert Fragments(chunks[..i + 1]) == Fragments(chunks[..i]) + (if Carries(chunk) then [chunk.value.content.value] else []);
        if Carries(chunk) {
          ConcatSnoc(Fragments(chunks[..i]), chunk.value.content.value);
          acc := acc + chunk.value.content.value;
        } else if chunk.None? {
          break;
        } else {
          assert Fragments(chunks[..i + 1]) == Fragments(chunks[..i]);
        }
        assert acc == Concat(Fragments(chunks[..i + 1]));
        i := i + 1;
      }
    }
  }

  lemma ConcatSnoc(ss: seq<string>, s: string)
    ensures Concat(ss + [s]) == Concat(ss) + s
  {
  }

  lemma {:induction false} ConcatAppend(a: seq<string>, b: seq<string>)
    ensures Concat(a + b) == Concat(a) + Concat(b)
    decreases |b|
  {
    if b == [] {
      assert a + b == a;
    } else {
      var b' := b[..|b| - 1];
      assert (a + b)[..|a + b| - 1] == a + b';
      ConcatAppend(a, b');
    }
  }

  lemma {:induction false} FragmentsAppend(a: seq<Chunk>, b: seq<Chunk>)
    ensures Fragments(a + b) == Fragments(a) + Fragments(b)
    decreases |b|
  {
    if b == [] {
      assert a + b == a;
    } else {
      var b' := b[..|b| - 1];
      assert (a + b)[..|a + b| - 1] == a + b';
      FragmentsAppend(a, b');
    }
  }

  lemma {:induction false} FirstNoneAfterClean(a: seq<Chunk>, b: seq<Chunk>)
    requires FirstNone(a) == |a|
    ensures FirstNone(a + b) == |a| + FirstNone(b)
    decreases |a|
  {
    if a != [] {
      assert (a + b)[1..] == a[1..] + b;
      FirstNoneAfterClean(a[1..], b);
    } else {
      assert a + b == b;
    }
  }

  lemma {:induction false} FirstNoneBeforeRest(a: seq<Chunk>, b: seq<Chunk>)
    requires FirstNone(a) < |a|
    ensures FirstNone(a + b) == FirstNone(a)
    decreases |a|
  {
    if a[0].Some? {
      assert (a + b)[1..] == a[1..] + b;
      FirstNoneBeforeRest(a[1..], b);
    }
  }

  /** A stream without `None` chunks delivers its text, then the rest's. */
  lemma AssembledAppend(a: seq<Chunk>, b: seq<Chunk>)
    requires forall j :: 0 <= j < |a| ==> a[j].Some?
    ensures Assembled(a + b) == Assembled(a) + Assembled(b)
  {
    assert FirstNone(a) == |a|;
    FirstNoneAfterClean(a, b);
    assert (a + b)[..|a| + FirstNone(b)] == a + b[..FirstNone(b)];
    assert a[..FirstNone(a)] == a;
    FragmentsAppend(a, b[..FirstNone(b)]);
    ConcatAppend(Fragments(a), Fragments(b[..FirstNone(b)]));
  }

  /** One more chunk, on a stream without `None` so far, adds its content
      when it carries any. */
  lemma AssembledSnoc(a: seq<Chunk>, c: Chunk)
    requires forall j :: 0 <= j < |a| ==> a[j].Some?
    requires c.Some?
    ensures Assembled(a + [c]) == Assembled(a) + (if Carries(c) then c.value.content.value else "")
  {
    assert FirstNone(a) == |a|;
    assert FirstNone(a + [c]) == |a| + 1 by { FirstNoneAfterClean(a, [c]); }
    assert (a + [c])[..|a| + 1] == a + [c];
    assert a[..|a|] == a;
    assert (a + [c])[..|a|] == a;
    assert Assembled(a) == Concat(Fragments(a));
    assert Assembled(a + [c]) == Concat(Fragments(a + [c]));
    if Carries(c) {
      assert Fragments(a + [c]) == Fragments(a) + [c.value.content.value];
      ConcatSnoc(Fragments(a), c.value.content.value);
    } else {
      assert Fragments(a + [c]) == Fragments(a);
    }
  }

  /** Nothing after the first `None` chunk reaches the accumulator. */
  lemma StopsAtNone(a: seq<Chunk>, b: seq<Chunk>)
    requires forall j :: 0 <= j < |a| ==> a[j].Some?
    ensures Assembled(a + [None] + b) == Assembled(a)
  {
    var rest: seq<Chunk> := [None] + b;
    assert a + [None] + b == a + rest;
    AssembledAppend(a, rest);
    assert FirstNone(rest) == 0;
    assert rest[..0] == [];
  }

  /** A chunk without content (missing or empty) contributes nothing. */
  lemma SkipsContentless(a: seq<Chunk>, c: Chunk, b: seq<Chunk>)
    requires c.Some? && !Carries(c)
    ensures Assembled(a + [c] + b) == Assembled(a + b)
  {
    var k := FirstNone(a);
    if k == |a| {
      var a' := a + [c];
      assert forall j :: 0 <= j < |a'| ==> a'[j].Some?;
      AssembledAppend(a', b);
      AssembledSnoc(a, c);
      AssembledAppend(a, b);
    } else {
      assert a + [c] + b == a + ([c] + b);
      FirstNoneBeforeRest(a, [c] + b);
      FirstNoneBeforeRest(a, b);
      assert (a + ([c] + b))[..k] == a[..k] == (a + b)[..k];
    }
  }

  /** A stream that carries the given pieces, one per chunk. */
  function PieceChunks(pieces: seq<string>): (cs: seq<Chunk>)
    ensures |cs| == |pieces|
    ensures forall i :: 0 <= i < |cs| ==> cs[i] == Some(Delta(Some(pieces[i])))
  {
    seq(|pieces|, i requires 0 <= i < |pieces| => Some(Delta(Some(pieces[i]))))
  }

  /** Streaming reassembles the full text: the accumulated text of a stream
      that delivers the pieces of a text is their concatenation. */
  lemma {:induction false} PiecesReassemble(pieces: seq<string>)
    ensures Assembled(PieceChunks(pieces)) == Concat(pieces)
    decreases |pieces|
  {
    if pieces != [] {
      var n := |pieces| - 1;
      var init := pieces[..n];
      var c := Some(Delta(Some(pieces[n])));
      PiecesReassemble(init);
      assert PieceChunks(pieces) == PieceChunks(init) + [c];
      AssembledSnoc(PieceChunks(init), c);
      assert pieces == init + [pieces[n]];
      ConcatSnoc(init, pieces[n]);
    }
  }

  /** A deterministic stand-in for the backend: it answers `pieces`,
      streamed piece by piece or as one message. */
  function StubOutcome(pieces: seq<string>, stream: bool): (o: CallOutcome)
    ensures Delivers(stream, o)
  {
    if stream then Returned(ChunkStream(PieceChunks(pieces))) else Returned(Message(Concat(pieces)))
  }

  /** Against the same backend, the streamed and accumulated text equals
      the text of the non-streaming call. */
  lemma StreamingMatchesMessage(request: Request, pieces: seq<string>)
    requires request.stream
    ensures var streamed := GetCompletion(request, StubOutcome(pieces, true));
            var whole := GetCompletion(request.(stream := false), StubOutcome(pieces, false));
            streamed.StreamReply? && whole.TextReply? && Assembled(streamed.chunks) == whole.text
  {
    PiecesReassemble(pieces);
  }
}
