/** What the parser does with a stream that reaches it in chunks, and that the cutting does not
    matter as long as no unknown entry turns up. */
module DetectorChunking {
  import opened Bytes
  import opened Seqs
  import opened DetectorStreamFormat

  /** The callbacks made, what the parser buffered, and the string pool. */
  datatype Parsed = Parsed(callbacks: seq<Callback>, buffer: seq<byte>, pool: Pool)

  /** One round of ProcessStream's loop.  An unknown entry ends the round; the bytes from it on stay
      if they are in the parser's buffer already, and are dropped otherwise. */
  function FeedChunk(env: Env, buffer: seq<byte>, pool: Pool, chunk: seq<byte>): Parsed {
    var d := Decode(env, buffer + chunk, pool);
    Parsed(d.callbacks, if d.unknown && buffer == [] then [] else d.rest, d.pool)
  }

  function Feed(env: Env, buffer: seq<byte>, pool: Pool, chunks: seq<seq<byte>>): Parsed
    decreases |chunks|
  {
    if chunks == [] then Parsed([], buffer, pool)
    else
      var first := FeedChunk(env, buffer, pool, chunks[0]);
      var rest := Feed(env, first.buffer, first.pool, chunks[1..]);
      rest.(callbacks := first.callbacks + rest.callbacks)
  }

  function Concat(chunks: seq<seq<byte>>): seq<byte> {
    if chunks == [] then [] else chunks[0] + Concat(chunks[1..])
  }

  predicate NonEmptyChunks(chunks: seq<seq<byte>>) {
    forall i :: 0 <= i < |chunks| ==> chunks[i] != []
  }

  /** One callback sequence for every cutting: the one-shot decoder's; and between chunks the buffer
      is exactly the unconsumed tail. */
  lemma {:induction false} FeedIsDecode(env: Env, buffer: seq<byte>, pool: Pool, chunks: seq<seq<byte>>)
    requires DecodeEntry(env, buffer, pool).NeedMore?
    requires !Decode(env, buffer + Concat(chunks), pool).unknown
    ensures var d := Decode(env, buffer + Concat(chunks), pool);
            Feed(env, buffer, pool, chunks) == Parsed(d.callbacks, d.rest, d.pool)
    decreases |chunks|
  {
    if chunks == [] {
      assert buffer + Concat(chunks) == buffer;
    } else {
      var later := Concat(chunks[1..]);
      Assoc(buffer, chunks[0], later);
      if Decode(env, buffer + chunks[0], pool).unknown {
        UnknownStops(env, buffer + chunks[0], later, pool);
        assert false;
      }
      DecodeResumes(env, buffer + chunks[0], later, pool);
      RestIsTail(env, buffer + chunks[0], pool);
      var d := Decode(env, buffer + chunks[0], pool);
      FeedIsDecode(env, d.rest, d.pool, chunks[1..]);
    }
  }

  /** A short beginning is no entry yet. */
  lemma ShortNeedsMore(env: Env, b: seq<byte>, pool: Pool)
    requires |b| < ENTRY_SIZE
    ensures DecodeEntry(env, b, pool).NeedMore?
    ensures Decode(env, b, pool) == Decoded([], b, pool, false)
  {
  }

  lemma FeedOne(env: Env, buffer: seq<byte>, pool: Pool, chunk: seq<byte>)
    ensures Feed(env, buffer, pool, [chunk]) == FeedChunk(env, buffer, pool, chunk)
  {
    var first := FeedChunk(env, buffer, pool, chunk);
    assert [chunk][1..] == [];
    assert first.callbacks + [] == first.callbacks;
  }

  /** What is read of a stream goes on from what was read of its beginning. */
  lemma {:induction false} FeedAppend(env: Env, buffer: seq<byte>, pool: Pool, a: seq<seq<byte>>, b: seq<seq<byte>>)
    ensures var p := Feed(env, buffer, pool, a);
            var q := Feed(env, p.buffer, p.pool, b);
            Feed(env, buffer, pool, a + b) == q.(callbacks := p.callbacks + q.callbacks)
    decreases |a|
  {
    if a == [] {
      assert a + b == b;
    } else {
      ConsAppend(a, b);
      var first := FeedChunk(env, buffer, pool, a[0]);
      FeedAppend(env, first.buffer, first.pool, a[1..], b);
      var p := Feed(env, first.buffer, first.pool, a[1..]);
      Assoc(first.callbacks, p.callbacks, Feed(env, p.buffer, p.pool, b).callbacks);
    }
  }

  /** An unknown entry that got into the parser's buffer stays there for good: no later chunk leads to
      any callback, and all of them are kept. */
  lemma {:induction false} UnknownInBuffer(env: Env, buffer: seq<byte>, pool: Pool, chunks: seq<seq<byte>>)
    requires DecodeEntry(env, buffer, pool).Unknown?
    ensures Feed(env, buffer, pool, chunks) == Parsed([], buffer + Concat(chunks), pool)
    decreases |chunks|
  {
    if chunks == [] {
      assert buffer + Concat(chunks) == buffer;
    } else {
      assert Decode(env, buffer, pool) == Decoded([], buffer, pool, true);
      UnknownStops(env, buffer, chunks[0], pool);
      EntryIsLocal(env, buffer, chunks[0], pool);
      UnknownInBuffer(env, buffer + chunks[0], pool, chunks[1..]);
      Assoc(buffer, chunks[0], Concat(chunks[1..]));
    }
  }

  /** One met in a chunk of its own costs the rest of that chunk only: the parser begins afresh with
      the next. */
  lemma UnknownInChunk(env: Env, pool: Pool, chunk: seq<byte>, chunks: seq<seq<byte>>)
    requires Decode(env, chunk, pool).unknown
    ensures var d := Decode(env, chunk, pool);
            var later := Feed(env, [], d.pool, chunks);
            Feed(env, [], pool, [chunk] + chunks) == later.(callbacks := d.callbacks + later.callbacks)
  {
    assert [] + chunk == chunk && ([chunk] + chunks)[1..] == chunks;
  }

  // ---------- whether the cutting matters ----------

  /** A closing tag, which any parser that is not stuck calls back. */
  function ClosingTag(): (b: seq<byte>)
    ensures b != []
  {
    StreamEntry(0, Pack(INT_TAG, 0))
  }

  lemma ClosingTagIsCalledBack(env: Env, pool: Pool)
    ensures Feed(env, [], pool, [ClosingTag()]).callbacks == [Tag(0, false)]
  {
    var b := ClosingTag();
    Pow256Values();
    FromToBytes(0, 4);
    FromToBytes(Pack(INT_TAG, 0), 4);
    assert b[..4] == ToBytes(0, 4) && b[4..8] == ToBytes(Pack(INT_TAG, 0), 4);
    var pool' := AfterHandler(env, Tag(0, false), pool);
    assert DecodeEntry(env, b, pool) == Got(Tag(0, false), ENTRY_SIZE, pool');
    assert b[ENTRY_SIZE..] == [];
    ShortNeedsMore(env, [], pool');
    assert [] + b == b;
    FeedOne(env, [], pool, b);
  }

  /** Cutting off the first byte. */
  function HeadAndTail(b: seq<byte>): (chunks: seq<seq<byte>>)
    requires |b| > 1
    ensures NonEmptyChunks(chunks)
  {
    [b[..1], b[1..]]
  }

  /** A stream with an unknown entry, uncut: the parser drops the unknown entry. */
  lemma UnknownUncut(env: Env, pool: Pool, b: seq<byte>)
    requires Decode(env, b, pool).unknown
    ensures var d := Decode(env, b, pool); Feed(env, [], pool, [b]) == Parsed(d.callbacks, [], d.pool)
  {
    FeedOne(env, [], pool, b);
    assert [] + b == b;
  }

  /** With its first byte cut off: the callbacks are the same so far, but the parser is stuck. */
  lemma UnknownCut(env: Env, pool: Pool, b: seq<byte>)
    requires Decode(env, b, pool).unknown && |b| > 1
    ensures var d := Decode(env, b, pool);
            && Feed(env, [], pool, HeadAndTail(b)) == Parsed(d.callbacks, d.rest, d.pool)
            && DecodeEntry(env, d.rest, d.pool).Unknown?
  {
    var head, tail := b[..1], b[1..];
    assert head + tail == b && [] + head == head;
    ShortNeedsMore(env, head, pool);
    FeedOne(env, [], pool, head);
    FeedOne(env, head, pool, tail);
    FeedAppend(env, [], pool, [head], [tail]);
    assert [head] + [tail] == HeadAndTail(b);
    RestIsTail(env, b, pool);
  }

  lemma UnknownIsLong(env: Env, pool: Pool, b: seq<byte>)
    requires Decode(env, b, pool).unknown
    ensures |b| >= ENTRY_SIZE
  {
    if |b| < ENTRY_SIZE {
      ShortNeedsMore(env, b, pool);
      assert false;
    }
  }

  /** A tag behind the unknown entry is called back if the parser was uncut. */
  lemma LaterIsSeen(env: Env, pool: Pool, b: seq<byte>)
    requires Decode(env, b, pool).unknown
    ensures Feed(env, [], pool, [b] + [ClosingTag()]).callbacks == Decode(env, b, pool).callbacks + [Tag(0, false)]
  {
    UnknownUncut(env, pool, b);
    FeedAppend(env, [], pool, [b], [ClosingTag()]);
    ClosingTagIsCalledBack(env, Decode(env, b, pool).pool);
  }

  lemma LaterIsNotSeen(env: Env, pool: Pool, b: seq<byte>)
    requires Decode(env, b, pool).unknown && |b| > 1
    ensures Feed(env, [], pool, HeadAndTail(b) + [ClosingTag()]).callbacks == Decode(env, b, pool).callbacks + []
  {
    UnknownCut(env, pool, b);
    FeedAppend(env, [], pool, HeadAndTail(b), [ClosingTag()]);
    UnknownInBuffer(env, Decode(env, b, pool).rest, Decode(env, b, pool).pool, [ClosingTag()]);
  }

  lemma HeadAndTailAreAll(b: seq<byte>)
    requires |b| > 1
    ensures Concat(HeadAndTail(b)) == b
  {
    TwoChunks(b[..1], b[1..]);
    assert b[..1] + b[1..] == b;
  }

  /** With one more tag behind the unknown entry the callbacks differ. */
  lemma UnknownShowsLater(env: Env, pool: Pool, b: seq<byte>)
    requires Decode(env, b, pool).unknown
    ensures |b| > 1 && Concat(HeadAndTail(b)) == b && NonEmptyChunks([ClosingTag()])
    ensures Feed(env, [], pool, HeadAndTail(b) + [ClosingTag()]).callbacks
         != Feed(env, [], pool, [b] + [ClosingTag()]).callbacks
  {
    UnknownIsLong(env, pool, b);
    HeadAndTailAreAll(b);
    LaterIsSeen(env, pool, b);
    LaterIsNotSeen(env, pool, b);
  }

  lemma KnownHidesChunks(env: Env, pool: Pool, b: seq<byte>, chunks: seq<seq<byte>>, more: seq<seq<byte>>)
    requires !Decode(env, b, pool).unknown && Concat(chunks) == b
    ensures Feed(env, [], pool, chunks + more) == Feed(env, [], pool, [b] + more)
  {
    assert Concat([b]) == b by {
      assert [b][1..] == [];
    }
    assert [] + Concat([b]) == b && [] + Concat(chunks) == b;
    ShortNeedsMore(env, [], pool);
    FeedIsDecode(env, [], pool, [b]);
    FeedIsDecode(env, [], pool, chunks);
    FeedAppend(env, [], pool, [b], more);
    FeedAppend(env, [], pool, chunks, more);
  }

  /** A fresh parser makes the same callbacks however a stream is cut, and whatever comes behind it,
      exactly when the stream shows it no unknown entry. */
  lemma ChunkingMattersOnlyForUnknown(env: Env, pool: Pool, b: seq<byte>)
    ensures !Decode(env, b, pool).unknown
       <==> forall chunks, more :: NonEmptyChunks(chunks) && Concat(chunks) == b && NonEmptyChunks(more) ==>
              Feed(env, [], pool, chunks + more).callbacks == Feed(env, [], pool, [b] + more).callbacks
  {
    if Decode(env, b, pool).unknown {
      UnknownShowsLater(env, pool, b);
    } else {
      forall chunks, more | NonEmptyChunks(chunks) && Concat(chunks) == b && NonEmptyChunks(more)
        ensures Feed(env, [], pool, chunks + more).callbacks == Feed(env, [], pool, [b] + more).callbacks
      {
        KnownHidesChunks(env, pool, b, chunks, more);
      }
    }
  }

  lemma TwoChunks(a: seq<byte>, b: seq<byte>)
    requires a != [] && b != []
    ensures NonEmptyChunks([a, b]) && Concat([a, b]) == a + b
  {
    assert [a, b][1..] == [b] && [b][1..] == [];
    assert Concat([b]) == b;
  }
}
