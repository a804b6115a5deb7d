/** The binary layout of an event log file: a 16-byte log header, then chunks, each a prolog
    followed by events.  A prolog is itself an event, so a file is a header and a list of
    events.  Every event is a header, a payload and padding up to an 8-byte boundary; the
    padding is whatever the recording buffer held there before, so it is part of the model. */
module EventLogFormat {
  import opened Bytes
  import opened Seqs
  import opened Wrappers

  const EVENT_BOUNDARY := 8
  const EVENT_HEADER_SIZE := 8
  const PROLOG_SIZE := 16
  const LOG_HEADER_SIZE := 16
  const MAX_EVENT_SIZE := 65535
  /** Room for one event of the largest size with its header, and a prolog. */
  const BUFFER_SIZE := MAX_EVENT_SIZE + EVENT_HEADER_SIZE + PROLOG_SIZE
  /** The DJB2a hash of "Prolog". */
  const PROLOG_HASH: u32 := 0xc83704ec

  /** V_SIZE_ALIGN_UP to the event boundary. */
  function AlignUp(n: nat): (r: nat)
    ensures n <= r < n + EVENT_BOUNDARY
    ensures r % EVENT_BOUNDARY == 0
  {
    (n + (EVENT_BOUNDARY - 1)) / EVENT_BOUNDARY * EVENT_BOUNDARY
  }

  /** The space an event with a payload of this size takes: RecordEventBegin's writeSize. */
  function WriteSize(size: nat): (r: nat)
    ensures EVENT_HEADER_SIZE + size <= r < EVENT_HEADER_SIZE + size + EVENT_BOUNDARY
    ensures r % EVENT_BOUNDARY == 0
  {
    AlignUp(EVENT_HEADER_SIZE + size)
  }

  datatype RawEvent = Event(id: u32, flags: u16, payload: seq<byte>, padding: seq<byte>)

  predicate ValidEvent(e: RawEvent) {
    && |e.payload| <= MAX_EVENT_SIZE
    && EVENT_HEADER_SIZE + |e.payload| + |e.padding| == WriteSize(|e.payload|)
  }

  type Event = e: RawEvent | ValidEvent(e) witness Event(0, 0, [], [])

  function EventHeader(id: u32, size: u16, flags: u16): (s: seq<byte>)
    ensures |s| == EVENT_HEADER_SIZE
  {
    ToBytes(id, 4) + ToBytes(size, 2) + ToBytes(flags, 2)
  }

  function Encode(e: Event): (s: seq<byte>)
    ensures |s| == WriteSize(|e.payload|)
  {
    EventHeader(e.id, |e.payload|, e.flags) + e.payload + e.padding
  }

  function EncodeAll(events: seq<Event>): seq<byte>
  {
    if events == [] then [] else Encode(events[0]) + EncodeAll(events[1..])
  }

  lemma {:induction false} EncodeAllAppend(a: seq<Event>, b: seq<Event>)
    ensures EncodeAll(a + b) == EncodeAll(a) + EncodeAll(b)
  {
    if a == [] {
      assert a + b == b;
    } else {
      ConsAppend(a, b);
      EncodeAllAppend(a[1..], b);
      Assoc(Encode(a[0]), EncodeAll(a[1..]), EncodeAll(b));
    }
  }

  lemma EncodeAllOne(e: Event)
    ensures EncodeAll([e]) == Encode(e)
  {
    assert EncodeAll([e]) == Encode(e) + EncodeAll([]);
  }

  // ---------- decoding ----------

  /** The event at the front of b, or None when b is too short to hold it. */
  function DecodeHead(b: seq<byte>): (r: Option<Event>)
    ensures r.Some? ==> |Encode(r.value)| <= |b|
  {
    if |b| < EVENT_HEADER_SIZE then None
    else
      Pow256Values();
      FromBytesBound(b[..4]);
      FromBytesBound(b[4..6]);
      FromBytesBound(b[6..8]);
      var size := FromBytes(b[4..6]);
      if |b| < WriteSize(size) then None
      else Some(Event(FromBytes(b[..4]), FromBytes(b[6..8]), b[8..8 + size], b[8 + size..WriteSize(size)]))
  }

  /** All of b as a list of events, or None when b does not end on an event's end. */
  function DecodeAll(b: seq<byte>): Option<seq<Event>>
  {
    if b == [] then Some([])
    else
      match DecodeHead(b)
      case None => None
      case Some(e) =>
        match DecodeAll(b[|Encode(e)|..])
        case None => None
        case Some(rest) => Some([e] + rest)
  }

  lemma DecodeHeadOfEncode(e: Event, rest: seq<byte>)
    ensures DecodeHead(Encode(e) + rest) == Some(e)
  {
    var b := Encode(e) + rest;
    Pow256Values();
    FromToBytes(e.id, 4);
    FromToBytes(|e.payload|, 2);
    FromToBytes(e.flags, 2);
    assert b[..4] == ToBytes(e.id, 4);
    assert b[4..6] == ToBytes(|e.payload|, 2);
    assert b[6..8] == ToBytes(e.flags, 2);
    assert b[8..8 + |e.payload|] == e.payload;
    assert b[8 + |e.payload|..|Encode(e)|] == e.padding;
  }

  lemma EncodeOfDecodeHead(b: seq<byte>)
    requires DecodeHead(b).Some?
    ensures Encode(DecodeHead(b).value) <= b
  {
    var e := DecodeHead(b).value;
    ToFromBytes(b[..4]);
    ToFromBytes(b[4..6]);
    ToFromBytes(b[6..8]);
    assert EventHeader(e.id, |e.payload|, e.flags) == b[..8];
    assert b[..8] + b[8..8 + |e.payload|] == b[..8 + |e.payload|];
    assert b[..8 + |e.payload|] + e.padding == b[..|Encode(e)|];
  }

  /** Decoding undoes encoding. */
  lemma {:induction false} DecodeAllOfEncodeAll(events: seq<Event>)
    ensures DecodeAll(EncodeAll(events)) == Some(events)
  {
    if events != [] {
      DecodeHeadOfEncode(events[0], EncodeAll(events[1..]));
      DecodeAllOfEncodeAll(events[1..]);
      assert EncodeAll(events)[|Encode(events[0])|..] == EncodeAll(events[1..]);
      assert events == [events[0]] + events[1..];
    }
  }

  /** Encoding undoes decoding, so exactly the encodings decode. */
  lemma {:induction false} EncodeAllOfDecodeAll(b: seq<byte>)
    requires DecodeAll(b).Some?
    ensures EncodeAll(DecodeAll(b).value) == b
  {
    if b != [] {
      var e := DecodeHead(b).value;
      var n := |Encode(e)|;
      EncodeOfDecodeHead(b);
      EncodeAllOfDecodeAll(b[n..]);
      var rest := DecodeAll(b[n..]).value;
      ConsAppend([e], rest);
      assert [e][1..] + rest == rest;
      JoinSlices(b, 0, n, |b|);
      assert Encode(e) == b[0..n] && b[n..|b|] == b[n..] && b[0..|b|] == b;
    }
  }

  // ---------- chunks and files ----------

  /** One WriteCacheToDisk: the thread the buffer belonged to and the events it held. */
  datatype Chunk = Chunk(threadId: u64, events: seq<Event>)

  function PrologEvent(threadId: u64): Event {
    Event(PROLOG_HASH, 0, ToBytes(threadId, 8), [])
  }

  function ChunkEvents(c: Chunk): seq<Event> {
    [PrologEvent(c.threadId)] + c.events
  }

  function FileEvents(chunks: seq<Chunk>): seq<Event> {
    if chunks == [] then [] else ChunkEvents(chunks[0]) + FileEvents(chunks[1..])
  }

  /** IEventLogger::LogHeader with its default field values. */
  function LogHeader(): (s: seq<byte>)
    ensures |s| == LOG_HEADER_SIZE
  {
    ['V' as int, 'O' as int, 'E' as int, 'L' as int] + ToBytes(1, 4) + ToBytes(0, 4) + ToBytes(0, 4)
  }

  function EncodeFile(chunks: seq<Chunk>): seq<byte> {
    LogHeader() + EncodeAll(FileEvents(chunks))
  }

  /** Appending one chunk's bytes is what one WriteCacheToDisk does to a well-formed file. */
  lemma EncodeFileAppend(chunks: seq<Chunk>, c: Chunk)
    ensures EncodeFile(chunks + [c]) == EncodeFile(chunks) + EncodeAll(ChunkEvents(c))
  {
    FileEventsAppend(chunks, [c]);
    assert FileEvents([c]) == ChunkEvents(c) + FileEvents([]);
    assert FileEvents([c]) == ChunkEvents(c);
    EncodeAllAppend(FileEvents(chunks), ChunkEvents(c));
  }

  lemma {:induction false} FileEventsAppend(a: seq<Chunk>, b: seq<Chunk>)
    ensures FileEvents(a + b) == FileEvents(a) + FileEvents(b)
  {
    if a == [] {
      assert a + b == b;
    } else {
      ConsAppend(a, b);
      FileEventsAppend(a[1..], b);
      Assoc(ChunkEvents(a[0]), FileEvents(a[1..]), FileEvents(b));
    }
  }

  // ---------- which thread the reader attributes an event to ----------

  datatype Visit = Visit(event: Event, threadId: u64)

  /** The number a reader finds behind a header at the front of b, if it looks for one. */
  function NumberBehind(b: seq<byte>): u64
    requires |b| >= PROLOG_SIZE
  {
    ReadThreadId(b[EVENT_HEADER_SIZE..PROLOG_SIZE])
  }

  function ReadThreadId(b: seq<byte>): u64
    requires |b| == 8
  {
    Pow256Values();
    FromBytesBound(b);
    FromBytes(b)
  }

  /** Wherever the prolog's hash makes the reader look behind the header of one of these events, `tail`
      following them, there are 8 bytes: only an empty event at the very end could have none. */
  predicate Readable(events: seq<Event>, tail: seq<byte>) {
    events != [] && |tail| < 8 && events[|events| - 1].id == PROLOG_HASH ==> events[|events| - 1].payload != []
  }

  lemma ReadableHead(events: seq<Event>, tail: seq<byte>)
    requires events != [] && events[0].id == PROLOG_HASH && Readable(events, tail)
    ensures |EncodeAll(events) + tail| >= PROLOG_SIZE
  {
    if |events| > 1 {
      assert EncodeAll(events[1..]) == Encode(events[1]) + EncodeAll(events[1..][1..]);
    }
  }

  /** The bytes suffice exactly if no header with the prolog's hash has less than 8 bytes behind it. */
  lemma ReadableMeans(events: seq<Event>, tail: seq<byte>)
    ensures Readable(events, tail)
       <==> forall k :: 0 <= k < |events| && events[k].id == PROLOG_HASH ==>
              |EncodeAll(events[k..]) + tail| >= PROLOG_SIZE
  {
    if Readable(events, tail) {
      forall k | 0 <= k < |events| && events[k].id == PROLOG_HASH
        ensures |EncodeAll(events[k..]) + tail| >= PROLOG_SIZE
      {
        ReadableHead(events[k..], tail);
      }
    } else {
      var last := |events| - 1;
      assert events[last..] == [events[last]];
      EncodeAllOne(events[last]);
    }
  }

  /** UpdateThreadId at the first of these events: the prolog's hash alone decides whether the 8 bytes
      behind the header are taken for a thread id, whatever the event's size. */
  function ThreadAfter(events: seq<Event>, tail: seq<byte>, threadId: u64): u64
    requires events != [] && Readable(events, tail)
  {
    if events[0].id == PROLOG_HASH then
      ReadableHead(events, tail);
      NumberBehind(EncodeAll(events) + tail)
    else threadId
  }

  lemma BehindEmpty(a: seq<byte>, h: seq<byte>, b: seq<byte>, c: seq<byte>)
    requires |a| == EVENT_HEADER_SIZE && |h| == EVENT_HEADER_SIZE
    ensures (a + (h + b) + c)[EVENT_HEADER_SIZE..PROLOG_SIZE] == h
  {
  }

  /** At an event without payload it takes the header of the next event for a thread id. */
  lemma EmptyPrologReadsNextHeader(e: Event, next: Event, rest: seq<Event>, threadId: u64)
    requires e.id == PROLOG_HASH && e.payload == [] && Readable([e, next] + rest, [])
    ensures ThreadAfter([e, next] + rest, [], threadId)
         == ReadThreadId(EventHeader(next.id, |next.payload|, next.flags))
  {
    EncodeAllAppend([e, next], rest);
    EncodeAllAppend([e], [next]);
    EncodeAllOne(e);
    EncodeAllOne(next);
    assert [e] + [next] == [e, next] && EncodeAll(rest) + [] == EncodeAll(rest);
    var h, b := EventHeader(next.id, |next.payload|, next.flags), next.payload + next.padding;
    assert Encode(next) == h + b;
    BehindEmpty(Encode(e), h, b, EncodeAll(rest));
    assert EncodeAll([e, next] + rest) + [] == Encode(e) + (h + b) + EncodeAll(rest);
  }

  /** What a reader sees when it moves through events, `tail` following them, holding thread id
      `threadId` before. */
  function Walk(events: seq<Event>, tail: seq<byte>, threadId: u64): (v: seq<Visit>)
    requires Readable(events, tail)
    ensures |v| == |events|
    ensures forall i :: 0 <= i < |v| ==> v[i].event == events[i]
    decreases |events|
  {
    if events == [] then []
    else
      var t := ThreadAfter(events, tail, threadId);
      [Visit(events[0], t)] + Walk(events[1..], tail, t)
  }

  /** The thread id held after a walk. */
  function LastThread(v: seq<Visit>, threadId: u64): u64 {
    if v == [] then threadId else v[|v| - 1].threadId
  }

  lemma LastThreadCons(v: Visit, w: seq<Visit>, threadId: u64)
    ensures LastThread([v] + w, threadId) == LastThread(w, v.threadId)
  {
  }

  lemma ReadableAppend(a: seq<Event>, b: seq<Event>, tail: seq<byte>)
    requires Readable(a + b, tail)
    ensures Readable(a, EncodeAll(b) + tail) && Readable(b, tail)
  {
    if b == [] {
      assert a + b == a;
    }
  }

  lemma {:induction false} WalkAppend(a: seq<Event>, b: seq<Event>, tail: seq<byte>, threadId: u64)
    requires Readable(a + b, tail)
    ensures Readable(a, EncodeAll(b) + tail) && Readable(b, tail)
    ensures var v := Walk(a, EncodeAll(b) + tail, threadId);
            Walk(a + b, tail, threadId) == v + Walk(b, tail, LastThread(v, threadId))
    decreases |a|
  {
    ReadableAppend(a, b, tail);
    if a == [] {
      assert a + b == b;
    } else {
      ConsAppend(a, b);
      EncodeAllAppend(a, b);
      Assoc(EncodeAll(a), EncodeAll(b), tail);
      var t := ThreadAfter(a, EncodeAll(b) + tail, threadId);
      WalkAppend(a[1..], b, tail, t);
      var v, w := Visit(a[0], t), Walk(a[1..], EncodeAll(b) + tail, t);
      LastThreadCons(v, w, threadId);
      Assoc([v], w, Walk(b, tail, LastThread(w, t)));
    }
  }

  lemma {:induction false} WalkStep(events: seq<Event>, tail: seq<byte>, threadId: u64, k: nat)
    requires Readable(events, tail) && k + 1 < |events|
    ensures var v := Walk(events, tail, threadId);
            v[k + 1].threadId == ThreadAfter(events[k + 1..], tail, v[k].threadId)
    decreases k
  {
    assert events[1..][k..] == events[k + 1..];
    if k > 0 {
      WalkStep(events[1..], tail, ThreadAfter(events, tail, threadId), k - 1);
    }
  }

  /** The visits the log promises: the prolog and then the events, all under the chunk's thread. */
  function ChunkVisits(c: Chunk): seq<Visit> {
    Attributed(ChunkEvents(c), c.threadId)
  }

  function Attributed(events: seq<Event>, threadId: u64): (v: seq<Visit>)
    ensures |v| == |events|
    ensures forall i :: 0 <= i < |v| ==> v[i] == Visit(events[i], threadId)
  {
    seq(|events|, i requires 0 <= i < |events| => Visit(events[i], threadId))
  }

  function FileVisits(chunks: seq<Chunk>): seq<Visit> {
    if chunks == [] then [] else ChunkVisits(chunks[0]) + FileVisits(chunks[1..])
  }

  /** An event at the front of b that is taken for a prolog names this thread. */
  predicate Names(b: seq<byte>, threadId: u64) {
    |b| >= PROLOG_SIZE && NumberBehind(b) == threadId
  }

  /** No recorded event passes for a prolog naming another thread, where `after` follows the chunk. */
  predicate NoFalseProlog(events: seq<Event>, threadId: u64, after: seq<byte>) {
    forall k :: 0 <= k < |events| && events[k].id == PROLOG_HASH ==> Names(EncodeAll(events[k..]) + after, threadId)
  }

  predicate NoFalsePrologs(chunks: seq<Chunk>) {
    forall i :: 0 <= i < |chunks| ==>
      NoFalseProlog(chunks[i].events, chunks[i].threadId, EncodeAll(FileEvents(chunks[i + 1..])))
  }

  lemma PrologNamesThread(c: Chunk, after: seq<byte>)
    ensures Names(EncodeAll(ChunkEvents(c)) + after, c.threadId)
  {
    var b := EncodeAll(ChunkEvents(c)) + after;
    Pow256Values();
    FromToBytes(c.threadId, 8);
    assert EncodeAll(ChunkEvents(c)) == Encode(PrologEvent(c.threadId)) + EncodeAll(ChunkEvents(c)[1..]);
    assert b[EVENT_HEADER_SIZE..PROLOG_SIZE] == ToBytes(c.threadId, 8);
  }

  lemma NoFalsePrologHead(events: seq<Event>, threadId: u64, after: seq<byte>)
    requires events != []
    ensures NoFalseProlog(events, threadId, after)
       <==> (events[0].id == PROLOG_HASH ==> Names(EncodeAll(events) + after, threadId))
            && NoFalseProlog(events[1..], threadId, after)
  {
    assert events[0..] == events;
    forall k | 0 <= k < |events| - 1
      ensures events[1..][k..] == events[k + 1..] && events[1..][k] == events[k + 1]
    {
    }
    if NoFalseProlog(events[1..], threadId, after) {
      forall k | 0 < k < |events| && events[k].id == PROLOG_HASH
        ensures Names(EncodeAll(events[k..]) + after, threadId)
      {
        assert events[1..][k - 1..] == events[k..] && events[1..][k - 1] == events[k];
      }
    }
  }

  lemma WalkOfHonestHead(events: seq<Event>, after: seq<byte>, threadId: u64)
    requires events != [] && Readable(events, after)
    ensures Walk(events, after, threadId) == Attributed(events, threadId)
       <==> ThreadAfter(events, after, threadId) == threadId
            && Walk(events[1..], after, threadId) == Attributed(events[1..], threadId)
  {
    var t := ThreadAfter(events, after, threadId);
    assert Attributed(events, threadId) == [Visit(events[0], threadId)] + Attributed(events[1..], threadId);
    SplitEqual([Visit(events[0], t)], [Visit(events[0], threadId)],
               Walk(events[1..], after, t), Attributed(events[1..], threadId));
  }

  lemma {:induction false} WalkOfHonestEvents(events: seq<Event>, after: seq<byte>, threadId: u64)
    requires Readable(events, after)
    ensures Walk(events, after, threadId) == Attributed(events, threadId) <==> NoFalseProlog(events, threadId, after)
    decreases |events|
  {
    if events != [] {
      if events[0].id == PROLOG_HASH {
        ReadableHead(events, after);
      }
      NoFalsePrologHead(events, threadId, after);
      WalkOfHonestHead(events, after, threadId);
      WalkOfHonestEvents(events[1..], after, threadId);
    }
  }

  lemma WalkFromProlog(c: Chunk, after: seq<byte>, before: u64)
    requires Readable(ChunkEvents(c), after)
    ensures Readable(c.events, after)
    ensures Walk(ChunkEvents(c), after, before)
         == [Visit(PrologEvent(c.threadId), c.threadId)] + Walk(c.events, after, c.threadId)
  {
    PrologNamesThread(c, after);
    assert ChunkEvents(c)[1..] == c.events;
  }

  lemma VisitsFromProlog(c: Chunk)
    ensures ChunkVisits(c) == [Visit(PrologEvent(c.threadId), c.threadId)] + Attributed(c.events, c.threadId)
  {
  }

  lemma WalkOfChunk(c: Chunk, after: seq<byte>, before: u64)
    requires Readable(ChunkEvents(c), after)
    ensures Walk(ChunkEvents(c), after, before) == ChunkVisits(c) <==> NoFalseProlog(c.events, c.threadId, after)
  {
    var prolog := Visit(PrologEvent(c.threadId), c.threadId);
    WalkFromProlog(c, after, before);
    VisitsFromProlog(c);
    WalkOfHonestEvents(c.events, after, c.threadId);
    SplitEqual([prolog], [prolog], Walk(c.events, after, c.threadId), Attributed(c.events, c.threadId));
  }

  lemma NoFalsePrologsHead(chunks: seq<Chunk>)
    requires chunks != []
    ensures NoFalsePrologs(chunks)
       <==> NoFalseProlog(chunks[0].events, chunks[0].threadId, EncodeAll(FileEvents(chunks[1..])))
            && NoFalsePrologs(chunks[1..])
  {
    forall i | 0 <= i < |chunks| - 1
      ensures chunks[1..][i + 1..] == chunks[i + 2..] && chunks[1..][i] == chunks[i + 1]
    {
    }
    if NoFalsePrologs(chunks[1..]) {
      forall i | 0 < i < |chunks|
        ensures NoFalseProlog(chunks[i].events, chunks[i].threadId, EncodeAll(FileEvents(chunks[i + 1..])))
             == NoFalseProlog(chunks[1..][i - 1].events, chunks[1..][i - 1].threadId,
                              EncodeAll(FileEvents(chunks[1..][i..])))
      {
        assert chunks[1..][i..] == chunks[i + 1..] && chunks[1..][i - 1] == chunks[i];
      }
    }
  }

  /** Walking a file visits, chunk by chunk, the prolog and then each event in record order, and
      names the chunk's thread at every one of them, exactly when no recorded event that carries the
      prolog's hash has another number in the 8 bytes behind its header. */
  lemma {:induction false} WalkNamesRecorders(chunks: seq<Chunk>, before: u64)
    requires Readable(FileEvents(chunks), [])
    ensures Walk(FileEvents(chunks), [], before) == FileVisits(chunks) <==> NoFalsePrologs(chunks)
    decreases |chunks|
  {
    if chunks != [] {
      var c, rest := chunks[0], FileEvents(chunks[1..]);
      var after := EncodeAll(rest);
      assert after + [] == after;
      WalkAppend(ChunkEvents(c), rest, [], before);
      WalkOfChunk(c, after, before);
      VisitsFromProlog(c);
      var w := Walk(ChunkEvents(c), after, before);
      var last := LastThread(w, before);
      WalkNamesRecorders(chunks[1..], last);
      NoFalsePrologsHead(chunks);
      SplitEqual(w, ChunkVisits(c), Walk(rest, [], last), FileVisits(chunks[1..]));
    }
  }
}
