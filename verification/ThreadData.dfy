/** LocalFileEventLogger::ThreadData: the in-place buffer a thread records into, and the file it
    is written to.  `memory` is Buffer together with the one byte of padding the compiler puts
    between it and the 8-aligned ThreadId, because the largest events reach that byte. */
module ThreadData {
  import opened Bytes
  import opened Seqs
  import opened EventLogFormat

  /** The largest event whose padding ends inside Buffer. */
  const MAX_SIZE_INSIDE := 65528

  /** UsedBytes of a buffer that holds these events behind its prolog. */
  function UsedBytes(events: seq<Event>): nat {
    PROLOG_SIZE + |EncodeAll(events)|
  }

  /** RecordEventBegin's test: no room for an event of this size behind `used` bytes. */
  predicate MustWriteFirst(used: nat, size: u16) {
    used + WriteSize(size) >= BUFFER_SIZE
  }

  /** What the buffer holds when RecordEventBegin has made room. */
  function AfterMakingRoom(events: seq<Event>, size: u16): seq<Event> {
    if MustWriteFirst(UsedBytes(events), size) then [] else events
  }

  /** Where an event with a payload of this size would end behind `used` bytes: 8 bytes of header, and the
      whole rounded up to a multiple of 8. */
  function EndBehind(used: nat, size: nat): nat {
    used + (8 + size + 7) / 8 * 8
  }

  /** Nothing is written as long as the event ends before the last of the 65559 bytes of Buffer. */
  lemma KeepsWhatFits(events: seq<Event>, size: u16)
    ensures EndBehind(16 + |EncodeAll(events)|, size) < 65559 ==> AfterMakingRoom(events, size) == events
    ensures EndBehind(16 + |EncodeAll(events)|, size) >= 65559 ==> AfterMakingRoom(events, size) == []
    ensures AfterMakingRoom(events, size) == events <==> events == [] || EndBehind(UsedBytes(events), size) < 65559
  {
  }

  lemma MultiplesAdd(a: nat, b: nat)
    requires a % EVENT_BOUNDARY == 0 && b % EVENT_BOUNDARY == 0
    ensures (a + b) % EVENT_BOUNDARY == 0
  {
  }

  lemma {:induction false} EncodedLengthAligned(events: seq<Event>)
    ensures |EncodeAll(events)| % EVENT_BOUNDARY == 0
  {
    if events != [] {
      EncodedLengthAligned(events[1..]);
      MultiplesAdd(|Encode(events[0])|, |EncodeAll(events[1..])|);
    }
  }

  lemma AppendedLength(events: seq<Event>, e: Event)
    ensures UsedBytes(events + [e]) == UsedBytes(events) + WriteSize(|e.payload|)
    ensures EncodeAll(events + [e]) == EncodeAll(events) + Encode(e)
  {
    EncodeAllAppend(events, [e]);
    EncodeAllOne(e);
  }

  lemma FitArithmetic(used: nat, size: u16)
    requires used % EVENT_BOUNDARY == 0 && used >= PROLOG_SIZE
    requires used == PROLOG_SIZE || !MustWriteFirst(used, size)
    ensures used + EVENT_HEADER_SIZE + size <= BUFFER_SIZE
    ensures used + WriteSize(size) <= BUFFER_SIZE + 1
    ensures used + WriteSize(size) == BUFFER_SIZE + 1 <==> size > MAX_SIZE_INSIDE
  {
  }

  /** Once room is made, the event starts inside Buffer, its header and payload end inside Buffer,
      and its padding ends at most one byte past it. */
  lemma EventFits(events: seq<Event>, e: Event)
    ensures var room := AfterMakingRoom(events, |e.payload|);
            && UsedBytes(room) + EVENT_HEADER_SIZE + |e.payload| <= BUFFER_SIZE
            && UsedBytes(room + [e]) <= BUFFER_SIZE + 1
            && UsedBytes(room + [e]) % EVENT_BOUNDARY == 0
            && (UsedBytes(room + [e]) == BUFFER_SIZE + 1 <==> |e.payload| > MAX_SIZE_INSIDE)
  {
    var room := AfterMakingRoom(events, |e.payload|);
    AppendedLength(room, e);
    UsedAligned(room);
    UsedAligned(room + [e]);
    FitArithmetic(UsedBytes(room), |e.payload|);
  }

  lemma UsedAligned(events: seq<Event>)
    ensures UsedBytes(events) % EVENT_BOUNDARY == 0 && UsedBytes(events) >= PROLOG_SIZE
  {
    EncodedLengthAligned(events);
    MultiplesAdd(PROLOG_SIZE, |EncodeAll(events)|);
  }

  /** These bytes hold these events behind the room of the prolog. */
  ghost predicate Holds(m: seq<byte>, events: seq<Event>) {
    && |m| == BUFFER_SIZE + 1
    && UsedBytes(events) <= |m|
    && m[PROLOG_SIZE..UsedBytes(events)] == EncodeAll(events)
  }

  /** Stamping the prolog completes the chunk. */
  lemma StampedChunk(m: seq<byte>, threadId: u64, events: seq<Event>)
    requires Holds(m, events)
    ensures var prolog := EventHeader(PROLOG_HASH, 8, 0) + ToBytes(threadId, 8);
            && PROLOG_SIZE == |prolog|
            && Overwrite(m, 0, prolog)[..UsedBytes(events)] == EncodeAll(ChunkEvents(Chunk(threadId, events)))
  {
    var prolog := EventHeader(PROLOG_HASH, 8, 0) + ToBytes(threadId, 8);
    var r := Overwrite(m, 0, prolog);
    OverwriteSlices(m, 0, prolog);
    SliceOfSuffix(m, r, PROLOG_SIZE, PROLOG_SIZE, UsedBytes(events));
    JoinSlices(r, 0, PROLOG_SIZE, UsedBytes(events));
    EncodeAllOne(PrologEvent(threadId));
    EncodeAllAppend([PrologEvent(threadId)], events);
    assert Encode(PrologEvent(threadId)) == prolog;
  }

  /** An event whose bytes stand right behind the others is one more event held. */
  lemma HoldsOneMore(m: seq<byte>, r: seq<byte>, events: seq<Event>, e: Event)
    requires Holds(m, events) && |r| == |m|
    requires UsedBytes(events) + WriteSize(|e.payload|) <= |m|
    requires r[..UsedBytes(events)] == m[..UsedBytes(events)]
    requires r[UsedBytes(events)..UsedBytes(events) + WriteSize(|e.payload|)] == Encode(e)
    ensures Holds(r, events + [e])
  {
    AppendedLength(events, e);
    SliceOfPrefix(m, r, PROLOG_SIZE, UsedBytes(events), UsedBytes(events));
    JoinSlices(r, PROLOG_SIZE, UsedBytes(events), UsedBytes(events + [e]));
  }

  lemma HoldsOneLess(m: seq<byte>, events: seq<Event>, e: Event)
    requires Holds(m, events + [e])
    ensures Holds(m, events)
    ensures UsedBytes(events) <= UsedBytes(events + [e])
    ensures m[UsedBytes(events)..UsedBytes(events + [e])] == Encode(e)
  {
    AppendedLength(events, e);
    var a, b, c := PROLOG_SIZE, UsedBytes(events), UsedBytes(events + [e]);
    JoinSlices(m, a, b, c);
    SplitEqual(m[a..b], EncodeAll(events), m[b..c], Encode(e));
  }

  /** The event a header written at `at` opens: payload and padding are the bytes found there. */
  function OpenedEvent(m: seq<byte>, at: nat, id: u32, size: u16, flags: u16): Event
    requires at + WriteSize(size) <= |m|
  {
    Event(id, flags, m[at + EVENT_HEADER_SIZE..at + EVENT_HEADER_SIZE + size],
          m[at + EVENT_HEADER_SIZE + size..at + WriteSize(size)])
  }

  lemma HeaderOpensEvent(m: seq<byte>, events: seq<Event>, id: u32, size: u16, flags: u16)
    requires Holds(m, events) && UsedBytes(events) + WriteSize(size) <= |m|
    ensures Holds(Overwrite(m, UsedBytes(events), EventHeader(id, size, flags)),
                  events + [OpenedEvent(m, UsedBytes(events), id, size, flags)])
  {
    var at, h := UsedBytes(events), EVENT_HEADER_SIZE;
    var e := OpenedEvent(m, at, id, size, flags);
    var r := Overwrite(m, at, EventHeader(id, size, flags));
    OverwriteSlices(m, at, EventHeader(id, size, flags));
    SliceOfSuffix(m, r, at + h, at + h, at + WriteSize(size));
    JoinSlices(r, at, at + h, at + WriteSize(size));
    JoinSlices(m, at + h, at + h + size, at + WriteSize(size));
    Assoc(EventHeader(id, size, flags), e.payload, e.padding);
    HoldsOneMore(m, r, events, e);
  }

  lemma FilledBytes(m: seq<byte>, at: nat, e: Event, data: seq<byte>)
    requires at + WriteSize(|data|) <= |m| && |data| == |e.payload|
    requires m[at..at + WriteSize(|data|)] == Encode(e)
    ensures var r := Overwrite(m, at + EVENT_HEADER_SIZE, data);
            |r| == |m| && r[..at] == m[..at] && r[at..at + WriteSize(|data|)] == Encode(e.(payload := data))
  {
    var h, n := EVENT_HEADER_SIZE, |data|;
    var r := Overwrite(m, at + h, data);
    OverwriteSlices(m, at + h, data);
    EncodedParts(m, at, e);
    SliceOfPrefix(m, r, 0, at, at + h);
    SliceOfPrefix(m, r, at, at + h, at + h);
    SliceOfSuffix(m, r, at + h + n, at + h + n, at + WriteSize(n));
    JoinSlices(r, at, at + h, at + h + n);
    JoinSlices(r, at, at + h + n, at + WriteSize(n));
  }

  lemma PayloadFilled(m: seq<byte>, events: seq<Event>, e: Event, data: seq<byte>)
    requires Holds(m, events + [e]) && |data| == |e.payload|
    ensures UsedBytes(events) + WriteSize(|data|) <= |m|
    ensures Holds(Overwrite(m, UsedBytes(events) + EVENT_HEADER_SIZE, data), events + [e.(payload := data)])
  {
    HoldsOneLess(m, events, e);
    AppendedLength(events, e);
    FilledBytes(m, UsedBytes(events), e, data);
    HoldsOneMore(m, Overwrite(m, UsedBytes(events) + EVENT_HEADER_SIZE, data), events, e.(payload := data));
  }

  lemma EncodedParts(m: seq<byte>, at: nat, e: Event)
    requires at + WriteSize(|e.payload|) <= |m|
    requires m[at..at + WriteSize(|e.payload|)] == Encode(e)
    ensures var h, n := EVENT_HEADER_SIZE, |e.payload|;
            && m[at..at + h] == EventHeader(e.id, n, e.flags)
            && m[at + h + n..at + WriteSize(n)] == e.padding
  {
    var h, n, w := EVENT_HEADER_SIZE, |e.payload|, WriteSize(|e.payload|);
    assert m[at..at + h] == m[at..at + w][..h];
    assert m[at + h + n..at + w] == m[at..at + w][h + n..];
    assert Encode(e)[..h] == EventHeader(e.id, n, e.flags);
    assert Encode(e)[h + n..] == e.padding;
  }

  /** The output file, append only. */
  class SystemFile {
    var bytes: seq<byte>

    constructor ()
      ensures bytes == []
    {
      bytes := [];
    }

    method Write(data: seq<byte>)
      modifies this
      ensures bytes == old(bytes) + data
    {
      bytes := bytes + data;
    }
  }

  class ThreadData {
    const memory: array<byte>
    var threadId: u64
    var usedBytes: nat

    /** The events behind the prolog, the one still open included. */
    ghost var events: seq<Event>

    ghost predicate Valid()
      reads this, memory
    {
      && usedBytes == UsedBytes(events)
      && Holds(memory[..], events)
    }

    constructor (threadId: u64)
      ensures Valid() && fresh(memory)
      ensures events == [] && this.threadId == threadId
    {
      memory := new byte[BUFFER_SIZE + 1](_ => 0);
      this.threadId := threadId;
      usedBytes := PROLOG_SIZE;
      events := [];
    }

    /** memcpy into the buffer. */
    method Store(at: nat, data: seq<byte>)
      requires at + |data| <= memory.Length
      modifies memory
      ensures memory[..] == Overwrite(old(memory[..]), at, data)
    {
      forall i | 0 <= i < |data| {
        memory[at + i] := data[i];
      }
    }

    /** Stamps the prolog into the front of the buffer, appends the used part to the file and
        leaves the buffer empty but for the room of the next prolog. */
    method WriteCacheToDisk(file: SystemFile)
      requires Valid()
      modifies this`usedBytes, this`events, memory, file
      ensures Valid() && events == []
      ensures file.bytes == old(file.bytes) + EncodeAll(ChunkEvents(Chunk(threadId, old(events))))
    {
      StampedChunk(memory[..], threadId, events);
      Store(0, EventHeader(PROLOG_HASH, 8, 0) + ToBytes(threadId, 8));
      file.Write(memory[..usedBytes]);
      usedBytes := PROLOG_SIZE;
      events := [];
    }

    /** The first half of RecordEventBegin on a buffer the thread owns: writes the buffer out if an
        event of this size does not fit behind what is there. */
    method MakeRoom(size: u16, file: SystemFile)
      requires Valid()
      modifies this`usedBytes, this`events, memory, file
      ensures Valid()
      ensures events == AfterMakingRoom(old(events), size)
      ensures usedBytes + WriteSize(size) <= memory.Length
      ensures file.bytes == if MustWriteFirst(UsedBytes(old(events)), size)
                            then old(file.bytes) + EncodeAll(ChunkEvents(Chunk(threadId, old(events))))
                            else old(file.bytes)
      ensures EndBehind(old(usedBytes), size) < 65559 ==>
                && events == old(events) && usedBytes == old(usedBytes) && memory[..] == old(memory[..])
                && file.bytes == old(file.bytes)
      ensures EndBehind(old(usedBytes), size) >= 65559 ==>
                && events == [] && usedBytes == 16
                && file.bytes == old(file.bytes) + EncodeAll(ChunkEvents(Chunk(threadId, old(events))))
    {
      var writeSize := AlignUp(EVENT_HEADER_SIZE + size);
      if usedBytes + writeSize >= BUFFER_SIZE {
        WriteCacheToDisk(file);
      }
    }

    /** The second half: puts the header behind what is there and returns where the payload goes.
        Payload and padding of the new event are what the buffer held there before. */
    method AppendEvent(id: u32, size: u16, flags: u16) returns (payloadAt: nat, ghost added: Event)
      requires Valid() && usedBytes + WriteSize(size) <= memory.Length
      modifies this`usedBytes, this`events, memory
      ensures Valid()
      ensures events == old(events) + [added]
      ensures added.id == id && added.flags == flags && |added.payload| == size
      ensures payloadAt == UsedBytes(old(events)) + EVENT_HEADER_SIZE
    {
      added := OpenedEvent(memory[..], usedBytes, id, size, flags);
      AppendedLength(events, added);
      HeaderOpensEvent(memory[..], events, id, size, flags);
      Store(usedBytes, EventHeader(id, size, flags));
      payloadAt := usedBytes + EVENT_HEADER_SIZE;
      usedBytes := usedBytes + AlignUp(EVENT_HEADER_SIZE + size);
      events := events + [added];
    }

    /** The caller filling in the payload behind the pointer RecordEventBegin returned. */
    method FillPayload(payloadAt: nat, data: seq<byte>)
      requires Valid() && events != []
      requires payloadAt == UsedBytes(events[..|events| - 1]) + EVENT_HEADER_SIZE
      requires |data| == |events[|events| - 1].payload|
      modifies this`events, memory
      ensures Valid()
      ensures var last := |old(events)| - 1;
              events == old(events)[..last] + [old(events)[last].(payload := data)]
    {
      ghost var last := |events| - 1;
      ghost var room, e: Event := events[..last], events[last];
      assert events == room + [e];
      PayloadFilled(memory[..], room, e, data);
      AppendedLength(room, e);
      AppendedLength(room, e.(payload := data));
      Store(payloadAt, data);
      events := room + [e.(payload := data)];
    }
  }
}
