/** EventLogReader: a cursor over the bytes of a log file. */
module EventLogReader {
  import opened Bytes
  import opened Wrappers
  import opened Seqs
  import opened EventLogFormat

  /** The bytes ReadLog can walk: a log header and at least one event, as every log that received
      a chunk has, and 8 bytes behind every header that the reader takes for a prolog. */
  predicate WellFormedLog(file: seq<byte>) {
    && |file| > LOG_HEADER_SIZE
    && DecodeAll(file[LOG_HEADER_SIZE..]).Some?
    && Readable(DecodeAll(file[LOG_HEADER_SIZE..]).value, [])
  }

  /** The offset of event number k. */
  ghost function Offset(events: seq<Event>, k: nat): nat
    requires k <= |events|
  {
    LOG_HEADER_SIZE + |EncodeAll(events[..k])|
  }

  lemma OffsetAfter(events: seq<Event>, k: nat)
    requires k < |events|
    ensures Offset(events, k + 1) == Offset(events, k) + WriteSize(|events[k].payload|)
  {
    TakeOneMore(events, k);
    EncodeAllAppend(events[..k], [events[k]]);
    EncodeAllOne(events[k]);
  }

  /** These bytes behind the log header encode these events. */
  predicate LogOf(buffer: seq<byte>, events: seq<Event>) {
    |buffer| >= LOG_HEADER_SIZE && buffer[LOG_HEADER_SIZE..] == EncodeAll(events)
  }

  /** The bytes from event k on. */
  lemma SuffixAt(buffer: seq<byte>, events: seq<Event>, k: nat)
    requires LogOf(buffer, events) && k <= |events|
    ensures Offset(events, k) <= |buffer| && buffer[Offset(events, k)..] == EncodeAll(events[k..])
  {
    var n := |EncodeAll(events[..k])|;
    assert events[..k] + events[k..] == events;
    EncodeAllAppend(events[..k], events[k..]);
    assert buffer[LOG_HEADER_SIZE..][n..] == buffer[LOG_HEADER_SIZE + n..];
  }

  /** What the header at event k says, and that only the last event ends at the end. */
  lemma EventAt(buffer: seq<byte>, events: seq<Event>, k: nat)
    requires LogOf(buffer, events) && k < |events|
    ensures Offset(events, k) <= |buffer| && DecodeHead(buffer[Offset(events, k)..]) == Some(events[k])
    ensures Offset(events, k) + WriteSize(|events[k].payload|) == Offset(events, k + 1)
    ensures Offset(events, k + 1) < |buffer| <==> k + 1 < |events|
  {
    SuffixAt(buffer, events, k);
    SuffixAt(buffer, events, k + 1);
    OffsetAfter(events, k);
    assert events[k..][1..] == events[k + 1..];
    DecodeHeadOfEncode(events[k], EncodeAll(events[k + 1..]));
    NonEmptyEncoding(events[k + 1..]);
  }

  /** The 8 bytes behind the header of event k. */
  lemma NumberAt(buffer: seq<byte>, events: seq<Event>, k: nat, threadId: u64)
    requires LogOf(buffer, events) && k < |events| && Readable(events, []) && events[k].id == PROLOG_HASH
    ensures Offset(events, k) + PROLOG_SIZE <= |buffer|
    ensures ReadThreadId(buffer[Offset(events, k) + EVENT_HEADER_SIZE..Offset(events, k) + PROLOG_SIZE])
         == ThreadAfter(events[k..], [], threadId)
  {
    var at, left := Offset(events, k), EncodeAll(events[k..]);
    SuffixAt(buffer, events, k);
    ReadableHead(events[k..], []);
    assert left + [] == left;
    SliceOfDrop(buffer, at, EVENT_HEADER_SIZE, PROLOG_SIZE);
  }

  lemma NonEmptyEncoding(events: seq<Event>)
    ensures EncodeAll(events) == [] <==> events == []
  {
  }

  /** Visit k is that of event k, with the thread id looked up there or else the one before. */
  ghost predicate VisitAt(events: seq<Event>, leftId: u64, visits: seq<Visit>, k: nat)
    requires Readable(events, []) && k < |visits| == |events|
  {
    visits[k] == Visit(events[k], ThreadAfter(events[k..], [], if k == 0 then leftId else visits[k - 1].threadId))
  }

  /** The visits of a reader that moves through the events, step by step. */
  ghost predicate Walked(events: seq<Event>, leftId: u64, visits: seq<Visit>)
    requires Readable(events, [])
  {
    |visits| == |events| && forall k :: 0 <= k < |visits| ==> VisitAt(events, leftId, visits, k)
  }

  lemma WalkIsWalked(events: seq<Event>, leftId: u64)
    requires Readable(events, [])
    ensures Walked(events, leftId, Walk(events, [], leftId))
  {
    var visits := Walk(events, [], leftId);
    forall k | 0 <= k < |visits|
      ensures VisitAt(events, leftId, visits, k)
    {
      if k == 0 {
        assert events[0..] == events;
      } else {
        WalkStep(events, [], leftId, k - 1);
      }
    }
  }

  class EventLogReader {
    var buffer: seq<byte>
    var logHeader: seq<byte>
    var current: nat
    var currentThreadId: u64

    /** The events the buffer encodes, the number of the one under the cursor, the thread id an earlier
        log has left behind, and what a walk over all events sees. */
    ghost var events: seq<Event>
    ghost var index: nat
    ghost var leftId: u64
    ghost var visits: seq<Visit>

    ghost predicate Valid()
      reads this
    {
      AtEvent() && currentThreadId == visits[index].threadId
    }

    /** The cursor is at an event, whose thread may not have been looked up. */
    ghost predicate AtEvent()
      reads this
    {
      && LogOf(buffer, events) && Readable(events, [])
      && index < |events| && current == Offset(events, index)
      && Walked(events, leftId, visits)
    }

    constructor ()
      ensures currentThreadId == 0
    {
      buffer, logHeader, current, currentThreadId := [], [], 0, 0;
      events, index, leftId, visits := [], 0, 0, [];
    }

    /** `file` is None when the path does not exist; `readSize` is what the file system read. */
    method ReadLog(file: Option<seq<byte>>, readSize: nat) returns (ok: bool)
      requires file.Some? && file.value != [] && readSize == |file.value| ==> WellFormedLog(file.value)
      modifies this
      ensures ok <==> file.Some? && file.value != [] && readSize == |file.value|
      ensures ok ==> Valid() && index == 0 && leftId == old(currentThreadId)
      ensures ok ==> buffer == file.value && logHeader == file.value[..LOG_HEADER_SIZE]
      ensures ok ==> Some(events) == DecodeAll(file.value[LOG_HEADER_SIZE..]) && visits == Walk(events, [], leftId)
    {
      if file.Some? {
        var size := |file.value|;
        if size == 0 {
          return false;
        }
        buffer := file.value;
        if readSize == size {
          StartReading();
          return true;
        }
      }
      return false;
    }

    /** The part of ReadLog that looks at the bytes read. */
    method StartReading()
      requires WellFormedLog(buffer)
      modifies this`logHeader, this`current, this`currentThreadId, this`events, this`index, this`leftId, this`visits
      ensures Valid() && index == 0 && leftId == old(currentThreadId)
      ensures logHeader == buffer[..LOG_HEADER_SIZE] && Some(events) == DecodeAll(buffer[LOG_HEADER_SIZE..])
      ensures visits == Walk(events, [], leftId)
    {
      logHeader := buffer[..LOG_HEADER_SIZE];
      current := LOG_HEADER_SIZE;
      EncodeAllOfDecodeAll(buffer[LOG_HEADER_SIZE..]);
      events, index, leftId := DecodeAll(buffer[LOG_HEADER_SIZE..]).value, 0, currentThreadId;
      visits := Walk(events, [], leftId);
      WalkIsWalked(events, leftId);
      UpdateThreadId();
      assert VisitAt(events, leftId, visits, 0);
    }

    method GetEvent() returns (e: Event)
      requires AtEvent()
      ensures e == events[index]
    {
      EventAt(buffer, events, index);
      e := DecodeHead(buffer[current..]).value;
    }

    /** The event at the cursor with GetThreadId. */
    method GetVisit() returns (visit: Visit)
      requires Valid()
      ensures visit == visits[index]
    {
      var e := GetEvent();
      assert VisitAt(events, leftId, visits, index);
      visit := Visit(e, currentThreadId);
    }

    /** Moves to the next event if there is one, and then the cursor's thread id is the one a walk
        over all events holds there. */
    method Next() returns (ok: bool)
      requires Valid()
      modifies this
      ensures Valid()
      ensures events == old(events) && visits == old(visits) && buffer == old(buffer) && leftId == old(leftId)
      ensures ok <==> old(index) + 1 < |events|
      ensures index == if ok then old(index) + 1 else old(index)
    {
      ok := Advance();
      if ok {
        Arrive();
      }
    }

    /** The part of Next that looks up the thread. */
    method Arrive()
      requires AtEvent() && index > 0 && currentThreadId == visits[index - 1].threadId
      modifies this`currentThreadId
      ensures Valid()
    {
      UpdateThreadId();
      assert VisitAt(events, leftId, visits, index);
    }

    /** The part of Next that moves the cursor. */
    method Advance() returns (ok: bool)
      requires AtEvent()
      modifies this`current, this`index
      ensures AtEvent()
      ensures ok <==> old(index) + 1 < |events|
      ensures index == if ok then old(index) + 1 else old(index)
    {
      var e := GetEvent();
      EventAt(buffer, events, index);
      var bufferPosition := current + AlignUp(EVENT_HEADER_SIZE + |e.payload|);
      if bufferPosition < |buffer| {
        current := bufferPosition;
        index := index + 1;
        return true;
      }
      return false;
    }

    /** Reads the header at the cursor; only a prolog's hash makes it look at the 8 bytes behind it. */
    method UpdateThreadId()
      requires AtEvent()
      modifies this`currentThreadId
      ensures currentThreadId == ThreadAfter(events[index..], [], old(currentThreadId))
    {
      var e := GetEvent();
      if e.id == PROLOG_HASH {
        NumberAt(buffer, events, index, currentThreadId);
        currentThreadId := ReadThreadId(buffer[current + EVENT_HEADER_SIZE..current + PROLOG_SIZE]);
      }
    }
  }

  /** A logger's file with at least one chunk reads back as its events, and can be read unless an empty
      event at its very end has the prolog's hash. */
  lemma LoggedFileIsWellFormed(chunks: seq<Chunk>)
    requires chunks != []
    ensures WellFormedLog(EncodeFile(chunks)) <==> Readable(FileEvents(chunks), [])
    ensures DecodeAll(EncodeFile(chunks)[LOG_HEADER_SIZE..]) == Some(FileEvents(chunks))
  {
    var events := FileEvents(chunks);
    DecodeAllOfEncodeAll(events);
    assert EncodeFile(chunks)[LOG_HEADER_SIZE..] == EncodeAll(events);
    assert events == ChunkEvents(chunks[0]) + FileEvents(chunks[1..]);
    assert EncodeAll(events) == Encode(events[0]) + EncodeAll(events[1..]);
  }

  /** The loop every client of the reader runs: look at the event under the cursor, then Next.
      On the file of a logger it sees exactly what the logger's chunks recorded, if and only if no
      recorded event passes for a prolog that names another thread. */
  method VisitAll(ghost chunks: seq<Chunk>, file: seq<byte>) returns (visits: seq<Visit>)
    requires file == EncodeFile(chunks) && chunks != [] && Readable(FileEvents(chunks), [])
    ensures visits == FileVisits(chunks) <==> NoFalsePrologs(chunks)
    ensures |visits| == |FileVisits(chunks)|
    ensures forall i :: 0 <= i < |visits| ==> visits[i].event == FileVisits(chunks)[i].event
  {
    LoggedFileIsWellFormed(chunks);
    WalkNamesRecorders(chunks, 0);
    VisitedEvents(chunks);
    visits := VisitLog(file);
  }

  lemma {:induction false} VisitedEvents(chunks: seq<Chunk>)
    ensures |FileVisits(chunks)| == |FileEvents(chunks)|
    ensures forall i :: 0 <= i < |FileEvents(chunks)| ==> FileVisits(chunks)[i].event == FileEvents(chunks)[i]
  {
    if chunks != [] {
      VisitedEvents(chunks[1..]);
    }
  }

  method VisitLog(file: seq<byte>) returns (visits: seq<Visit>)
    requires WellFormedLog(file)
    ensures visits == Walk(DecodeAll(file[LOG_HEADER_SIZE..]).value, [], 0)
  {
    var reader := new EventLogReader();
    var ok := reader.ReadLog(Some(file), |file|);
    visits := VisitRest(reader);
  }

  /** From the first event on. */
  method VisitRest(reader: EventLogReader) returns (visits: seq<Visit>)
    requires reader.Valid() && reader.index == 0
    modifies reader
    ensures visits == old(reader.visits)
  {
    ghost var walk := reader.visits;
    var more := true;
    visits := [];
    while more
      invariant reader.Valid() && reader.visits == walk
      invariant |visits| == if more then reader.index else |walk|
      invariant visits == walk[..|visits|]
      decreases |walk| - |visits|
    {
      var visit := reader.GetVisit();
      TakeOneMore(walk, |visits|);
      visits := visits + [visit];
      more := reader.Next();
    }
  }
}
