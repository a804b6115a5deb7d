/** The file of a run: its bytes, what the reader makes of them, and the order of its chunks. */
module EventLoggerFile {
  import opened Bytes
  import opened Wrappers
  import opened Seqs
  import opened EventLogFormat
  import opened LocalFileEventLogger
  import opened EventLoggerBuffers
  import opened EventLoggerEvents
  import opened EventLoggerRuns
  import EventLogReader

  // ---------- bytes ----------

  function ChunkOf(b: Buffer): Chunk {
    Chunk(b.threadId, Plain(b.events))
  }

  function FileChunks(s: State): (r: seq<Chunk>)
    ensures |r| == |s.file|
    ensures forall c :: 0 <= c < |r| ==> r[c] == ChunkOf(s.file[c])
  {
    seq(|s.file|, c requires 0 <= c < |s.file| => ChunkOf(s.file[c]))
  }

  /** The bytes of the log file: what Start wrote and every chunk since. */
  function FileBytes(s: State): seq<byte> {
    EncodeFile(FileChunks(s))
  }

  /** A step that writes a buffer appends to the file exactly the bytes that
      ThreadData.WriteCacheToDisk hands to the file; the others leave the file alone. */
  lemma WritesAppendBytes(s: State, s': State, b: BufferId)
    requires Wrote(s, s', b)
    ensures FileBytes(s') == FileBytes(s) + EncodeAll(ChunkEvents(ChunkOf(s.heap[b])))
  {
    assert FileChunks(s') == FileChunks(s) + [ChunkOf(s.heap[b])];
    EncodeFileAppend(FileChunks(s), ChunkOf(s.heap[b]));
  }

  /** Reading the file of any run: the reader visits, chunk by chunk, the prolog and the events in
      record order under the chunk's thread number, although the buffers wander between threads - if
      and only if no recorded event passes for a prolog that names another thread. */
  lemma ReaderVisitsChunks(s: State)
    requires s.file != []
    ensures EventLogReader.WellFormedLog(FileBytes(s)) <==> Readable(FileEvents(FileChunks(s)), [])
    ensures EventLogReader.WellFormedLog(FileBytes(s)) ==>
              (Walk(DecodeAll(FileBytes(s)[LOG_HEADER_SIZE..]).value, [], 0) == FileVisits(FileChunks(s))
               <==> NoFalsePrologs(FileChunks(s)))
  {
    EventLogReader.LoggedFileIsWellFormed(FileChunks(s));
    if Readable(FileEvents(FileChunks(s)), []) {
      WalkNamesRecorders(FileChunks(s), 0);
    }
  }

  ghost predicate NoEventNamedProlog(s: State) {
    forall c, k | 0 <= c < |s.file| && 0 <= k < |s.file[c].events| :: s.file[c].events[k].event.id != PROLOG_HASH
  }

  /** In particular the reader gets it right if no event is recorded under the prolog's name. */
  lemma NoImpostors(s: State)
    requires s.file != [] && NoEventNamedProlog(s)
    ensures Readable(FileEvents(FileChunks(s)), []) && NoFalsePrologs(FileChunks(s))
  {
    forall i | 0 <= i < |FileChunks(s)|
      ensures NoFalseProlog(FileChunks(s)[i].events, FileChunks(s)[i].threadId,
                            EncodeAll(FileEvents(FileChunks(s)[i + 1..])))
    {
      forall k | 0 <= k < |FileChunks(s)[i].events|
        ensures FileChunks(s)[i].events[k].id != PROLOG_HASH
      {
        assert FileChunks(s)[i].events[k] == s.file[i].events[k].event;
      }
    }
    LastOfFile(FileChunks(s));
    var last := |s.file| - 1;
    var events := FileChunks(s)[last].events;
    if events != [] {
      assert events[|events| - 1] == s.file[last].events[|events| - 1].event;
    }
  }

  /** The last event of a file is the last of its last chunk, or that chunk's prolog. */
  lemma LastOfFile(chunks: seq<Chunk>)
    requires chunks != []
    ensures var events, last := FileEvents(chunks), chunks[|chunks| - 1];
            && events != []
            && events[|events| - 1]
               == if last.events == [] then PrologEvent(last.threadId) else last.events[|last.events| - 1]
  {
    var last := |chunks| - 1;
    TakeOneMore(chunks, last);
    assert chunks[..last] + [chunks[last]] == chunks;
    FileEventsAppend(chunks[..last], [chunks[last]]);
    assert FileEvents([chunks[last]]) == ChunkEvents(chunks[last]) + FileEvents([]);
  }

  /** And that number names the thread that recorded the event. */
  lemma ReaderNamesRecorder(hash: ThreadId -> u64, run: seq<State>, steps: seq<Step>, i: nat, c: nat, k: nat)
    requires IsRun(hash, run, steps) && i < |run| && c < |run[i].file| && k < |run[i].file[c].events|
    ensures var r, visits := run[i].file[c].events[k], ChunkVisits(FileChunks(run[i])[c]);
            k + 1 < |visits| && visits[k + 1] == Visit(r.event, hash(r.thread))
  {
    FileHoldsCommittedEvents(hash, run, steps, i, c, k);
    VisitOfEvent(ChunkOf(run[i].file[c]), k);
  }

  lemma VisitOfEvent(c: Chunk, k: nat)
    requires k < |c.events|
    ensures k + 1 < |ChunkVisits(c)| && ChunkVisits(c)[k + 1] == Visit(c.events[k], c.threadId)
  {
    assert ChunkEvents(c)[k + 1] == c.events[k];
  }

  // ---------- the order of a thread's chunks ----------

  /** Chunk b comes after chunk a as far as one thread's numbering goes. */
  predicate InOrder(a: Buffer, b: Buffer) {
    a.events != [] && b.events != [] && a.events[0].thread == b.events[0].thread ==>
      a.events[0].no < b.events[0].no
  }

  /** Every thread's chunks stand in the file in the order the thread recorded them. */
  ghost predicate FileOrdered(s: State) {
    forall c, d :: 0 <= c < d < |s.file| ==> InOrder(s.file[c], s.file[d])
  }

  /** The buffer about to be written was overtaken: its thread, recording into the replacement,
      filled that and wrote it in the window between the swap and the write. */
  ghost predicate Overtaken(s: State) {
    CanFlushWrite(s) && Behind(s.file, s.heap[s.flush.pc.taken])
  }

  ghost predicate Behind(file: seq<Buffer>, b: Buffer) {
    exists c :: 0 <= c < |file| && !InOrder(file[c], b)
  }

  lemma BehindMore(file: seq<Buffer>, x: Buffer, b: Buffer)
    ensures Behind(file + [x], b) <==> Behind(file, b) || !InOrder(x, b)
  {
    var more := file + [x];
    if Behind(file, b) {
      var c :| 0 <= c < |file| && !InOrder(file[c], b);
      assert !InOrder(more[c], b);
    }
    if !InOrder(x, b) {
      assert !InOrder(more[|file|], b);
    }
  }

  /** Positions outside a buffer hold no event of the stretch the buffer holds. */
  lemma OutsideRun(s: State, p: Position, b: BufferId)
    requires EventsOk(s) && Find(s, p).Some? && b in s.heap && s.heap[b].events != []
    requires Contiguous(s.heap[b].events) && !(p.InBuffer? && p.buffer == b)
    requires Find(s, p).value.thread == s.heap[b].events[0].thread
    ensures var first := s.heap[b].events[0].no;
            Find(s, p).value.no < first || first + |s.heap[b].events| <= Find(s, p).value.no
  {
    var r, events := Find(s, p).value, s.heap[b].events;
    if events[0].no <= r.no < events[0].no + |events| {
      var q := InBuffer(b, r.no - events[0].no);
      assert Find(s, q).Some? && Key(Find(s, q).value) == Key(r);
      FoundOnce(s, p);
      assert false;
    }
  }

  /** An event of a thread that is in the file is older than all in the thread's own buffer. */
  lemma FileIsOlderThanOwn(hash: ThreadId -> u64, s: State, t: ThreadId, c: nat)
    requires EventsOk(s) && t in s.storages && OwnBufferOk(hash, s, t) && !HasOpenEvent(s, t)
    requires c < |s.file| && ChunkOk(hash, s, s.file[c])
    ensures InOrder(s.file[c], s.heap[Own(s, t).value])
  {
    var a, b := s.file[c], s.heap[Own(s, t).value];
    if a.events != [] && b.events != [] && a.events[0].thread == b.events[0].thread {
      OutsideRun(s, InFile(c, 0), Own(s, t).value);
    }
  }

  lemma AppendingInOrder(s: State, s': State, b: Buffer)
    requires FileOrdered(s) && s'.file == s.file + [b]
    ensures FileOrdered(s') <==> !Behind(s.file, b)
  {
    if FileOrdered(s') {
      forall c | 0 <= c < |s.file|
        ensures InOrder(s.file[c], b)
      {
        assert InOrder(s'.file[c], s'.file[|s.file|]);
      }
    }
  }

  lemma OwnWriteKeepsOrder(hash: ThreadId -> u64, s: State, s': State, t: ThreadId)
    requires EventsOk(s) && BuffersOk(hash, s) && FileOrdered(s)
    requires t in s.storages && Own(s, t).Some? && Wrote(s, s', Own(s, t).value) && !HasOpenEvent(s, t)
    ensures FileOrdered(s')
  {
    assert OwnBufferOk(hash, s, t);
    forall c | 0 <= c < |s.file|
      ensures InOrder(s.file[c], s.heap[Own(s, t).value])
    {
      assert ChunkOk(hash, s, s.file[c]);
      FileIsOlderThanOwn(hash, s, t, c);
    }
    AppendingInOrder(s, s', s.heap[Own(s, t).value]);
  }

  lemma StepOrder(hash: ThreadId -> u64, s: State, step: Step)
    requires EventsOk(s) && StoragesOk(s) && BuffersOk(hash, s) && FileOrdered(s) && Enabled(s, step)
    ensures FileOrdered(Do(hash, s, step)) <==> !(step.FlushWrite? && Overtaken(s))
  {
    if step.FlushWrite? {
      AppendingInOrder(s, DoFlushWrite(s), s.heap[s.flush.pc.taken]);
    } else if step.BeginMakeRoom? {
      MakeRoomOrder(hash, s, step.t);
    } else if step.Exit? {
      ExitOrder(hash, s, step.t);
    } else {
      QuietFile(hash, s, step);
    }
  }

  lemma ExitOrder(hash: ThreadId -> u64, s: State, t: ThreadId)
    requires EventsOk(s) && BuffersOk(hash, s) && FileOrdered(s) && CanExit(s, t)
    ensures FileOrdered(DoExit(s, t))
  {
    OwnWriteKeepsOrder(hash, s, DoExit(s, t), t);
  }

  lemma MakeRoomOrder(hash: ThreadId -> u64, s: State, t: ThreadId)
    requires EventsOk(s) && StoragesOk(s) && BuffersOk(hash, s) && FileOrdered(s) && CanMakeRoom(s, t)
    ensures FileOrdered(DoMakeRoom(s, t))
  {
    assert StorageOk(s.storages[t]);
    var s' := DoMakeRoom(s, t);
    if s'.file != s.file {
      assert Wrote(s, s', Own(s, t).value);
      OwnWriteKeepsOrder(hash, s, s', t);
    }
  }

  lemma QuietFile(hash: ThreadId -> u64, s: State, step: Step)
    requires Enabled(s, step) && !step.FlushWrite? && !step.BeginMakeRoom? && !step.Exit?
    ensures Do(hash, s, step).file == s.file
  {
  }

  lemma FileOnlyGrows(hash: ThreadId -> u64, s: State, step: Step)
    requires Enabled(s, step)
    ensures s.file <= Do(hash, s, step).file
  {
  }

  /** What one step does to the order of the file. */
  lemma OrderStep(hash: ThreadId -> u64, s: State, step: Step)
    requires EventsOk(s) && StoragesOk(s) && BuffersOk(hash, s) && Enabled(s, step)
    ensures FileOrdered(Do(hash, s, step)) <==> FileOrdered(s) && !(step.FlushWrite? && Overtaken(s))
  {
    if FileOrdered(s) {
      StepOrder(hash, s, step);
    } else {
      var s' := Do(hash, s, step);
      FileOnlyGrows(hash, s, step);
      var c, d :| 0 <= c < d < |s.file| && !InOrder(s.file[c], s.file[d]);
      assert s'.file[c] == s.file[c] && s'.file[d] == s.file[d];
    }
  }

  lemma OrderAt(hash: ThreadId -> u64, run: seq<State>, steps: seq<Step>, i: nat)
    requires IsRun(hash, run, steps) && i < |steps|
    ensures FileOrdered(run[i + 1]) <==> FileOrdered(run[i]) && !(steps[i].FlushWrite? && Overtaken(run[i]))
  {
    RunsKeepInv(hash, run, steps, i);
    assert IsStep(hash, run[i], steps[i], run[i + 1]);
    OrderStep(hash, run[i], steps[i]);
  }

  lemma {:induction false} KeptUnlessBroken(kept: nat -> bool, broken: nat -> bool, n: nat)
    requires kept(0) && forall i :: 0 <= i < n ==> (kept(i + 1) <==> kept(i) && !broken(i))
    ensures kept(n) <==> forall i :: 0 <= i < n ==> !broken(i)
  {
    if n > 0 {
      KeptUnlessBroken(kept, broken, n - 1);
    }
  }

  /** In every run: each thread's chunks end up in the file in the order the thread recorded them
      exactly when no buffer a flush took was overtaken before the flush wrote it. */
  lemma FileOrderIsKeptUnlessOvertaken(hash: ThreadId -> u64, run: seq<State>, steps: seq<Step>, n: nat)
    requires IsRun(hash, run, steps) && n < |run|
    ensures FileOrdered(run[n]) <==> forall i :: 0 <= i < n ==> !(steps[i].FlushWrite? && Overtaken(run[i]))
  {
    ghost var kept := (i: nat) => i < |run| && FileOrdered(run[i]);
    ghost var broken := (i: nat) => i < |steps| && steps[i].FlushWrite? && Overtaken(run[i]);
    forall i | 0 <= i < n
      ensures kept(i + 1) <==> kept(i) && !broken(i)
    {
      OrderAt(hash, run, steps, i);
    }
    KeptUnlessBroken(kept, broken, n);
    assert forall i :: 0 <= i < n ==> broken(i) == (steps[i].FlushWrite? && Overtaken(run[i]));
  }

  // ---------- when a buffer is overtaken ----------

  /** Not at the swap. */
  lemma NotOvertakenAtSwap(hash: ThreadId -> u64, s: State)
    requires EventsOk(s) && StoragesOk(s) && BuffersOk(hash, s) && CanFlushSwap(s)
    ensures !Overtaken(DoFlushSwap(s))
  {
    var s', t := DoFlushSwap(s), s.blocks[s.flush.pc.i];
    assert OwnBufferOk(hash, s, t) && StorageOk(s.storages[t]);
    forall c | 0 <= c < |s.file| && Own(s, t) == s.storages[t].data
      ensures InOrder(s.file[c], s.heap[Own(s, t).value])
    {
      assert ChunkOk(hash, s, s.file[c]);
      FileIsOlderThanOwn(hash, s, t, c);
    }
  }

  /** A write of thread t's own buffer in the window overtakes, if both buffers hold events. */
  lemma OwnIsNewerThanTaken(hash: ThreadId -> u64, s: State, t: ThreadId)
    requires EventsOk(s) && OnePlaceEach(s) && CanFlushWrite(s)
    requires t in s.storages && OwnBufferOk(hash, s, t) && !HasOpenEvent(s, t)
    requires var taken, own := s.heap[s.flush.pc.taken], s.heap[Own(s, t).value];
             && taken.events != [] && own.events != [] && taken.events[0].thread == t
             && taken.events[0].no < |LogOf(s, t)|
    ensures !InOrder(s.heap[Own(s, t).value], s.heap[s.flush.pc.taken])
  {
    FlusherIsApart(s);
    assert Find(s, InBuffer(s.flush.pc.taken, 0)) == Some(s.heap[s.flush.pc.taken].events[0]);
    OutsideRun(s, InBuffer(s.flush.pc.taken, 0), Own(s, t).value);
  }

  /** The overtaking moves: the thread whose buffer the flush holds makes room by writing events. */
  predicate Overtakes(s: State, step: Step) {
    && CanFlushWrite(s) && step.BeginMakeRoom? && CanMakeRoom(s, step.t)
    && var taken, own := s.heap[s.flush.pc.taken].events, s.heap[s.storages[step.t].pc.buffer].events;
       && taken != [] && own != [] && taken[0].thread == step.t
       && DoMakeRoom(s, step.t).file != s.file
  }

  /** While the flush holds a swapped buffer it has not written, that buffer becomes overtaken by
      exactly one kind of step, and never stops being so. */
  lemma OvertakenExactlyByOvertaking(hash: ThreadId -> u64, s: State, step: Step)
    requires Inv(hash, s) && Enabled(s, step) && CanFlushWrite(s) && !step.FlushWrite?
    ensures Overtaken(Do(hash, s, step)) <==> Overtaken(s) || Overtakes(s, step)
  {
    if step.BeginMakeRoom? {
      MakeRoomOvertakes(hash, s, step.t);
    } else {
      TakenStays(hash, s, step);
    }
  }

  /** A recorder's step leaves the buffer in the flusher's hands alone. */
  lemma TakenUntouched(hash: ThreadId -> u64, s: State, step: Step)
    requires OnePlaceEach(s) && IsRecorderStep(step) && Enabled(s, step) && CanFlushWrite(s)
    requires StorageOk(s.storages[step.t])
    ensures var s' := Do(hash, s, step);
            CanFlushWrite(s') && s'.flush == s.flush && s'.heap[s.flush.pc.taken] == s.heap[s.flush.pc.taken]
  {
    FlusherIsApart(s);
    RecorderStepIsGood(hash, s, step);
  }

  lemma TakenStays(hash: ThreadId -> u64, s: State, step: Step)
    requires OnePlaceEach(s) && StoragesOk(s)
    requires Enabled(s, step) && CanFlushWrite(s) && !step.FlushWrite? && !step.BeginMakeRoom?
    ensures Overtaken(Do(hash, s, step)) <==> Overtaken(s)
  {
    assert IsRecorderStep(step);
    TakenUntouched(hash, s, step);
    QuietFile(hash, s, step);
  }

  lemma MakeRoomOvertakes(hash: ThreadId -> u64, s: State, t: ThreadId)
    requires EventsOk(s) && OnePlaceEach(s) && StoragesOk(s) && BuffersOk(hash, s)
    requires CanMakeRoom(s, t) && CanFlushWrite(s)
    ensures Overtaken(DoMakeRoom(s, t)) <==> Overtaken(s) || Overtakes(s, BeginMakeRoom(t))
  {
    var s', b, taken := DoMakeRoom(s, t), s.storages[t].pc.buffer, s.heap[s.flush.pc.taken];
    TakenUntouched(hash, s, BeginMakeRoom(t));
    if s'.file != s.file {
      assert s'.file == s.file + [s.heap[b]];
      BehindMore(s.file, s.heap[b], taken);
      if Overtakes(s, BeginMakeRoom(t)) {
        MakeRoomIsNewer(hash, s, t);
      } else {
        MakeRoomOfAnother(hash, s, t);
      }
    }
  }

  lemma MakeRoomIsNewer(hash: ThreadId -> u64, s: State, t: ThreadId)
    requires EventsOk(s) && OnePlaceEach(s) && StoragesOk(s) && BuffersOk(hash, s)
    requires Overtakes(s, BeginMakeRoom(t))
    ensures !InOrder(s.heap[s.storages[t].pc.buffer], s.heap[s.flush.pc.taken])
  {
    assert StorageOk(s.storages[t]) && OwnBufferOk(hash, s, t) && FlusherBufferOk(hash, s);
    OwnIsNewerThanTaken(hash, s, t);
  }

  lemma MakeRoomOfAnother(hash: ThreadId -> u64, s: State, t: ThreadId)
    requires StoragesOk(s) && BuffersOk(hash, s) && CanMakeRoom(s, t) && CanFlushWrite(s)
    requires DoMakeRoom(s, t).file != s.file && !Overtakes(s, BeginMakeRoom(t))
    ensures InOrder(s.heap[s.storages[t].pc.buffer], s.heap[s.flush.pc.taken])
  {
    assert StorageOk(s.storages[t]) && OwnBufferOk(hash, s, t);
  }
}
