/** Every step keeps what the buffers and chunks hold: consecutive events of the owning thread,
    under its number, within the buffer's size. */
module EventLoggerBuffers {
  import opened Bytes
  import opened Wrappers
  import opened LocalFileEventLogger
  import opened EventLoggerPlaces

  /** A thread's own buffer and nothing of other threads or of the flusher. */
  lemma OwnIsApart(s: State, t: ThreadId)
    requires OnePlaceEach(s) && Own(s, t).Some?
    ensures Own(s, t).value in s.heap
    ensures forall u :: u != t ==> Own(s, u) != Own(s, t)
    ensures At(s, Flusher) != Own(s, t)
  {
    var p := if At(s, Slot(t)).Some? then Slot(t) else Hand(t);
    PlaceHoldsLiveBuffer(s, p);
  }

  /** A step that may change thread t's buffer and what t has begun, nothing else but the log of t
      and chunks added at the end of the file. */
  ghost predicate Confined(s: State, s': State, t: ThreadId) {
    && s'.storages.Keys == s.storages.Keys && s'.blocks == s.blocks && s'.flush == s.flush
    && (forall u :: u != t ==> Own(s', u) == Own(s, u))
    && (forall u :: u in s.storages && u != t ==> s'.storages[u] == s.storages[u])
    && (forall u :: u != t ==> LogOf(s', u) == LogOf(s, u) && HasOpenEvent(s', u) == HasOpenEvent(s, u))
    && Own(s', t) == Own(s, t)
    && |LogOf(s', t)| >= |LogOf(s, t)|
    && s'.heap.Keys == s.heap.Keys
    && (forall b :: b in s.heap && Some(b) != Own(s, t) ==> s'.heap[b] == s.heap[b])
  }

  lemma ConfinedKeeps(hash: ThreadId -> u64, s: State, s': State, t: ThreadId)
    requires OnePlaceEach(s) && BuffersOk(hash, s) && t in s.storages
    requires Confined(s, s', t)
    requires OwnBufferOk(hash, s', t)
    requires |s.file| <= |s'.file| && s'.file[..|s.file|] == s.file
    requires forall c :: |s.file| <= c < |s'.file| ==> ChunkOk(hash, s', s'.file[c])
    ensures BuffersOk(hash, s')
  {
    OwnIsApart(s, t);
    forall u | u in s'.storages
      ensures OwnBufferOk(hash, s', u)
    {
      assert OwnBufferOk(hash, s, u);
      if u != t {
        assert Own(s, u) != Own(s, t);
      }
    }
    forall c | 0 <= c < |s'.file|
      ensures ChunkOk(hash, s', s'.file[c])
    {
      if c < |s.file| {
        assert s'.file[c] == s.file[c];
        ChunkStaysOk(hash, s, s', s.file[c]);
      }
    }
    FlusherStaysOk(hash, s, s', t);
  }

  lemma ChunkStaysOk(hash: ThreadId -> u64, s: State, s': State, c: Buffer)
    requires ChunkOk(hash, s, c)
    requires forall u :: |LogOf(s', u)| >= |LogOf(s, u)|
    ensures ChunkOk(hash, s', c)
  {
  }

  lemma FlusherStaysOk(hash: ThreadId -> u64, s: State, s': State, t: ThreadId)
    requires FlusherBufferOk(hash, s) && Confined(s, s', t)
    requires At(s, Flusher) != Own(s, t)
    ensures FlusherBufferOk(hash, s')
  {
    if s.flush.On? && s.flush.pc.Write? {
      ChunkStaysOk(hash, s, s', s.heap[s.flush.pc.taken]);
    }
  }

  /** The buffer of a thread with no event open is a chunk in the making. */
  lemma OwnBufferIsChunk(hash: ThreadId -> u64, s: State, t: ThreadId)
    requires OwnBufferOk(hash, s, t) && !HasOpenEvent(s, t)
    ensures ChunkOk(hash, s, s.heap[Own(s, t).value])
  {
  }

  /** A confined step that keeps the thread's buffer as it should be and adds only good chunks. */
  ghost predicate GoodStep(hash: ThreadId -> u64, s: State, s': State, t: ThreadId) {
    && t in s.storages && Confined(s, s', t)
    && (OwnBufferOk(hash, s, t) ==> OwnBufferOk(hash, s', t))
    && |s.file| <= |s'.file| && s'.file[..|s.file|] == s.file
    && (OwnBufferOk(hash, s, t) ==> forall c :: |s.file| <= c < |s'.file| ==> ChunkOk(hash, s', s'.file[c]))
  }

  lemma QuietRecorderSteps(hash: ThreadId -> u64, s: State, t: ThreadId)
    requires t in s.storages && StorageOk(s.storages[t])
    ensures forall request :: CanBeginLoad(s, t) ==> GoodStep(hash, s, DoBeginLoad(s, t, request), t)
    ensures CanEndClear(s, t) ==> GoodStep(hash, s, DoEndClear(s, t), t)
  {
  }

  lemma ClaimBuffers(hash: ThreadId -> u64, s: State, t: ThreadId)
    requires t in s.storages && StorageOk(s.storages[t]) && CanBeginClaim(s, t)
    ensures GoodStep(hash, s, DoBeginClaim(s, t), t)
  {
  }

  lemma MakeRoomBuffers(hash: ThreadId -> u64, s: State, t: ThreadId)
    requires t in s.storages && StorageOk(s.storages[t]) && CanMakeRoom(s, t)
    ensures GoodStep(hash, s, DoMakeRoom(s, t), t)
  {
  }

  lemma AppendBuffers(hash: ThreadId -> u64, s: State, t: ThreadId, payload: seq<byte>, padding: seq<byte>)
    requires t in s.storages && StorageOk(s.storages[t]) && CanAppend(s, t, payload, padding)
    ensures GoodStep(hash, s, DoAppend(s, t, payload, padding), t)
  {
  }

  lemma FillBuffers(hash: ThreadId -> u64, s: State, t: ThreadId, payload: seq<byte>)
    requires t in s.storages && StorageOk(s.storages[t]) && CanFill(s, t, payload)
    ensures GoodStep(hash, s, DoFill(s, t, payload), t)
  {
  }

  lemma CommitBuffers(hash: ThreadId -> u64, s: State, t: ThreadId)
    requires t in s.storages && StorageOk(s.storages[t]) && CanCommit(s, t)
    ensures GoodStep(hash, s, DoCommit(s, t), t)
  {
  }

  lemma GoodStepKeeps(hash: ThreadId -> u64, s: State, s': State, t: ThreadId)
    requires OnePlaceEach(s) && BuffersOk(hash, s) && GoodStep(hash, s, s', t)
    ensures BuffersOk(hash, s')
  {
    ConfinedKeeps(hash, s, s', t);
  }

  // ---------- registering, exiting, flushing ----------

  lemma RegisterBuffers(hash: ThreadId -> u64, s: State, t: ThreadId, b: BufferId)
    requires OnePlaceEach(s) && StoragesOk(s) && RegisteredOk(s) && BuffersOk(hash, s) && CanRegister(s, t, b)
    ensures BuffersOk(hash, DoRegister(hash, s, t, b))
  {
    var s' := DoRegister(hash, s, t, b);
    assert OwnBufferOk(hash, s', t);
    forall u | u in s.storages
      ensures OwnBufferOk(hash, s', u)
    {
      assert OwnBufferOk(hash, s, u);
    }
    forall c | 0 <= c < |s'.file|
      ensures ChunkOk(hash, s', s'.file[c])
    {
      ChunkStaysOk(hash, s, s', s.file[c]);
    }
  }

  /** A step after which every thread in `ts` has the buffer it had, holding what it held. */
  ghost predicate OwnersUntouched(s: State, s': State, ts: set<ThreadId>) {
    && ts <= s.storages.Keys && ts <= s'.storages.Keys
    && s'.log == s.log
    && (forall u :: u in ts ==>
          && Own(s', u) == Own(s, u) && HasOpenEvent(s', u) == HasOpenEvent(s, u)
          && (Own(s, u).Some? && Own(s, u).value in s.heap ==>
                Own(s, u).value in s'.heap && s'.heap[Own(s, u).value] == s.heap[Own(s, u).value]))
  }

  lemma UntouchedStayOk(hash: ThreadId -> u64, s: State, s': State, ts: set<ThreadId>)
    requires BuffersOk(hash, s) && OwnersUntouched(s, s', ts)
    ensures forall u :: u in ts ==> OwnBufferOk(hash, s', u)
    ensures forall c :: 0 <= c < |s.file| ==> ChunkOk(hash, s', s.file[c])
  {
    forall u | u in ts
      ensures OwnBufferOk(hash, s', u)
    {
      assert OwnBufferOk(hash, s, u);
    }
    forall c | 0 <= c < |s.file|
      ensures ChunkOk(hash, s', s.file[c])
    {
      ChunkStaysOk(hash, s, s', s.file[c]);
    }
  }

  lemma ExitBuffers(hash: ThreadId -> u64, s: State, t: ThreadId)
    requires OnePlaceEach(s) && BuffersOk(hash, s) && CanExit(s, t)
    ensures BuffersOk(hash, DoExit(s, t))
  {
    var s', b := DoExit(s, t), s.storages[t].data.value;
    assert OwnBufferOk(hash, s, t);
    OwnIsApart(s, t);
    OwnBufferIsChunk(hash, s, t);
    ChunkStaysOk(hash, s, s', s.heap[b]);
    ExitTouchesOwn(s, t);
    UntouchedStayOk(hash, s, s', s'.storages.Keys);
    assert s'.file == s.file + [s.heap[b]];
  }

  lemma ExitTouchesOwn(s: State, t: ThreadId)
    requires CanExit(s, t)
    requires forall u :: u != t ==> Own(s, u) != Own(s, t)
    ensures OwnersUntouched(s, DoExit(s, t), DoExit(s, t).storages.Keys)
  {
  }

  lemma FlushStartBuffers(hash: ThreadId -> u64, s: State, b: BufferId)
    requires BuffersOk(hash, s) && CanFlushStart(s, b)
    ensures BuffersOk(hash, DoFlushStart(s, b))
  {
    UntouchedStayOk(hash, s, DoFlushStart(s, b), s.storages.Keys);
  }

  lemma FlushLoopBuffers(hash: ThreadId -> u64, s: State)
    requires BuffersOk(hash, s)
    ensures CanFlushScan(s) ==> BuffersOk(hash, DoFlushScan(s))
    ensures CanFlushRound(s, false) ==> BuffersOk(hash, DoFlushAgain(s))
  {
    if CanFlushScan(s) {
      UntouchedStayOk(hash, s, DoFlushScan(s), s.storages.Keys);
    }
    if CanFlushRound(s, false) {
      UntouchedStayOk(hash, s, DoFlushAgain(s), s.storages.Keys);
    }
  }

  /** The flusher's buffer is no thread's. */
  lemma FlusherIsApart(s: State)
    requires OnePlaceEach(s) && s.flush.On?
    ensures At(s, Flusher).value in s.heap
    ensures forall u :: Own(s, u) != At(s, Flusher)
  {
    PlaceHoldsLiveBuffer(s, Flusher);
  }

  lemma FlushStampBuffers(hash: ThreadId -> u64, s: State)
    requires OnePlaceEach(s) && BuffersOk(hash, s) && CanFlushStamp(s)
    requires s.flush.pc.i < |s.blocks| && s.blocks[s.flush.pc.i] in s.storages
    requires Own(s, s.blocks[s.flush.pc.i]) == Some(s.flush.pc.expected)
    ensures BuffersOk(hash, DoFlushStamp(s))
  {
    FlusherIsApart(s);
    assert OwnBufferOk(hash, s, s.blocks[s.flush.pc.i]);
    UntouchedStayOk(hash, s, DoFlushStamp(s), s.storages.Keys);
  }

  lemma FlushSwapBuffers(hash: ThreadId -> u64, s: State)
    requires OnePlaceEach(s) && StoragesOk(s) && BuffersOk(hash, s) && CanFlushSwap(s)
    ensures BuffersOk(hash, DoFlushSwap(s))
  {
    var s', t := DoFlushSwap(s), s.blocks[s.flush.pc.i];
    assert OwnBufferOk(hash, s, t);
    if s.storages[t].data == Some(s.flush.pc.expected) {
      FlusherIsApart(s);
      UntouchedStayOk(hash, s, s', s.storages.Keys - {t});
      OwnBufferIsChunk(hash, s, t);
      assert OwnBufferOk(hash, s', t);
      assert forall u :: u in s'.storages ==> u == t || u in s.storages.Keys - {t};
    } else {
      UntouchedStayOk(hash, s, s', s.storages.Keys);
    }
  }

  lemma FlushWriteBuffers(hash: ThreadId -> u64, s: State)
    requires OnePlaceEach(s) && BuffersOk(hash, s) && CanFlushWrite(s)
    ensures BuffersOk(hash, DoFlushWrite(s))
  {
    FlusherIsApart(s);
    FlushWriteTouchesTaken(s);
    UntouchedStayOk(hash, s, DoFlushWrite(s), s.storages.Keys);
    ChunkStaysOk(hash, s, DoFlushWrite(s), s.heap[s.flush.pc.taken]);
    assert DoFlushWrite(s).file == s.file + [s.heap[s.flush.pc.taken]];
  }

  lemma FlushWriteTouchesTaken(s: State)
    requires CanFlushWrite(s) && forall u :: Own(s, u) != At(s, Flusher)
    ensures OwnersUntouched(s, DoFlushWrite(s), s.storages.Keys)
  {
  }

  lemma FlushEndBuffers(hash: ThreadId -> u64, s: State)
    requires OnePlaceEach(s) && BuffersOk(hash, s) && CanFlushRound(s, true)
    ensures BuffersOk(hash, DoFlushEnd(s))
  {
    FlusherIsApart(s);
    UntouchedStayOk(hash, s, DoFlushEnd(s), s.storages.Keys);
  }

  predicate IsRecorderStep(step: Step) {
    step.BeginLoad? || step.BeginClaim? || step.BeginMakeRoom? || step.BeginAppend? || step.Fill?
    || step.EndCommit? || step.EndClear?
  }

  lemma RecorderStepIsGood(hash: ThreadId -> u64, s: State, step: Step)
    requires IsRecorderStep(step) && Enabled(s, step) && StorageOk(s.storages[step.t])
    ensures GoodStep(hash, s, Do(hash, s, step), step.t)
  {
    match step
    case BeginMakeRoom(t) => MakeRoomBuffers(hash, s, t);
    case BeginAppend(t, payload, padding) => AppendBuffers(hash, s, t, payload, padding);
    case Fill(t, payload) => FillBuffers(hash, s, t, payload);
    case EndCommit(t) => CommitBuffers(hash, s, t);
    case BeginLoad(t, _) => QuietRecorderSteps(hash, s, t);
    case BeginClaim(t) => ClaimBuffers(hash, s, t);
    case EndClear(t) => QuietRecorderSteps(hash, s, t);
  }

  lemma RecorderBuffers(hash: ThreadId -> u64, s: State, step: Step)
    requires OnePlaceEach(s) && StoragesOk(s) && BuffersOk(hash, s)
    requires IsRecorderStep(step) && Enabled(s, step)
    ensures BuffersOk(hash, Do(hash, s, step))
  {
    RecorderStepIsGood(hash, s, step);
    GoodStepKeeps(hash, s, Do(hash, s, step), step.t);
  }

  lemma KeepsBuffersOk(hash: ThreadId -> u64, s: State, step: Step)
    requires OnePlaceEach(s) && StoragesOk(s) && RegisteredOk(s) && LoopOk(s.flush, |s.blocks|) && ExpectedOk(s)
    requires BuffersOk(hash, s) && Enabled(s, step)
    ensures BuffersOk(hash, Do(hash, s, step))
  {
    match step
    case Register(t, b) => RegisterBuffers(hash, s, t, b);
    case Exit(t) => ExitBuffers(hash, s, t);
    case FlushStart(b) => FlushStartBuffers(hash, s, b);
    case FlushScan => FlushLoopBuffers(hash, s);
    case FlushStamp => FlushStampBuffers(hash, s);
    case FlushSwap => FlushSwapBuffers(hash, s);
    case FlushWrite => FlushWriteBuffers(hash, s);
    case FlushAgain => FlushLoopBuffers(hash, s);
    case FlushEnd => FlushEndBuffers(hash, s);
    case _ => RecorderBuffers(hash, s, step);
  }
}
