/** What holds in every run of the logger: the main results. */
module EventLoggerRuns {
  import opened Bytes
  import opened Wrappers
  import opened LocalFileEventLogger
  import opened EventLoggerPlaces
  import opened EventLoggerThreads
  import opened EventLoggerBuffers
  import opened EventLoggerEvents
  import opened EventLoggerFlush

  /** A run: every interleaving of the steps of any number of threads and flushes. */
  ghost predicate IsRun(hash: ThreadId -> u64, run: seq<State>, steps: seq<Step>) {
    && |run| == |steps| + 1
    && run[0] == Init()
    && forall i :: 0 <= i < |steps| ==> IsStep(hash, run[i], steps[i], run[i + 1])
  }

  ghost predicate IsStep(hash: ThreadId -> u64, s: State, step: Step, s': State) {
    Enabled(s, step) && s' == Do(hash, s, step)
  }

  function Last(run: seq<State>): State
    requires run != []
  {
    run[|run| - 1]
  }

  lemma OneMore(hash: ThreadId -> u64, run: seq<State>, steps: seq<Step>, step: Step)
    returns (run': seq<State>, steps': seq<Step>)
    requires IsRun(hash, run, steps) && Enabled(Last(run), step)
    ensures run' == run + [Do(hash, Last(run), step)] && IsRun(hash, run', steps') && steps' == steps + [step]
  {
    run', steps' := run + [Do(hash, Last(run), step)], steps + [step];
    forall i | 0 <= i < |steps'|
      ensures IsStep(hash, run'[i], steps'[i], run'[i + 1])
    {
      if i < |steps| {
        assert IsStep(hash, run[i], steps[i], run[i + 1]);
      }
    }
  }

  lemma InitInv(hash: ThreadId -> u64)
    ensures Inv(hash, Init())
  {
    assert LocatedBy({}, LayoutOf(Init()), map[]);
    assert IndexedBy(ContentsOf(Init()), BegunOf(Init()), map[]);
  }

  lemma StepKeepsInv(hash: ThreadId -> u64, s: State, step: Step)
    requires Inv(hash, s) && Enabled(s, step)
    ensures Inv(hash, Do(hash, s, step))
  {
    KeepsOnePlaceEach(hash, s, step);
    KeepsThreadsOk(hash, s, step);
    KeepsBuffersOk(hash, s, step);
    KeepsEventsOk(hash, s, step);
    KeepsFlushProgress(hash, s, step);
    KeepsBuffersFit(hash, s, step);
  }

  lemma {:induction false} RunsKeepInv(hash: ThreadId -> u64, run: seq<State>, steps: seq<Step>, i: nat)
    requires IsRun(hash, run, steps) && i < |run|
    ensures Inv(hash, run[i])
  {
    if i == 0 {
      InitInv(hash);
    } else {
      RunsKeepInv(hash, run, steps, i - 1);
      assert IsStep(hash, run[i - 1], steps[i - 1], run[i]);
      StepKeepsInv(hash, run[i - 1], steps[i - 1]);
    }
  }

  // ---------- exclusive ownership ----------

  /** In every state of every run each live buffer is in exactly one place. */
  lemma EveryBufferHasOnePlace(hash: ThreadId -> u64, run: seq<State>, steps: seq<Step>, i: nat, b: BufferId)
    returns (p: Place)
    requires IsRun(hash, run, steps) && i < |run| && b in run[i].heap
    ensures At(run[i], p) == Some(b) && forall q :: At(run[i], q) == Some(b) ==> q == p
  {
    RunsKeepInv(hash, run, steps, i);
    p := BufferHasPlace(run[i], b);
    PlaceHoldsLiveBuffer(run[i], p);
  }

  /** What a recorder can do next, wherever it stands. */
  ghost predicate RecorderCanStep(s: State, t: ThreadId)
    requires t in s.storages
  {
    match s.storages[t].pc
    case Idle => CanBeginLoad(s, t) && (s.flush.Off? ==> CanExit(s, t))
    case Claiming(_, _) => CanBeginClaim(s, t) && s.storages[t].data.Some? && s.storages[t].data.value in s.heap
    case Claimed(_, _) => CanMakeRoom(s, t)
    case Ready(buffer, _) => buffer in s.heap
    case Open(_) => CanCommit(s, t) && DoCommit(s, t).storages[t].pc.Committed?
    case Committed => CanEndClear(s, t)
  }

  lemma RecorderSteps(hash: ThreadId -> u64, s: State, t: ThreadId)
    requires Inv(hash, s) && t in s.storages
    ensures RecorderCanStep(s, t)
  {
    assert StorageOk(s.storages[t]) && OwnBufferOk(hash, s, t);
  }

  /** No pointer a thread or the flusher is about to follow is null or dangling, and the exchange
      that ends an event succeeds at its first attempt: what the code relies on at each point. */
  lemma NoStepCanFail(hash: ThreadId -> u64, run: seq<State>, steps: seq<Step>, i: nat, t: ThreadId)
    requires IsRun(hash, run, steps) && i < |run| && t in run[i].storages
    ensures RecorderCanStep(run[i], t)
  {
    RunsKeepInv(hash, run, steps, i);
    RecorderSteps(hash, run[i], t);
  }

  /** What the flush loop can do next, wherever it stands. */
  ghost predicate FlusherCanStep(s: State)
    requires s.flush.On?
  {
    match s.flush.pc
    case Scan(k, all) => if k < |s.blocks| then CanFlushScan(s) else CanFlushRound(s, all)
    case Stamp(_, _, _) => CanFlushStamp(s)
    case Swap(_, _, _) => CanFlushSwap(s)
    case Write(_, _, _) => CanFlushWrite(s)
  }

  lemma FlusherSteps(hash: ThreadId -> u64, s: State)
    requires Inv(hash, s) && s.flush.On?
    ensures FlusherCanStep(s)
  {
    FlusherIsApart(s);
    if s.flush.pc.i < |s.blocks| {
      var t := s.blocks[s.flush.pc.i];
      assert t in s.storages && OwnBufferOk(hash, s, t);
    }
  }

  /** The flush loop can always take its next step: it never waits for a recorder to end its event, it
      only comes back to it in the next round.  EventLoggerGuards adds the lock around a write. */
  lemma FlushNeverBlocks(hash: ThreadId -> u64, run: seq<State>, steps: seq<Step>, i: nat)
    requires IsRun(hash, run, steps) && i < |run| && run[i].flush.On?
    ensures FlusherCanStep(run[i])
  {
    RunsKeepInv(hash, run, steps, i);
    FlusherSteps(hash, run[i]);
  }

  // ---------- conservation ----------

  /** Every event a thread has committed is in exactly one position, in the file or in a live
      buffer, under its own number and unchanged: none lost, none doubled. */
  lemma CommittedEventsAreKept(hash: ThreadId -> u64, run: seq<State>, steps: seq<Step>, i: nat, t: ThreadId, k: nat)
    returns (p: Position)
    requires IsRun(hash, run, steps) && i < |run| && k < |LogOf(run[i], t)|
    ensures Find(run[i], p) == Some(Recorded(t, k, LogOf(run[i], t)[k]))
    ensures forall q :: Find(run[i], q).Some? && Key(Find(run[i], q).value) == (t, k) ==> q == p
  {
    RunsKeepInv(hash, run, steps, i);
    p := EventHasPosition(run[i], t, k);
    FoundOnce(run[i], p);
  }

  lemma EventHasPosition(s: State, t: ThreadId, k: nat) returns (p: Position)
    requires EventsOk(s) && k < |LogOf(s, t)|
    ensures Find(s, p) == Some(Recorded(t, k, LogOf(s, t)[k]))
  {
    var where :| IndexedBy(ContentsOf(s), BegunOf(s), where);
    assert (t, k).1 < BegunOf(s)((t, k).0);
    p := where[(t, k)];
    assert ContentsOf(s)(p).Some?;
    assert FaithfulTo(s, Find(s, p).value);
  }

  /** The file holds committed events only, chunk by chunk consecutive events of one thread, and
      the chunk carries that thread's number: none made up, and no buffer with an open event is
      ever written. */
  lemma FileHoldsCommittedEvents(hash: ThreadId -> u64, run: seq<State>, steps: seq<Step>, i: nat, c: nat, k: nat)
    requires IsRun(hash, run, steps) && i < |run| && c < |run[i].file| && k < |run[i].file[c].events|
    ensures var s, r, first := run[i], run[i].file[c].events[k], run[i].file[c].events[0];
            && r.no < |LogOf(s, r.thread)| && r.event == LogOf(s, r.thread)[r.no]
            && r.thread == first.thread && r.no == first.no + k
            && s.file[c].threadId == hash(r.thread)
  {
    RunsKeepInv(hash, run, steps, i);
    var s := run[i];
    assert ChunkOk(hash, s, s.file[c]);
    assert Find(s, InFile(c, k)) == Some(s.file[c].events[k]);
    assert FaithfulTo(s, s.file[c].events[k]);
  }

  // ---------- flush completeness ----------

  /** A flush as long as it runs: from the state after its start on, its books of the start stay. */
  lemma {:induction false} BooksStay(hash: ThreadId -> u64, run: seq<State>, steps: seq<Step>, i: nat, j: nat)
    requires IsRun(hash, run, steps) && i < j < |run|
    requires steps[i].FlushStart? && forall k :: i < k <= j ==> run[k].flush.On?
    ensures run[j].flush.committedAtStart == map t | t in run[i].blocks :: |LogOf(run[i], t)|
    ensures run[j].blocks == run[i].blocks
    ensures forall t :: LogOf(run[i], t) <= LogOf(run[j], t)
  {
    assert IsStep(hash, run[j - 1], steps[j - 1], run[j]);
    if j > i + 1 {
      BooksStay(hash, run, steps, i, j - 1);
      BooksStayOneStep(hash, run[j - 1], steps[j - 1]);
      forall t
        ensures LogOf(run[i], t) <= LogOf(run[j], t)
      {
        assert LogOf(run[i], t) <= LogOf(run[j - 1], t) <= LogOf(run[j], t);
      }
    }
  }

  lemma BooksStayOneStep(hash: ThreadId -> u64, s: State, step: Step)
    requires Enabled(s, step) && s.flush.On? && Do(hash, s, step).flush.On?
    ensures var s' := Do(hash, s, step);
            && s'.flush.committedAtStart == s.flush.committedAtStart && s'.blocks == s.blocks
            && forall t :: LogOf(s, t) <= LogOf(s', t)
  {
  }

  lemma OwnerOfBuffer(s: State, b: BufferId) returns (t: ThreadId)
    requires OnePlaceEach(s) && StoragesOk(s) && b in s.heap && At(s, Flusher) != Some(b)
    ensures t in s.storages && Own(s, t) == Some(b)
  {
    var q := BufferHasPlace(s, b);
    t := q.t;
    assert StorageOk(s.storages[t]);
  }

  lemma RunMembers(events: seq<Recorded>, t: ThreadId, upTo: nat, x: nat)
    requires Run(events, t, upTo) && x < |events|
    ensures events[x].thread == t && events[x].no >= events[0].no
  {
  }

  /** While no buffer is being written, the events of a thread in a buffer are in its own. */
  lemma OnlyOwnBuffersHold(hash: ThreadId -> u64, s: State, b: BufferId, x: nat)
    requires OnePlaceEach(s) && StoragesOk(s) && BuffersOk(hash, s) && s.flush.On? && s.flush.pc.Scan?
    requires b in s.heap && x < |s.heap[b].events|
    ensures Own(s, s.heap[b].events[x].thread) == Some(b)
    ensures s.heap[b].events[x].no >= s.heap[b].events[0].no
  {
    assert At(s, Flusher) != Some(b) by {
      assert FlusherBufferOk(hash, s);
    }
    var t := OwnerOfBuffer(s, b);
    assert OwnBufferOk(hash, s, t);
    RunMembers(s.heap[b].events, t, Begun(s, t), x);
  }

  /** At the end of the loop nothing the flush was to take is in a buffer any more. */
  lemma NothingOldInBuffers(hash: ThreadId -> u64, s: State, b: BufferId, x: nat, j: nat)
    requires OnePlaceEach(s) && StoragesOk(s) && BuffersOk(hash, s)
    requires LoopOk(s.flush, |s.blocks|) && CanFlushRound(s, true) && FlushProgress(s)
    requires b in s.heap && x < |s.heap[b].events|
    requires j < |s.blocks| && s.blocks[j] == s.heap[b].events[x].thread
    ensures s.heap[b].events[x].no >= s.flush.committedAtStart[s.blocks[j]]
  {
    AllSwappedOnce(s, j);
    OnlyOwnBuffersHold(hash, s, b, x);
    assert OwnIsNew(s, s.blocks[j], s.flush.committedAtStart[s.blocks[j]]);
  }

  lemma AllSwappedOnce(s: State, j: nat)
    requires LoopOk(s.flush, |s.blocks|) && CanFlushRound(s, true) && j < |s.blocks|
    ensures s.flush.swaps[j] == 1
  {
    assert s.flush.flushed[j];
  }

  /** Where an old event is when the loop ends. */
  lemma OldEventsAreInFile(hash: ThreadId -> u64, s: State, t: ThreadId, k: nat) returns (c: nat, x: nat)
    requires Inv(hash, s) && CanFlushRound(s, true)
    requires t in s.blocks && t in s.flush.committedAtStart && k < s.flush.committedAtStart[t] <= |LogOf(s, t)|
    ensures c < |s.file| && x < |s.file[c].events| && s.file[c].events[x] == Recorded(t, k, LogOf(s, t)[k])
  {
    var p := EventHasPosition(s, t, k);
    if p.InBuffer? {
      var j :| 0 <= j < |s.blocks| && s.blocks[j] == t;
      NothingOldInBuffers(hash, s, p.buffer, p.index, j);
      assert false;
    }
    c, x := p.chunk, p.index;
  }

  /** When a flush returns, every event a registered thread had committed before the flush took the
      file lock is in the file. */
  lemma FlushIsComplete(hash: ThreadId -> u64, run: seq<State>, steps: seq<Step>, i: nat, j: nat, t: ThreadId, k: nat)
    returns (c: nat, x: nat)
    requires IsRun(hash, run, steps) && IsFlush(run, steps, i, j)
    requires t in run[i].blocks && k < |LogOf(run[i], t)|
    ensures c < |run[j + 1].file| && x < |run[j + 1].file[c].events|
    ensures run[j + 1].file[c].events[x] == Recorded(t, k, LogOf(run[i], t)[k])
  {
    BooksStay(hash, run, steps, i, j);
    EndOfFlush(hash, run, steps, j);
    assert LogOf(run[i], t) <= LogOf(run[j], t);
    c, x := OldEventsAreInFile(hash, run[j], t, k);
  }

  /** And it has swapped the slot of every registered thread exactly once. */
  lemma FlushSwapsEachOnce(hash: ThreadId -> u64, run: seq<State>, steps: seq<Step>, i: nat, j: nat, n: nat)
    requires IsRun(hash, run, steps) && IsFlush(run, steps, i, j) && n < |run[i].blocks|
    ensures n < |run[j].flush.swaps| && run[j].flush.swaps[n] == 1
  {
    BooksStay(hash, run, steps, i, j);
    EndOfFlush(hash, run, steps, j);
    AllSwappedOnce(run[j], n);
  }

  /** Step i starts a flush that step j ends. */
  ghost predicate IsFlush(run: seq<State>, steps: seq<Step>, i: nat, j: nat) {
    && i < j < |steps| && |run| == |steps| + 1
    && steps[i].FlushStart? && steps[j].FlushEnd? && forall n :: i < n <= j ==> run[n].flush.On?
  }

  lemma EndOfFlush(hash: ThreadId -> u64, run: seq<State>, steps: seq<Step>, j: nat)
    requires IsRun(hash, run, steps) && j < |steps| && steps[j].FlushEnd?
    ensures Inv(hash, run[j]) && CanFlushRound(run[j], true) && run[j + 1].file == run[j].file
  {
    RunsKeepInv(hash, run, steps, j);
    assert IsStep(hash, run[j], steps[j], run[j + 1]);
  }
}
