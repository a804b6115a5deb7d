/** A run in which a thread's second chunk reaches the file before its first: overtaking is real. */
module EventLoggerOvertaking {
  import opened Bytes
  import opened Wrappers
  import opened EventLogFormat
  import opened LocalFileEventLogger
  import opened EventLoggerRuns
  import opened EventLoggerFile
  import ThreadData

  const FILLING_SIZE := ThreadData.MAX_SIZE_INSIDE

  /** An event after which a buffer has no room for another one. */
  function Big(): (e: Event)
    ensures |e.payload| == FILLING_SIZE
  {
    Event(7, 0, seq(FILLING_SIZE, _ => 0), [])
  }

  lemma BigFills(r: Recorded)
    requires r.event == Big()
    ensures ThreadData.MustWriteFirst(ThreadData.UsedBytes(Plain([r])), FILLING_SIZE)
    ensures !ThreadData.MustWriteFirst(ThreadData.UsedBytes(Plain([])), FILLING_SIZE)
  {
    ThreadData.AppendedLength([], Big());
    assert Plain([r]) == [] + [Big()];
    assert Plain([]) == [];
  }

  predicate Resting(s: State, t: ThreadId, b: BufferId) {
    t in s.storages && s.storages[t] == ThreadStorage(Some(b), None, Idle) && b in s.heap
  }

  /** The first half of recording: the thread has its buffer in hand and is about to make room. */
  lemma Claim(hash: ThreadId -> u64, run: seq<State>, steps: seq<Step>, t: ThreadId, b: BufferId)
    returns (run': seq<State>, steps': seq<Step>)
    requires IsRun(hash, run, steps) && Resting(Last(run), t, b)
    ensures IsRun(hash, run', steps')
    ensures var s := Last(run);
            var claimed := Claimed(b, Request(7, FILLING_SIZE, 0));
            Last(run') == s.(storages := s.storages[t := ThreadStorage(None, None, claimed)])
  {
    var s := Last(run);
    run', steps' := OneMore(hash, run, steps, BeginLoad(t, Request(7, FILLING_SIZE, 0)));
    run', steps' := OneMore(hash, run', steps', BeginClaim(t));
    assert Last(run').storages == s.storages[t := ThreadStorage(None, None, Claimed(b, Request(7, FILLING_SIZE, 0)))];
  }

  function Once(s: State, t: ThreadId): Recorded {
    Recorded(t, |LogOf(s, t)|, Big())
  }

  function WithRecorded(s: State, t: ThreadId, b: BufferId): State
    requires b in s.heap
  {
    s.(heap := s.heap[b := Buffer(s.heap[b].threadId, [Once(s, t)])], log := s.log[t := LogOf(s, t) + [Big()]])
  }

  /** A thread records one big event into its empty buffer. */
  lemma Record(hash: ThreadId -> u64, run: seq<State>, steps: seq<Step>, t: ThreadId, b: BufferId)
    returns (run': seq<State>, steps': seq<Step>)
    requires IsRun(hash, run, steps) && Resting(Last(run), t, b) && Last(run).heap[b].events == []
    ensures IsRun(hash, run', steps') && Last(run') == WithRecorded(Last(run), t, b)
  {
    var s := Last(run);
    run', steps' := Claim(hash, run, steps, t, b);
    run', steps' := Begin(hash, run', steps', t, b);
    run', steps' := OneMore(hash, run', steps', EndCommit(t));
    run', steps' := OneMore(hash, run', steps', EndClear(t));
    assert Last(run').storages == s.storages;
  }

  /** The second half, up to the caller's turn to fill in the payload. */
  lemma Begin(hash: ThreadId -> u64, run: seq<State>, steps: seq<Step>, t: ThreadId, b: BufferId)
    returns (run': seq<State>, steps': seq<Step>)
    requires IsRun(hash, run, steps) && t in Last(run).storages && b in Last(run).heap && Last(run).heap[b].events == []
    requires Last(run).storages[t] == ThreadStorage(None, None, Claimed(b, Request(7, FILLING_SIZE, 0)))
    ensures IsRun(hash, run', steps')
    ensures var s := Last(run);
            Last(run') == s.(heap := s.heap[b := Buffer(s.heap[b].threadId, [Once(s, t)])],
                             storages := s.storages[t := ThreadStorage(None, Some(b), Open(b))])
  {
    var s := Last(run);
    BigFills(Once(s, t));
    run', steps' := OneMore(hash, run, steps, BeginMakeRoom(t));
    run', steps' := OneMore(hash, run', steps', BeginAppend(t, Big().payload, []));
    assert Last(run').heap[b].events == [Once(s, t)];
  }

  /** Thread 1 records; a flush swaps its buffer, and waits. */
  lemma FlushTakes(hash: ThreadId -> u64) returns (run: seq<State>, steps: seq<Step>)
    ensures IsRun(hash, run, steps)
    ensures var s := Last(run);
            && Resting(s, 1, 20) && s.heap[20].events == [] && s.blocks == [1] && s.file == [] && |LogOf(s, 1)| == 1
            && s.flush.On? && s.flush.pc == Write(0, true, 10) && |s.flush.flushed| == 1
            && 10 in s.heap && s.heap[10].events == [Recorded(1, 0, Big())]
  {
    run, steps := [Init()], [];
    run, steps := OneMore(hash, run, steps, Register(1, 10));
    run, steps := Record(hash, run, steps, 1, 10);
    run, steps := OneMore(hash, run, steps, FlushStart(20));
    run, steps := OneMore(hash, run, steps, FlushScan);
    run, steps := OneMore(hash, run, steps, FlushStamp);
    run, steps := OneMore(hash, run, steps, FlushSwap);
  }

  /** Meanwhile the thread records once more and makes room for a third event: the buffer the flush
      still holds is overtaken, and its write puts the older chunk behind the newer one. */
  lemma OvertakingHappens(hash: ThreadId -> u64) returns (run: seq<State>, steps: seq<Step>)
    ensures IsRun(hash, run, steps) && Overtaken(Last(run))
    ensures IsRun(hash, run + [DoFlushWrite(Last(run))], steps + [FlushWrite])
    ensures !FileOrdered(DoFlushWrite(Last(run)))
  {
    run, steps := FlushTakes(hash);
    ghost var s := Last(run);
    run, steps := Record(hash, run, steps, 1, 20);
    run, steps := Claim(hash, run, steps, 1, 20);
    BigFills(Once(s, 1));
    run, steps := OneMore(hash, run, steps, BeginMakeRoom(1));
    var end := Last(run);
    assert !InOrder(end.file[0], end.heap[10]);
    ghost var run', steps' := OneMore(hash, run, steps, FlushWrite);
    var written := DoFlushWrite(end);
    assert !InOrder(written.file[0], written.file[1]);
  }
}
