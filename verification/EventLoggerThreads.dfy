/** Every step keeps the slots and hands of the threads consistent, the list of registered threads
    free of repeats, and the bookkeeping of the flush loop right. */
module EventLoggerThreads {
  import opened Seqs
  import opened Bytes
  import opened LocalFileEventLogger

  /** A step of thread t that keeps t's own buffer its own. */
  ghost predicate OwnStep(s: State, s': State, t: ThreadId) {
    && t in s.storages && s'.storages.Keys == s.storages.Keys
    && s'.blocks == s.blocks && s'.flush == s.flush
    && (forall u :: u in s.storages && u != t ==> s'.storages[u] == s.storages[u])
    && StorageOk(s'.storages[t])
    && Own(s', t) == Own(s, t)
  }

  ghost predicate ThreadsOk(s: State) {
    StoragesOk(s) && RegisteredOk(s) && LoopOk(s.flush, |s.blocks|) && ExpectedOk(s)
  }

  lemma OwnStepKeeps(s: State, s': State, t: ThreadId)
    requires ThreadsOk(s) && OwnStep(s, s', t)
    ensures ThreadsOk(s')
  {
    assert forall u :: u != t ==> Own(s', u) == Own(s, u);
  }

  lemma RecorderStepsAreOwn(s: State, t: ThreadId)
    requires StoragesOk(s)
    ensures forall request :: CanBeginLoad(s, t) ==> OwnStep(s, DoBeginLoad(s, t, request), t)
    ensures CanBeginClaim(s, t) ==> OwnStep(s, DoBeginClaim(s, t), t)
    ensures CanMakeRoom(s, t) ==> OwnStep(s, DoMakeRoom(s, t), t)
    ensures CanCommit(s, t) ==> OwnStep(s, DoCommit(s, t), t)
    ensures CanEndClear(s, t) ==> OwnStep(s, DoEndClear(s, t), t)
  {
  }

  lemma WritingStepsAreOwn(s: State, t: ThreadId, payload: seq<byte>, padding: seq<byte>)
    requires StoragesOk(s)
    ensures CanAppend(s, t, payload, padding) ==> OwnStep(s, DoAppend(s, t, payload, padding), t)
    ensures CanFill(s, t, payload) ==> OwnStep(s, DoFill(s, t, payload), t)
  {
  }

  lemma RegisterThreads(hash: ThreadId -> u64, s: State, t: ThreadId, b: BufferId)
    requires ThreadsOk(s) && CanRegister(s, t, b)
    ensures ThreadsOk(DoRegister(hash, s, t, b))
  {
    NoRepeatsAppend(s.blocks, [t]);
  }

  lemma ExitThreads(s: State, t: ThreadId)
    requires ThreadsOk(s) && CanExit(s, t)
    ensures ThreadsOk(DoExit(s, t))
  {
    WithoutNoRepeats(s.blocks, t);
  }

  lemma FlushLoopThreads(s: State)
    requires ThreadsOk(s)
    ensures CanFlushScan(s) ==> ThreadsOk(DoFlushScan(s))
    ensures CanFlushStamp(s) ==> ThreadsOk(DoFlushStamp(s))
    ensures CanFlushRound(s, false) ==> ThreadsOk(DoFlushAgain(s))
    ensures CanFlushRound(s, true) ==> ThreadsOk(DoFlushEnd(s))
  {
  }

  lemma FlushStartThreads(s: State, b: BufferId)
    requires ThreadsOk(s) && CanFlushStart(s, b)
    ensures ThreadsOk(DoFlushStart(s, b))
  {
  }

  lemma FlushSwapThreads(s: State)
    requires ThreadsOk(s) && CanFlushSwap(s)
    ensures ThreadsOk(DoFlushSwap(s))
  {
  }

  lemma FlushWriteThreads(s: State)
    requires ThreadsOk(s) && CanFlushWrite(s)
    ensures ThreadsOk(DoFlushWrite(s))
  {
  }

  lemma KeepsThreadsOk(hash: ThreadId -> u64, s: State, step: Step)
    requires ThreadsOk(s) && Enabled(s, step)
    ensures ThreadsOk(Do(hash, s, step))
  {
    match step
    case Register(t, b) => RegisterThreads(hash, s, t, b);
    case Exit(t) => ExitThreads(s, t);
    case FlushStart(b) => FlushStartThreads(s, b);
    case FlushSwap => FlushSwapThreads(s);
    case FlushWrite => FlushWriteThreads(s);
    case FlushScan => FlushLoopThreads(s);
    case FlushStamp => FlushLoopThreads(s);
    case FlushAgain => FlushLoopThreads(s);
    case FlushEnd => FlushLoopThreads(s);
    case BeginAppend(t, payload, padding) =>
      WritingStepsAreOwn(s, t, payload, padding);
      OwnStepKeeps(s, DoAppend(s, t, payload, padding), t);
    case Fill(t, payload) =>
      WritingStepsAreOwn(s, t, payload, []);
      OwnStepKeeps(s, DoFill(s, t, payload), t);
    case _ =>
      RecorderStepsAreOwn(s, step.t);
      OwnStepKeeps(s, Do(hash, s, step), step.t);
  }
}
