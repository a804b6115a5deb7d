/** The writes to the log file seen closer: m_fileWriteGuard is taken, the bytes are written, and it is
    let go.  A thread that exits writes under m_fileGuard only. */
module EventLoggerGuards {
  import opened Bytes
  import opened Wrappers
  import opened LocalFileEventLogger
  import opened EventLoggerBuffers
  import opened EventLoggerRuns
  import opened EventLoggerOvertaking
  import ThreadData

  /** Who calls WriteCacheToDisk: RecordEventBegin, Flush, or Reset. */
  datatype Writer = ByRecorder(t: ThreadId) | ByFlush | ByExit(t: ThreadId)

  /** `guard` holds m_fileWriteGuard, `writing` are in WriteCacheToDisk, each with what its buffer held
      when it began, and `leaving` is in Reset, where it holds m_fileGuard. */
  datatype Fine = Fine(s: State, guard: Option<Writer>, writing: map<Writer, Buffer>, leaving: Option<ThreadId>)

  datatype FineStep =
    | Lock(w: Writer)
    | Start(w: Writer)
    | Finish(w: Writer)
    | Unlock(w: Writer)
    | Leave(t: ThreadId)
    | Other(step: Step) // nothing to do with a write

  /** The step of the protocol that stands for a write. */
  function WriteStep(w: Writer): Step {
    match w
    case ByRecorder(t) => BeginMakeRoom(t)
    case ByFlush => FlushWrite
    case ByExit(t) => Exit(t)
  }

  function BufferOf(s: State, w: Writer): BufferId
    requires Enabled(s, WriteStep(w))
  {
    match w
    case ByRecorder(t) => s.storages[t].pc.buffer
    case ByFlush => s.flush.pc.taken
    case ByExit(t) => s.storages[t].data.value
  }

  /** A write is due; a recorder that has room for its event makes none. */
  predicate MustWrite(s: State, w: Writer) {
    && Enabled(s, WriteStep(w)) && BufferOf(s, w) in s.heap
    && (w.ByRecorder? ==>
          ThreadData.MustWriteFirst(ThreadData.UsedBytes(Plain(s.heap[BufferOf(s, w)].events)),
                                    s.storages[w.t].pc.request.size))
  }

  predicate Writes(s: State, step: Step) {
    step.Exit? || step.FlushWrite? || (step.BeginMakeRoom? && MustWrite(s, ByRecorder(step.t)))
  }

  predicate OfFlush(step: Step) {
    step.FlushScan? || step.FlushStamp? || step.FlushSwap? || step.FlushWrite? || step.FlushAgain? || step.FlushEnd?
  }

  /** Whoever holds the write guard or is leaving does nothing else, and m_fileGuard is needed to
      register a thread and to start a flush. */
  predicate Free(f: Fine, step: Step) {
    && (IsRecorderStep(step) ==> f.guard != Some(ByRecorder(step.t)) && f.leaving != Some(step.t))
    && (OfFlush(step) ==> f.guard != Some(ByFlush))
    && (step.Register? || step.FlushStart? ==> f.leaving == None)
  }

  predicate FineEnabled(f: Fine, step: FineStep) {
    match step
    case Lock(w) => !w.ByExit? && f.guard == None && MustWrite(f.s, w)
    case Start(w) =>
      w !in f.writing && MustWrite(f.s, w) && if w.ByExit? then f.leaving == Some(w.t) else f.guard == Some(w)
    case Finish(w) => w in f.writing && MustWrite(f.s, w)
    case Unlock(w) => f.guard == Some(w) && w !in f.writing && !MustWrite(f.s, w)
    case Leave(t) => f.leaving == None && CanExit(f.s, t)
    case Other(step) => Enabled(f.s, step) && !Writes(f.s, step) && Free(f, step)
  }

  function FineDo(hash: ThreadId -> u64, f: Fine, step: FineStep): Fine
    requires FineEnabled(f, step)
  {
    match step
    case Lock(w) => f.(guard := Some(w))
    case Start(w) => f.(writing := f.writing[w := f.s.heap[BufferOf(f.s, w)]])
    case Finish(w) =>
      f.(s := Do(hash, f.s, WriteStep(w)), writing := f.writing - {w}, leaving := if w.ByExit? then None else f.leaving)
    case Unlock(w) => f.(guard := None)
    case Leave(t) => f.(leaving := Some(t))
    case Other(step) => f.(s := Do(hash, f.s, step))
  }

  ghost predicate IsFineStep(hash: ThreadId -> u64, f: Fine, step: FineStep, f': Fine) {
    FineEnabled(f, step) && f' == FineDo(hash, f, step)
  }

  ghost predicate IsFineRun(hash: ThreadId -> u64, run: seq<Fine>, steps: seq<FineStep>) {
    && |run| == |steps| + 1
    && run[0] == Fine(Init(), None, map[], None)
    && forall i :: 0 <= i < |steps| ==> IsFineStep(hash, run[i], steps[i], run[i + 1])
  }

  // ---------- a run of these steps is a run of the protocol, and the other way round ----------

  lemma {:induction false} FineRunIsRun(hash: ThreadId -> u64, run: seq<Fine>, steps: seq<FineStep>, i: nat)
    returns (plain: seq<State>, plainSteps: seq<Step>)
    requires IsFineRun(hash, run, steps) && i < |run|
    ensures IsRun(hash, plain, plainSteps) && Last(plain) == run[i].s
  {
    if i == 0 {
      plain, plainSteps := [Init()], [];
    } else {
      plain, plainSteps := FineRunIsRun(hash, run, steps, i - 1);
      assert IsFineStep(hash, run[i - 1], steps[i - 1], run[i]);
      match steps[i - 1] {
        case Finish(w) => plain, plainSteps := OneMore(hash, plain, plainSteps, WriteStep(w));
        case Other(step) => plain, plainSteps := OneMore(hash, plain, plainSteps, step);
        case _ =>
      }
    }
  }

  lemma FineInv(hash: ThreadId -> u64, run: seq<Fine>, steps: seq<FineStep>, i: nat)
    requires IsFineRun(hash, run, steps) && i < |run|
    ensures Inv(hash, run[i].s)
  {
    var plain, plainSteps := FineRunIsRun(hash, run, steps, i);
    RunsKeepInv(hash, plain, plainSteps, |plain| - 1);
  }

  lemma OneMoreFine(hash: ThreadId -> u64, run: seq<Fine>, steps: seq<FineStep>, step: FineStep)
    returns (run': seq<Fine>, steps': seq<FineStep>)
    requires IsFineRun(hash, run, steps) && FineEnabled(run[|steps|], step)
    ensures run' == run + [FineDo(hash, run[|steps|], step)] && steps' == steps + [step]
    ensures IsFineRun(hash, run', steps')
  {
    run', steps' := run + [FineDo(hash, run[|steps|], step)], steps + [step];
    forall i | 0 <= i < |steps'|
      ensures IsFineStep(hash, run'[i], steps'[i], run'[i + 1])
    {
      if i < |steps| {
        assert IsFineStep(hash, run[i], steps[i], run[i + 1]);
      }
    }
  }

  // ---------- a writer's buffer is its own ----------

  /** The step is not one of the thread or the flush that writes, nor lets a flush begin under m_fileGuard. */
  predicate NotBy(step: Step, w: Writer) {
    match w
    case ByFlush => !OfFlush(step)
    case ByRecorder(t) => IsRecorderStep(step) || step.Exit? ==> step.t != t
    case ByExit(t) => (IsRecorderStep(step) || step.Exit? ==> step.t != t) && !step.FlushStart?
  }

  /** The write that is due stays due, of the same bytes. */
  predicate StillDue(s: State, s': State, w: Writer) {
    MustWrite(s, w) && MustWrite(s', w) && s'.heap[BufferOf(s', w)] == s.heap[BufferOf(s, w)]
  }

  /** The thread is where it was, with the same buffer. */
  predicate ThreadUntouched(s: State, s': State, t: ThreadId)
  {
    && t in s.storages && t in s'.storages && s'.storages[t] == s.storages[t] && Own(s, t).Some?
    && Own(s, t).value in s.heap && Own(s, t).value in s'.heap && s'.heap[Own(s, t).value] == s.heap[Own(s, t).value]
  }

  lemma RecorderLeavesOthers(hash: ThreadId -> u64, s: State, step: Step, t: ThreadId)
    requires OnePlaceEach(s) && StoragesOk(s) && Enabled(s, step) && IsRecorderStep(step) && step.t != t
    requires t in s.storages && Own(s, t).Some?
    ensures ThreadUntouched(s, Do(hash, s, step), t)
  {
    OwnIsApart(s, t);
    assert StorageOk(s.storages[step.t]);
    RecorderStepIsGood(hash, s, step);
  }

  lemma ExitLeavesOthers(s: State, u: ThreadId, t: ThreadId)
    requires OnePlaceEach(s) && CanExit(s, u) && u != t && t in s.storages && Own(s, t).Some?
    ensures ThreadUntouched(s, DoExit(s, u), t)
  {
    OwnIsApart(s, t);
    assert Own(s, u) == s.storages[u].data;
  }

  /** A flush takes a buffer from a slot only. */
  lemma FlushLeavesHands(hash: ThreadId -> u64, s: State, step: Step, t: ThreadId)
    requires OnePlaceEach(s) && StoragesOk(s) && Enabled(s, step) && OfFlush(step)
    requires t in s.storages && Holding(s.storages[t].pc)
    ensures ThreadUntouched(s, Do(hash, s, step), t)
  {
    assert StorageOk(s.storages[t]);
    OwnIsApart(s, t);
  }

  lemma OtherLeavesThreads(hash: ThreadId -> u64, s: State, step: Step, t: ThreadId)
    requires OnePlaceEach(s) && Enabled(s, step) && (step.Register? || step.FlushStart?)
    requires t in s.storages && Own(s, t).Some?
    ensures ThreadUntouched(s, Do(hash, s, step), t)
  {
    OwnIsApart(s, t);
  }

  lemma ThreadLeft(hash: ThreadId -> u64, s: State, step: Step, t: ThreadId)
    requires OnePlaceEach(s) && StoragesOk(s) && Enabled(s, step) && t in s.storages
    requires IsRecorderStep(step) || step.Exit? ==> step.t != t
    requires Holding(s.storages[t].pc) || (s.storages[t].data.Some? && s.flush.Off?)
    ensures ThreadUntouched(s, Do(hash, s, step), t)
  {
    assert StorageOk(s.storages[t]);
    if IsRecorderStep(step) {
      RecorderLeavesOthers(hash, s, step, t);
    } else if step.Exit? {
      ExitLeavesOthers(s, step.t, t);
    } else if OfFlush(step) {
      FlushLeavesHands(hash, s, step, t);
    } else {
      OtherLeavesThreads(hash, s, step, t);
    }
  }

  lemma StaysDue(hash: ThreadId -> u64, s: State, step: Step, w: Writer)
    requires OnePlaceEach(s) && StoragesOk(s) && Enabled(s, step) && MustWrite(s, w) && NotBy(step, w)
    ensures StillDue(s, Do(hash, s, step), w)
  {
    match w
    case ByFlush => TakenLeft(hash, s, step);
    case ByRecorder(t) =>
      assert StorageOk(s.storages[t]);
      ThreadLeft(hash, s, step, t);
    case ByExit(t) =>
      ThreadLeft(hash, s, step, t);
      NoFlushBegins(hash, s, step);
  }

  lemma NoFlushBegins(hash: ThreadId -> u64, s: State, step: Step)
    requires s.flush.Off? && Enabled(s, step) && !step.FlushStart?
    ensures Do(hash, s, step).flush.Off?
  {
  }

  lemma TakenLeft(hash: ThreadId -> u64, s: State, step: Step)
    requires OnePlaceEach(s) && StoragesOk(s) && Enabled(s, step) && CanFlushWrite(s) && !OfFlush(step)
    ensures StillDue(s, Do(hash, s, step), ByFlush)
  {
    FlusherIsApart(s);
    assert IsRecorderStep(step) && StorageOk(s.storages[step.t]);
    RecorderStepIsGood(hash, s, step);
    ConfinedLeavesTaken(s, Do(hash, s, step), step.t);
  }

  lemma ConfinedLeavesTaken(s: State, s': State, t: ThreadId)
    requires Confined(s, s', t) && Own(s, t) != At(s, Flusher) && CanFlushWrite(s)
    ensures StillDue(s, s', ByFlush)
  {
  }

  // ---------- who can write at the same time ----------

  /** Who is writing has the guard or is leaving, and the write it is at is still due, of the bytes it
      began with. */
  ghost predicate GuardsOk(f: Fine) {
    && (forall w :: w in f.writing ==> WriterOk(f, w))
    && (f.guard.Some? ==> !f.guard.value.ByExit?)
    && (f.leaving.Some? ==> MustWrite(f.s, ByExit(f.leaving.value)))
  }

  predicate WriterOk(f: Fine, w: Writer)
    requires w in f.writing
  {
    && MustWrite(f.s, w) && f.writing[w] == f.s.heap[BufferOf(f.s, w)]
    && if w.ByExit? then f.leaving == Some(w.t) else f.guard == Some(w)
  }

  lemma FinishIsNotByOthers(f: Fine, w: Writer, v: Writer)
    requires GuardsOk(f) && w in f.writing && v != w && MustWrite(f.s, v)
    requires v in f.writing || (v.ByExit? && f.leaving == Some(v.t))
    ensures NotBy(WriteStep(w), v)
  {
    assert WriterOk(f, w);
  }

  lemma OtherIsNotByWriters(f: Fine, step: Step, v: Writer)
    requires GuardsOk(f) && FineEnabled(f, Other(step)) && MustWrite(f.s, v)
    requires v in f.writing || (v.ByExit? && f.leaving == Some(v.t))
    ensures NotBy(step, v)
  {
    assert v in f.writing ==> WriterOk(f, v);
  }

  lemma GuardsStay(hash: ThreadId -> u64, f: Fine, step: FineStep)
    requires OnePlaceEach(f.s) && StoragesOk(f.s) && GuardsOk(f) && FineEnabled(f, step)
    ensures GuardsOk(FineDo(hash, f, step))
  {
    match step
    case Finish(w) => WritersStay(hash, f, step, WriteStep(w));
    case Other(plain) => WritersStay(hash, f, step, plain);
    case Lock(w) =>
    case Start(w) =>
    case Unlock(w) =>
    case Leave(t) =>
  }

  /** A step of the protocol leaves alone who is writing and who is leaving, but for the one that ends. */
  lemma WritersStay(hash: ThreadId -> u64, f: Fine, step: FineStep, plain: Step)
    requires OnePlaceEach(f.s) && StoragesOk(f.s) && GuardsOk(f) && FineEnabled(f, step)
    requires step == Other(plain) || (step.Finish? && plain == WriteStep(step.w))
    ensures GuardsOk(FineDo(hash, f, step))
  {
    var f' := FineDo(hash, f, step);
    forall v | v in f'.writing
      ensures WriterOk(f', v)
    {
      assert WriterOk(f, v);
      if step.Finish? {
        FinishIsNotByOthers(f, step.w, v);
      } else {
        OtherIsNotByWriters(f, plain, v);
      }
      StaysDue(hash, f.s, plain, v);
    }
    if f'.leaving.Some? {
      var v := ByExit(f'.leaving.value);
      if step.Finish? {
        assert WriterOk(f, step.w);
        FinishIsNotByOthers(f, step.w, v);
      } else {
        OtherIsNotByWriters(f, plain, v);
      }
      StaysDue(hash, f.s, plain, v);
    }
  }

  lemma {:induction false} FineRunsKeepGuards(hash: ThreadId -> u64, run: seq<Fine>, steps: seq<FineStep>, i: nat)
    requires IsFineRun(hash, run, steps) && i < |run|
    ensures GuardsOk(run[i])
  {
    if i > 0 {
      FineRunsKeepGuards(hash, run, steps, i - 1);
      FineInv(hash, run, steps, i - 1);
      assert IsFineStep(hash, run[i - 1], steps[i - 1], run[i]);
      GuardsStay(hash, run[i - 1], steps[i - 1]);
    }
  }

  /** What is written is what the buffer held when the write began: nobody touches it meanwhile. */
  lemma WrittenAsBegun(hash: ThreadId -> u64, run: seq<Fine>, steps: seq<FineStep>, i: nat)
    requires IsFineRun(hash, run, steps) && i < |steps| && steps[i].Finish?
    ensures steps[i].w in run[i].writing && run[i + 1].s.file == run[i].s.file + [run[i].writing[steps[i].w]]
  {
    FineRunsKeepGuards(hash, run, steps, i);
    assert IsFineStep(hash, run[i], steps[i], run[i + 1]);
    assert WriterOk(run[i], steps[i].w);
  }

  /** Two writes are under way together only if one is a thread's exit and the other a recorder's. */
  lemma WritesOverlapOnlyAtExit(hash: ThreadId -> u64, run: seq<Fine>, steps: seq<FineStep>, i: nat,
                                v: Writer, w: Writer)
    requires IsFineRun(hash, run, steps) && i < |run| && v in run[i].writing && w in run[i].writing && v != w
    ensures (v.ByExit? && w.ByRecorder?) || (v.ByRecorder? && w.ByExit?)
    ensures v.t != w.t
  {
    FineRunsKeepGuards(hash, run, steps, i);
    assert WriterOk(run[i], v) && WriterOk(run[i], w);
  }

  // ---------- waiting for the guard ----------

  /** The next step of a flush, where it does not write. */
  function NextOfFlush(s: State): Step
    requires s.flush.On? && !s.flush.pc.Write?
  {
    match s.flush.pc
    case Scan(i, all) => if i < |s.blocks| then FlushScan else if all then FlushEnd else FlushAgain
    case Stamp(_, _, _) => FlushStamp
    case Swap(_, _, _) => FlushSwap
  }

  /** Where a holder of the write guard stands it can go on: begin, end the write or let go. */
  function NextOfHolder(f: Fine, w: Writer): (step: FineStep)
    requires GuardsOk(f) && f.guard == Some(w)
    ensures FineEnabled(f, step)
  {
    if w in f.writing then
      assert WriterOk(f, w);
      Finish(w)
    else if MustWrite(f.s, w) then Start(w)
    else Unlock(w)
  }

  /** The flush can take its next step. */
  ghost predicate FlushGoesOn(f: Fine)
    requires GuardsOk(f) && f.s.flush.On?
  {
    if f.guard == Some(ByFlush) then FineEnabled(f, NextOfHolder(f, ByFlush))
    else FineEnabled(f, if f.s.flush.pc.Write? then Lock(ByFlush) else Other(NextOfFlush(f.s)))
  }

  /** It is about to write, and a recorder is writing. */
  predicate WaitsForRecorder(f: Fine) {
    CanFlushWrite(f.s) && f.guard.Some? && f.guard.value.ByRecorder?
  }

  lemma GoesOnOrWaits(f: Fine)
    requires GuardsOk(f) && f.s.flush.On? && FlusherCanStep(f.s)
    ensures FlushGoesOn(f) || WaitsForRecorder(f)
  {
    if f.guard != Some(ByFlush) && !f.s.flush.pc.Write? {
      assert Enabled(f.s, NextOfFlush(f.s));
    }
  }

  /** The flush waits for nothing but a recorder's write, when it is about to write itself. */
  lemma FlushWaitsForRecordersWrite(hash: ThreadId -> u64, run: seq<Fine>, steps: seq<FineStep>, i: nat)
    requires IsFineRun(hash, run, steps) && i < |run| && run[i].s.flush.On?
    ensures GuardsOk(run[i]) && (FlushGoesOn(run[i]) || WaitsForRecorder(run[i]))
  {
    FineRunsKeepGuards(hash, run, steps, i);
    FineInv(hash, run, steps, i);
    FlusherSteps(hash, run[i].s);
    GoesOnOrWaits(run[i]);
  }

  /** Steps of this writer. */
  ghost predicate OnlyBy(steps: seq<FineStep>, from: nat, w: Writer) {
    forall k :: from <= k < |steps| ==> steps[k] in {Start(w), Finish(w), Unlock(w)}
  }

  /** One of them; what is left to do gets less. */
  lemma HolderGoesOn(hash: ThreadId -> u64, run: seq<Fine>, steps: seq<FineStep>, w: Writer)
    returns (run': seq<Fine>, steps': seq<FineStep>)
    requires IsFineRun(hash, run, steps) && run[|steps|].guard == Some(w)
    ensures IsFineRun(hash, run', steps') && run <= run' && steps <= steps' && |steps'| == |steps| + 1
    ensures steps'[|steps|] in {Start(w), Finish(w), Unlock(w)}
    ensures var f, f' := run[|steps|], run'[|steps'|];
            f'.guard == None || (f'.guard == Some(w) && ToDo(f', w) < ToDo(f, w))
  {
    FineRunsKeepGuards(hash, run, steps, |steps|);
    run', steps' := OneMoreFine(hash, run, steps, NextOfHolder(run[|steps|], w));
  }

  /** How many steps the holder has left before it lets go. */
  function ToDo(f: Fine, w: Writer): nat {
    if w in f.writing then 1 else if MustWrite(f.s, w) then 2 else 0
  }

  /** And nobody waits for ever: by at most three steps of its own the holder lets the guard go. */
  lemma {:induction false} HolderLetsGo(hash: ThreadId -> u64, run: seq<Fine>, steps: seq<FineStep>, w: Writer)
    returns (run': seq<Fine>, steps': seq<FineStep>)
    requires IsFineRun(hash, run, steps) && run[|steps|].guard == Some(w)
    ensures IsFineRun(hash, run', steps') && run <= run' && steps <= steps'
    ensures |steps'| <= |steps| + ToDo(run[|steps|], w) + 1 <= |steps| + 3
    ensures OnlyBy(steps', |steps|, w) && run'[|steps'|].guard == None
    decreases ToDo(run[|steps|], w)
  {
    run', steps' := HolderGoesOn(hash, run, steps, w);
    if run'[|steps'|].guard != None {
      run', steps' := HolderLetsGo(hash, run', steps', w);
    }
  }

  // ---------- every run of the protocol, seen closer ----------

  lemma WriteOnce(hash: ThreadId -> u64, run: seq<Fine>, steps: seq<FineStep>, s: State, w: Writer)
    returns (run': seq<Fine>, steps': seq<FineStep>)
    requires IsFineRun(hash, run, steps) && run[|steps|] == Fine(s, None, map[], None) && MustWrite(s, w)
    ensures IsFineRun(hash, run', steps')
    ensures run'[|steps'|] == Fine(Do(hash, s, WriteStep(w)), None, map[], None)
  {
    if w.ByExit? {
      run', steps' := OneMoreFine(hash, run, steps, Leave(w.t));
    } else {
      run', steps' := OneMoreFine(hash, run, steps, Lock(w));
    }
    run', steps' := OneMoreFine(hash, run', steps', Start(w));
    run', steps' := OneMoreFine(hash, run', steps', Finish(w));
    assert run'[|steps'|].writing == map[];
    if !w.ByExit? {
      run', steps' := OneMoreFine(hash, run', steps', Unlock(w));
    }
  }

  lemma {:induction false} RunIsFineRun(hash: ThreadId -> u64, run: seq<State>, steps: seq<Step>, i: nat)
    returns (fine: seq<Fine>, fineSteps: seq<FineStep>)
    requires IsRun(hash, run, steps) && i < |run|
    ensures IsFineRun(hash, fine, fineSteps) && fine[|fineSteps|] == Fine(run[i], None, map[], None)
  {
    if i == 0 {
      fine, fineSteps := [Fine(Init(), None, map[], None)], [];
    } else {
      fine, fineSteps := RunIsFineRun(hash, run, steps, i - 1);
      var s, step := run[i - 1], steps[i - 1];
      assert IsStep(hash, s, step, run[i]);
      if Writes(s, step) {
        var w := if step.Exit? then ByExit(step.t) else if step.FlushWrite? then ByFlush else ByRecorder(step.t);
        fine, fineSteps := WriteOnce(hash, fine, fineSteps, s, w);
      } else {
        fine, fineSteps := OneMoreFine(hash, fine, fineSteps, Other(step));
      }
    }
  }

  /** Two threads are registered, and one has claimed a full buffer. */
  lemma FullBufferClaimed(hash: ThreadId -> u64) returns (run: seq<State>, steps: seq<Step>)
    ensures IsRun(hash, run, steps)
    ensures CanExit(Last(run), 0) && MustWrite(Last(run), ByRecorder(1))
  {
    run, steps := [Init()], [];
    run, steps := OneMore(hash, run, steps, Register(0, 10));
    run, steps := OneMore(hash, run, steps, Register(1, 11));
    run, steps := Record(hash, run, steps, 1, 11);
    BigFills(Last(run).heap[11].events[0]);
    run, steps := Claim(hash, run, steps, 1, 11);
  }

  /** A run in which a thread's exit and a recorder are writing at the same time. */
  lemma WritesDoOverlap(hash: ThreadId -> u64) returns (run: seq<Fine>, steps: seq<FineStep>)
    ensures IsFineRun(hash, run, steps)
    ensures ByExit(0) in run[|steps|].writing && ByRecorder(1) in run[|steps|].writing
  {
    var plain, plainSteps := FullBufferClaimed(hash);
    run, steps := RunIsFineRun(hash, plain, plainSteps, |plainSteps|);
    run, steps := OneMoreFine(hash, run, steps, Lock(ByRecorder(1)));
    run, steps := OneMoreFine(hash, run, steps, Start(ByRecorder(1)));
    run, steps := OneMoreFine(hash, run, steps, Leave(0));
    run, steps := OneMoreFine(hash, run, steps, Start(ByExit(0)));
  }
}
