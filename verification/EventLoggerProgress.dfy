/** A flush can always be brought to its end, and ends in two rounds once the recorders rest. */
module EventLoggerProgress {
  import opened Bytes
  import opened Wrappers
  import opened EventLogFormat
  import opened LocalFileEventLogger
  import opened EventLoggerRuns

  predicate FlushStep(step: Step) {
    step.FlushScan? || step.FlushStamp? || step.FlushSwap? || step.FlushWrite? || step.FlushAgain? || step.FlushEnd?
  }

  /** The same run, continued by at most `most` steps of the flush within one round. */
  ghost predicate Continued(run: seq<State>, steps: seq<Step>, run': seq<State>, steps': seq<Step>, most: nat) {
    && run <= run' && steps <= steps' && |steps'| <= |steps| + most
    && forall k :: |steps| <= k < |steps'| ==> FlushStep(steps'[k]) && !steps'[k].FlushAgain?
  }

  lemma ContinuedOn(run: seq<State>, steps: seq<Step>, run1: seq<State>, steps1: seq<Step>, a: nat,
                    run': seq<State>, steps': seq<Step>, b: nat)
    requires Continued(run, steps, run1, steps1, a) && Continued(run1, steps1, run', steps', b)
    ensures Continued(run, steps, run', steps', a + b)
  {
    forall k | |steps| <= k < |steps'|
      ensures FlushStep(steps'[k]) && !steps'[k].FlushAgain?
    {
      assert k < |steps1| ==> steps'[k] == steps1[k];
    }
  }

  // ---------- the flush, while the recorders rest ----------

  /** No thread is recording an event. */
  ghost predicate AllIdle(s: State) {
    forall t :: t in s.storages ==> s.storages[t].pc.Idle?
  }

  /** A flush is on, and nobody is recording. */
  ghost predicate Calm(s: State) {
    s.flush.On? && AllIdle(s)
  }

  /** The flush has come to this place of its loop. */
  ghost predicate Reached(s: State, s': State, pc: FlushPc) {
    Calm(s') && s'.blocks == s.blocks && s'.flush.pc == pc
  }

  lemma FlushStepIdle(hash: ThreadId -> u64, s: State, step: Step)
    requires AllIdle(s) && Enabled(s, step) && FlushStep(step)
    ensures AllIdle(Do(hash, s, step)) && Do(hash, s, step).blocks == s.blocks
  {
  }

  /** One step of the flush. */
  lemma Advance(hash: ThreadId -> u64, run: seq<State>, steps: seq<Step>, step: Step)
    returns (run': seq<State>, steps': seq<Step>)
    requires IsRun(hash, run, steps) && Calm(Last(run)) && Enabled(Last(run), step)
    requires FlushStep(step) && !step.FlushAgain? && Do(hash, Last(run), step).flush.On?
    ensures IsRun(hash, run', steps') && Continued(run, steps, run', steps', 1)
    ensures Last(run') == Do(hash, Last(run), step)
    ensures Reached(Last(run), Last(run'), Last(run').flush.pc)
  {
    run', steps' := OneMore(hash, run, steps, step);
    FlushStepIdle(hash, Last(run), step);
  }

  lemma WriteEnds(hash: ThreadId -> u64, run: seq<State>, steps: seq<Step>)
    requires IsRun(hash, run, steps) && Last(run).flush.On? && Last(run).flush.pc.Write?
    ensures var s := Last(run); CanFlushWrite(s) && DoFlushWrite(s).flush.On?
                                && DoFlushWrite(s).flush.pc == Scan(s.flush.pc.i + 1, s.flush.pc.allFlushed)
  {
    FlushNeverBlocks(hash, run, steps, |steps|);
  }

  /** The exchange of a resting thread's slot succeeds. */
  lemma SwapSucceeds(hash: ThreadId -> u64, run: seq<State>, steps: seq<Step>)
    requires IsRun(hash, run, steps) && Calm(Last(run)) && Last(run).flush.pc.Swap?
    ensures CanFlushSwap(Last(run))
    ensures var s, f := Last(run), DoFlushSwap(Last(run)).flush;
            f.On? && f.pc == Write(s.flush.pc.i, s.flush.pc.allFlushed, s.flush.pc.expected)
  {
    FlushNeverBlocks(hash, run, steps, |steps|);
    RunsKeepInv(hash, run, steps, |steps|);
    var s := Last(run);
    var t := s.blocks[s.flush.pc.i];
    assert StorageOk(s.storages[t]);
    assert Own(s, t) == Some(s.flush.pc.expected);
  }

  lemma StampGoesOn(hash: ThreadId -> u64, run: seq<State>, steps: seq<Step>)
    requires IsRun(hash, run, steps) && Last(run).flush.On? && Last(run).flush.pc.Stamp?
    ensures CanFlushStamp(Last(run))
    ensures var s, f := Last(run), DoFlushStamp(Last(run)).flush;
            f.On? && f.pc == Swap(s.flush.pc.i, s.flush.pc.allFlushed, s.flush.pc.expected)
  {
    FlushNeverBlocks(hash, run, steps, |steps|);
  }

  /** A thread is skipped because this flush has taken it, or it is begun to be taken. */
  lemma ScanTakes(hash: ThreadId -> u64, run: seq<State>, steps: seq<Step>)
    requires IsRun(hash, run, steps) && Calm(Last(run)) && Last(run).flush.pc.Scan?
    requires Last(run).flush.pc.i < |Last(run).blocks|
    ensures CanFlushScan(Last(run))
    ensures var s, f := Last(run), DoFlushScan(Last(run)).flush;
            && f.On? && f.pc.allFlushed == s.flush.pc.allFlushed
            && (f.pc == Scan(s.flush.pc.i + 1, f.pc.allFlushed) || (f.pc.Stamp? && f.pc.i == s.flush.pc.i))
  {
    FlushNeverBlocks(hash, run, steps, |steps|);
    var t := Last(run).blocks[Last(run).flush.pc.i];
    NoStepCanFail(hash, run, steps, |steps|, t);
  }

  /** Where the loop comes to when it is done with the present thread. */
  function NextPlace(pc: FlushPc): FlushPc {
    Scan(pc.i + 1, pc.allFlushed)
  }

  /** A thread the flush has begun to take is taken and written. */
  lemma FromWrite(hash: ThreadId -> u64, run: seq<State>, steps: seq<Step>)
    returns (run': seq<State>, steps': seq<Step>)
    requires IsRun(hash, run, steps) && Calm(Last(run)) && Last(run).flush.pc.Write?
    ensures IsRun(hash, run', steps') && Continued(run, steps, run', steps', 1)
    ensures Reached(Last(run), Last(run'), NextPlace(Last(run).flush.pc))
  {
    WriteEnds(hash, run, steps);
    run', steps' := Advance(hash, run, steps, FlushWrite);
  }

  lemma FromSwap(hash: ThreadId -> u64, run: seq<State>, steps: seq<Step>) returns (run': seq<State>, steps': seq<Step>)
    requires IsRun(hash, run, steps) && Calm(Last(run)) && Last(run).flush.pc.Swap?
    ensures IsRun(hash, run', steps') && Continued(run, steps, run', steps', 2)
    ensures Reached(Last(run), Last(run'), NextPlace(Last(run).flush.pc))
  {
    SwapSucceeds(hash, run, steps);
    var run1, steps1 := Advance(hash, run, steps, FlushSwap);
    run', steps' := FromWrite(hash, run1, steps1);
    ContinuedOn(run, steps, run1, steps1, 1, run', steps', 1);
  }

  lemma FromStamp(hash: ThreadId -> u64, run: seq<State>, steps: seq<Step>)
    returns (run': seq<State>, steps': seq<Step>)
    requires IsRun(hash, run, steps) && Calm(Last(run)) && Last(run).flush.pc.Stamp?
    ensures IsRun(hash, run', steps') && Continued(run, steps, run', steps', 3)
    ensures Reached(Last(run), Last(run'), NextPlace(Last(run).flush.pc))
  {
    StampGoesOn(hash, run, steps);
    var run1, steps1 := Advance(hash, run, steps, FlushStamp);
    run', steps' := FromSwap(hash, run1, steps1);
    ContinuedOn(run, steps, run1, steps1, 1, run', steps', 2);
  }

  /** One thread of a round. */
  lemma FromScan(hash: ThreadId -> u64, run: seq<State>, steps: seq<Step>) returns (run': seq<State>, steps': seq<Step>)
    requires IsRun(hash, run, steps) && Calm(Last(run)) && Last(run).flush.pc.Scan?
    requires Last(run).flush.pc.i < |Last(run).blocks|
    ensures IsRun(hash, run', steps') && Continued(run, steps, run', steps', 4)
    ensures Reached(Last(run), Last(run'), NextPlace(Last(run).flush.pc))
  {
    ScanTakes(hash, run, steps);
    var run1, steps1 := Advance(hash, run, steps, FlushScan);
    if Last(run1).flush.pc.Scan? {
      run', steps' := run1, steps1;
    } else {
      run', steps' := FromStamp(hash, run1, steps1);
      ContinuedOn(run, steps, run1, steps1, 1, run', steps', 3);
    }
  }

  /** The rest of a round. */
  lemma {:induction false} FinishRound(hash: ThreadId -> u64, run: seq<State>, steps: seq<Step>)
    returns (run': seq<State>, steps': seq<Step>)
    requires IsRun(hash, run, steps) && Calm(Last(run)) && Last(run).flush.pc.Scan?
    requires Last(run).flush.pc.i <= |Last(run).blocks|
    ensures IsRun(hash, run', steps')
    ensures Continued(run, steps, run', steps', 4 * (|Last(run).blocks| - Last(run).flush.pc.i))
    ensures Reached(Last(run), Last(run'), Scan(|Last(run).blocks|, Last(run).flush.pc.allFlushed))
    decreases |Last(run).blocks| - Last(run).flush.pc.i
  {
    var s := Last(run);
    if s.flush.pc.i == |s.blocks| {
      run', steps' := run, steps;
    } else {
      var run1, steps1 := FromScan(hash, run, steps);
      run', steps' := FinishRound(hash, run1, steps1);
      ContinuedOn(run, steps, run1, steps1, 4, run', steps', 4 * (|s.blocks| - s.flush.pc.i - 1));
    }
  }

  /** From anywhere in a round to its end. */
  lemma FinishPlace(hash: ThreadId -> u64, run: seq<State>, steps: seq<Step>)
    returns (run': seq<State>, steps': seq<Step>)
    requires IsRun(hash, run, steps) && Calm(Last(run))
    ensures IsRun(hash, run', steps') && Continued(run, steps, run', steps', 4 * |Last(run).blocks|)
    ensures Reached(Last(run), Last(run'), Scan(|Last(run).blocks|, Last(run).flush.pc.allFlushed))
  {
    PlaceInRange(hash, run, steps);
    var s, run1, steps1 := Last(run), run, steps;
    if s.flush.pc.Stamp? {
      run1, steps1 := FromStamp(hash, run, steps);
    } else if s.flush.pc.Swap? {
      run1, steps1 := FromSwap(hash, run, steps);
    } else if s.flush.pc.Write? {
      run1, steps1 := FromWrite(hash, run, steps);
    }
    run', steps' := FinishRound(hash, run1, steps1);
    ContinuedOn(run, steps, run1, steps1, |steps1| - |steps|, run', steps', 4 * (|s.blocks| - Last(run1).flush.pc.i));
  }

  lemma PlaceInRange(hash: ThreadId -> u64, run: seq<State>, steps: seq<Step>)
    requires IsRun(hash, run, steps) && Last(run).flush.On?
    ensures var s := Last(run); if s.flush.pc.Scan? then s.flush.pc.i <= |s.blocks| else s.flush.pc.i < |s.blocks|
  {
    RunsKeepInv(hash, run, steps, |steps|);
  }

  /** The end of the flush, from the end of a round in which every thread was taken. */
  lemma EndNow(hash: ThreadId -> u64, run: seq<State>, steps: seq<Step>) returns (run': seq<State>, steps': seq<Step>)
    requires IsRun(hash, run, steps) && Calm(Last(run)) && Last(run).flush.pc == Scan(|Last(run).blocks|, true)
    ensures IsRun(hash, run', steps') && Last(run').flush.Off? && run <= run' && steps' == steps + [FlushEnd]
  {
    run', steps' := OneMore(hash, run, steps, FlushEnd);
  }

  lemma RoundAgain(hash: ThreadId -> u64, run: seq<State>, steps: seq<Step>)
    returns (run': seq<State>, steps': seq<Step>)
    requires IsRun(hash, run, steps) && Calm(Last(run)) && Last(run).flush.pc == Scan(|Last(run).blocks|, false)
    ensures IsRun(hash, run', steps') && run <= run' && steps' == steps + [FlushAgain]
    ensures Reached(Last(run), Last(run'), Scan(0, true))
  {
    run', steps' := OneMore(hash, run, steps, FlushAgain);
    FlushStepIdle(hash, Last(run), FlushAgain);
  }

  /** While nobody records, the flush ends: in this round or the next, by its own steps alone. */
  lemma IdleFlushEnds(hash: ThreadId -> u64, run: seq<State>, steps: seq<Step>)
    returns (run': seq<State>, steps': seq<Step>, again: nat)
    requires IsRun(hash, run, steps) && Calm(Last(run))
    ensures IsRun(hash, run', steps') && run <= run' && steps <= steps' && Last(run').flush.Off?
    ensures |steps'| <= |steps| + 8 * |Last(run).blocks| + 2
    ensures forall k :: |steps| <= k < |steps'| ==> FlushStep(steps'[k]) && (steps'[k].FlushAgain? ==> k == again)
  {
    var n := |Last(run).blocks|;
    var run1, steps1 := FinishPlace(hash, run, steps);
    again := |steps1|;
    if Last(run1).flush.pc.allFlushed {
      run', steps' := EndNow(hash, run1, steps1);
    } else {
      var run2, steps2 := RoundAgain(hash, run1, steps1);
      var run3, steps3 := FinishPlace(hash, run2, steps2);
      run', steps' := EndNow(hash, run3, steps3);
      TwoRounds(steps, steps1, steps3);
    }
  }

  lemma TwoRounds(steps: seq<Step>, steps1: seq<Step>, steps3: seq<Step>)
    requires steps <= steps1 && forall k :: |steps| <= k < |steps1| ==> FlushStep(steps1[k]) && !steps1[k].FlushAgain?
    requires steps1 + [FlushAgain] <= steps3
    requires forall k :: |steps1| + 1 <= k < |steps3| ==> FlushStep(steps3[k]) && !steps3[k].FlushAgain?
    ensures forall k :: |steps| <= k < |steps3| ==> FlushStep(steps3[k]) && (steps3[k].FlushAgain? ==> k == |steps1|)
  {
    forall k | |steps| <= k < |steps3|
      ensures FlushStep(steps3[k]) && (steps3[k].FlushAgain? ==> k == |steps1|)
    {
      assert k <= |steps1| ==> steps3[k] == (steps1 + [FlushAgain])[k];
    }
  }

  // ---------- the recorders ----------

  function Zeros(n: nat): seq<byte> {
    seq(n, _ => 0)
  }

  /** What a thread does next to get its event recorded. */
  function NextStep(t: ThreadId, pc: Recorder): Step
    requires !pc.Idle?
  {
    match pc
    case Claiming(_, _) => BeginClaim(t)
    case Claimed(_, _) => BeginMakeRoom(t)
    case Ready(_, request) =>
      BeginAppend(t, Zeros(request.size), Zeros(WriteSize(request.size) - EVENT_HEADER_SIZE - request.size))
    case Open(_) => EndCommit(t)
    case Committed => EndClear(t)
  }

  /** How many steps that is at most. */
  function ToGo(st: ThreadStorage): nat {
    match st.pc
    case Idle => 0
    case Committed => 1
    case Open(_) => 2
    case Ready(_, _) => 3
    case Claimed(_, _) => 4
    case Claiming(expected, _) => if st.data == Some(expected) then 5 else 6
  }

  /** Only this thread has moved. */
  ghost predicate OnlyMoved(s: State, s': State, t: ThreadId) {
    && s'.storages.Keys == s.storages.Keys && s'.blocks == s.blocks && s'.flush == s.flush
    && forall u :: u in s.storages && u != t ==> s'.storages[u] == s.storages[u]
  }

  lemma RecorderAdvances(hash: ThreadId -> u64, s: State, t: ThreadId)
    requires t in s.storages && RecorderCanStep(s, t) && !s.storages[t].pc.Idle?
    ensures var step := NextStep(t, s.storages[t].pc);
            && Enabled(s, step) && OnlyMoved(s, Do(hash, s, step), t)
            && ToGo(Do(hash, s, step).storages[t]) < ToGo(s.storages[t])
  {
  }

  /** A thread that has begun an event can finish it. */
  lemma {:induction false} FinishRecorder(hash: ThreadId -> u64, run: seq<State>, steps: seq<Step>, t: ThreadId)
    returns (run': seq<State>, steps': seq<Step>)
    requires IsRun(hash, run, steps) && t in Last(run).storages
    ensures IsRun(hash, run', steps') && run <= run' && steps <= steps'
    ensures OnlyMoved(Last(run), Last(run'), t) && Last(run').storages[t].pc.Idle?
    decreases ToGo(Last(run).storages[t])
  {
    if Last(run).storages[t].pc.Idle? {
      run', steps' := run, steps;
    } else {
      NoStepCanFail(hash, run, steps, |steps|, t);
      RecorderAdvances(hash, Last(run), t);
      var run1, steps1 := OneMore(hash, run, steps, NextStep(t, Last(run).storages[t].pc));
      run', steps' := FinishRecorder(hash, run1, steps1, t);
    }
  }

  /** So can all, one after the other. */
  lemma {:induction false} FinishRecorders(hash: ThreadId -> u64, run: seq<State>, steps: seq<Step>, k: nat)
    returns (run': seq<State>, steps': seq<Step>)
    requires IsRun(hash, run, steps) && k <= |Last(run).blocks|
    requires forall j :: 0 <= j < |Last(run).blocks| ==> Last(run).blocks[j] in Last(run).storages
    ensures IsRun(hash, run', steps') && run <= run' && steps <= steps'
    ensures var s, s' := Last(run), Last(run');
            && s'.storages.Keys == s.storages.Keys && s'.blocks == s.blocks && s'.flush == s.flush
            && forall j :: 0 <= j < k ==> s'.storages[s.blocks[j]].pc.Idle?
  {
    if k == 0 {
      run', steps' := run, steps;
    } else {
      var run1, steps1 := FinishRecorders(hash, run, steps, k - 1);
      run', steps' := FinishRecorder(hash, run1, steps1, Last(run).blocks[k - 1]);
    }
  }

  lemma BlocksAreThreads(hash: ThreadId -> u64, run: seq<State>, steps: seq<Step>)
    requires IsRun(hash, run, steps)
    ensures forall j :: 0 <= j < |Last(run).blocks| ==> Last(run).blocks[j] in Last(run).storages
    ensures forall t :: t in Last(run).storages ==> t in Last(run).blocks
  {
    RunsKeepInv(hash, run, steps, |steps|);
  }

  /** No flush is ever stuck: whatever has happened, there is a way to go on that ends it. */
  lemma EveryFlushCanEnd(hash: ThreadId -> u64, run: seq<State>, steps: seq<Step>)
    returns (run': seq<State>, steps': seq<Step>)
    requires IsRun(hash, run, steps) && Last(run).flush.On?
    ensures IsRun(hash, run', steps') && run <= run' && steps <= steps' && Last(run').flush.Off?
  {
    BlocksAreThreads(hash, run, steps);
    var run1, steps1 := FinishRecorders(hash, run, steps, |Last(run).blocks|);
    forall t | t in Last(run1).storages
      ensures Last(run1).storages[t].pc.Idle?
    {
      var j :| 0 <= j < |Last(run).blocks| && Last(run).blocks[j] == t;
    }
    var again;
    run', steps', again := IdleFlushEnds(hash, run1, steps1);
  }
}
