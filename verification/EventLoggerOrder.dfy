/** Over whole runs: a thread's chunks are in the file in order unless the thread itself overtakes a
    buffer a flush has taken from it and not written yet. */
module EventLoggerOrder {
  import opened Bytes
  import opened LocalFileEventLogger
  import opened EventLoggerBuffers
  import opened EventLoggerRuns
  import opened EventLoggerFile

  // ---------- windows ----------

  /** Between these two places, j included, there is a mark at j and no end. */
  predicate Before(marks: seq<bool>, ends: seq<bool>, j: nat, i: nat)
    requires i <= |marks| == |ends|
  {
    j < i && marks[j] && forall k :: j < k < i ==> !ends[k]
  }

  predicate Since(marks: seq<bool>, ends: seq<bool>, i: nat)
    requires i <= |marks| == |ends|
  {
    exists j: nat | j < i :: Before(marks, ends, j, i)
  }

  lemma OneStepLater(marks: seq<bool>, ends: seq<bool>, i: nat)
    requires 0 < i <= |marks| == |ends| && !ends[i - 1]
    ensures Since(marks, ends, i) <==> Since(marks, ends, i - 1) || marks[i - 1]
  {
    if marks[i - 1] {
      assert Before(marks, ends, i - 1, i);
    }
    if Since(marks, ends, i - 1) {
      var j: nat :| j < i - 1 && Before(marks, ends, j, i - 1);
      assert Before(marks, ends, j, i);
    }
    if Since(marks, ends, i) {
      var j: nat :| j < i && Before(marks, ends, j, i);
      assert j < i - 1 ==> Before(marks, ends, j, i - 1);
    }
  }

  /** Which steps overtake, and which write what a flush has taken. */
  ghost function Overtaking(run: seq<State>, steps: seq<Step>): (marks: seq<bool>)
    requires |run| == |steps| + 1
    ensures |marks| == |steps| && forall j :: 0 <= j < |steps| ==> marks[j] == Overtakes(run[j], steps[j])
  {
    seq(|steps|, j requires 0 <= j < |steps| => Overtakes(run[j], steps[j]))
  }

  function Writing(steps: seq<Step>): (ends: seq<bool>)
    ensures |ends| == |steps| && forall j :: 0 <= j < |steps| ==> ends[j] == steps[j].FlushWrite?
  {
    seq(|steps|, j requires 0 <= j < |steps| => steps[j].FlushWrite?)
  }

  // ---------- from the swap to the write ----------

  /** What the flush has taken stays in its hands until it writes it. */
  lemma TakenUntilWritten(hash: ThreadId -> u64, s: State, step: Step)
    requires OnePlaceEach(s) && StoragesOk(s) && Enabled(s, step) && CanFlushWrite(s) && !step.FlushWrite?
    ensures CanFlushWrite(Do(hash, s, step))
  {
    assert IsRecorderStep(step);
    TakenUntouched(hash, s, step);
  }

  predicate AtWrite(s: State) {
    s.flush.On? && s.flush.pc.Write?
  }

  lemma OnlySwapTakes(hash: ThreadId -> u64, s: State, step: Step)
    requires Enabled(s, step) && !AtWrite(s) && AtWrite(Do(hash, s, step))
    ensures step.FlushSwap? && CanFlushSwap(s)
  {
  }

  lemma AtWriteCanWrite(hash: ThreadId -> u64, s: State)
    requires BuffersOk(hash, s) && LoopOk(s.flush, |s.blocks|) && AtWrite(s)
    ensures CanFlushWrite(s)
  {
    assert FlusherBufferOk(hash, s);
  }

  lemma TakenOneStep(hash: ThreadId -> u64, run: seq<State>, steps: seq<Step>, i: nat)
    requires IsRun(hash, run, steps) && i < |steps| && AtWrite(run[i]) && !steps[i].FlushWrite?
    ensures AtWrite(run[i + 1])
  {
    RunsKeepInv(hash, run, steps, i);
    AtWriteCanWrite(hash, run[i]);
    assert IsStep(hash, run[i], steps[i], run[i + 1]);
    TakenUntilWritten(hash, run[i], steps[i]);
  }

  lemma {:induction false} InHandsUntilWritten(hash: ThreadId -> u64, run: seq<State>, steps: seq<Step>, j: nat, i: nat)
    requires IsRun(hash, run, steps) && j <= i <= |steps| && AtWrite(run[j])
    requires forall k :: j <= k < i ==> !Writing(steps)[k]
    ensures AtWrite(run[i])
    decreases i
  {
    if j < i {
      InHandsUntilWritten(hash, run, steps, j, i - 1);
      assert !Writing(steps)[i - 1];
      TakenOneStep(hash, run, steps, i - 1);
    }
  }

  /** Whether the taken buffer is overtaken after one more step. */
  lemma OvertakenOneStep(hash: ThreadId -> u64, run: seq<State>, steps: seq<Step>, i: nat)
    requires IsRun(hash, run, steps) && i < |steps| && AtWrite(run[i + 1])
    ensures AtWrite(run[i]) ==> !steps[i].FlushWrite? && CanFlushWrite(run[i])
                                && (Overtaken(run[i + 1]) <==> Overtaken(run[i]) || Overtakes(run[i], steps[i]))
    ensures !AtWrite(run[i]) ==> !Overtaken(run[i + 1])
  {
    RunsKeepInv(hash, run, steps, i);
    assert IsStep(hash, run[i], steps[i], run[i + 1]);
    if AtWrite(run[i]) {
      AtWriteCanWrite(hash, run[i]);
      OvertakenExactlyByOvertaking(hash, run[i], steps[i]);
    } else {
      OnlySwapTakes(hash, run[i], steps[i]);
      NotOvertakenAtSwap(hash, run[i]);
    }
  }

  lemma NothingBeforeSwap(hash: ThreadId -> u64, run: seq<State>, steps: seq<Step>, i: nat)
    requires IsRun(hash, run, steps) && 0 < i <= |steps| && !AtWrite(run[i - 1])
    ensures !Since(Overtaking(run, steps), Writing(steps), i)
  {
    var marks, ends := Overtaking(run, steps), Writing(steps);
    forall j: nat | j < i && marks[j]
      ensures !Before(marks, ends, j, i)
    {
      assert Overtakes(run[j], steps[j]) && !steps[j].FlushWrite?;
      if Before(marks, ends, j, i) {
        InHandsUntilWritten(hash, run, steps, j, i - 1);
        assert false;
      }
    }
  }

  /** The buffer a flush holds has been overtaken exactly if a step has overtaken it since its swap. */
  lemma {:induction false} OvertakenBySteps(hash: ThreadId -> u64, run: seq<State>, steps: seq<Step>, i: nat)
    requires IsRun(hash, run, steps) && i <= |steps| && AtWrite(run[i])
    ensures Overtaken(run[i]) <==> Since(Overtaking(run, steps), Writing(steps), i)
    decreases i
  {
    if i > 0 {
      OvertakenOneStep(hash, run, steps, i - 1);
      if AtWrite(run[i - 1]) {
        OvertakenBySteps(hash, run, steps, i - 1);
        OneStepLater(Overtaking(run, steps), Writing(steps), i);
      } else {
        NothingBeforeSwap(hash, run, steps, i);
      }
    }
  }

  /** In every run: each thread's chunks end up in the file in the order the thread recorded them
      exactly if no flush writes a buffer that a step has overtaken since the write before. */
  lemma FileOrderIsKeptUnlessAStepOvertakes(hash: ThreadId -> u64, run: seq<State>, steps: seq<Step>, n: nat)
    requires IsRun(hash, run, steps) && n < |run|
    ensures FileOrdered(run[n])
       <==> forall i, j: nat :: 0 <= j < i < n && steps[i].FlushWrite? ==>
              !Before(Overtaking(run, steps), Writing(steps), j, i)
  {
    FileOrderIsKeptUnlessOvertaken(hash, run, steps, n);
    forall i | 0 <= i < n && steps[i].FlushWrite?
      ensures Overtaken(run[i]) <==> Since(Overtaking(run, steps), Writing(steps), i)
    {
      assert IsStep(hash, run[i], steps[i], run[i + 1]);
      OvertakenBySteps(hash, run, steps, i);
    }
  }
}
