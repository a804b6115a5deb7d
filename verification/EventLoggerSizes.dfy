/** Buffer arithmetic over whole runs: every write of a recorder ends inside Buffer. */
module EventLoggerSizes {
  import opened Bytes
  import opened EventLogFormat
  import opened LocalFileEventLogger
  import opened EventLoggerBuffers
  import opened EventLoggerFlush
  import opened EventLoggerRuns
  import ThreadData

  /** The used part of every buffer is a multiple of 8, at least a prolog, and ends inside Buffer, or
      one byte behind it exactly if the last event has more than 65528 bytes. */
  lemma BufferSizes(hash: ThreadId -> u64, run: seq<State>, steps: seq<Step>, i: nat, b: BufferId)
    requires IsRun(hash, run, steps) && i < |run| && b in run[i].heap
    ensures var events := run[i].heap[b].events;
            var used := ThreadData.UsedBytes(Plain(events));
            && PROLOG_SIZE <= used <= BUFFER_SIZE + 1 && used % EVENT_BOUNDARY == 0
            && (used > BUFFER_SIZE <==> EndsBig(events))
  {
    RunsKeepInv(hash, run, steps, i);
    var events := run[i].heap[b].events;
    assert Fits(events);
    ThreadData.UsedAligned(Plain(events));
    if EndsBig(events) {
      LastEventInside(events);
    }
  }

  /** Room is made for what a recorder is about to write: header and payload end inside Buffer. */
  lemma ReadyHasRoom(hash: ThreadId -> u64, run: seq<State>, steps: seq<Step>, i: nat, t: ThreadId)
    requires IsRun(hash, run, steps) && i < |run| && t in run[i].storages && run[i].storages[t].pc.Ready?
    ensures var pc := run[i].storages[t].pc;
            && pc.buffer in run[i].heap
            && var events := Plain(run[i].heap[pc.buffer].events);
               ThreadData.UsedBytes(events) + EVENT_HEADER_SIZE + pc.request.size <= BUFFER_SIZE
  {
    NoStepCanFail(hash, run, steps, i, t);
    RunsKeepInv(hash, run, steps, i);
    var s, pc := run[i], run[i].storages[t].pc;
    assert RoomIsMade(s, t);
    var events := Plain(s.heap[pc.buffer].events);
    ThreadData.UsedAligned(events);
    assert Plain([]) == [];
    ThreadData.FitArithmetic(ThreadData.UsedBytes(events), pc.request.size);
  }

  /** A recorder writes its chunk exactly if the event would reach the end of Buffer, and otherwise leaves
      file and buffers alone. */
  lemma MakeRoomWritesIfFull(hash: ThreadId -> u64, run: seq<State>, steps: seq<Step>, i: nat)
    requires IsRun(hash, run, steps) && i < |steps| && steps[i].BeginMakeRoom?
    ensures steps[i].t in run[i].storages && run[i].storages[steps[i].t].pc.Claimed?
    ensures var s, s', pc := run[i], run[i + 1], run[i].storages[steps[i].t].pc;
            && pc.buffer in s.heap
            && var used := 16 + |EncodeAll(Plain(s.heap[pc.buffer].events))|;
               if ThreadData.EndBehind(used, pc.request.size) < 65559 then s'.file == s.file && s'.heap == s.heap
               else
                 && s'.file == s.file + [s.heap[pc.buffer]]
                 && s'.heap == s.heap[pc.buffer := Buffer(s.heap[pc.buffer].threadId, [])]
  {
    assert IsStep(hash, run[i], steps[i], run[i + 1]);
  }

  lemma PlainOneMore(events: seq<Recorded>, k: nat)
    requires k < |events|
    ensures Plain(events[..k + 1]) == Plain(events[..k]) + [events[k].event]
  {
    assert events[..k + 1] == events[..k] + [events[k]];
    PlainAppend(events[..k], events[k]);
  }

  /** The used part up to an event, and with it. */
  lemma UsedOneMore(events: seq<Recorded>, k: nat)
    requires k < |events|
    ensures ThreadData.UsedBytes(Plain(events[..k + 1]))
         == ThreadData.UsedBytes(Plain(events[..k])) + WriteSize(|events[k].event.payload|)
    ensures ThreadData.UsedBytes(Plain(events[..k])) % EVENT_BOUNDARY == 0
    ensures ThreadData.UsedBytes(Plain(events[..k])) >= PROLOG_SIZE
  {
    PlainOneMore(events, k);
    ThreadData.AppendedLength(Plain(events[..k]), events[k].event);
    ThreadData.UsedAligned(Plain(events[..k]));
  }

  lemma LastEventInside(events: seq<Recorded>)
    requires events != []
    ensures var last := |events| - 1;
            ThreadData.UsedBytes(Plain(events[..last])) + WriteSize(|events[last].event.payload|)
            == ThreadData.UsedBytes(Plain(events))
    ensures EndsBig(events) ==> ThreadData.UsedBytes(Plain(events)) > BUFFER_SIZE
  {
    UsedOneMore(events, |events| - 1);
    assert events[..|events|] == events;
  }

  lemma {:induction false} UsedGrows(events: seq<Recorded>, k: nat, n: nat)
    requires k <= n <= |events|
    ensures ThreadData.UsedBytes(Plain(events[..k])) <= ThreadData.UsedBytes(Plain(events[..n]))
    decreases n
  {
    if k < n {
      UsedGrows(events, k, n - 1);
      UsedOneMore(events, n - 1);
    }
  }

  /** Header and payload of every event in every buffer lie inside Buffer, behind the prolog. */
  lemma EventsLieInside(hash: ThreadId -> u64, run: seq<State>, steps: seq<Step>, i: nat, b: BufferId, k: nat)
    requires IsRun(hash, run, steps) && i < |run| && b in run[i].heap && k < |run[i].heap[b].events|
    ensures var events := run[i].heap[b].events;
            var at := ThreadData.UsedBytes(Plain(events[..k]));
            PROLOG_SIZE <= at && at + EVENT_HEADER_SIZE + |events[k].event.payload| <= BUFFER_SIZE
  {
    RunsKeepInv(hash, run, steps, i);
    FittingEventsLieInside(run[i].heap[b].events, k);
  }

  lemma FittingEventsLieInside(events: seq<Recorded>, k: nat)
    requires Fits(events) && k < |events|
    ensures var at := ThreadData.UsedBytes(Plain(events[..k]));
            PROLOG_SIZE <= at && at + EVENT_HEADER_SIZE + |events[k].event.payload| <= BUFFER_SIZE
  {
    UsedOneMore(events, k);
    UsedGrows(events, k + 1, |events|);
    assert events[..|events|] == events;
    if k + 1 < |events| {
      UsedGrows(events, k + 1, |events| - 1);
      UsedOneMore(events, |events| - 1);
    }
  }

  // ---------- events of at most 65528 bytes ----------

  predicate SmallIn(events: seq<Recorded>) {
    forall k :: 0 <= k < |events| ==> |events[k].event.payload| <= ThreadData.MAX_SIZE_INSIDE
  }

  predicate SmallPending(pc: Recorder) {
    pc.Claiming? || pc.Claimed? || pc.Ready? ==> pc.request.size <= ThreadData.MAX_SIZE_INSIDE
  }

  ghost predicate AllSmall(s: State) {
    && (forall b :: b in s.heap ==> SmallIn(s.heap[b].events))
    && (forall t :: t in s.storages ==> SmallPending(s.storages[t].pc))
  }

  predicate SmallStep(step: Step) {
    step.BeginLoad? ==> step.request.size <= ThreadData.MAX_SIZE_INSIDE
  }

  lemma StepKeepsSmall(hash: ThreadId -> u64, s: State, step: Step)
    requires AllSmall(s) && Enabled(s, step) && SmallStep(step)
    ensures AllSmall(Do(hash, s, step))
  {
    if IsRecorderStep(step) {
      RecorderKeepsSmall(hash, s, step);
    } else {
      OthersKeepSmall(hash, s, step);
    }
  }

  lemma RecorderKeepsSmall(hash: ThreadId -> u64, s: State, step: Step)
    requires AllSmall(s) && Enabled(s, step) && SmallStep(step) && IsRecorderStep(step)
    ensures AllSmall(Do(hash, s, step))
  {
  }

  lemma OthersKeepSmall(hash: ThreadId -> u64, s: State, step: Step)
    requires AllSmall(s) && Enabled(s, step) && !IsRecorderStep(step)
    ensures AllSmall(Do(hash, s, step))
  {
  }

  lemma {:induction false} RunsKeepSmall(hash: ThreadId -> u64, run: seq<State>, steps: seq<Step>, i: nat)
    requires IsRun(hash, run, steps) && i < |run| && forall k :: 0 <= k < i ==> SmallStep(steps[k])
    ensures AllSmall(run[i])
  {
    if i > 0 {
      RunsKeepSmall(hash, run, steps, i - 1);
      assert IsStep(hash, run[i - 1], steps[i - 1], run[i]);
      StepKeepsSmall(hash, run[i - 1], steps[i - 1]);
    }
  }

  /** As long as nobody asks for more than 65528 bytes, no buffer is used beyond Buffer. */
  lemma SmallEventsStayInside(hash: ThreadId -> u64, run: seq<State>, steps: seq<Step>, i: nat, b: BufferId)
    requires IsRun(hash, run, steps) && i < |run| && forall k :: 0 <= k < i ==> SmallStep(steps[k])
    requires b in run[i].heap
    ensures ThreadData.UsedBytes(Plain(run[i].heap[b].events)) <= BUFFER_SIZE
  {
    RunsKeepSmall(hash, run, steps, i);
    BufferSizes(hash, run, steps, i, b);
    assert SmallIn(run[i].heap[b].events);
  }
}
