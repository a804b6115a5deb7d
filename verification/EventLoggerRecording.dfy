/** What reaches the log is what the callers of RecordEventBegin and RecordEventEnd asked for and filled
    in: every committed event traced back to the steps of its thread. */
module EventLoggerRecording {
  import opened Bytes
  import opened Wrappers
  import opened EventLogFormat
  import opened LocalFileEventLogger
  import opened EventLoggerBuffers
  import opened EventLoggerRuns
  import EventLoggerGuards

  // ---------- the steps of one thread ----------

  predicate IsLoad(step: Step, t: ThreadId) {
    step.BeginLoad? && step.t == t
  }

  predicate IsAppend(step: Step, t: ThreadId) {
    step.BeginAppend? && step.t == t
  }

  predicate IsFill(step: Step, t: ThreadId) {
    step.Fill? && step.t == t
  }

  predicate IsCommit(step: Step, t: ThreadId) {
    step.EndCommit? && step.t == t
  }

  function Loads(steps: seq<Step>, t: ThreadId): nat {
    if steps == [] then 0
    else Loads(steps[..|steps| - 1], t) + if IsLoad(steps[|steps| - 1], t) then 1 else 0
  }

  function Commits(steps: seq<Step>, t: ThreadId): nat {
    if steps == [] then 0
    else Commits(steps[..|steps| - 1], t) + if IsCommit(steps[|steps| - 1], t) then 1 else 0
  }

  /** None of the steps between `start` and `end` begins or ends an event of t. */
  ghost predicate NoneBetween(steps: seq<Step>, t: ThreadId, start: int, end: int)
    requires end <= |steps|
  {
    forall k :: 0 <= k && start < k < end ==>
      !IsLoad(steps[k], t) && !IsAppend(steps[k], t) && !IsCommit(steps[k], t)
  }

  /** Event e of thread t was asked for at step `load` and given its header at `append`, and nothing was
      filled in later than at `last`, up to step n: it is what was asked for, holding what was filled in
      last, or what the buffer held if nothing was. */
  ghost predicate RecordedAs(steps: seq<Step>, t: ThreadId, e: Event, load: nat, append: nat, last: nat, n: nat) {
    && load < append <= last < n <= |steps|
    && IsLoad(steps[load], t) && IsAppend(steps[append], t) && (last == append || IsFill(steps[last], t))
    && NoneBetween(steps, t, load, append) && NoneBetween(steps, t, append, n)
    && (forall k :: last < k < n ==> !IsFill(steps[k], t))
    && e.id == steps[load].request.id && e.flags == steps[load].request.flags
    && |e.payload| == steps[load].request.size
    && e.payload == steps[last].payload && e.padding == steps[append].padding
  }

  // ---------- what a step does to a thread's recording ----------

  /** Where a thread's recording stands. */
  datatype Stage = Resting | Asks(request: Request) | Has(event: Event)

  function StageOf(s: State, t: ThreadId): Stage {
    if t !in s.storages then Resting
    else
      match s.storages[t].pc
      case Claiming(_, request) => Asks(request)
      case Claimed(_, request) => Asks(request)
      case Ready(_, request) => Asks(request)
      case Open(buffer) =>
        if CanCommit(s, t) then
          var events := s.heap[buffer].events;
          Has(events[|events| - 1].event)
        else Resting
      case _ => Resting
  }

  /** A request is made, gets its header, is filled in, and is committed. */
  predicate StageStep(before: Stage, step: Step, t: ThreadId, after: Stage) {
    if IsLoad(step, t) then before.Resting? && after == Asks(step.request)
    else if IsAppend(step, t) then
      && before.Asks? && |step.payload| == before.request.size
      && after.Has? && after.event.id == before.request.id && after.event.flags == before.request.flags
      && after.event.payload == step.payload && after.event.padding == step.padding
    else if IsFill(step, t) then
      && before.Has? && |step.payload| == |before.event.payload|
      && after.Has? && after.event.id == before.event.id && after.event.flags == before.event.flags
      && after.event.payload == step.payload && after.event.padding == before.event.padding
    else if IsCommit(step, t) then before.Has? && after.Resting?
    else after == before
  }

  /** The log grows by what is committed. */
  predicate LogStep(log: seq<Event>, before: Stage, step: Step, t: ThreadId, log': seq<Event>) {
    if IsCommit(step, t) then before.Has? && log' == log + [before.event] else log' == log
  }

  /** A step of thread t itself. */
  predicate By(step: Step, t: ThreadId) {
    (IsRecorderStep(step) || step.Exit?) && step.t == t
  }

  ghost predicate OpenIsThere(s: State, t: ThreadId) {
    HasOpenEvent(s, t) ==> CanCommit(s, t) && s.storages[t].data == None
  }

  lemma OwnStage(hash: ThreadId -> u64, s: State, step: Step, t: ThreadId)
    requires Enabled(s, step) && By(step, t) && OpenIsThere(s, t) && StorageOk(s.storages[t])
    requires !IsAppend(step, t) && !IsFill(step, t)
    ensures StageStep(StageOf(s, t), step, t, StageOf(Do(hash, s, step), t))
  {
  }

  lemma AppendStage(s: State, t: ThreadId, payload: seq<byte>, padding: seq<byte>)
    requires CanAppend(s, t, payload, padding)
    ensures StageStep(StageOf(s, t), BeginAppend(t, payload, padding), t, StageOf(DoAppend(s, t, payload, padding), t))
  {
  }

  lemma FillStage(s: State, t: ThreadId, payload: seq<byte>)
    requires CanFill(s, t, payload)
    ensures StageStep(StageOf(s, t), Fill(t, payload), t, StageOf(DoFill(s, t, payload), t))
  {
  }

  lemma PcStays(hash: ThreadId -> u64, s: State, step: Step, t: ThreadId)
    requires Enabled(s, step) && !By(step, t)
    ensures var s' := Do(hash, s, step);
            if t in s.storages then t in s'.storages && s'.storages[t].pc == s.storages[t].pc
            else t in s'.storages ==> s'.storages[t].pc == Idle
  {
  }

  lemma UntouchedStage(s: State, s': State, t: ThreadId)
    requires EventLoggerGuards.ThreadUntouched(s, s', t) && HasOpenEvent(s, t) && StorageOk(s.storages[t])
    ensures StageOf(s', t) == StageOf(s, t)
  {
  }

  lemma OthersStage(hash: ThreadId -> u64, s: State, step: Step, t: ThreadId)
    requires OnePlaceEach(s) && StoragesOk(s) && Enabled(s, step) && !By(step, t)
    ensures StageOf(Do(hash, s, step), t) == StageOf(s, t)
  {
    PcStays(hash, s, step, t);
    if HasOpenEvent(s, t) {
      assert StorageOk(s.storages[t]);
      EventLoggerGuards.ThreadLeft(hash, s, step, t);
      UntouchedStage(s, Do(hash, s, step), t);
    }
  }

  lemma StageSteps(hash: ThreadId -> u64, s: State, step: Step, t: ThreadId)
    requires OnePlaceEach(s) && StoragesOk(s) && OpenIsThere(s, t) && Enabled(s, step)
    ensures StageStep(StageOf(s, t), step, t, StageOf(Do(hash, s, step), t))
  {
    if !By(step, t) {
      OthersStage(hash, s, step, t);
    } else if IsAppend(step, t) {
      AppendStage(s, t, step.payload, step.padding);
    } else if IsFill(step, t) {
      FillStage(s, t, step.payload);
    } else {
      assert StorageOk(s.storages[t]);
      OwnStage(hash, s, step, t);
    }
  }

  lemma LogSteps(hash: ThreadId -> u64, s: State, step: Step, t: ThreadId)
    requires OpenIsThere(s, t) && Enabled(s, step)
    ensures LogStep(LogOf(s, t), StageOf(s, t), step, t, LogOf(Do(hash, s, step), t))
  {
    if IsCommit(step, t) {
      CommitLogs(s, t);
    } else {
      LogStays(hash, s, step, t);
    }
  }

  lemma CommitLogs(s: State, t: ThreadId)
    requires CanCommit(s, t) && s.storages[t].data == None
    ensures StageOf(s, t).Has? && LogOf(DoCommit(s, t), t) == LogOf(s, t) + [StageOf(s, t).event]
  {
  }

  lemma LogStays(hash: ThreadId -> u64, s: State, step: Step, t: ThreadId)
    requires Enabled(s, step) && !IsCommit(step, t)
    ensures LogOf(Do(hash, s, step), t) == LogOf(s, t)
  {
  }

  // ---------- the history of one thread ----------

  datatype Moment = Moment(stage: Stage, log: seq<Event>)

  ghost predicate IsHistory(history: seq<Moment>, steps: seq<Step>, t: ThreadId) {
    && |history| == |steps| + 1 && history[0] == Moment(Resting, [])
    && forall n :: 0 <= n < |steps| ==> StepAt(history, steps, t, n)
  }

  ghost predicate StepAt(history: seq<Moment>, steps: seq<Step>, t: ThreadId, n: nat)
    requires n < |steps| < |history|
  {
    && StageStep(history[n].stage, steps[n], t, history[n + 1].stage)
    && LogStep(history[n].log, history[n].stage, steps[n], t, history[n + 1].log)
  }

  /** How it goes on in a run, state by state. */
  function HistoryOf(run: seq<State>, t: ThreadId): (r: seq<Moment>)
    ensures |r| == |run| && forall i :: 0 <= i < |r| ==> r[i] == Moment(StageOf(run[i], t), LogOf(run[i], t))
  {
    seq(|run|, i requires 0 <= i < |run| => Moment(StageOf(run[i], t), LogOf(run[i], t)))
  }

  lemma MomentAt(hash: ThreadId -> u64, run: seq<State>, steps: seq<Step>, t: ThreadId, n: nat)
    requires IsRun(hash, run, steps) && n < |steps|
    ensures StageStep(StageOf(run[n], t), steps[n], t, StageOf(run[n + 1], t))
    ensures LogStep(LogOf(run[n], t), StageOf(run[n], t), steps[n], t, LogOf(run[n + 1], t))
  {
    RunsKeepInv(hash, run, steps, n);
    assert IsStep(hash, run[n], steps[n], run[n + 1]);
    OpenEventIsThere(hash, run[n], t);
    StageSteps(hash, run[n], steps[n], t);
    LogSteps(hash, run[n], steps[n], t);
  }

  lemma OpenEventIsThere(hash: ThreadId -> u64, s: State, t: ThreadId)
    requires Inv(hash, s)
    ensures OpenIsThere(s, t)
  {
    if t in s.storages {
      RecorderSteps(hash, s, t);
      assert StorageOk(s.storages[t]);
    }
  }

  lemma RunIsHistory(hash: ThreadId -> u64, run: seq<State>, steps: seq<Step>, t: ThreadId)
    requires IsRun(hash, run, steps)
    ensures IsHistory(HistoryOf(run, t), steps, t)
  {
    forall n | 0 <= n < |steps|
      ensures StepAt(HistoryOf(run, t), steps, t, n)
    {
      MomentAt(hash, run, steps, t, n);
    }
  }

  // ---------- from the log back to the steps ----------

  lemma {:induction false} AskedFor(history: seq<Moment>, steps: seq<Step>, t: ThreadId, i: nat) returns (load: nat)
    requires IsHistory(history, steps, t) && i < |history| && history[i].stage.Asks?
    ensures load < i && IsLoad(steps[load], t) && steps[load].request == history[i].stage.request
    ensures NoneBetween(steps, t, load, i)
  {
    assert StepAt(history, steps, t, i - 1);
    if IsLoad(steps[i - 1], t) {
      load := i - 1;
    } else {
      load := AskedFor(history, steps, t, i - 1);
    }
  }

  lemma {:induction false} OpenedAs(history: seq<Moment>, steps: seq<Step>, t: ThreadId, i: nat)
    returns (load: nat, append: nat, last: nat)
    requires IsHistory(history, steps, t) && i < |history| && history[i].stage.Has?
    ensures RecordedAs(steps, t, history[i].stage.event, load, append, last, i)
  {
    assert StepAt(history, steps, t, i - 1);
    if IsAppend(steps[i - 1], t) {
      load := AskedFor(history, steps, t, i - 1);
      append, last := i - 1, i - 1;
    } else {
      load, append, last := OpenedAs(history, steps, t, i - 1);
      if IsFill(steps[i - 1], t) {
        last := i - 1;
      }
    }
  }

  /** Where an event came into the log. */
  lemma {:induction false} CommittedAt(history: seq<Moment>, steps: seq<Step>, t: ThreadId, i: nat, k: nat)
    returns (commit: nat)
    requires IsHistory(history, steps, t) && i < |history| && k < |history[i].log|
    ensures commit < i && IsCommit(steps[commit], t) && |history[commit].log| == k
    ensures history[commit].stage == Has(history[i].log[k])
  {
    assert StepAt(history, steps, t, i - 1);
    if k < |history[i - 1].log| {
      commit := CommittedAt(history, steps, t, i - 1, k);
    } else {
      commit := i - 1;
    }
  }

  // ---------- how many ----------

  /** Every commit is one event of the log, and every request is committed or under way. */
  lemma {:induction false} LogCounts(history: seq<Moment>, steps: seq<Step>, t: ThreadId, i: nat)
    requires IsHistory(history, steps, t) && i < |history|
    ensures |history[i].log| == Commits(steps[..i], t)
    ensures Loads(steps[..i], t) == Commits(steps[..i], t) + if history[i].stage.Resting? then 0 else 1
  {
    if i > 0 {
      assert StepAt(history, steps, t, i - 1);
      assert steps[..i][..i - 1] == steps[..i - 1];
      LogCounts(history, steps, t, i - 1);
    }
  }

  lemma {:induction false} CommitsStay(steps: seq<Step>, t: ThreadId, start: nat, end: nat)
    requires start <= end <= |steps| && forall k :: start <= k < end ==> !IsCommit(steps[k], t)
    ensures Commits(steps[..end], t) == Commits(steps[..start], t)
    decreases end
  {
    if start < end {
      assert steps[..end][..end - 1] == steps[..end - 1];
      CommitsStay(steps, t, start, end - 1);
    }
  }

  // ---------- the results ----------

  /** And it is the event of thread t with number k: so many were asked for, and committed, before it. */
  ghost predicate LoggedAs(steps: seq<Step>, t: ThreadId, e: Event, k: nat, load: nat, append: nat, last: nat,
                           commit: nat)
  {
    && RecordedAs(steps, t, e, load, append, last, commit)
    && commit < |steps| && IsCommit(steps[commit], t)
    && Loads(steps[..load], t) == k && Commits(steps[..commit], t) == k
  }

  lemma HistoryLogs(history: seq<Moment>, steps: seq<Step>, t: ThreadId, i: nat, k: nat)
    returns (load: nat, append: nat, last: nat, commit: nat)
    requires IsHistory(history, steps, t) && i < |history| && k < |history[i].log|
    ensures commit < i && LoggedAs(steps, t, history[i].log[k], k, load, append, last, commit)
  {
    commit := CommittedAt(history, steps, t, i, k);
    load, append, last := OpenedAs(history, steps, t, commit);
    LogCounts(history, steps, t, commit);
    LogCounts(history, steps, t, load);
    CommitsStay(steps, t, load, commit);
    assert StepAt(history, steps, t, load);
  }

  /** Event k of a thread's log is, to the last byte, the thread's event number k: the one its k-th
      RecordEventBegin asked for and its k-th RecordEventEnd committed, holding what the caller filled in
      last. */
  lemma LogIsWhatWasAsked(hash: ThreadId -> u64, run: seq<State>, steps: seq<Step>, i: nat, t: ThreadId, k: nat)
    returns (load: nat, append: nat, last: nat, commit: nat)
    requires IsRun(hash, run, steps) && i < |run| && k < |LogOf(run[i], t)|
    ensures commit < i && LoggedAs(steps, t, LogOf(run[i], t)[k], k, load, append, last, commit)
  {
    RunIsHistory(hash, run, steps, t);
    load, append, last, commit := HistoryLogs(HistoryOf(run, t), steps, t, i, k);
  }

  /** And the log has an event for every one of its commits, so for every event asked for but the one
      under way. */
  lemma LogHasAllCommitted(hash: ThreadId -> u64, run: seq<State>, steps: seq<Step>, i: nat, t: ThreadId)
    requires IsRun(hash, run, steps) && i < |run|
    ensures |LogOf(run[i], t)| == Commits(steps[..i], t)
    ensures Commits(steps[..i], t) <= Loads(steps[..i], t) <= Commits(steps[..i], t) + 1
  {
    RunIsHistory(hash, run, steps, t);
    LogCounts(HistoryOf(run, t), steps, t, i);
  }

  /** So it is in the file. */
  lemma FileHoldsWhatWasAsked(hash: ThreadId -> u64, run: seq<State>, steps: seq<Step>, i: nat, c: nat, k: nat)
    returns (load: nat, append: nat, last: nat, commit: nat)
    requires IsRun(hash, run, steps) && i < |run| && c < |run[i].file| && k < |run[i].file[c].events|
    ensures var r := run[i].file[c].events[k];
            commit < i && LoggedAs(steps, r.thread, r.event, r.no, load, append, last, commit)
  {
    FileHoldsCommittedEvents(hash, run, steps, i, c, k);
    var r := run[i].file[c].events[k];
    load, append, last, commit := LogIsWhatWasAsked(hash, run, steps, i, r.thread, r.no);
  }

  // ---------- anything can be recorded ----------

  /** Same run, more steps, of which the log has not heard. */
  ghost predicate Quietly(run: seq<State>, steps: seq<Step>, run': seq<State>, steps': seq<Step>, more: seq<Step>,
                          t: ThreadId)
  {
    run <= run' && run != [] && run' != [] && steps' == steps + more && LogOf(Last(run'), t) == LogOf(Last(run), t)
  }

  lemma TakeBuffer(hash: ThreadId -> u64, run: seq<State>, steps: seq<Step>, t: ThreadId, request: Request)
    returns (run': seq<State>, steps': seq<Step>)
    requires IsRun(hash, run, steps) && t in Last(run).storages && Last(run).storages[t].pc.Idle?
    ensures IsRun(hash, run', steps')
    ensures Quietly(run, steps, run', steps', [BeginLoad(t, request), BeginClaim(t), BeginMakeRoom(t)], t)
    ensures var s' := Last(run');
            t in s'.storages && s'.storages[t].pc.Ready? && s'.storages[t].pc.request == request
            && s'.storages[t].pc.buffer in s'.heap
  {
    NoStepCanFail(hash, run, steps, |steps|, t);
    run', steps' := OneMore(hash, run, steps, BeginLoad(t, request));
    run', steps' := OneMore(hash, run', steps', BeginClaim(t));
    NoStepCanFail(hash, run', steps', |steps'|, t);
    run', steps' := OneMore(hash, run', steps', BeginMakeRoom(t));
  }

  lemma WriteEvent(hash: ThreadId -> u64, run: seq<State>, steps: seq<Step>, t: ThreadId, found: seq<byte>,
                   payload: seq<byte>, padding: seq<byte>)
    returns (run': seq<State>, steps': seq<Step>)
    requires IsRun(hash, run, steps) && CanAppend(Last(run), t, found, padding) && |payload| == |found|
    ensures IsRun(hash, run', steps')
    ensures Quietly(run, steps, run', steps', [BeginAppend(t, found, padding), Fill(t, payload)], t)
    ensures var s', request := Last(run'), Last(run).storages[t].pc.request;
            CanCommit(s', t) && StageOf(s', t).Has?
            && StageOf(s', t).event == Event(request.id, request.flags, payload, padding)
  {
    AppendStage(Last(run), t, found, padding);
    run', steps' := OneMore(hash, run, steps, BeginAppend(t, found, padding));
    FillStage(Last(run'), t, payload);
    run', steps' := OneMore(hash, run', steps', Fill(t, payload));
  }

  lemma CommitEvent(hash: ThreadId -> u64, run: seq<State>, steps: seq<Step>, t: ThreadId)
    returns (run': seq<State>, steps': seq<Step>)
    requires IsRun(hash, run, steps) && CanCommit(Last(run), t) && StageOf(Last(run), t).Has?
    ensures IsRun(hash, run', steps') && run <= run' && steps' == steps + [EndCommit(t), EndClear(t)]
    ensures LogOf(Last(run'), t) == LogOf(Last(run), t) + [StageOf(Last(run), t).event]
    ensures t in Last(run').storages && Last(run').storages[t].pc.Idle?
  {
    OpenHasNoSlot(hash, run, steps, t);
    CommitThenClear(Last(run), t);
    run', steps' := OneMore(hash, run, steps, EndCommit(t));
    run', steps' := OneMore(hash, run', steps', EndClear(t));
  }

  lemma OpenHasNoSlot(hash: ThreadId -> u64, run: seq<State>, steps: seq<Step>, t: ThreadId)
    requires IsRun(hash, run, steps) && CanCommit(Last(run), t)
    ensures Last(run).storages[t].data == None
  {
    RunsKeepInv(hash, run, steps, |steps|);
    OpenEventIsThere(hash, Last(run), t);
  }

  lemma CommitThenClear(s: State, t: ThreadId)
    requires CanCommit(s, t) && s.storages[t].data == None && StageOf(s, t).Has?
    ensures CanEndClear(DoCommit(s, t), t)
    ensures var s' := DoEndClear(DoCommit(s, t), t);
            LogOf(s', t) == LogOf(s, t) + [StageOf(s, t).event] && t in s'.storages && s'.storages[t].pc.Idle?
  {
    CommitLogs(s, t);
  }

  /** A registered thread that is not recording can record any event, whatever the others are doing: it
      takes seven steps of its own, and its log has one more event, that one. */
  lemma AnyEventCanBeRecorded(hash: ThreadId -> u64, run: seq<State>, steps: seq<Step>, t: ThreadId, request: Request,
                              found: seq<byte>, payload: seq<byte>, padding: seq<byte>)
    returns (run': seq<State>, steps': seq<Step>)
    requires IsRun(hash, run, steps) && t in Last(run).storages && Last(run).storages[t].pc.Idle?
    requires |found| == |payload| == request.size
    requires ValidEvent(Event(request.id, request.flags, payload, padding))
    ensures IsRun(hash, run', steps') && run <= run' && |steps'| == |steps| + 7
    ensures LogOf(Last(run'), t) == LogOf(Last(run), t) + [Event(request.id, request.flags, payload, padding)]
    ensures t in Last(run').storages && Last(run').storages[t].pc.Idle?
  {
    run', steps' := TakeBuffer(hash, run, steps, t, request);
    run', steps' := WriteEvent(hash, run', steps', t, found, payload, padding);
    run', steps' := CommitEvent(hash, run', steps', t);
  }

  /** While no flush is on and fewer than 512 threads are registered, one more can register. */
  lemma NewThreadCanRegister(hash: ThreadId -> u64, run: seq<State>, steps: seq<Step>, t: ThreadId, b: BufferId)
    returns (run': seq<State>, steps': seq<Step>)
    requires IsRun(hash, run, steps) && t !in Last(run).storages && b !in Last(run).heap
    requires Last(run).flush.Off? && |Last(run).blocks| < 512
    ensures IsRun(hash, run', steps') && run <= run' && steps' == steps + [Register(t, b)]
    ensures Last(run').blocks == Last(run).blocks + [t] && LogOf(Last(run'), t) == LogOf(Last(run), t)
    ensures t in Last(run').storages && Last(run').storages[t].pc.Idle?
  {
    run', steps' := OneMore(hash, run, steps, Register(t, b));
  }

  /** And a flush can start. */
  lemma FlushCanStart(hash: ThreadId -> u64, run: seq<State>, steps: seq<Step>, b: BufferId)
    returns (run': seq<State>, steps': seq<Step>)
    requires IsRun(hash, run, steps) && Last(run).flush.Off? && b !in Last(run).heap
    ensures IsRun(hash, run', steps') && run <= run' && steps' == steps + [FlushStart(b)]
    ensures Last(run').flush.On? && Last(run').blocks == Last(run).blocks && Last(run').file == Last(run).file
  {
    run', steps' := OneMore(hash, run, steps, FlushStart(b));
  }
}
