/** Flush progress and buffer sizes over the steps of the protocol. */
module EventLoggerFlush {
  import opened Seqs
  import opened Bytes
  import opened Wrappers
  import opened LocalFileEventLogger
  import opened EventLoggerPlaces
  import opened EventLoggerBuffers
  import ThreadData

  // ---------- what a flush has taken stays taken ----------

  /** The progress made so far survives a step that leaves the loop's books alone. */
  lemma ProgressStays(s: State, s': State)
    requires FlushProgress(s)
    requires s.flush.On? && s'.flush.On? && s'.blocks == s.blocks
    requires s'.flush.committedAtStart == s.flush.committedAtStart && s'.flush.swaps == s.flush.swaps
    requires forall t :: |LogOf(s', t)| >= |LogOf(s, t)|
    requires forall t, floor: nat :: floor <= |LogOf(s, t)| && OwnIsNew(s, t, floor) ==> OwnIsNew(s', t, floor)
    ensures FlushProgress(s')
  {
  }

  lemma UntouchedStayNew(s: State, s': State)
    requires s'.log == s.log
    requires forall t :: Own(s', t) == Own(s, t)
    requires forall t :: Own(s, t).Some? && Own(s', t).value in s'.heap ==>
               Own(s, t).value in s.heap && s'.heap[Own(s, t).value].events == s.heap[Own(s, t).value].events
    ensures forall t, floor: nat :: OwnIsNew(s, t, floor) ==> OwnIsNew(s', t, floor)
  {
  }

  lemma ConfinedStayNew(s: State, s': State, t: ThreadId)
    requires Confined(s, s', t)
    requires forall u :: u != t ==> Own(s, u) != Own(s, t)
    ensures forall u, floor: nat :: u != t && OwnIsNew(s, u, floor) ==> OwnIsNew(s', u, floor)
  {
  }

  /** What a recorder's step leaves in its own buffer is the old front, or a new event. */
  ghost predicate FrontStays(s: State, s': State, t: ThreadId) {
    forall floor: nat :: floor <= |LogOf(s, t)| && OwnIsNew(s, t, floor) ==> OwnIsNew(s', t, floor)
  }

  lemma QuietFrontStays(s: State, t: ThreadId)
    requires t in s.storages && StorageOk(s.storages[t])
    ensures forall request :: CanBeginLoad(s, t) ==> FrontStays(s, DoBeginLoad(s, t, request), t)
    ensures CanBeginClaim(s, t) ==> FrontStays(s, DoBeginClaim(s, t), t)
    ensures CanMakeRoom(s, t) ==> FrontStays(s, DoMakeRoom(s, t), t)
    ensures CanCommit(s, t) ==> FrontStays(s, DoCommit(s, t), t)
    ensures CanEndClear(s, t) ==> FrontStays(s, DoEndClear(s, t), t)
  {
  }

  lemma WritingFrontStays(s: State, t: ThreadId, payload: seq<byte>, padding: seq<byte>)
    requires t in s.storages && StorageOk(s.storages[t])
    ensures CanAppend(s, t, payload, padding) ==> FrontStays(s, DoAppend(s, t, payload, padding), t)
    ensures CanFill(s, t, payload) ==> FrontStays(s, DoFill(s, t, payload), t)
  {
  }

  lemma RecorderFrontStays(hash: ThreadId -> u64, s: State, step: Step)
    requires IsRecorderStep(step) && Enabled(s, step) && StorageOk(s.storages[step.t])
    ensures FrontStays(s, Do(hash, s, step), step.t)
  {
    match step
    case BeginAppend(t, payload, padding) => WritingFrontStays(s, t, payload, padding);
    case Fill(t, payload) => WritingFrontStays(s, t, payload, []);
    case BeginLoad(t, _) => QuietFrontStays(s, t);
    case BeginClaim(t) => QuietFrontStays(s, t);
    case BeginMakeRoom(t) => QuietFrontStays(s, t);
    case EndCommit(t) => QuietFrontStays(s, t);
    case EndClear(t) => QuietFrontStays(s, t);
  }

  lemma RecorderProgress(s: State, s': State, t: ThreadId)
    requires FlushProgress(s) && OnePlaceEach(s) && Own(s, t).Some?
    requires Confined(s, s', t) && FrontStays(s, s', t)
    ensures FlushProgress(s')
  {
    OwnIsApart(s, t);
    ConfinedStayNew(s, s', t);
    if s.flush.On? {
      ProgressStays(s, s');
    }
  }

  lemma FlushLoopProgress(s: State)
    requires FlushProgress(s) && OnePlaceEach(s)
    ensures CanFlushScan(s) ==> FlushProgress(DoFlushScan(s))
    ensures CanFlushStamp(s) ==> FlushProgress(DoFlushStamp(s))
    ensures CanFlushRound(s, false) ==> FlushProgress(DoFlushAgain(s))
  {
    if s.flush.On? {
      FlusherIsApart(s);
    }
    if CanFlushScan(s) {
      UntouchedStayNew(s, DoFlushScan(s));
      ProgressStays(s, DoFlushScan(s));
    }
    if CanFlushStamp(s) {
      UntouchedStayNew(s, DoFlushStamp(s));
      ProgressStays(s, DoFlushStamp(s));
    }
    if CanFlushRound(s, false) {
      UntouchedStayNew(s, DoFlushAgain(s));
      ProgressStays(s, DoFlushAgain(s));
    }
  }

  lemma FlushWriteProgress(s: State)
    requires FlushProgress(s) && OnePlaceEach(s) && CanFlushWrite(s)
    ensures FlushProgress(DoFlushWrite(s))
  {
    FlusherIsApart(s);
    UntouchedStayNew(s, DoFlushWrite(s));
    ProgressStays(s, DoFlushWrite(s));
  }

  lemma FlushSwapProgress(hash: ThreadId -> u64, s: State)
    requires FlushProgress(s) && FlusherBufferOk(hash, s) && NoRepeats(s.blocks) && CanFlushSwap(s)
    ensures FlushProgress(DoFlushSwap(s))
  {
    var s', t := DoFlushSwap(s), s.blocks[s.flush.pc.i];
    assert forall u, floor: nat :: u != t && OwnIsNew(s, u, floor) ==> OwnIsNew(s', u, floor);
    if s.storages[t].data != Some(s.flush.pc.expected) {
      UntouchedStayNew(s, s');
      ProgressStays(s, s');
    }
  }

  lemma KeepsFlushProgress(hash: ThreadId -> u64, s: State, step: Step)
    requires OnePlaceEach(s) && StoragesOk(s) && RegisteredOk(s) && BuffersOk(hash, s) && FlushProgress(s)
    requires Enabled(s, step)
    ensures FlushProgress(Do(hash, s, step))
  {
    if IsRecorderStep(step) {
      assert OwnBufferOk(hash, s, step.t);
      RecorderFrontStays(hash, s, step);
      RecorderStepIsGood(hash, s, step);
      RecorderProgress(s, Do(hash, s, step), step.t);
    } else {
      OtherProgress(hash, s, step);
    }
  }

  lemma OtherProgress(hash: ThreadId -> u64, s: State, step: Step)
    requires OnePlaceEach(s) && NoRepeats(s.blocks) && FlusherBufferOk(hash, s) && FlushProgress(s)
    requires !IsRecorderStep(step) && Enabled(s, step)
    ensures FlushProgress(Do(hash, s, step))
  {
    match step
    case Register(t, b) =>
    case Exit(t) =>
    case FlushStart(b) =>
    case FlushEnd =>
    case FlushSwap => FlushSwapProgress(hash, s);
    case FlushWrite => FlushWriteProgress(s);
    case FlushScan => FlushLoopProgress(s);
    case FlushStamp => FlushLoopProgress(s);
    case FlushAgain => FlushLoopProgress(s);
  }

  // ---------- sizes ----------

  lemma PlainAppend(events: seq<Recorded>, r: Recorded)
    ensures Plain(events + [r]) == Plain(events) + [r.event]
  {
  }

  lemma EmptyFits()
    ensures Fits([])
  {
    assert Plain([]) == [];
  }

  lemma AppendFits(events: seq<Recorded>, r: Recorded)
    requires Plain(events) == ThreadData.AfterMakingRoom(Plain(events), |r.event.payload|)
    ensures Fits(events + [r])
  {
    PlainAppend(events, r);
    ThreadData.EventFits(Plain(events), r.event);
  }

  lemma RefilledFits(events: seq<Recorded>, payload: seq<byte>)
    requires events != [] && |payload| == |events[|events| - 1].event.payload| && Fits(events)
    ensures Fits(Refilled(events, payload))
  {
    var last := |events| - 1;
    var room, r, r' := events[..last], events[last], Refilled(events, payload)[last];
    assert events == room + [r] && Refilled(events, payload) == room + [r'];
    PlainAppend(room, r);
    PlainAppend(room, r');
    ThreadData.AppendedLength(Plain(room), r.event);
    ThreadData.AppendedLength(Plain(room), r'.event);
  }

  lemma MakeRoomMakesRoom(s: State, t: ThreadId)
    requires CanMakeRoom(s, t)
    ensures RoomIsMade(DoMakeRoom(s, t), t)
    ensures Fits(s.heap[s.storages[t].pc.buffer].events) ==>
              Fits(DoMakeRoom(s, t).heap[s.storages[t].pc.buffer].events)
  {
    EmptyFits();
    assert Plain([]) == [];
  }

  /** A recorder's step keeps its own buffer within size and the room it has made. */
  ghost predicate FitStep(s: State, s': State, t: ThreadId)
    requires t in s.storages
  {
    && t in s'.storages
    && (RoomIsMade(s, t) ==> RoomIsMade(s', t))
    && (RoomIsMade(s, t) && Own(s, t).Some? && Own(s, t).value in s.heap && Own(s, t).value in s'.heap
          && Fits(s.heap[Own(s, t).value].events) ==>
          Fits(s'.heap[Own(s, t).value].events))
  }

  lemma QuietFitSteps(s: State, t: ThreadId)
    requires t in s.storages && StorageOk(s.storages[t])
    ensures forall request :: CanBeginLoad(s, t) ==> FitStep(s, DoBeginLoad(s, t, request), t)
    ensures CanBeginClaim(s, t) ==> FitStep(s, DoBeginClaim(s, t), t)
    ensures CanCommit(s, t) ==> FitStep(s, DoCommit(s, t), t)
    ensures CanEndClear(s, t) ==> FitStep(s, DoEndClear(s, t), t)
  {
  }

  lemma RecorderFits(hash: ThreadId -> u64, s: State, step: Step)
    requires IsRecorderStep(step) && Enabled(s, step) && StorageOk(s.storages[step.t])
    ensures FitStep(s, Do(hash, s, step), step.t)
  {
    match step
    case BeginAppend(t, payload, padding) =>
      if RoomIsMade(s, t) {
        AppendFits(s.heap[s.storages[t].pc.buffer].events, NewEvent(s, t, s.storages[t].pc.request, payload, padding));
      }
    case Fill(t, payload) =>
      if Fits(s.heap[s.storages[t].pc.buffer].events) {
        RefilledFits(s.heap[s.storages[t].pc.buffer].events, payload);
      }
    case BeginMakeRoom(t) => MakeRoomMakesRoom(s, t);
    case BeginLoad(t, _) => QuietFitSteps(s, t);
    case BeginClaim(t) => QuietFitSteps(s, t);
    case EndCommit(t) => QuietFitSteps(s, t);
    case EndClear(t) => QuietFitSteps(s, t);
  }

  lemma RecorderKeepsFit(hash: ThreadId -> u64, s: State, step: Step)
    requires OnePlaceEach(s) && StoragesOk(s) && BuffersFit(s) && IsRecorderStep(step) && Enabled(s, step)
    requires Own(s, step.t).Some?
    ensures BuffersFit(Do(hash, s, step))
  {
    RecorderFits(hash, s, step);
    RecorderStepIsGood(hash, s, step);
    OwnIsApart(s, step.t);
    OthersFit(s, Do(hash, s, step), step.t);
  }

  lemma OthersFit(s: State, s': State, t: ThreadId)
    requires StoragesOk(s) && BuffersFit(s) && t in s.storages && Confined(s, s', t) && FitStep(s, s', t)
    requires Own(s, t).Some? && Own(s, t).value in s.heap
    requires forall u :: u != t ==> Own(s, u) != Own(s, t)
    ensures BuffersFit(s')
  {
    forall u | u in s'.storages
      ensures RoomIsMade(s', u)
    {
      assert RoomIsMade(s, u);
      if u != t {
        assert Own(s, u) != Own(s, t);
        OtherRoomStays(s, s', t, u);
      }
    }
    forall b | b in s'.heap
      ensures Fits(s'.heap[b].events)
    {
      assert Fits(s.heap[b].events) && RoomIsMade(s, t);
    }
  }

  lemma OtherRoomStays(s: State, s': State, t: ThreadId, u: ThreadId)
    requires u in s.storages && StorageOk(s.storages[u]) && RoomIsMade(s, u)
    requires Confined(s, s', t) && u != t && Own(s, u) != Own(s, t)
    ensures RoomIsMade(s', u)
  {
    assert s.storages[u].pc.Ready? ==> Own(s, u) == Some(s.storages[u].pc.buffer);
  }

  /** Buffers only emptied or allocated empty, and no recorder that has made room affected. */
  ghost predicate OnlyEmpties(s: State, s': State) {
    && (forall b :: b in s'.heap ==>
          s'.heap[b].events == [] || (b in s.heap && s'.heap[b].events == s.heap[b].events))
    && (forall t :: t in s'.storages && s'.storages[t].pc.Ready? ==>
          && t in s.storages && s'.storages[t].pc == s.storages[t].pc
          && var b := s.storages[t].pc.buffer; b in s'.heap ==> b in s.heap && s'.heap[b].events == s.heap[b].events)
  }

  lemma FitStays(s: State, s': State)
    requires BuffersFit(s) && OnlyEmpties(s, s')
    ensures BuffersFit(s')
  {
    EmptyFits();
    forall t | t in s'.storages
      ensures RoomIsMade(s', t)
    {
      assert t in s.storages ==> RoomIsMade(s, t);
    }
  }

  /** A recorder that has made room holds its buffer. */
  ghost predicate ReadyHolds(s: State) {
    forall t :: t in s.storages && s.storages[t].pc.Ready? ==>
      s.storages[t].pc.buffer in s.heap && Some(s.storages[t].pc.buffer) != At(s, Flusher)
  }

  lemma ReadyHoldsOwn(s: State)
    requires OnePlaceEach(s)
    ensures ReadyHolds(s)
  {
    forall t | t in s.storages && s.storages[t].pc.Ready?
      ensures s.storages[t].pc.buffer in s.heap && Some(s.storages[t].pc.buffer) != At(s, Flusher)
    {
      PlaceHoldsLiveBuffer(s, Hand(t));
    }
  }

  lemma AllocationOnlyEmpties(hash: ThreadId -> u64, s: State, t: ThreadId, b: BufferId)
    requires ReadyHolds(s)
    ensures CanRegister(s, t, b) ==> OnlyEmpties(s, DoRegister(hash, s, t, b))
    ensures CanFlushStart(s, b) ==> OnlyEmpties(s, DoFlushStart(s, b))
  {
  }

  lemma FlushOnlyEmpties(s: State)
    requires ReadyHolds(s)
    ensures CanFlushScan(s) ==> OnlyEmpties(s, DoFlushScan(s))
    ensures CanFlushStamp(s) ==> OnlyEmpties(s, DoFlushStamp(s))
    ensures CanFlushSwap(s) ==> OnlyEmpties(s, DoFlushSwap(s))
    ensures CanFlushWrite(s) ==> OnlyEmpties(s, DoFlushWrite(s))
    ensures CanFlushRound(s, false) ==> OnlyEmpties(s, DoFlushAgain(s))
    ensures CanFlushRound(s, true) ==> OnlyEmpties(s, DoFlushEnd(s))
  {
  }

  lemma OtherOnlyEmpties(hash: ThreadId -> u64, s: State, step: Step)
    requires ReadyHolds(s) && !IsRecorderStep(step) && Enabled(s, step)
    ensures OnlyEmpties(s, Do(hash, s, step))
  {
    match step
    case Register(t, b) => AllocationOnlyEmpties(hash, s, t, b);
    case FlushStart(b) => AllocationOnlyEmpties(hash, s, 0, b);
    case Exit(t) =>
    case FlushScan => FlushOnlyEmpties(s);
    case FlushStamp => FlushOnlyEmpties(s);
    case FlushSwap => FlushOnlyEmpties(s);
    case FlushWrite => FlushOnlyEmpties(s);
    case FlushAgain => FlushOnlyEmpties(s);
    case FlushEnd => FlushOnlyEmpties(s);
  }

  lemma OtherKeepsFit(hash: ThreadId -> u64, s: State, step: Step)
    requires OnePlaceEach(s) && BuffersFit(s) && !IsRecorderStep(step) && Enabled(s, step)
    ensures BuffersFit(Do(hash, s, step))
  {
    ReadyHoldsOwn(s);
    OtherOnlyEmpties(hash, s, step);
    FitStays(s, Do(hash, s, step));
  }

  lemma KeepsBuffersFit(hash: ThreadId -> u64, s: State, step: Step)
    requires OnePlaceEach(s) && StoragesOk(s) && BuffersOk(hash, s) && BuffersFit(s) && Enabled(s, step)
    ensures BuffersFit(Do(hash, s, step))
  {
    if IsRecorderStep(step) {
      assert OwnBufferOk(hash, s, step.t);
      RecorderKeepsFit(hash, s, step);
    } else {
      OtherKeepsFit(hash, s, step);
    }
  }
}
