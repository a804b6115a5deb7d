/** None lost, none doubled, none made up: every step keeps exactly one position for each event a
    thread has committed or has open, holding that event. */
module EventLoggerEvents {
  import opened Bytes
  import opened Wrappers
  import opened LocalFileEventLogger
  import opened EventLoggerBuffers

  // ---------- what a step can do to the positions ----------

  lemma SameIndexed(at: Contents, at': Contents, begun: ThreadId -> nat, begun': ThreadId -> nat)
    requires Indexed(at, begun)
    requires forall p :: at'(p).Some? == at(p).Some? && (at(p).Some? ==> Key(at'(p).value) == Key(at(p).value))
    requires forall t :: begun'(t) == begun(t)
    ensures Indexed(at', begun')
  {
    var where :| IndexedBy(at, begun, where);
    assert IndexedBy(at', begun', where);
  }

  /** Thread t opened its next event at a position that was free. */
  lemma AddedIndexed(at: Contents, at': Contents, begun: ThreadId -> nat, begun': ThreadId -> nat,
                     t: ThreadId, p: Position)
    requires Indexed(at, begun)
    requires at(p) == None && at'(p).Some? && Key(at'(p).value) == (t, begun(t))
    requires forall q :: q != p ==> at'(q) == at(q)
    requires begun'(t) == begun(t) + 1 && forall u :: u != t ==> begun'(u) == begun(u)
    ensures Indexed(at', begun')
  {
    var where :| IndexedBy(at, begun, where);
    var added := (t, begun(t));
    assert added !in where;
    var where' := where[added := p];
    AddedFound(at, at', where, where', added, p);
    AddedNumbers(where, where', begun, begun', t, p);
    assert IndexedBy(at', begun', where');
  }

  lemma AddedFound(at: Contents, at': Contents, where: map<(ThreadId, nat), Position>,
                   where': map<(ThreadId, nat), Position>, added: (ThreadId, nat), p: Position)
    requires added !in where && where' == where[added := p]
    requires at(p) == None && at'(p).Some? && Key(at'(p).value) == added
    requires forall q :: q != p ==> at'(q) == at(q)
    requires forall q :: at(q).Some? ==> Key(at(q).value) in where && where[Key(at(q).value)] == q
    requires forall key :: key in where ==> at(where[key]).Some? && Key(at(where[key]).value) == key
    ensures forall q :: at'(q).Some? ==> Key(at'(q).value) in where' && where'[Key(at'(q).value)] == q
    ensures forall key :: key in where' ==> at'(where'[key]).Some? && Key(at'(where'[key]).value) == key
  {
    forall q | at'(q).Some?
      ensures Key(at'(q).value) in where' && where'[Key(at'(q).value)] == q
    {
      if q != p {
        assert at'(q) == at(q) && Key(at(q).value) in where;
      }
    }
    forall key | key in where'
      ensures at'(where'[key]).Some? && Key(at'(where'[key]).value) == key
    {
      if key != added {
        assert at(where[key]).Some?;
      }
    }
  }

  /** The numbers a thread has given out, with one more. */
  lemma AddedNumbers(where: map<(ThreadId, nat), Position>, where': map<(ThreadId, nat), Position>,
                     begun: ThreadId -> nat, begun': ThreadId -> nat, t: ThreadId, p: Position)
    requires where' == where[(t, begun(t)) := p]
    requires forall key: (ThreadId, nat) :: key in where <==> key.1 < begun(key.0)
    requires begun'(t) == begun(t) + 1 && forall u :: u != t ==> begun'(u) == begun(u)
    ensures forall key: (ThreadId, nat) :: key in where' <==> key.1 < begun'(key.0)
  {
  }

  /** The events of buffer b went, in order, to a new chunk c. */
  ghost predicate Shifted(at: Contents, at': Contents, b: BufferId, c: nat) {
    && (forall i: nat :: at(InFile(c, i)) == None && at'(InBuffer(b, i)) == None)
    && (forall i: nat :: at'(InFile(c, i)) == at(InBuffer(b, i)))
    && (forall p: Position :: !(p.InFile? && p.chunk == c) && !(p.InBuffer? && p.buffer == b) ==> at'(p) == at(p))
  }

  function Shift(p: Position, b: BufferId, c: nat): Position {
    if p.InBuffer? && p.buffer == b then InFile(c, p.index) else p
  }

  lemma ShiftedIndexed(at: Contents, at': Contents, begun: ThreadId -> nat, begun': ThreadId -> nat,
                       b: BufferId, c: nat)
    requires Indexed(at, begun) && Shifted(at, at', b, c)
    requires forall t :: begun'(t) == begun(t)
    ensures Indexed(at', begun')
  {
    var where :| IndexedBy(at, begun, where);
    var where' := map key | key in where :: Shift(where[key], b, c);
    assert where'.Keys == where.Keys;
    ShiftedFound(at, at', begun, where, where', b, c);
    assert IndexedBy(at', begun', where');
  }

  lemma ShiftedFound(at: Contents, at': Contents, begun: ThreadId -> nat, where: map<(ThreadId, nat), Position>,
                     where': map<(ThreadId, nat), Position>, b: BufferId, c: nat)
    requires IndexedBy(at, begun, where) && Shifted(at, at', b, c)
    requires where' == map key | key in where :: Shift(where[key], b, c)
    ensures forall key :: key in where' ==> at'(where'[key]).Some? && Key(at'(where'[key]).value) == key
    ensures forall p :: at'(p).Some? ==> Key(at'(p).value) in where' && where'[Key(at'(p).value)] == p
  {
    forall key | key in where'
      ensures at'(where'[key]) == at(where[key])
    {
      assert at(where[key]).Some?;
    }
    forall p | at'(p).Some?
      ensures Key(at'(p).value) in where' && where'[Key(at'(p).value)] == p
    {
      var q := if p.InFile? && p.chunk == c then InBuffer(b, p.index) else p;
      assert at(q) == at'(p) && Shift(q, b, c) == p;
    }
  }

  /** Two positions with the same event are the same position; nothing found is beyond what its
      thread has begun. */
  lemma FoundOnce(s: State, p: Position)
    requires EventsOk(s) && Find(s, p).Some?
    ensures Find(s, p).value.no < Begun(s, Find(s, p).value.thread)
    ensures forall q :: Find(s, q).Some? && Key(Find(s, q).value) == Key(Find(s, p).value) ==> q == p
  {
    var at := ContentsOf(s);
    var where :| IndexedBy(at, BegunOf(s), where);
    assert at(p).Some?;
    forall q | Find(s, q).Some? && Key(Find(s, q).value) == Key(Find(s, p).value)
      ensures q == p
    {
      assert at(q).Some?;
    }
  }

  // ---------- step by step ----------

  /** Nothing an observer of the events could see. */
  lemma UnseenStep(s: State, s': State)
    requires EventsOk(s)
    requires forall p :: Find(s', p) == Find(s, p)
    requires s'.log == s.log && forall t :: HasOpenEvent(s', t) == HasOpenEvent(s, t)
    ensures EventsOk(s')
  {
    SameIndexed(ContentsOf(s), ContentsOf(s'), BegunOf(s), BegunOf(s'));
  }

  /** One WriteCacheToDisk, whether or not the emptied buffer is deleted after it. */
  ghost predicate Wrote(s: State, s': State, b: BufferId) {
    && b in s.heap
    && s'.file == s.file + [s.heap[b]]
    && (s'.heap == s.heap[b := s.heap[b].(events := [])] || s'.heap == s.heap - {b})
    && s'.log == s.log
  }

  lemma WriteStep(s: State, s': State, b: BufferId)
    requires EventsOk(s) && Wrote(s, s', b)
    requires forall t :: HasOpenEvent(s', t) == HasOpenEvent(s, t)
    ensures EventsOk(s')
  {
    WriteShifts(s, s', b);
    ShiftedIndexed(ContentsOf(s), ContentsOf(s'), BegunOf(s), BegunOf(s'), b, |s.file|);
    WriteIsFaithful(s, s', b);
  }

  lemma WriteIsFaithful(s: State, s': State, b: BufferId)
    requires Faithful(s) && Wrote(s, s', b)
    ensures Faithful(s')
  {
    forall p | Find(s', p).Some?
      ensures FaithfulTo(s', Find(s', p).value)
    {
      var q := if p.InFile? && p.chunk == |s.file| then InBuffer(b, p.index) else p;
      assert Find(s, q) == Find(s', p);
    }
  }

  lemma WriteShifts(s: State, s': State, b: BufferId)
    requires Wrote(s, s', b)
    ensures Shifted(ContentsOf(s), ContentsOf(s'), b, |s.file|)
  {
  }

  lemma AppendEvents(s: State, t: ThreadId, payload: seq<byte>, padding: seq<byte>)
    requires EventsOk(s) && CanAppend(s, t, payload, padding)
    ensures EventsOk(DoAppend(s, t, payload, padding))
  {
    var s', b := DoAppend(s, t, payload, padding), s.storages[t].pc.buffer;
    var p := InBuffer(b, |s.heap[b].events|);
    AppendAdds(s, t, payload, padding);
    AddedIndexed(ContentsOf(s), ContentsOf(s'), BegunOf(s), BegunOf(s'), t, p);
    forall q | Find(s', q).Some?
      ensures FaithfulTo(s', Find(s', q).value)
    {
      assert q != p ==> FaithfulTo(s, Find(s, q).value);
    }
  }

  lemma AppendAdds(s: State, t: ThreadId, payload: seq<byte>, padding: seq<byte>)
    requires CanAppend(s, t, payload, padding)
    ensures var s', b := DoAppend(s, t, payload, padding), s.storages[t].pc.buffer;
            var p := InBuffer(b, |s.heap[b].events|);
            && Find(s, p) == None && Find(s', p).Some? && Key(Find(s', p).value) == (t, Begun(s, t))
            && (forall q :: q != p ==> Find(s', q) == Find(s, q))
            && Begun(s', t) == Begun(s, t) + 1 && (forall u :: u != t ==> Begun(s', u) == Begun(s, u))
            && s'.log == s.log
  {
  }

  /** The open event is the last of the thread's own buffer. */
  lemma LastIsOpen(hash: ThreadId -> u64, s: State, t: ThreadId)
    requires CanCommit(s, t) && StorageOk(s.storages[t]) && OwnBufferOk(hash, s, t)
    ensures var events := s.heap[s.storages[t].pc.buffer].events;
            Key(events[|events| - 1]) == (t, |LogOf(s, t)|)
  {
  }

  function LastPosition(s: State, b: BufferId): Position
    requires b in s.heap && s.heap[b].events != []
  {
    InBuffer(b, |s.heap[b].events| - 1)
  }

  lemma FillChanges(s: State, t: ThreadId, payload: seq<byte>)
    requires CanFill(s, t, payload)
    ensures var s', p := DoFill(s, t, payload), LastPosition(s, s.storages[t].pc.buffer);
            && (forall q :: q != p ==> Find(s', q) == Find(s, q))
            && Find(s', p).Some? && Find(s, p).Some? && Key(Find(s', p).value) == Key(Find(s, p).value)
  {
  }

  lemma FillIsFaithful(s: State, t: ThreadId, payload: seq<byte>)
    requires Faithful(s) && CanFill(s, t, payload)
    requires Key(Find(s, LastPosition(s, s.storages[t].pc.buffer)).value) == (t, |LogOf(s, t)|)
    ensures Faithful(DoFill(s, t, payload))
  {
    FillChanges(s, t, payload);
    var s', p := DoFill(s, t, payload), LastPosition(s, s.storages[t].pc.buffer);
    forall q | Find(s', q).Some?
      ensures FaithfulTo(s', Find(s', q).value)
    {
      if q != p {
        assert FaithfulTo(s, Find(s, q).value);
      }
    }
  }

  lemma FillEvents(hash: ThreadId -> u64, s: State, t: ThreadId, payload: seq<byte>)
    requires EventsOk(s) && CanFill(s, t, payload) && StorageOk(s.storages[t]) && OwnBufferOk(hash, s, t)
    ensures EventsOk(DoFill(s, t, payload))
  {
    LastIsOpen(hash, s, t);
    FillIsFaithful(s, t, payload);
    FillIndexed(s, t, payload);
  }

  lemma FillIndexed(s: State, t: ThreadId, payload: seq<byte>)
    requires Indexed(ContentsOf(s), BegunOf(s)) && CanFill(s, t, payload)
    ensures Indexed(ContentsOf(DoFill(s, t, payload)), BegunOf(DoFill(s, t, payload)))
  {
    var s' := DoFill(s, t, payload);
    FillChanges(s, t, payload);
    SameIndexed(ContentsOf(s), ContentsOf(s'), BegunOf(s), BegunOf(s'));
  }

  lemma CommitIsFaithful(s: State, t: ThreadId)
    requires Faithful(s) && CanCommit(s, t)
    requires var p := LastPosition(s, s.storages[t].pc.buffer);
             && Key(Find(s, p).value) == (t, |LogOf(s, t)|)
             && forall q :: Find(s, q).Some? && Key(Find(s, q).value) == Key(Find(s, p).value) ==> q == p
    ensures Faithful(DoCommit(s, t))
  {
    var s', p := DoCommit(s, t), LastPosition(s, s.storages[t].pc.buffer);
    forall q | Find(s', q).Some?
      ensures FaithfulTo(s', Find(s', q).value)
    {
      assert Find(s', q) == Find(s, q);
      assert FaithfulTo(s, Find(s, q).value);
    }
  }

  lemma CommitIndexed(s: State, t: ThreadId)
    requires Indexed(ContentsOf(s), BegunOf(s)) && CanCommit(s, t)
    ensures Indexed(ContentsOf(DoCommit(s, t)), BegunOf(DoCommit(s, t)))
  {
    var s' := DoCommit(s, t);
    assert forall q :: Find(s', q) == Find(s, q);
    SameIndexed(ContentsOf(s), ContentsOf(s'), BegunOf(s), BegunOf(s'));
  }

  lemma CommitEvents(hash: ThreadId -> u64, s: State, t: ThreadId)
    requires EventsOk(s) && CanCommit(s, t) && StorageOk(s.storages[t]) && OwnBufferOk(hash, s, t)
    ensures EventsOk(DoCommit(s, t))
  {
    OnlyLastIsOpen(hash, s, t);
    CommitIsFaithful(s, t);
    CommitIndexed(s, t);
  }

  lemma OnlyLastIsOpen(hash: ThreadId -> u64, s: State, t: ThreadId)
    requires EventsOk(s) && CanCommit(s, t) && StorageOk(s.storages[t]) && OwnBufferOk(hash, s, t)
    ensures var p := LastPosition(s, s.storages[t].pc.buffer);
            && Find(s, p).Some? && Key(Find(s, p).value) == (t, |LogOf(s, t)|)
            && forall q :: Find(s, q).Some? && Key(Find(s, q).value) == Key(Find(s, p).value) ==> q == p
  {
    LastIsOpen(hash, s, t);
    FoundOnce(s, LastPosition(s, s.storages[t].pc.buffer));
  }

  lemma MakeRoomEvents(s: State, t: ThreadId)
    requires EventsOk(s) && CanMakeRoom(s, t)
    ensures EventsOk(DoMakeRoom(s, t))
  {
    var s', b := DoMakeRoom(s, t), s.storages[t].pc.buffer;
    if s'.file == s.file {
      UnseenStep(s, s');
    } else {
      WriteStep(s, s', b);
    }
  }

  lemma FlushEndEvents(s: State)
    requires EventsOk(s) && CanFlushRound(s, true)
    requires s.flush.replacement in s.heap ==> s.heap[s.flush.replacement].events == []
    ensures EventsOk(DoFlushEnd(s))
  {
    UnseenStep(s, DoFlushEnd(s));
  }

  lemma QuietRecorderEvents(s: State, t: ThreadId)
    requires EventsOk(s)
    ensures forall request :: CanBeginLoad(s, t) ==> EventsOk(DoBeginLoad(s, t, request))
    ensures CanBeginClaim(s, t) ==> EventsOk(DoBeginClaim(s, t))
    ensures CanEndClear(s, t) ==> EventsOk(DoEndClear(s, t))
  {
    forall request | CanBeginLoad(s, t)
      ensures EventsOk(DoBeginLoad(s, t, request))
    {
      UnseenStep(s, DoBeginLoad(s, t, request));
    }
    if CanBeginClaim(s, t) {
      UnseenStep(s, DoBeginClaim(s, t));
    }
    if CanEndClear(s, t) {
      UnseenStep(s, DoEndClear(s, t));
    }
  }

  lemma AllocatingEvents(hash: ThreadId -> u64, s: State, t: ThreadId, b: BufferId)
    requires EventsOk(s)
    ensures CanRegister(s, t, b) ==> EventsOk(DoRegister(hash, s, t, b))
    ensures CanFlushStart(s, b) ==> EventsOk(DoFlushStart(s, b))
  {
    if CanRegister(s, t, b) {
      UnseenStep(s, DoRegister(hash, s, t, b));
    }
    if CanFlushStart(s, b) {
      UnseenStep(s, DoFlushStart(s, b));
    }
  }

  lemma QuietFlushEvents(s: State)
    requires EventsOk(s)
    ensures CanFlushScan(s) ==> EventsOk(DoFlushScan(s))
    ensures CanFlushStamp(s) ==> EventsOk(DoFlushStamp(s))
    ensures CanFlushSwap(s) ==> EventsOk(DoFlushSwap(s))
    ensures CanFlushRound(s, false) ==> EventsOk(DoFlushAgain(s))
  {
    if CanFlushScan(s) {
      UnseenStep(s, DoFlushScan(s));
    }
    if CanFlushStamp(s) {
      UnseenStep(s, DoFlushStamp(s));
    }
    if CanFlushSwap(s) {
      UnseenStep(s, DoFlushSwap(s));
    }
    if CanFlushRound(s, false) {
      UnseenStep(s, DoFlushAgain(s));
    }
  }

  lemma RecorderEvents(hash: ThreadId -> u64, s: State, step: Step)
    requires EventsOk(s) && IsRecorderStep(step) && Enabled(s, step)
    requires StorageOk(s.storages[step.t]) && OwnBufferOk(hash, s, step.t)
    ensures EventsOk(Do(hash, s, step))
  {
    match step
    case BeginLoad(t, _) => QuietRecorderEvents(s, t);
    case BeginClaim(t) => QuietRecorderEvents(s, t);
    case BeginMakeRoom(t) => MakeRoomEvents(s, t);
    case BeginAppend(t, payload, padding) => AppendEvents(s, t, payload, padding);
    case Fill(t, payload) => FillEvents(hash, s, t, payload);
    case EndCommit(t) => CommitEvents(hash, s, t);
    case EndClear(t) => QuietRecorderEvents(s, t);
  }

  lemma OtherEvents(hash: ThreadId -> u64, s: State, step: Step)
    requires EventsOk(s) && !IsRecorderStep(step) && Enabled(s, step)
    requires FlusherBufferOk(hash, s)
    ensures EventsOk(Do(hash, s, step))
  {
    match step
    case Register(t, b) => AllocatingEvents(hash, s, t, b);
    case Exit(t) => WriteStep(s, DoExit(s, t), s.storages[t].data.value);
    case FlushStart(b) => AllocatingEvents(hash, s, 0, b);
    case FlushWrite => WriteStep(s, DoFlushWrite(s), s.flush.pc.taken);
    case FlushEnd => FlushEndEvents(s);
    case FlushScan => QuietFlushEvents(s);
    case FlushStamp => QuietFlushEvents(s);
    case FlushSwap => QuietFlushEvents(s);
    case FlushAgain => QuietFlushEvents(s);
  }

  lemma KeepsEventsOk(hash: ThreadId -> u64, s: State, step: Step)
    requires StoragesOk(s) && BuffersOk(hash, s) && EventsOk(s)
    requires Enabled(s, step)
    ensures EventsOk(Do(hash, s, step))
  {
    if IsRecorderStep(step) {
      assert OwnBufferOk(hash, s, step.t);
      RecorderEvents(hash, s, step);
    } else {
      OtherEvents(hash, s, step);
    }
  }
}
