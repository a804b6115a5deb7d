/** Exclusive ownership: every step keeps each live buffer in exactly one place. */
module EventLoggerPlaces {
  import opened Bytes
  import opened Wrappers
  import opened LocalFileEventLogger

  /** One buffer went from one place to another. */
  ghost predicate Moved(at: Layout, at': Layout, b: BufferId, from: Place, to: Place) {
    && at(from) == Some(b) && at'(from) == None
    && at(to) == None && at'(to) == Some(b)
    && forall p :: p != from && p != to ==> at'(p) == at(p)
  }

  /** Two buffers changed places. */
  ghost predicate Swapped(at: Layout, at': Layout, p: Place, q: Place) {
    && p != q && at(p).Some? && at(q).Some?
    && at'(p) == at(q) && at'(q) == at(p)
    && forall r :: r != p && r != q ==> at'(r) == at(r)
  }

  ghost predicate Appeared(at: Layout, at': Layout, b: BufferId, place: Place) {
    && at(place) == None && at'(place) == Some(b)
    && forall p :: p != place ==> at'(p) == at(p)
  }

  lemma SameKeeps(buffers: set<BufferId>, at: Layout, at': Layout)
    requires Located(buffers, at) && forall p :: at'(p) == at(p)
    ensures Located(buffers, at')
  {
    var where :| LocatedBy(buffers, at, where);
    assert LocatedBy(buffers, at', where);
  }

  lemma MovedKeeps(buffers: set<BufferId>, at: Layout, at': Layout, b: BufferId, from: Place, to: Place)
    requires Located(buffers, at) && Moved(at, at', b, from, to)
    ensures Located(buffers, at')
  {
    var where :| LocatedBy(buffers, at, where);
    assert LocatedBy(buffers, at', where[b := to]);
  }

  lemma SwappedKeeps(buffers: set<BufferId>, at: Layout, at': Layout, p: Place, q: Place)
    requires Located(buffers, at) && Swapped(at, at', p, q)
    ensures Located(buffers, at')
  {
    var where :| LocatedBy(buffers, at, where);
    var a, b := at(p).value, at(q).value;
    assert where[a] == p && where[b] == q;
    var where' := where[a := q][b := p];
    assert at'(q) == Some(a) && at'(p) == Some(b);
    assert where'.Keys == buffers;
    assert LocatedBy(buffers, at', where');
  }

  lemma AppearedKeeps(buffers: set<BufferId>, at: Layout, at': Layout, b: BufferId, place: Place)
    requires Located(buffers, at) && b !in buffers && Appeared(at, at', b, place)
    ensures Located(buffers + {b}, at')
  {
    var where :| LocatedBy(buffers, at, where);
    assert LocatedBy(buffers + {b}, at', where[b := place]);
  }

  lemma GoneKeeps(buffers: set<BufferId>, at: Layout, at': Layout, b: BufferId, place: Place)
    requires Located(buffers, at) && Appeared(at', at, b, place)
    ensures Located(buffers - {b}, at')
  {
    var where :| LocatedBy(buffers, at, where);
    assert LocatedBy(buffers - {b}, at', where - {b});
  }

  /** What the pointers of a state with located buffers point to. */
  lemma PlaceHoldsLiveBuffer(s: State, p: Place)
    requires OnePlaceEach(s) && At(s, p).Some?
    ensures At(s, p).value in s.heap
    ensures forall q :: At(s, q) == At(s, p) ==> q == p
  {
    var at: Layout := LayoutOf(s);
    var where :| LocatedBy(s.heap.Keys, at, where);
    assert at(p).value in where;
    forall q | At(s, q) == At(s, p)
      ensures q == p
    {
      assert at(q) == at(p);
    }
  }

  lemma BufferHasPlace(s: State, b: BufferId) returns (p: Place)
    requires OnePlaceEach(s) && b in s.heap
    ensures At(s, p) == Some(b)
  {
    var where :| LocatedBy(s.heap.Keys, LayoutOf(s), where);
    p := where[b];
  }

  // ---------- step by step ----------

  lemma QuietStep(s: State, s': State)
    requires OnePlaceEach(s) && s'.heap.Keys == s.heap.Keys && forall p :: At(s', p) == At(s, p)
    ensures OnePlaceEach(s')
  {
    SameKeeps(s.heap.Keys, LayoutOf(s), LayoutOf(s'));
  }

  lemma RegisterPlaces(hash: ThreadId -> u64, s: State, t: ThreadId, b: BufferId)
    requires OnePlaceEach(s) && CanRegister(s, t, b)
    ensures OnePlaceEach(DoRegister(hash, s, t, b))
  {
    var s' := DoRegister(hash, s, t, b);
    AppearedKeeps(s.heap.Keys, LayoutOf(s), LayoutOf(s'), b, Slot(t));
    assert s'.heap.Keys == s.heap.Keys + {b};
  }

  lemma ExitPlaces(s: State, t: ThreadId)
    requires OnePlaceEach(s) && CanExit(s, t)
    ensures OnePlaceEach(DoExit(s, t))
  {
    var s', b := DoExit(s, t), s.storages[t].data.value;
    GoneKeeps(s.heap.Keys, LayoutOf(s), LayoutOf(s'), b, Slot(t));
    assert s'.heap.Keys == s.heap.Keys - {b};
  }

  lemma ClaimPlaces(s: State, t: ThreadId)
    requires OnePlaceEach(s) && CanBeginClaim(s, t)
    ensures OnePlaceEach(DoBeginClaim(s, t))
  {
    var s' := DoBeginClaim(s, t);
    if s.storages[t].data == Some(s.storages[t].pc.expected) {
      MovedKeeps(s.heap.Keys, LayoutOf(s), LayoutOf(s'), s.storages[t].pc.expected, Slot(t), Hand(t));
    } else {
      QuietStep(s, s');
    }
  }

  lemma CommitPlaces(s: State, t: ThreadId)
    requires OnePlaceEach(s) && CanCommit(s, t)
    requires s.storages[t].data == None && s.storages[t].pendingData == Some(s.storages[t].pc.buffer)
    ensures OnePlaceEach(DoCommit(s, t))
  {
    var s' := DoCommit(s, t);
    MovedKeeps(s.heap.Keys, LayoutOf(s), LayoutOf(s'), s.storages[t].pc.buffer, Hand(t), Slot(t));
  }

  lemma FlushStartPlaces(s: State, b: BufferId)
    requires OnePlaceEach(s) && CanFlushStart(s, b)
    ensures OnePlaceEach(DoFlushStart(s, b))
  {
    var s' := DoFlushStart(s, b);
    AppearedKeeps(s.heap.Keys, LayoutOf(s), LayoutOf(s'), b, Flusher);
    assert s'.heap.Keys == s.heap.Keys + {b};
  }

  lemma FlushSwapPlaces(s: State)
    requires OnePlaceEach(s) && CanFlushSwap(s)
    ensures OnePlaceEach(DoFlushSwap(s))
  {
    var s', t := DoFlushSwap(s), s.blocks[s.flush.pc.i];
    if s.storages[t].data == Some(s.flush.pc.expected) {
      SwappedKeeps(s.heap.Keys, LayoutOf(s), LayoutOf(s'), Slot(t), Flusher);
    } else {
      QuietStep(s, s');
    }
  }

  lemma FlushEndPlaces(s: State)
    requires OnePlaceEach(s) && CanFlushRound(s, true)
    ensures OnePlaceEach(DoFlushEnd(s))
  {
    var s', b := DoFlushEnd(s), s.flush.replacement;
    GoneKeeps(s.heap.Keys, LayoutOf(s), LayoutOf(s'), b, Flusher);
    assert s'.heap.Keys == s.heap.Keys - {b};
  }

  lemma QuietRecorderSteps(s: State, t: ThreadId)
    requires OnePlaceEach(s)
    ensures forall request :: CanBeginLoad(s, t) ==> OnePlaceEach(DoBeginLoad(s, t, request))
    ensures CanEndClear(s, t) ==> OnePlaceEach(DoEndClear(s, t))
  {
    forall request | CanBeginLoad(s, t)
      ensures OnePlaceEach(DoBeginLoad(s, t, request))
    {
      QuietStep(s, DoBeginLoad(s, t, request));
    }
    if CanEndClear(s, t) {
      QuietStep(s, DoEndClear(s, t));
    }
  }

  lemma MakeRoomPlaces(s: State, t: ThreadId)
    requires OnePlaceEach(s) && CanMakeRoom(s, t)
    ensures OnePlaceEach(DoMakeRoom(s, t))
  {
    QuietStep(s, DoMakeRoom(s, t));
  }

  lemma WritingSteps(s: State, t: ThreadId, payload: seq<byte>, padding: seq<byte>)
    requires OnePlaceEach(s)
    ensures CanAppend(s, t, payload, padding) ==> OnePlaceEach(DoAppend(s, t, payload, padding))
    ensures CanFill(s, t, payload) ==> OnePlaceEach(DoFill(s, t, payload))
  {
    if CanAppend(s, t, payload, padding) {
      QuietStep(s, DoAppend(s, t, payload, padding));
    }
    if CanFill(s, t, payload) {
      QuietStep(s, DoFill(s, t, payload));
    }
  }

  lemma QuietFlushSteps(s: State)
    requires OnePlaceEach(s)
    ensures CanFlushScan(s) ==> OnePlaceEach(DoFlushScan(s))
    ensures CanFlushStamp(s) ==> OnePlaceEach(DoFlushStamp(s))
    ensures CanFlushWrite(s) ==> OnePlaceEach(DoFlushWrite(s))
    ensures CanFlushRound(s, false) ==> OnePlaceEach(DoFlushAgain(s))
  {
    if CanFlushScan(s) {
      QuietStep(s, DoFlushScan(s));
    }
    if CanFlushStamp(s) {
      QuietStep(s, DoFlushStamp(s));
    }
    if CanFlushWrite(s) {
      QuietStep(s, DoFlushWrite(s));
    }
    if CanFlushRound(s, false) {
      QuietStep(s, DoFlushAgain(s));
    }
  }

  lemma KeepsOnePlaceEach(hash: ThreadId -> u64, s: State, step: Step)
    requires OnePlaceEach(s) && StoragesOk(s) && Enabled(s, step)
    ensures OnePlaceEach(Do(hash, s, step))
  {
    match step
    case Register(t, b) => RegisterPlaces(hash, s, t, b);
    case Exit(t) => ExitPlaces(s, t);
    case BeginLoad(t, _) => QuietRecorderSteps(s, t);
    case BeginClaim(t) => ClaimPlaces(s, t);
    case BeginMakeRoom(t) => MakeRoomPlaces(s, t);
    case BeginAppend(t, payload, padding) => WritingSteps(s, t, payload, padding);
    case Fill(t, payload) => WritingSteps(s, t, payload, []);
    case EndCommit(t) => CommitPlaces(s, t);
    case EndClear(t) => QuietRecorderSteps(s, t);
    case FlushStart(b) => FlushStartPlaces(s, b);
    case FlushScan => QuietFlushSteps(s);
    case FlushStamp => QuietFlushSteps(s);
    case FlushSwap => FlushSwapPlaces(s);
    case FlushWrite => QuietFlushSteps(s);
    case FlushAgain => QuietFlushSteps(s);
    case FlushEnd => FlushEndPlaces(s);
  }
}
