/** The concurrent protocol of LocalFileEventLogger: any number of recording threads and a flusher
    share the threads' buffers through one atomic slot per thread.  A state is what the threads
    share plus where each of them stands; a step is one atomic action, named after the code.

    WriteCacheToDisk is one step here: its caller owns the buffer, and m_file.Write appends.
    EventLoggerGuards takes it apart. */
module LocalFileEventLogger {
  import opened Bytes
  import opened Wrappers
  import opened Seqs
  import opened EventLogFormat
  import ThreadData

  const MAX_THREAD_COUNT := 512

  type ThreadId = nat
  type BufferId = nat

  /** An event, stamped with who recorded it and which of that thread's events it is. */
  datatype Recorded = Recorded(thread: ThreadId, no: nat, event: Event)

  /** The value of a ThreadData; also one chunk of the file. */
  datatype Buffer = Buffer(threadId: u64, events: seq<Recorded>)

  function Plain(events: seq<Recorded>): (r: seq<Event>)
    ensures |r| == |events|
    ensures forall i :: 0 <= i < |r| ==> r[i] == events[i].event
  {
    seq(|events|, i requires 0 <= i < |events| => events[i].event)
  }

  datatype Request = Request(id: u32, size: u16, flags: u16)

  /** Where a thread stands in RecordEventBegin and RecordEventEnd. */
  datatype Recorder =
    | Idle
    | Claiming(expected: BufferId, request: Request)  // in the loop that swaps the slot to null
    | Claimed(buffer: BufferId, request: Request)     // owns the buffer, room not checked
    | Ready(buffer: BufferId, request: Request)       // room made
    | Open(buffer: BufferId)                          // between Begin and End
    | Committed                                       // slot restored, PendingData not yet cleared

  datatype ThreadStorage = ThreadStorage(data: Option<BufferId>, pendingData: Option<BufferId>, pc: Recorder)

  /** Where the flusher stands in the loop over the registered threads. */
  datatype FlushPc =
    | Scan(i: nat, allFlushed: bool)
    | Stamp(i: nat, allFlushed: bool, expected: BufferId)  // read a buffer from slot i
    | Swap(i: nat, allFlushed: bool, expected: BufferId)   // passed its thread id to the replacement
    | Write(i: nat, allFlushed: bool, taken: BufferId)     // swapped, not yet written

  /** committedAtStart and swaps only observe: what each thread had committed when the flush took
      the file lock, and how often this flush swapped each slot. */
  datatype Flush =
    | Off
    | On(pc: FlushPc, replacement: BufferId, flushed: seq<bool>,
         committedAtStart: map<ThreadId, nat>, swaps: seq<nat>)

  datatype State = State(
    heap: map<BufferId, Buffer>,
    storages: map<ThreadId, ThreadStorage>,
    blocks: seq<ThreadId>,            // m_threadDataBlocks
    file: seq<Buffer>,                // the chunks written so far
    flush: Flush,                     // On while a flush holds m_fileGuard
    log: map<ThreadId, seq<Event>>)   // observes what each thread has committed, in order

  function LogOf(s: State, t: ThreadId): seq<Event> {
    if t in s.log then s.log[t] else []
  }

  function Init(): State {
    State(map[], map[], [], [], Off, map[])
  }

  datatype Step =
    | Register(t: ThreadId, b: BufferId)
    | Exit(t: ThreadId)
    | BeginLoad(t: ThreadId, request: Request)
    | BeginClaim(t: ThreadId)
    | BeginMakeRoom(t: ThreadId)
    | BeginAppend(t: ThreadId, payload: seq<byte>, padding: seq<byte>)
    | Fill(t: ThreadId, payload: seq<byte>)
    | EndCommit(t: ThreadId)
    | EndClear(t: ThreadId)
    | FlushStart(b: BufferId)
    | FlushScan
    | FlushStamp
    | FlushSwap
    | FlushWrite
    | FlushAgain
    | FlushEnd

  // ---------- the pieces steps are made of ----------

  function SetPc(s: State, t: ThreadId, pc: Recorder): State
    requires t in s.storages
  {
    s.(storages := s.storages[t := s.storages[t].(pc := pc)])
  }

  function SetFlushPc(s: State, pc: FlushPc): State
    requires s.flush.On?
  {
    s.(flush := s.flush.(pc := pc))
  }

  /** The chunk goes to the file and the buffer is empty again. */
  function WriteCacheToDisk(s: State, b: BufferId): State
    requires b in s.heap
  {
    s.(file := s.file + [s.heap[b]], heap := s.heap[b := s.heap[b].(events := [])])
  }

  function NewEvent(s: State, t: ThreadId, request: Request, payload: seq<byte>, padding: seq<byte>): Recorded
    requires ValidEvent(Event(request.id, request.flags, payload, padding))
  {
    Recorded(t, |LogOf(s, t)|, Event(request.id, request.flags, payload, padding))
  }

  function Refilled(events: seq<Recorded>, payload: seq<byte>): seq<Recorded>
    requires events != [] && |payload| == |events[|events| - 1].event.payload|
  {
    var last := |events| - 1;
    events[last := events[last].(event := events[last].event.(payload := payload))]
  }

  // ---------- the steps of a recording thread ----------

  /** ThreadStorage::Reset(owner), on a thread's first use of the logger; takes m_fileGuard. */
  predicate CanRegister(s: State, t: ThreadId, b: BufferId) {
    t !in s.storages && b !in s.heap && s.flush.Off? && |s.blocks| < MAX_THREAD_COUNT
  }

  /** `hash` maps a thread to the 64-bit number its id is cast to. */
  function DoRegister(hash: ThreadId -> u64, s: State, t: ThreadId, b: BufferId): State {
    s.(heap := s.heap[b := Buffer(hash(t), [])],
       storages := s.storages[t := ThreadStorage(Some(b), None, Idle)],
       blocks := s.blocks + [t])
  }

  /** ThreadStorage::Reset(nullptr), by assumption with no event open; takes m_fileGuard. */
  predicate CanExit(s: State, t: ThreadId) {
    && t in s.storages && s.storages[t].pc.Idle? && s.flush.Off?
    && s.storages[t].data.Some? && s.storages[t].data.value in s.heap
  }

  function DoExit(s: State, t: ThreadId): State
    requires CanExit(s, t)
  {
    var b := s.storages[t].data.value;
    var w := WriteCacheToDisk(s, b);
    w.(heap := w.heap - {b}, storages := s.storages - {t}, blocks := Without(s.blocks, t))
  }

  /** RecordEventBegin reads the slot; by assumption no event of this thread is open. */
  predicate CanBeginLoad(s: State, t: ThreadId) {
    t in s.storages && s.storages[t].pc.Idle? && s.storages[t].data.Some?
  }

  function DoBeginLoad(s: State, t: ThreadId, request: Request): State
    requires CanBeginLoad(s, t)
  {
    SetPc(s, t, Claiming(s.storages[t].data.value, request))
  }

  /** One compare-exchange of the slot to null. */
  predicate CanBeginClaim(s: State, t: ThreadId) {
    t in s.storages && s.storages[t].pc.Claiming?
  }

  function DoBeginClaim(s: State, t: ThreadId): State
    requires CanBeginClaim(s, t)
  {
    var st := s.storages[t];
    if st.data == Some(st.pc.expected) then
      s.(storages := s.storages[t := st.(data := None, pc := Claimed(st.pc.expected, st.pc.request))])
    else if st.data.Some? then SetPc(s, t, st.pc.(expected := st.data.value))
    else s
  }

  predicate CanMakeRoom(s: State, t: ThreadId) {
    t in s.storages && s.storages[t].pc.Claimed? && s.storages[t].pc.buffer in s.heap
  }

  function DoMakeRoom(s: State, t: ThreadId): State
    requires CanMakeRoom(s, t)
  {
    var pc := s.storages[t].pc;
    var w := if ThreadData.MustWriteFirst(ThreadData.UsedBytes(Plain(s.heap[pc.buffer].events)), pc.request.size)
             then WriteCacheToDisk(s, pc.buffer) else s;
    SetPc(w, t, Ready(pc.buffer, pc.request))
  }

  /** The header is written and the buffer parked in PendingData; payload and padding are
      whatever the buffer held there. */
  predicate CanAppend(s: State, t: ThreadId, payload: seq<byte>, padding: seq<byte>) {
    && t in s.storages && s.storages[t].pc.Ready? && s.storages[t].pc.buffer in s.heap
    && |payload| == s.storages[t].pc.request.size
    && ValidEvent(Event(s.storages[t].pc.request.id, s.storages[t].pc.request.flags, payload, padding))
  }

  function DoAppend(s: State, t: ThreadId, payload: seq<byte>, padding: seq<byte>): State
    requires CanAppend(s, t, payload, padding)
  {
    var pc := s.storages[t].pc;
    var b := s.heap[pc.buffer];
    s.(heap := s.heap[pc.buffer := b.(events := b.events + [NewEvent(s, t, pc.request, payload, padding)])],
       storages := s.storages[t := s.storages[t].(pendingData := Some(pc.buffer), pc := Open(pc.buffer))])
  }

  /** The caller writing through the pointer RecordEventBegin returned. */
  predicate CanFill(s: State, t: ThreadId, payload: seq<byte>) {
    && CanCommit(s, t)
    && var events := s.heap[s.storages[t].pc.buffer].events;
       |payload| == |events[|events| - 1].event.payload|
  }

  function DoFill(s: State, t: ThreadId, payload: seq<byte>): State
    requires CanFill(s, t, payload)
  {
    var b := s.storages[t].pc.buffer;
    s.(heap := s.heap[b := s.heap[b].(events := Refilled(s.heap[b].events, payload))])
  }

  /** RecordEventEnd: one compare-exchange of the slot from null back to the buffer. */
  predicate CanCommit(s: State, t: ThreadId) {
    && t in s.storages && s.storages[t].pc.Open?
    && s.storages[t].pc.buffer in s.heap && s.heap[s.storages[t].pc.buffer].events != []
  }

  function DoCommit(s: State, t: ThreadId): State
    requires CanCommit(s, t)
  {
    var st := s.storages[t];
    var events := s.heap[st.pc.buffer].events;
    if st.data == None then
      s.(storages := s.storages[t := st.(data := st.pendingData, pc := Committed)],
         log := s.log[t := LogOf(s, t) + [events[|events| - 1].event]])
    else s
  }

  predicate CanEndClear(s: State, t: ThreadId) {
    t in s.storages && s.storages[t].pc.Committed?
  }

  function DoEndClear(s: State, t: ThreadId): State
    requires CanEndClear(s, t)
  {
    s.(storages := s.storages[t := s.storages[t].(pendingData := None, pc := Idle)])
  }

  // ---------- the steps of a flush ----------

  predicate CanFlushStart(s: State, b: BufferId) {
    s.flush.Off? && b !in s.heap
  }

  function DoFlushStart(s: State, b: BufferId): State {
    s.(heap := s.heap[b := Buffer(0, [])],
       flush := On(Scan(0, true), b, seq(|s.blocks|, _ => false),
                   map t | t in s.blocks :: |LogOf(s, t)|, seq(|s.blocks|, _ => 0)))
  }

  /** Look at the next thread; skip it if this flush has taken it or an event of it is open. */
  predicate CanFlushScan(s: State) {
    && s.flush.On? && s.flush.pc.Scan? && s.flush.pc.i < |s.blocks| == |s.flush.flushed|
    && s.blocks[s.flush.pc.i] in s.storages
  }

  function DoFlushScan(s: State): State
    requires CanFlushScan(s)
  {
    var Scan(i, all) := s.flush.pc;
    var data := s.storages[s.blocks[i]].data;
    SetFlushPc(s, if s.flush.flushed[i] then Scan(i + 1, all)
                  else if data == None then Scan(i + 1, false)
                  else Stamp(i, all, data.value))
  }

  /** The thread id is passed on to the replacement before the exchange. */
  predicate CanFlushStamp(s: State) {
    s.flush.On? && s.flush.pc.Stamp? && s.flush.pc.expected in s.heap && s.flush.replacement in s.heap
  }

  function DoFlushStamp(s: State): State
    requires CanFlushStamp(s)
  {
    var Stamp(i, all, expected) := s.flush.pc;
    var r := s.flush.replacement;
    SetFlushPc(s.(heap := s.heap[r := s.heap[r].(threadId := s.heap[expected].threadId)]), Swap(i, all, expected))
  }

  /** One compare-exchange of the slot to the replacement. */
  predicate CanFlushSwap(s: State) {
    && s.flush.On? && s.flush.pc.Swap? && s.flush.pc.i < |s.blocks| == |s.flush.swaps|
    && s.blocks[s.flush.pc.i] in s.storages
  }

  function DoFlushSwap(s: State): State
    requires CanFlushSwap(s)
  {
    var Swap(i, all, expected) := s.flush.pc;
    var t := s.blocks[i];
    if s.storages[t].data == Some(expected) then
      s.(storages := s.storages[t := s.storages[t].(data := Some(s.flush.replacement))],
         flush := s.flush.(pc := Write(i, all, expected), swaps := s.flush.swaps[i := s.flush.swaps[i] + 1]))
    else SetFlushPc(s, Scan(i + 1, false))
  }

  predicate CanFlushWrite(s: State) {
    s.flush.On? && s.flush.pc.Write? && s.flush.pc.taken in s.heap && s.flush.pc.i < |s.flush.flushed|
  }

  function DoFlushWrite(s: State): State
    requires CanFlushWrite(s)
  {
    var Write(i, all, taken) := s.flush.pc;
    var w := WriteCacheToDisk(s, taken);
    w.(flush := s.flush.(pc := Scan(i + 1, all), replacement := taken, flushed := s.flush.flushed[i := true]))
  }

  /** The end of a round over the threads; another one follows unless all were taken. */
  predicate CanFlushRound(s: State, allFlushed: bool) {
    s.flush.On? && s.flush.pc.Scan? && s.flush.pc.i == |s.blocks| && s.flush.pc.allFlushed == allFlushed
  }

  function DoFlushAgain(s: State): State
    requires CanFlushRound(s, false)
  {
    SetFlushPc(s, Scan(0, true))
  }

  function DoFlushEnd(s: State): State
    requires CanFlushRound(s, true)
  {
    s.(heap := s.heap - {s.flush.replacement}, flush := Off)
  }

  // ---------- all steps ----------

  predicate Enabled(s: State, step: Step) {
    match step
    case Register(t, b) => CanRegister(s, t, b)
    case Exit(t) => CanExit(s, t)
    case BeginLoad(t, _) => CanBeginLoad(s, t)
    case BeginClaim(t) => CanBeginClaim(s, t)
    case BeginMakeRoom(t) => CanMakeRoom(s, t)
    case BeginAppend(t, payload, padding) => CanAppend(s, t, payload, padding)
    case Fill(t, payload) => CanFill(s, t, payload)
    case EndCommit(t) => CanCommit(s, t)
    case EndClear(t) => CanEndClear(s, t)
    case FlushStart(b) => CanFlushStart(s, b)
    case FlushScan => CanFlushScan(s)
    case FlushStamp => CanFlushStamp(s)
    case FlushSwap => CanFlushSwap(s)
    case FlushWrite => CanFlushWrite(s)
    case FlushAgain => CanFlushRound(s, false)
    case FlushEnd => CanFlushRound(s, true)
  }

  function Do(hash: ThreadId -> u64, s: State, step: Step): State
    requires Enabled(s, step)
  {
    match step
    case Register(t, b) => DoRegister(hash, s, t, b)
    case Exit(t) => DoExit(s, t)
    case BeginLoad(t, request) => DoBeginLoad(s, t, request)
    case BeginClaim(t) => DoBeginClaim(s, t)
    case BeginMakeRoom(t) => DoMakeRoom(s, t)
    case BeginAppend(t, payload, padding) => DoAppend(s, t, payload, padding)
    case Fill(t, payload) => DoFill(s, t, payload)
    case EndCommit(t) => DoCommit(s, t)
    case EndClear(t) => DoEndClear(s, t)
    case FlushStart(b) => DoFlushStart(s, b)
    case FlushScan => DoFlushScan(s)
    case FlushStamp => DoFlushStamp(s)
    case FlushSwap => DoFlushSwap(s)
    case FlushWrite => DoFlushWrite(s)
    case FlushAgain => DoFlushAgain(s)
    case FlushEnd => DoFlushEnd(s)
  }

  // ---------- places and positions ----------

  /** Every place a live buffer can be. */
  datatype Place = Slot(t: ThreadId) | Hand(t: ThreadId) | Flusher

  predicate Holding(pc: Recorder) {
    pc.Claimed? || pc.Ready? || pc.Open?
  }

  function At(s: State, p: Place): Option<BufferId> {
    match p
    case Slot(t) => if t in s.storages then s.storages[t].data else None
    case Hand(t) => if t in s.storages && Holding(s.storages[t].pc) then Some(s.storages[t].pc.buffer) else None
    case Flusher =>
      if s.flush.Off? then None
      else if s.flush.pc.Write? then Some(s.flush.pc.taken) else Some(s.flush.replacement)
  }

  /** A thread's own buffer, in its slot or in its hands. */
  function Own(s: State, t: ThreadId): Option<BufferId> {
    if At(s, Slot(t)).Some? then At(s, Slot(t)) else At(s, Hand(t))
  }

  predicate HasOpenEvent(s: State, t: ThreadId) {
    t in s.storages && s.storages[t].pc.Open?
  }

  /** Every position an event can be at. */
  datatype Position = InFile(chunk: nat, index: nat) | InBuffer(buffer: BufferId, index: nat)

  function Find(s: State, p: Position): Option<Recorded> {
    match p
    case InFile(c, i) => if c < |s.file| && i < |s.file[c].events| then Some(s.file[c].events[i]) else None
    case InBuffer(b, i) => if b in s.heap && i < |s.heap[b].events| then Some(s.heap[b].events[i]) else None
  }

  // ---------- the invariant ----------

  /** Exclusive ownership: every live buffer is in exactly one place. */
  ghost predicate OnePlaceEach(s: State) {
    Located(s.heap.Keys, LayoutOf(s))
  }

  type Layout = Place -> Option<BufferId>

  function LayoutOf(s: State): Layout {
    p => At(s, p)
  }

  ghost predicate Located(buffers: set<BufferId>, at: Layout) {
    exists where: map<BufferId, Place> :: LocatedBy(buffers, at, where)
  }

  ghost predicate LocatedBy(buffers: set<BufferId>, at: Layout, where: map<BufferId, Place>) {
    && where.Keys == buffers
    && (forall b :: b in where ==> at(where[b]) == Some(b))
    && (forall p :: at(p).Some? ==> at(p).value in where && where[at(p).value] == p)
  }

  /** A thread's slot is null exactly while its hands hold the buffer. */
  predicate StorageOk(st: ThreadStorage) {
    && (st.data == None <==> Holding(st.pc))
    && (st.pc.Open? ==> st.pendingData == Some(st.pc.buffer))
  }

  ghost predicate StoragesOk(s: State) {
    forall t :: t in s.storages ==> StorageOk(s.storages[t])
  }

  ghost predicate RegisteredOk(s: State) {
    NoRepeats(s.blocks) && forall t :: t in s.storages <==> t in s.blocks
  }

  /** The bookkeeping of the flush loop over n threads: each slot is swapped at most once, and a
      round that ends with allFlushed has seen every thread flushed. */
  ghost predicate LoopOk(f: Flush, n: nat) {
    f.On? ==>
      && |f.flushed| == |f.swaps| == n
      && f.pc.i <= n && (!f.pc.Scan? ==> f.pc.i < n && !f.flushed[f.pc.i])
      && (forall j :: 0 <= j < n ==> f.swaps[j] == if f.flushed[j] || (f.pc.Write? && f.pc.i == j) then 1 else 0)
      && (f.pc.allFlushed ==> forall j :: 0 <= j < f.pc.i ==> f.flushed[j])
  }

  /** What the flusher read from a slot is still that thread's buffer, even if the thread has
      claimed it since. */
  ghost predicate ExpectedOk(s: State) {
    s.flush.On? && (s.flush.pc.Stamp? || s.flush.pc.Swap?) && s.flush.pc.i < |s.blocks| ==>
      Own(s, s.blocks[s.flush.pc.i]) == Some(s.flush.pc.expected)
  }

  /** Consecutive events of one thread. */
  ghost predicate Contiguous(events: seq<Recorded>) {
    forall i :: 0 <= i < |events| ==> events[i].thread == events[0].thread && events[i].no == events[0].no + i
  }

  /** Consecutive events of thread t, the last of them number `upTo` - 1. */
  ghost predicate Run(events: seq<Recorded>, t: ThreadId, upTo: nat) {
    Contiguous(events) && (events != [] ==> events[0].thread == t && events[0].no + |events| == upTo)
  }

  function Begun(s: State, t: ThreadId): nat {
    |LogOf(s, t)| + (if HasOpenEvent(s, t) then 1 else 0)
  }

  /** A thread's own buffer carries its number and holds its latest events, the open one last. */
  ghost predicate OwnBufferOk(hash: ThreadId -> u64, s: State, t: ThreadId) {
    && Own(s, t).Some? && Own(s, t).value in s.heap
    && var b := s.heap[Own(s, t).value];
       && b.threadId == hash(t) && Run(b.events, t, Begun(s, t))
       && (HasOpenEvent(s, t) ==> b.events != [])
  }

  /** Consecutive committed events of one thread, under that thread's number. */
  ghost predicate ChunkOk(hash: ThreadId -> u64, s: State, c: Buffer) {
    && Contiguous(c.events)
    && (c.events != [] ==>
          && c.threadId == hash(c.events[0].thread)
          && c.events[0].no + |c.events| <= |LogOf(s, c.events[0].thread)|)
  }

  ghost predicate BuffersOk(hash: ThreadId -> u64, s: State) {
    && (forall t :: t in s.storages ==> OwnBufferOk(hash, s, t))
    && (forall c :: 0 <= c < |s.file| ==> ChunkOk(hash, s, s.file[c]))
    && FlusherBufferOk(hash, s)
  }

  /** The buffer in the flusher's hands: empty and, before the swap, stamped with the number of
      the thread that will get it; after the swap the events of the thread it came from. */
  ghost predicate FlusherBufferOk(hash: ThreadId -> u64, s: State) {
    s.flush.On? ==>
      match s.flush.pc
      case Write(i, _, taken) =>
        && taken in s.heap && i < |s.blocks|
        && s.heap[taken].threadId == hash(s.blocks[i])
        && ChunkOk(hash, s, s.heap[taken])
        && (s.heap[taken].events != [] ==> s.heap[taken].events[0].thread == s.blocks[i])
      case Swap(i, _, _) =>
        && s.flush.replacement in s.heap && i < |s.blocks|
        && s.heap[s.flush.replacement] == Buffer(hash(s.blocks[i]), [])
      case _ => s.flush.replacement in s.heap && s.heap[s.flush.replacement].events == []
  }

  /** None lost, none doubled, none made up: there is one position for each event a thread has
      committed or has open, and that position holds that event. */
  ghost predicate EventsOk(s: State) {
    Indexed(ContentsOf(s), BegunOf(s)) && Faithful(s)
  }

  ghost predicate Faithful(s: State) {
    forall p :: Find(s, p).Some? ==> FaithfulTo(s, Find(s, p).value)
  }

  /** r, if committed, is the event its thread committed under its number. */
  predicate FaithfulTo(s: State, r: Recorded) {
    r.no < |LogOf(s, r.thread)| ==> r.event == LogOf(s, r.thread)[r.no]
  }

  type Contents = Position -> Option<Recorded>

  function ContentsOf(s: State): Contents {
    p => Find(s, p)
  }

  function BegunOf(s: State): ThreadId -> nat {
    (t: ThreadId) => Begun(s, t)
  }

  function Key(r: Recorded): (ThreadId, nat) {
    (r.thread, r.no)
  }

  /** There is exactly one position for each of the first begun(t) events of each thread t, and no
      position holds anything else. */
  ghost predicate Indexed(at: Contents, begun: ThreadId -> nat) {
    exists where: map<(ThreadId, nat), Position> :: IndexedBy(at, begun, where)
  }

  ghost predicate IndexedBy(at: Contents, begun: ThreadId -> nat, where: map<(ThreadId, nat), Position>) {
    && (forall key: (ThreadId, nat) :: key in where <==> key.1 < begun(key.0))
    && (forall key :: key in where ==> at(where[key]).Some? && Key(at(where[key]).value) == key)
    && (forall p :: at(p).Some? ==> Key(at(p).value) in where && where[Key(at(p).value)] == p)
  }

  /** Thread t's own buffer holds nothing numbered below `floor`. */
  predicate OwnIsNew(s: State, t: ThreadId, floor: nat) {
    Own(s, t).Some? && Own(s, t).value in s.heap ==>
      var events := s.heap[Own(s, t).value].events;
      events == [] || events[0].no >= floor
  }

  /** Once this flush has swapped a thread's slot, what that thread had committed before the flush
      is no longer in the thread's buffer. */
  ghost predicate FlushProgress(s: State) {
    s.flush.On? ==>
      && |s.flush.swaps| == |s.blocks|
      && (forall j :: 0 <= j < |s.blocks| ==> s.blocks[j] in s.flush.committedAtStart)
      && (forall t :: t in s.flush.committedAtStart ==> s.flush.committedAtStart[t] <= |LogOf(s, t)|)
      && (forall j :: 0 <= j < |s.blocks| && s.flush.swaps[j] > 0 ==>
            OwnIsNew(s, s.blocks[j], s.flush.committedAtStart[s.blocks[j]]))
  }

  predicate EndsBig(events: seq<Recorded>) {
    events != [] && |events[|events| - 1].event.payload| > ThreadData.MAX_SIZE_INSIDE
  }

  /** The used part ends inside Buffer, or one byte behind it if the last event is that big. */
  predicate Fits(events: seq<Recorded>) {
    && ThreadData.UsedBytes(Plain(events)) <= BUFFER_SIZE + 1
    && (ThreadData.UsedBytes(Plain(events)) > BUFFER_SIZE ==> EndsBig(events))
  }

  /** A recorder that has made room has it, until it appends. */
  predicate RoomIsMade(s: State, t: ThreadId)
    requires t in s.storages
  {
    s.storages[t].pc.Ready? && s.storages[t].pc.buffer in s.heap ==>
      var events := Plain(s.heap[s.storages[t].pc.buffer].events);
      events == ThreadData.AfterMakingRoom(events, s.storages[t].pc.request.size)
  }

  /** Buffer arithmetic: the used part of every buffer stays within the buffer and its padding byte. */
  ghost predicate BuffersFit(s: State) {
    && (forall b :: b in s.heap ==> Fits(s.heap[b].events))
    && (forall t :: t in s.storages ==> RoomIsMade(s, t))
  }

  ghost predicate Inv(hash: ThreadId -> u64, s: State) {
    && OnePlaceEach(s) && StoragesOk(s) && RegisteredOk(s) && LoopOk(s.flush, |s.blocks|) && ExpectedOk(s)
    && BuffersOk(hash, s) && EventsOk(s) && FlushProgress(s) && BuffersFit(s)
  }
}
