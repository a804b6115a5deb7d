# Velcro framework: verified models

Four parts of the Velcro framework's core library, modelled in Dafny and proved correct. The models
keep the form of the code: what the C++ updates in place is a class with those fields, loops are
loops, and protocols between threads are state machines whose steps are the atomic actions of the
code. `dafny verify dfyconfig.toml` checks the project.

**Event logger** (`EventLog*`, `ThreadData`, `LocalFileEventLogger`, `EventLogger*`). Threads record
events into buffers of their own, which they take out of an atomic slot and put back; a flusher
swaps the slots with one recycled spare buffer. `LocalFileEventLogger` has the steps for any number
of threads, exits and flushes, the swap and the write being two of them; `EventLoggerRuns` has what
holds in every run: exclusive ownership, conservation, complete flushes. `EventLoggerSizes` has the
buffer arithmetic, `EventLoggerProgress` that a flush ends. `EventLoggerFile` goes on to the bytes and
the reader; it and `EventLoggerOrder` say exactly when a thread's chunks stand in the file in order,
and `EventLoggerOvertaking` shows that they may not. `EventLoggerGuards` takes the writes apart, with the
lock around them, and says which can overlap. `EventLoggerRecording` traces every event of the log back
to what its thread asked for and filled in. `EventLogLayout` has the file byte by byte.

**Detector stream** (`Detector*`). The writer's 8-byte entries, the string pools on both sides, the
chunked parser, the DOM builder on the heap, the handler dispatcher (`DetectorHandlerParser`), and
detectors, sessions and their manager (`DetectorReports`, `DetectorSession`, `DetectorSessions`,
`DetectorManagerImpl`). The results: how the stream is cut does not matter, the parser undoes the
writer, the pools stay in lock-step, the DOM builder and the dispatcher do what recursive definitions
say, and a session run from Start to Stop (`DetectorRuns`) is read back as its tree, item by item
(`DetectorSessionRead`) - unless it ended by itself. `DetectorWire` and `DetectorStartData` have the
stream byte by byte and write by write.

**Console** (`Console*`, `AutoComplete`). The intrusive list, the index by lower-case name that is a
function of it, the hand-over of the list to and from the deferred functors, and completion, which is
maximal. `ConsoleNames` says what all that means for names as they are typed.

**Event bus** (`SharedDispatch*`, `QueuePolicy*`, `EventBusQueuePolicies`). The lock guards over the
shared mutex, down to its counter, and the queue of deferred calls.

Each class method is proved against pure functions on its old and new state; lemmas about those
functions carry the results. Checksums, hashes and thread numbers are parameters; where two strings
must not share a checksum, that is a stated assumption.

## Where the code and its comments differ

- The comment at `velcro-core/vcore/event_bus/event_bus_shared_dispatch_traits.h:129-130` says that
  calling `lock_shared` twice on one thread deadlocks. This mutex gives waiting writers no
  preference, so it would not: inside a dispatch the lock bit is always clear
  (`SharedDispatchRuns.NestedDispatchNeverWaits`). The model follows the code.
- The comments of the traits call nested connects and dispatches "limitations". `SharedDispatchRuns`
  shows that they are exactly what keeps the threads from waiting for ever.
- A functor that a console rejects while it is constructed keeps its pointer to that console, and its
  destructor follows it (`velcro-core/vcore/console/console_functor.cc:43` and `:111-113`), even when
  the console has ended (`ConsoleDeferral.DeferredFunctors.TakeBack`, `RejectedOutlives`).
- `ThreadStorage::Reset` writes a thread's last chunk without `m_fileWriteGuard`, so it can write while
  a recorder does (`EventLoggerGuards.WritesOverlapOnlyAtExit`, `WritesDoOverlap`).
- The reader takes any event with the prolog's hash for a prolog, of whatever size
  (`EventLogFormat.WalkNamesRecorders`, `EmptyPrologReadsNextHeader`).
- A flush does not keep the chunks of one thread in the order they were recorded; the condition is
  in `EventLoggerOrder.FileOrderIsKeptUnlessAStepOvertakes`.
- `SetActive(false)` does not leave the queue empty for good, because `QueueFunction` tests
  `m_isActive` before it locks; see `QueuePolicyRuns.InactiveMayFill`.
- A session that `FrameUpdate` ends because `numFrames` is reached closes its last frame twice, and
  what the detectors report at their Stop stands outside any frame. Its stream is the sending of no
  tree, and this is the only case (`DetectorRuns.SendsATree`; the shortest one is
  `DetectorRuns.OneFrameEndsTwice`).
- After such an end the loop at `velcro-core/vcore/detector/detector.cc:154-183` goes on from the
  erased place of the list. What happens then is undefined, so the model's update ends there.

## Model

| member | source | states |
|---|---|---|
| EventLogFormat.AlignUp | velcro-core/vcore/base.h:17 | the smallest multiple of 8 that is not below the size |
| EventLogFormat.WriteSize | velcro-core/vcore/debug/local_file_event_logger.cc:237 | the space of an event: a multiple of 8 that holds header and payload with less than 8 bytes to spare |
| EventLogFormat.DecodeHeadOfEncode | velcro-core/vcore/debug/local_file_event_logger.cc:244-249 | the header and payload RecordEventBegin lays out are read back, whatever follows |
| EventLogFormat.DecodeAllOfEncodeAll | velcro-core/vcore/debug/local_file_event_logger.cc:67-78 | any list of events, laid out one behind the other, is found again by stepping over aligned sizes |
| EventLogFormat.EncodeAllOfDecodeAll | velcro-core/vcore/debug/local_file_event_logger.cc:67-78 | and bytes that can be stepped through to the end are the layout of what is found: one reading only |
| EventLogFormat.EncodeFileAppend | velcro-core/vcore/debug/local_file_event_logger.cc:285-297 | writing one more chunk appends its prolog and events to the file and changes nothing before |
| EventLogLayout.EventBytes | velcro-core/vcore/debug/ievent_logger.h:60-69 | an event byte by byte: id, size and flags in 4, 2 and 2 bytes, the payload, and padding to a multiple of 8 |
| EventLogLayout.PrologBytes | velcro-core/vcore/debug/ievent_logger.h:71-74 | a prolog byte by byte: its name, 8 bytes of payload, no flags, and the thread in 8 bytes |
| EventLogLayout.HeaderBytes | velcro-core/vcore/debug/ievent_logger.h:49-58 | the file begins with VOEL and the versions 1, 0 and 0 |
| EventLogLayout.PrologHashIs | velcro-core/vcore/debug/ievent_logger.h:13-40 | the number the reader looks for is the DJB2a hash of "Prolog" |
| EventLogFormat.WalkNamesRecorders | velcro-core/vcore/debug/local_file_event_logger.cc:80-87 | walking a file of chunks names the chunk's thread at each of its events exactly if no recorded event that carries the prolog's hash, of whatever size, has another number in the 8 bytes behind its header |
| EventLogFormat.ReadableMeans | velcro-core/vcore/debug/local_file_event_logger.cc:80-87 | those 8 bytes lie in the file exactly if no empty event with the prolog's hash is its very last |
| EventLogFormat.EmptyPrologReadsNextHeader | velcro-core/vcore/debug/local_file_event_logger.cc:80-87 | an empty event with the prolog's hash makes the reader take the next event's header for a thread id |
| EventLogReader.EventLogReader.ReadLog | velcro-core/vcore/debug/local_file_event_logger.cc:16-40 | true exactly for an existing, non-empty, fully read file; then the reader is at the first event, with the thread id it names or else the one an earlier log left |
| EventLogReader.EventLogReader.GetEvent | velcro-core/vcore/debug/local_file_event_logger.cc:42-65 | name, size, flags and payload at the cursor are those of the event the file holds there |
| EventLogReader.EventLogReader.Next | velcro-core/vcore/debug/local_file_event_logger.cc:67-78 | moves to the next event of the file if there is one, with the thread id the walk gives it; false and unmoved at the end |
| EventLogReader.EventLogReader.UpdateThreadId | velcro-core/vcore/debug/local_file_event_logger.cc:80-87 | the thread id changes at the prolog's hash only, to the 8 bytes behind the header, whatever the event's size |
| EventLogReader.LoggedFileIsWellFormed | velcro-core/vcore/debug/local_file_event_logger.cc:16-40 | a file the logger wrote, with at least one chunk, decodes to its events, and satisfies all that ReadLog and Next rely on exactly if it does not end with an empty event of the prolog's hash |
| EventLogReader.VisitAll | velcro-core/vcore/debug/local_file_event_logger.cc:67-78 | ReadLog and Next over a logged file visit, chunk by chunk, the prolog and then each event in record order; the threads are the chunks' exactly if no event passes for a prolog of another thread |
| EventLogReader.VisitLog | velcro-core/vcore/debug/local_file_event_logger.cc:67-78 | the loop over Next visits exactly the walk of the decoded file |
| ThreadData.EventFits | velcro-core/vcore/debug/local_file_event_logger.cc:237-249 | after making room, header and payload of any event lie inside Buffer, the used part stays a multiple of 8 and ends one byte behind Buffer exactly for sizes above 65528 |
| ThreadData.KeepsWhatFits | velcro-core/vcore/debug/local_file_event_logger.cc:237-242 | nothing is written as long as the event ends before byte 65559, and everything otherwise |
| ThreadData.StampedChunk | velcro-core/vcore/debug/local_file_event_logger.cc:285-296 | stamping the prolog over the reserved 16 bytes makes the used part the encoding of one chunk |
| ThreadData.HeaderOpensEvent | velcro-core/vcore/debug/local_file_event_logger.cc:244-249 | a header written behind the used bytes turns the bytes there into one more event |
| ThreadData.PayloadFilled | velcro-core/vcore/debug/local_file_event_logger.cc:255 | filling the returned payload changes that event's payload and no other byte of the chunk |
| ThreadData.ThreadData.WriteCacheToDisk | velcro-core/vcore/debug/local_file_event_logger.cc:285-297 | appends exactly the bytes of the chunk and leaves the buffer with no events |
| ThreadData.ThreadData.MakeRoom | velcro-core/vcore/debug/local_file_event_logger.cc:237-242 | writes the chunk exactly if the event would reach the end of the buffer, in numbers; otherwise file and buffer stay as they are |
| ThreadData.ThreadData.AppendEvent | velcro-core/vcore/debug/local_file_event_logger.cc:244-255 | the buffer holds one more event and the returned address is its payload |
| ThreadData.ThreadData.FillPayload | velcro-core/vcore/debug/local_file_event_logger.cc:271-283 | writing the payload changes the last event only |
| ThreadData.ThreadData.constructor | velcro-core/vcore/debug/local_file_event_logger.h:68-75 | a new buffer holds no events and room for the prolog |
| EventLoggerPlaces.KeepsOnePlaceEach | velcro-core/vcore/debug/local_file_event_logger.cc:167-355 | every step of every thread keeps each live buffer in exactly one of: a slot, a recorder's hand, the flusher |
| EventLoggerThreads.KeepsThreadsOk | velcro-core/vcore/debug/local_file_event_logger.cc:227-304 | every step keeps the recorders' and the flush loop's own books in order |
| EventLoggerBuffers.KeepsBuffersOk | velcro-core/vcore/debug/local_file_event_logger.cc:201-217 | every step keeps each buffer stamped with the thread that records into it and filled with a stretch of that thread's events |
| EventLoggerEvents.KeepsEventsOk | velcro-core/vcore/debug/local_file_event_logger.cc:227-297 | every step keeps exactly one position for every event begun, holding that event |
| EventLoggerFlush.KeepsFlushProgress | velcro-core/vcore/debug/local_file_event_logger.cc:177-220 | every step keeps what a slot already swapped has gained: only events newer than the flush are left to its thread |
| EventLoggerFlush.KeepsBuffersFit | velcro-core/vcore/debug/local_file_event_logger.cc:237-249 | every step keeps every buffer within its size |
| EventLoggerRuns.RunsKeepInv | velcro-core/vcore/debug/local_file_event_logger.cc:167-355 | all of that in every state of every interleaving |
| EventLoggerRuns.EveryBufferHasOnePlace | velcro-core/vcore/debug/local_file_event_logger.cc:167-304 | exclusive ownership: in every state of every run each live buffer is in one place and no other |
| EventLoggerRuns.NoStepCanFail | velcro-core/vcore/debug/local_file_event_logger.cc:227-267 | no pointer a recorder follows is null or dangling, its slot is not null when it claims it, and the exchange of RecordEventEnd succeeds at once |
| EventLoggerRuns.FlushNeverBlocks | velcro-core/vcore/debug/local_file_event_logger.cc:178-220 | the flush loop can always take its next step: it never waits for a recorder to end its event; the guard of the file writes is in EventLoggerGuards |
| EventLoggerRuns.CommittedEventsAreKept | velcro-core/vcore/debug/local_file_event_logger.cc:227-297 | conservation: every committed event is, unchanged, in exactly one position in the file or a live buffer |
| EventLoggerRuns.FileHoldsCommittedEvents | velcro-core/vcore/debug/local_file_event_logger.cc:285-297 | the file holds committed events only: no buffer with an open event is written; a chunk is consecutive events of the thread it names |
| EventLoggerSizes.BufferSizes | velcro-core/vcore/debug/local_file_event_logger.h:68-75 | in every run UsedBytes is a multiple of 8, at least 16 and at most BufferSize, or BufferSize + 1 exactly if the last event has more than 65528 bytes |
| EventLoggerSizes.MakeRoomWritesIfFull | velcro-core/vcore/debug/local_file_event_logger.cc:237-242 | in every run a recorder adds its chunk to the file exactly if the event would reach the end of Buffer, and otherwise leaves file and buffers alone |
| EventLoggerSizes.ReadyHasRoom | velcro-core/vcore/debug/local_file_event_logger.cc:237-249 | in every run, a recorder about to write its header has room for header and payload inside Buffer |
| EventLoggerSizes.EventsLieInside | velcro-core/vcore/debug/local_file_event_logger.cc:237-255 | in every run, header and payload of every event in every buffer lie inside Buffer, behind the prolog |
| EventLoggerSizes.SmallEventsStayInside | velcro-core/vcore/debug/local_file_event_logger.cc:237-242 | as long as no event of more than 65528 bytes is asked for, UsedBytes is at most BufferSize |
| EventLoggerProgress.IdleFlushEnds | velcro-core/vcore/debug/local_file_event_logger.cc:178-222 | while nobody records, a flush ends by its own steps: in the present round or the next, after at most 8 steps a thread and 2 |
| EventLoggerProgress.FinishRecorder | velcro-core/vcore/debug/local_file_event_logger.cc:227-267 | a thread that has begun an event can always finish it, whatever the others have done |
| EventLoggerProgress.EveryFlushCanEnd | velcro-core/vcore/debug/local_file_event_logger.cc:172-222 | from every state of every run with a flush on there is a continuation that ends it |
| EventLoggerRuns.FlushIsComplete | velcro-core/vcore/debug/local_file_event_logger.cc:172-222 | when Flush returns, every event a registered thread had committed before it took the lock is in the file |
| EventLoggerRuns.FlushSwapsEachOnce | velcro-core/vcore/debug/local_file_event_logger.cc:178-220 | and each registered thread's slot was swapped exactly once by that flush |
| EventLoggerRecording.LogIsWhatWasAsked | velcro-core/vcore/debug/local_file_event_logger.cc:227-267 | in every run: event k of a thread's log has id, flags and size of its k-th RecordEventBegin, was committed by its k-th RecordEventEnd, and holds what was filled in last, or what the buffer held |
| EventLoggerRecording.LogHasAllCommitted | velcro-core/vcore/debug/local_file_event_logger.cc:259-267 | every commit is one event of the log, and all requests but one under way are committed |
| EventLoggerRecording.FileHoldsWhatWasAsked | velcro-core/vcore/debug/local_file_event_logger.cc:285-297 | and so is every event in the file |
| EventLoggerRecording.AnyEventCanBeRecorded | velcro-core/vcore/debug/local_file_event_logger.cc:227-267 | from every state of every run a resting thread can record any event in seven steps of its own, and its log has that event more |
| EventLoggerRecording.NewThreadCanRegister | velcro-core/vcore/debug/local_file_event_logger.cc:345-355 | while no flush is on a new thread can register, behind the others, up to 512 |
| EventLoggerRecording.FlushCanStart | velcro-core/vcore/debug/local_file_event_logger.cc:172-178 | and a flush can start |
| EventLoggerFile.WritesAppendBytes | velcro-core/vcore/debug/local_file_event_logger.cc:295 | each write of the protocol appends to the file the bytes of that chunk |
| EventLoggerGuards.FineRunIsRun | velcro-core/vcore/debug/local_file_event_logger.cc:210-242 | with lock, write and unlock taken apart, every run is still a run of the protocol, so all that holds of those holds of it |
| EventLoggerGuards.RunIsFineRun | velcro-core/vcore/debug/local_file_event_logger.cc:210-242 | and every run of the protocol is one of these |
| EventLoggerGuards.WrittenAsBegun | velcro-core/vcore/debug/local_file_event_logger.cc:285-297 | what a write puts into the file is what the buffer held when it began: no other thread touches the buffer meanwhile |
| EventLoggerGuards.WritesOverlapOnlyAtExit | velcro-core/vcore/debug/local_file_event_logger.cc:322-330 | two writes are under way together only if one is a thread's exit and the other another thread's recording |
| EventLoggerGuards.WritesDoOverlap | velcro-core/vcore/debug/local_file_event_logger.cc:322-330 | a run in which they are |
| EventLoggerGuards.FlushWaitsForRecordersWrite | velcro-core/vcore/debug/local_file_event_logger.cc:178-215 | the flush waits only before its own write, and only for a recorder that holds m_fileWriteGuard |
| EventLoggerGuards.HolderLetsGo | velcro-core/vcore/debug/local_file_event_logger.cc:238-242 | whoever holds m_fileWriteGuard, recorder or flush, lets it go by at most three steps of its own |
| EventLoggerFile.ReaderVisitsChunks | velcro-core/vcore/debug/local_file_event_logger.cc:67-87 | the reader visits the file of any run chunk by chunk, prolog first, in record order, each event under its chunk's number - exactly if no recorded event passes for a prolog of another thread |
| EventLoggerFile.NoImpostors | velcro-core/vcore/debug/local_file_event_logger.cc:80-87 | which is so in any run that records no event under the prolog's name |
| EventLoggerFile.ReaderNamesRecorder | velcro-core/vcore/debug/local_file_event_logger.cc:201-217 | and GetThreadId names the thread that recorded the event, although buffers pass from thread to thread |
| EventLoggerFile.FileOrderIsKeptUnlessOvertaken | velcro-core/vcore/debug/local_file_event_logger.cc:203-217 | each thread's chunks are in the file in record order exactly when no buffer a flush took was overtaken before it was written |
| EventLoggerFile.NotOvertakenAtSwap | velcro-core/vcore/debug/local_file_event_logger.cc:203 | a buffer is never overtaken at the moment of the swap |
| EventLoggerFile.OvertakenExactlyByOvertaking | velcro-core/vcore/debug/local_file_event_logger.cc:203-242 | between swap and write it becomes overtaken by one kind of step only: its own thread writing a full replacement to make room |
| EventLoggerOrder.OvertakenBySteps | velcro-core/vcore/debug/local_file_event_logger.cc:203-242 | the buffer a flush holds is overtaken exactly if such a step was taken since its swap |
| EventLoggerOrder.FileOrderIsKeptUnlessAStepOvertakes | velcro-core/vcore/debug/local_file_event_logger.cc:203-242 | over whole runs: each thread's chunks are in the file in record order exactly if no flush writes a buffer that a step between its swap and its write has overtaken |
| EventLoggerOvertaking.OvertakingHappens | velcro-core/vcore/debug/local_file_event_logger.cc:203-242 | a run in which the second chunk of a thread reaches the file before the first |
| DetectorStreamFormat.EntryIsLocal | velcro-core/vcore/detector/stream.cc:337-432 | a complete entry means the same whatever follows it |
| DetectorStreamFormat.DecodeResumes | velcro-core/vcore/detector/stream.cc:304-446 | decoding can stop anywhere and go on with the rest and the pool it left |
| DetectorStreamFormat.UnknownStops | velcro-core/vcore/detector/stream.cc:433-439 | of the one-shot decoder: what it makes of bytes with an unknown type code does not depend on what follows |
| DetectorChunking.UnknownInBuffer | velcro-core/vcore/detector/stream.cc:433-439 | of the parser: with an unknown entry at the front of its buffer it only buffers, for good |
| DetectorStreamFormat.RestIsTail | velcro-core/vcore/detector/stream.cc:319-327 | what is left over is the unconsumed tail and holds no complete entry |
| DetectorStreamFormat.Interned | velcro-core/vcore/detector/default_string_pool.h:46-63 | a checksum keeps the first string filed under it |
| DetectorStreamFormat.UpToNul | velcro-core/vcore/detector/stream.cc:466 | the longest beginning without a NUL |
| DetectorWire.ShortEntryMeans | velcro-core/vcore/detector/stream.cc:337-377 | byte by byte: what an entry of types 1 to 4 is called back as |
| DetectorWire.LongEntryMeans | velcro-core/vcore/detector/stream.cc:378-439 | what an entry of types 0, 5 and 6 with its data is called back as, when it has to wait, and that type 7 is unknown |
| DetectorWire.InlineStringIsPooled | velcro-core/vcore/detector/stream.cc:472-478 | a handler that reads an inline string gets the pooled one of its checksum, which is a copy of it if there was none |
| DetectorWire.HandlerPools | velcro-core/vcore/detector/stream.cc:472-478 | and that is all it does to the pool |
| DetectorChunking.FeedIsDecode | velcro-core/vcore/detector/stream.cc:304-446 | for every cutting into chunks the callbacks are those of the one-shot decoder and the buffer is its unconsumed tail |
| DetectorChunking.FeedAppend | velcro-core/vcore/detector/stream.cc:304-446 | the parser goes on from where a beginning of the chunks has brought it |
| DetectorChunking.ChunkingMattersOnlyForUnknown | velcro-core/vcore/detector/stream.cc:433-439 | the callbacks are the same for all cuttings of a stream, whatever comes behind it, exactly when the stream holds no unknown entry |
| DetectorSaxParser.InputStream.ReadBinary | velcro-core/vcore/detector/stream.h:464-475 | hands out the next chunk, shorter than asked for if the source has less |
| DetectorSaxParser.SaxParser.ProcessStream | velcro-core/vcore/detector/stream.cc:298-447 | calls back, buffers and pools exactly as the chunk-by-chunk specification says, with a string pool or without one |
| DetectorSaxParser.SaxParser.ProcessChunk | velcro-core/vcore/detector/stream.cc:304-446 | one round of the outer loop, with the buffered beginning of an entry in front |
| DetectorSaxParser.SaxParser.ProcessEntries | velcro-core/vcore/detector/stream.cc:317-441 | the inner loop makes the callbacks of the decoder and leaves its rest |
| DetectorSaxParser.SaxParser.ProcessEntry | velcro-core/vcore/detector/stream.cc:319-440 | one entry of each of the seven types, or the reason it has to wait |
| DetectorSaxParser.ReadString | velcro-core/vcore/detector/stream.cc:449-484 | the string a handler reads: inline, pooled, or found by its checksum; without a pool the data as they are |
| DetectorStringPool.StringPool.InsertCopy | velcro-core/vcore/detector/default_string_pool.h:46-63 | adds a copy the pool owns, or returns the string already filed; nothing in use is freed |
| DetectorStringPool.StringPool.Insert | velcro-core/vcore/detector/default_string_pool.h:69-73 | files a borrowed string unless its checksum is taken |
| DetectorStringPool.StringPool.Find | velcro-core/vcore/detector/default_string_pool.h:76-84 | the string filed under a checksum, if any |
| DetectorStringPool.StringPool.Erase | velcro-core/vcore/detector/default_string_pool.h:86-99 | unfiles a checksum and frees its string exactly if the pool owns it |
| DetectorStringPool.StringPool.Reset | velcro-core/vcore/detector/default_string_pool.h:101-109 | frees every owned string once and empties the pool |
| DetectorOutputStream.MasksAreArithmetic | velcro-core/vcore/detector/stream.h:87-89 | the 3-bit and 29-bit masks and shifts are division and remainder by two to the 29 |
| DetectorOutputStream.OutputStream.WriteHeader | velcro-core/vcore/detector/stream.cc:24-28 | appends the platform byte; the writes that follow are told apart from what was there |
| DetectorOutputStream.EmitMore | velcro-core/vcore/detector/stream.h:193-259 | whatever calls are made one after the other, the bytes are the encoding of the list of them |
| DetectorWire.TagBytes | velcro-core/vcore/detector/stream.h:193-207 | a tag in numbers: its name, type 1, and whether it opens |
| DetectorWire.IntBytes | velcro-core/vcore/detector/stream.h:98-165 | an integer in numbers: types 2 and 3 for one and two bytes, type 4 for up to 29 bits, and its bytes behind the entry otherwise |
| DetectorWire.BlobBytes | velcro-core/vcore/detector/stream.h:220-227 | a blob in numbers: its size and its bytes |
| DetectorWire.StringBytes | velcro-core/vcore/detector/stream.h:228-259 | a string in numbers: as a blob without a pool, type 6 in full the first time, type 5 and its checksum from then on |
| DetectorWire.SecondTimeByChecksum | velcro-core/vcore/detector/stream.h:228-259 | whatever is written in between, the second time a string is sent as its checksum |
| DetectorOutputStream.OutputStream.BeginTag | velcro-core/vcore/detector/stream.h:193-200 | appends the encoding of an opening tag |
| DetectorOutputStream.OutputStream.EndTag | velcro-core/vcore/detector/stream.h:201-207 | appends the encoding of a closing tag |
| DetectorOutputStream.OutputStream.WriteInt | velcro-core/vcore/detector/stream.h:98-165 | appends the inline or the payload form the 29-bit test selects |
| DetectorOutputStream.OutputStream.WriteBlob | velcro-core/vcore/detector/stream.h:220-227 | appends size and bytes; the size may run into the type bits |
| DetectorOutputStream.OutputStream.WriteString | velcro-core/vcore/detector/stream.h:228-259 | appends the string the first time and its checksum afterwards; the pool gets a copy of its own, or the caller's pointer |
| DetectorRoundTrip.IntReadsBack | velcro-core/vcore/detector/stream.h:543-597 | bits read at the same or a wider type of the same signedness give the value, negatives included |
| DetectorRoundTrip.IntRoundTrip | velcro-core/vcore/detector/stream.h:98-165 | whichever form an integer is written in, reading it at its own or any wider type gives it back |
| DetectorRoundTrip.BlobRoundTrip | velcro-core/vcore/detector/stream.h:220-227 | a blob comes back exactly if its size is below two to the 29 |
| DetectorRoundTrip.CrcReferenceReadsBack | velcro-core/vcore/detector/stream.cc:457-467 | a string sent as its checksum is read back exactly if it holds no NUL |
| DetectorRoundTrip.StringRoundTrip | velcro-core/vcore/detector/stream.h:228-259 | a string comes back in full, pooled or by checksum |
| DetectorRoundTrip.ParserKeepsLockStep | velcro-core/vcore/detector/stream.cc:378-395 | the reader's pool resolves every checksum the writer's pool holds to the same string |
| DetectorRoundTrip.HandlerKeepsLockStep | velcro-core/vcore/detector/stream.cc:472-476 | also when a handler makes the reader pool strings of its own |
| DetectorRoundTrip.OpRoundTrip | velcro-core/vcore/detector/stream.h:193-259 | any single write is decoded to a callback that means it, for every later state of the pool |
| DetectorRoundTrip.StreamRoundTrip | velcro-core/vcore/detector/stream.cc:298-447 | any sequence of writes is decoded to the same names, kinds and values in order, with the pools in lock-step |
| DetectorRoundTrip.ChunkedRoundTrip | velcro-core/vcore/detector/stream.cc:298-447 | and so it is through the chunked parser, however the stream is cut |
| DetectorRoundTrip.NamedRoundTrip | velcro-core/vcore/detector/stream.cc:449-484 | for a handler that reads as strings the data of certain names, all that is asked is that no two strings at stake in this stream share a checksum |
| DetectorRoundTrip.UnpooledRoundTrip | velcro-core/vcore/detector/stream.h:374-376 | with a string pool on neither side, the default, every write comes back as it was, strings with NULs included, and no callback needs a pool |
| DetectorRoundTrip.StreamSplits | velcro-core/vcore/detector/stream.cc:298-447 | at every point of the stream the reader has what was written so far and can resolve its strings |
| DetectorTree.ItemsNest | velcro-core/vcore/detector/stream.h:193-207 | the sending of a tree opens and closes its tags in balance |
| DetectorTree.WellNestedIsTree | velcro-core/vcore/detector/stream.h:193-207 | callbacks are well nested exactly if they are the sending of some tree |
| DetectorDomParser.TakesItems | velcro-core/vcore/detector/stream.cc:554-586 | fed the sending of items inside any open tags, the parser adds their trees and data in order and is back where it was |
| DetectorDomParser.AcceptsWellNested | velcro-core/vcore/detector/stream.h:742 | closing tags match and CanParse holds exactly at nesting depth zero |
| DetectorDomParser.PrintParses | velcro-core/vcore/detector/stream.cc:554-586 | writing a tree and parsing it gives the tree |
| DetectorDomParser.DomParser.OnTag | velcro-core/vcore/detector/stream.cc:554-571 | the pointers move and nodes appear as the spine of the tree says, whatever name a closing tag has |
| DetectorDomParser.DomParser.OpenTag | velcro-core/vcore/detector/stream.cc:557-565 | a new last child of the top node becomes the top node |
| DetectorDomParser.DomParser.CloseTag | velcro-core/vcore/detector/stream.cc:566-570 | the finished node stays in its parent, which is the top node again |
| DetectorDomParser.DomParser.OnData | velcro-core/vcore/detector/stream.cc:576-586 | the data is the last of the top node; no other node changes |
| DetectorDomParser.DomParser.Process | velcro-core/vcore/detector/stream.cc:554-586 | a run of callbacks leaves the heap as the pure fold over the spine |
| DetectorDomParser.DomParser.CanParseAtRoot | velcro-core/vcore/detector/stream.h:742 | CanParse holds exactly when one node, the root, is open |
| DetectorDomParser.DomParser.RootRepresents | velcro-core/vcore/detector/stream.h:744 | at the root, the nodes reachable from it are the whole tree |
| DetectorDomParser.ParseTree | velcro-core/vcore/detector/stream.cc:554-586 | a fresh parser fed well-nested callbacks ends at the root with the tree they are the sending of |
| DetectorHandlerParser.SaxParserHandler.OnTag | velcro-core/vcore/detector/stream.cc:629-659 | the stack grows or shrinks by one and the handler in charge is called, whatever handlers remember; once the root is popped nothing happens |
| DetectorHandlerParser.SaxParserHandler.OnData | velcro-core/vcore/detector/stream.cc:664-676 | data goes to the handler in charge, if there is one |
| DetectorHandlerParser.SaxParserHandler.Process | velcro-core/vcore/detector/stream.cc:629-676 | a run of callbacks leaves stack and calls as the fold over them |
| DetectorHandlerParser.StackRefinesWalk | velcro-core/vcore/detector/stream.cc:629-676 | for the sending of items inside any open tags the calls are those of a recursive walk, and the stack is as before |
| DetectorHandlerParser.DispatchIsWalk | velcro-core/vcore/detector/stream.cc:629-676 | dispatch by stack is the recursive walk of the whole tree and ends with the root handler alone |
| DetectorHandlerParser.DataIsHandled | velcro-core/vcore/detector/stream.cc:664-676 | data is handed to the handler in charge if every open tag was recognised by its parent's handler, and to nobody otherwise |
| DetectorHandlerParser.TagIsEntered | velcro-core/vcore/detector/stream.cc:636-645 | the handler in charge is told of an opening tag and asked for the tag's handler |
| DetectorHandlerParser.TagIsExited | velcro-core/vcore/detector/stream.cc:646-659 | the handler around a closing tag is told of it, with the handler of the tag |
| DetectorHandlerParser.InChargeInside | velcro-core/vcore/detector/stream.cc:636-659 | inside a tag, whatever stood in between, the handler its parent's handler gave for it is in charge |
| DetectorHandlerParser.WellNestedKeepsRoot | velcro-core/vcore/detector/stream.cc:646-659 | well-nested callbacks never pop the root handler |
| DetectorHandlerParser.NothingBehindTheRoot | velcro-core/vcore/detector/stream.cc:631-634 | once the root handler is popped nobody is called |
| DetectorHandlerParser.HeightCountsOpenTags | velcro-core/vcore/detector/stream.cc:629-659 | the stack has one entry for the root and one for every open tag |
| DetectorHandlerParser.ResponsibleWhenAllRecognised | velcro-core/vcore/detector/stream.cc:638-645 | a handler is in charge exactly if every open tag was recognised by its parent's handler |
| DetectorHandlerParser.StackIsByPosition | velcro-core/vcore/detector/stream.cc:638-645 | with handlers that always answer alike, who is in charge depends on the open tags only |
| DetectorManager.SessionWrites | velcro-core/vcore/detector/detector.cc:189-250 | the items of a session are well formed: only tags nest |
| DetectorStartData.StartDataWrites | velcro-core/vcore/detector/detector.cc:203-224 | the start data write by write: the platform, every detector of the list with every parameter, in order, under the names the code gives them |
| DetectorStartData.FrameWrites | velcro-core/vcore/detector/detector.cc:226-227 | a frame write by write: its number, counted from 0, and what was reported in it |
| DetectorManager.FrameCloses | velcro-core/vcore/detector/detector.cc:164 | closing the open frame completes one more frame of the session |
| DetectorManager.StoppedIsUnbalanced | velcro-core/vcore/detector/detector.cc:164-176 | what a session that FrameUpdate ends has written closes one tag too many, so it is the sending of no tree |
| DetectorReports.Detector.Report | velcro-core/vcore/detector/detector.cc:161 | one call of a detector writes its items and counts |
| DetectorReports.CallEach | velcro-core/vcore/detector/detector.cc:159-162 | every detector of the session is called once, in order |
| DetectorReports.ReleaseEach | velcro-core/vcore/detector/detector.cc:275-279 | every detector has its last call, in order, and loses its stream |
| DetectorSession.Session.Begin | velcro-core/vcore/detector/detector.cc:203-226 | header, StartData with every detector and parameter, and the first frame, behind whatever the stream held |
| DetectorSession.Session.Join | velcro-core/vcore/detector/detector.cc:239-242 | the detector gets the stream, starts, and is listed |
| DetectorSession.Session.Record | velcro-core/vcore/detector/stream.h:193-259 | what a detector writes on its own account goes into the open frame |
| DetectorSession.Session.CloseFrame | velcro-core/vcore/detector/detector.cc:158-168 | the open frame is finished with the detectors' reports |
| DetectorSession.Session.OpenFrame | velcro-core/vcore/detector/detector.cc:179-180 | the next frame, with the next number, is open |
| DetectorSession.Session.Finish | velcro-core/vcore/detector/detector.cc:273-281 | the detectors have their last call and are let go, and a frame is closed, open or not |
| DetectorSessions.StartDetectors | velcro-core/vcore/detector/detector.cc:230-247 | those detectors start that the list names and the manager knows, in the order of the list |
| DetectorManagerImpl.Manager.Register | velcro-core/vcore/detector/detector.cc:109-121 | adds a detector unless its id is taken; ids stay unique |
| DetectorManagerImpl.Manager.Unregister | velcro-core/vcore/detector/detector.cc:127-140 | exactly the detector with that id is gone, the others stay in order |
| DetectorManagerImpl.Manager.Start | velcro-core/vcore/detector/detector.cc:190-250 | null for an empty list; otherwise a session whose stream is its front and first frame with the first reports of the named detectors |
| DetectorManagerImpl.Manager.TakeTurn | velcro-core/vcore/detector/detector.cc:156-182 | one session closes its frame and opens the next, or ends if that was number numFrames; the others stay as they are |
| DetectorManagerImpl.Manager.FrameUpdate | velcro-core/vcore/detector/detector.cc:146-184 | the sessions take their turns up to and with the first that ends; none disturbs another |
| DetectorManagerImpl.Manager.Stop | velcro-core/vcore/detector/detector.cc:257-284 | a listed session's detectors have their last call and are let go, its frame is closed and it is unlisted; any other call changes nothing |
| DetectorRuns.FrameAt | velcro-core/vcore/detector/detector.cc:145-250 | frame k of a session is the detectors' reports of their Start, if it is the first, what they wrote in it, and their reports of its Update or Stop |
| DetectorRuns.RunSession | velcro-core/vcore/detector/detector.cc:145-284 | Start, n FrameUpdates and Stop: the stream is the header and, to the last write, what such a session writes; it ends by itself exactly if 1 <= numFrames <= n; the detectors are let go |
| DetectorRuns.SendsATree | velcro-core/vcore/detector/detector.cc:164-176 | for all numFrames and n: what a session has written is the sending of a tree exactly if FrameUpdate did not end it |
| DetectorRuns.OneFrameEndsTwice | velcro-core/vcore/detector/detector.cc:164-176 | with numFrames 1 and one update the stream is the start data, one frame and a closing tag of a frame that is not open |
| DetectorSessionStream.TreeRoundTrip | velcro-core/vcore/detector/stream.cc:298-586 | any tree of tags and values that is written, cut anyhow and parsed is the tree at the DOM parser's root |
| DetectorSessionStream.SessionRoundTrip | velcro-core/vcore/detector/detector.cc:145-284 | the bytes of start data and frames, however cut, bring the DOM parser back to the root with StartData and the frames by number, item by item |
| DetectorSessionRead.CutsAll | velcro-core/vcore/detector/stream.h:464-475 | every way a stream can come in chunks is a cutting into given sizes |
| DetectorSessionRead.SessionReads | velcro-core/vcore/detector/detector.cc:145-284 | what a session that ran to its Stop has written is well nested, leaves no rest, and parses to its tree |
| DetectorSessionRead.WriteAndRead | velcro-core/vcore/detector/detector.cc:145-284 | from Start to the tree: unless FrameUpdate ends the session, the reader's DOM parser is at the root, which holds what the session and its detectors wrote, item by item, frames numbered 0 to n |
| DetectorSessionStream.ReadItems | velcro-core/vcore/detector/stream.cc:298-447 | callbacks that mean the writes of a tree are the sending of a tree of the same shape and values |
| ConsoleFunctors.ConsoleFunctorBase.Link | velcro-core/vcore/console/console_functor.cc:121-131 | a list that ends in this functor goes on with the list of that head |
| ConsoleFunctors.ConsoleFunctorBase.Unlink | velcro-core/vcore/console/console_functor.cc:133-160 | the list without this functor is well linked, in the same order; a functor in no list changes nothing |
| ConsoleFunctors.WithoutAt | velcro-core/vcore/console/console.cc:283-291 | without repeats, erasing the found place and leaving the functor out are the same |
| ConsoleRegistry.NamedMembers | velcro-core/vcore/console/console.cc:238-240 | what the list determines for a name are exactly its functors of that name |
| ConsoleRegistry.AcceptsMeans | velcro-core/vcore/console/console.cc:241-268 | testing the oldest functor of the name is as good as testing all of the list |
| ConsoleRegistry.RunKeeps | velcro-core/vcore/console/console.cc:231-295 | after any calls no functor is listed twice, those of one name share flags and type id, and one that must not be duplicated is alone |
| ConsoleRegistry.UnregisterUndoes | velcro-core/vcore/console/console.cc:274-295 | unregistering undoes registering |
| ConsoleRegistry.RelinkTakesAll | velcro-core/vcore/console/console.cc:297-311 | an empty console takes over a deferred list whole, turned round, exactly if its functors differ and may be registered together |
| ConsoleRegistry.RelinkReversesNames | velcro-core/vcore/console/console.cc:297-311 | turning the list round turns the order under every name round |
| ConsoleRegistry.HandOver | velcro-core/vcore/console/console.cc:313-343 | with functors deferred before, all are taken over exactly if the two lists may be registered together |
| ConsoleRegistry.HandOverAll | velcro-core/vcore/console/console.cc:313-343 | with none deferred before, everything comes back, list order and order under each name reversed |
| ConsoleNames.LowerForgetsCase | velcro-core/vcore/console/console.cc:239-240 | two letters have the same lower case exactly if they are equal or the upper and lower case of one of the 26 |
| ConsoleNames.StartsWithSameText | velcro-core/vcore/string_func/string_func.cc:483-487 | one text begins with another exactly if its beginning is the other but for the case |
| ConsoleNames.FoundExactly | velcro-core/vcore/console/console.cc:151-170 | FindCommand finds the first registered functor with that name, case aside, that is not invisible, and none exactly if there is none |
| ConsoleNames.CaseDoesNotMatter | velcro-core/vcore/console/console.cc:153-156 | commands that differ in case only find the same functor and have the same matches |
| ConsoleNames.MatchesInOrder | velcro-core/vcore/console/console.cc:181-198 | a completion lists, in the order of the list, every functor that is visible and begins with the command |
| ConsoleNames.AcceptedExactly | velcro-core/vcore/console/console.cc:241-268 | a functor is accepted exactly if it is not listed and every functor of its name has its flags and type, which allow duplicates |
| ConsoleNames.NamesStayAlike | velcro-core/vcore/console/console.cc:231-295 | after any calls two functors of one name have the same flags and type |
| Consoles.IndexAdded | velcro-core/vcore/console/console.cc:269-271 | appending to the vector of the name keeps the index a function of the longer list |
| Consoles.IndexRemoved | velcro-core/vcore/console/console.cc:282-292 | erasing from it keeps the index a function of the shorter list |
| Consoles.Console.RegisterFunctor | velcro-core/vcore/console/console.cc:231-272 | accepted functors are filed and first in the list, rejected ones change nothing; list and index stay in step |
| Consoles.Console.UnregisterFunctor | velcro-core/vcore/console/console.cc:274-295 | the functor leaves list and index; one of another console changes nothing |
| Consoles.Console.EraseNamed | velcro-core/vcore/console/console.cc:282-292 | only the vector of the functor's name loses it, and the name stays |
| Consoles.Console.FindCommand | velcro-core/vcore/console/console.cc:151-170 | the first visible functor filed under the lower-case name |
| Consoles.FoundIsOldest | velcro-core/vcore/console/console.cc:151-170 | which is the oldest one, or none exactly if all of that name are invisible |
| Consoles.Console.AutoCompleteCommand | velcro-core/vcore/console/console.cc:172-221 | the completion extends the command, begins every visible match, and nothing longer does |
| Consoles.MatchesAre | velcro-core/vcore/console/console.cc:181-198 | the matches are the names of visible functors that begin, case aside, with the command |
| Consoles.Console.LinkDeferredFunctors | velcro-core/vcore/console/console.cc:297-311 | registers the deferred functors front first, with list and index in step; none stays deferred |
| Consoles.Console.MoveFunctorsToDeferredHead | velcro-core/vcore/console/console.cc:313-343 | the deferred list is the old one followed by the console's, well linked; the console is empty |
| Consoles.Console.constructor | velcro-core/vcore/console/console.cc:29-32 | a new console is empty |
| ConsoleDeferral.DeferredFunctors.Create | velcro-core/vcore/console/console_functor.cc:31-55 | a new functor waits at the front, or registers with the current console once the waiting ones have been asked for, and refers to that console whether or not it is accepted |
| ConsoleDeferral.DeferredFunctors.CreateFor | velcro-core/vcore/console/console_functor.cc:57-68 | a functor made for a console registers with it, and refers to it whether or not it is accepted |
| ConsoleDeferral.DeferredFunctors.Destroy | velcro-core/vcore/console/console_functor.cc:109-119 | afterwards neither the waiting functors nor the console hold the functor, and both lists are otherwise as before |
| ConsoleDeferral.DeferredFunctors.LinkTo | velcro-core/vcore/console/console.cc:297-311 | nothing waits any more; the console has registered what did, the front first; a waiting functor it rejects refers to no console |
| ConsoleDeferral.DeferredFunctors.TakeBack | velcro-core/vcore/console/console.cc:35-39 | when a console ends its functors wait behind those that waited before; the live functors that still refer to it are exactly those it rejected when they were made |
| ConsoleDeferral.DeferredFunctors.RejectedOutlives | velcro-core/vcore/console/console.cc:262-266 | the second of two functors with one name that must not be duplicated is discarded, and refers to the console after its end |
| ConsoleDeferral.DeferredFunctors.Rehost | velcro-core/vcore/console/console.cc:297-343 | a console that begins where another ended gets every functor, list order and order under each name reversed |
| AutoComplete.StartsWithMeans | velcro-core/vcore/string_func/string_func.cc:483-487 | long enough and equal letter by letter, case aside |
| AutoComplete.CountMatchingPrefixes | velcro-core/vcore/console/console.cc:14-27 | the number of names that begin with the text |
| AutoComplete.CountIsFull | velcro-core/vcore/console/console.cc:209-214 | the count is full exactly if every name begins with the text |
| AutoComplete.LargestSubstring | velcro-core/vcore/console/console.cc:203-218 | the loop over the first match stops at the longest common beginning |
| AutoComplete.CannotGrow | velcro-core/vcore/console/console.cc:209-214 | a beginning that the next letter of one name breaks is as long as any common one |
| SharedDispatch.BitMeansConnecting | velcro-core/vcore/std/parallel/shared_mutex.h:16-17 | the counter never spills into the lock bit |
| SharedDispatch.RunKeeps | velcro-core/vcore/event_bus/event_bus_shared_dispatch_traits.h:93-163 | the counter, the guards and the locks of all threads stay in step in every run, documented rules or not |
| SharedDispatchRuns.HoldersAreDispatchers | velcro-core/vcore/event_bus/event_bus_shared_dispatch_traits.h:131-157 | shared holders are the threads inside a dispatch, once each; no dispatch and no other connect runs while one holds the lock |
| SharedDispatchRuns.CounterCounts | velcro-core/vcore/std/parallel/shared_mutex.h:24-56 | the counter is the holders and the threads inside lock_shared; its top bit is a connect |
| SharedDispatchRuns.NestedDispatchNeverWaits | velcro-core/vcore/event_bus/event_bus_shared_dispatch_traits.h:140-147 | a dispatch inside a dispatch starts at once with the lock bit clear, leaves the mutex alone, and leaving it restores the state |
| SharedDispatchRuns.RulesAreTheLimitations | velcro-core/vcore/event_bus/event_bus_shared_dispatch_traits.h:20-22 | a step breaks the rules exactly if it connects inside a dispatch or connect, or dispatches inside a connect |
| SharedDispatchRuns.WaitsDescend | velcro-core/vcore/event_bus/event_bus_shared_dispatch_traits.h:93-163 | while the rules are kept the wait-for graph has no cycle |
| SharedDispatchRuns.StuckForEver | velcro-core/vcore/event_bus/event_bus_shared_dispatch_traits.h:103-107 | a thread that broke a rule waits for ever |
| SharedDispatchRuns.AllCanFinish | velcro-core/vcore/event_bus/event_bus_shared_dispatch_traits.h:93-163 | all threads can get their locks and finish exactly when no thread has broken the rules |
| QueuePolicy.RunKeeps | velcro-core/vcore/event_bus/policies.h:241-276 | every step keeps each function in one place and the line of functions in order |
| QueuePolicyRuns.EachFunctionOnce | velcro-core/vcore/event_bus/policies.h:241-276 | each function ever queued is queued, waiting in an Execute, run once, or dropped: exactly one of these |
| QueuePolicyRuns.OnlyTheseDrop | velcro-core/vcore/event_bus/policies.h:262-276 | only Clear and SetActive(false) drop functions |
| QueuePolicyRuns.DroppedNeverRuns | velcro-core/vcore/event_bus/policies.h:262-276 | they do drop: the queue is empty afterwards, and none of what was queued is ever run or queued again |
| QueuePolicyRuns.ExecuteRunsTheQueue | velcro-core/vcore/event_bus/policies.h:241-260 | one Execute runs what is queued at its swap, in order, all of it by its end, and nothing queued later |
| QueuePolicyRuns.InOrderUnlessOvertaken | velcro-core/vcore/event_bus/policies.h:241-260 | functions run in the order of queueing exactly if none starts while an earlier Execute has functions left |
| QueuePolicyRuns.NestedExecuteOvertakes | velcro-core/vcore/event_bus/policies.h:254-259 | a nested Execute runs a later function first |
| QueuePolicyRuns.InactiveMayFill | velcro-core/vcore/event_bus/bus_impl.h:856-859 | an inactive queue can fill exactly if a thread was past the unlocked test of m_isActive |
| EventBusQueuePolicies.EventBusQueuePolicy.QueueFunction | velcro-core/vcore/event_bus/bus_impl.h:850-871 | queues one function if active, nothing otherwise |
| EventBusQueuePolicies.EventBusQueuePolicy.Execute | velcro-core/vcore/event_bus/policies.h:241-260 | does what the recursive definition of a call says, for functions that queue, clear, switch and execute |
| EventBusQueuePolicies.ExecutedIsRun | velcro-core/vcore/event_bus/policies.h:241-276 | which is a run of the steps of the policy, so all that holds of runs holds of it |
| EventBusQueuePolicies.ExecutedRunsTheQueue | velcro-core/vcore/event_bus/policies.h:241-260 | the queue of the swap has run in order when the call returns, whatever the functions did |
| EventBusQueuePolicies.ExecutedQueues | velcro-core/vcore/event_bus/policies.h:241-260 | if they only queued others, just those wait afterwards, in the order of queueing |
| EventBusQueuePolicies.ActedOnce | velcro-core/vcore/event_bus/policies.h:241-276 | what queueing, clearing, switching and executing inside a function leave in the queue |
| EventBusQueuePolicies.EventBusQueuePolicy.Clear | velcro-core/vcore/event_bus/policies.h:262-266 | afterwards the queue is empty, and nothing else has changed |
| EventBusQueuePolicies.EventBusQueuePolicy.SetActive | velcro-core/vcore/event_bus/policies.h:268-276 | switches queueing; afterwards the queue is empty if it went off and as before otherwise |
| EventBusQueuePolicies.EventBusQueuePolicy.Count | velcro-core/vcore/event_bus/policies.h:283-287 | the number of functions queued |

## Left out

- DetectorManagerImpl.Manager.FrameUpdate: assumes sessions with streams, string pools and detectors of their own, and fewer than 2^31 frames. Nothing is said of the turns after one that ends a session, because the loop goes on from an erased place.
- DetectorManagerImpl.Manager.Start: takes as its caller's duty what the code asserts at `velcro-core/vcore/detector/detector.cc:239`, that no named detector has a stream, and with it that the list names no registered detector twice.
- DetectorReports.Detector.Report: detectors close the tags they open, in each of their calls and in what else they write; the parameters Start hands them are not modelled.
- EventLogReader.EventLogReader.ReadLog: for an existing non-empty file assumes a log header, at least one chunk and no empty event with the prolog's hash at the very end; the code looks at the first event and behind such a header without a test.
- EventLoggerRuns.RunsKeepInv: assumes, as the logger does, no nested RecordEventBegin on a thread and no thread exit with an event open.
- EventLoggerFile.WritesAppendBytes: takes WriteCacheToDisk as one append. EventLoggerGuards says when two writes overlap; what SystemFile::Write makes of them then is not part of this model.
- DetectorSaxParser.SaxParser.ProcessStream: of a stream read without a string pool, takes as given what the code asserts at `velcro-core/vcore/detector/stream.cc:384` and `:481`, that it brings no pooled strings.
- ConsoleDeferral.DeferredFunctors.Destroy: the console that a functor refers to must not have ended; TakeBack says for which functors that can fail.
- Consoles.Console.AutoCompleteCommand: assumes at most 64 visible matches, the capacity of the container they are collected in.
- Consoles.Console.LinkDeferredFunctors: deferred functors belong to no other console, as the constructors arrange.
- DetectorHandlerParser.SaxParserHandler.OnTag: a handler's answer is a function of all calls made so far, its own and the others'; what handlers do with the data is not modelled.
- SharedDispatch.RunKeeps: the guards are steps of a state machine rather than objects, because threads interleave between the operations of one guard; the same holds for the recorders and the flush in LocalFileEventLogger, while the buffer they work on is the class ThreadData.
- SharedDispatchRuns.AllCanFinish: says that all threads can finish, not that an unfair scheduler lets them.
- EventBusQueuePolicies.EventBusQueuePolicy.Execute: of what functions do, only their calls of the queue are modelled, finitely many of them; other threads are in QueuePolicy.
- EventLoggerProgress.EveryFlushCanEnd: says that a flush can end, not that an unfair scheduler lets it.
- Streams of the other byte order: the header is swapped again when an entry waits for its payload, and widened integers are swapped after widening.
- Wide strings: the size field counts characters and the payload is in bytes.
- Read into bool, buffers and containers, float and vector writes (blobs of fixed size).
- The persistent-data mode of the DOM parser, GetTag and GetData, and the memory accounting of DeleteNode.
- zlib and zstd, the file streams, and SystemFile: the output is a sequence of bytes and the input any chunker.
- Console commands: parsing, dispatch, configuration files, deferred commands, VisitRegisteredFunctors, move construction; names longer than 256 characters; locales other than C.
- Event bus containers, connection policies, routers and V::Event; IsInDispatchThisThread is the nesting of guards on the thread. try_lock and spurious failures of the compare-exchange (no step).
- More than 2^31 - 1 threads on one shared mutex.
- Log messages, assertions that only report, profiling, file opening and time stamps.
