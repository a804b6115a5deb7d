/** DetectorSAXParser::ProcessStream: parses a stream chunk by chunk and makes a callback for every
    tag and every piece of data.  The callbacks made are kept in a list. */
module DetectorSaxParser {
  import opened Bytes
  import opened Wrappers
  import opened Seqs
  import opened DetectorStreamFormat
  import opened DetectorChunking
  import DetectorStringPool

  const PROCESS_CHUNK_SIZE := 15 * 1024

  /** An input stream: what its ReadBinary calls are going to return, cut as the stream likes. */
  class InputStream {
    const stringPool: DetectorStringPool.StringPool?
    var pending: seq<seq<byte>>

    constructor (stringPool: DetectorStringPool.StringPool?, chunks: seq<seq<byte>>)
      ensures this.stringPool == stringPool && pending == chunks
    {
      this.stringPool, pending := stringPool, chunks;
    }

    ghost predicate Valid()
      reads this
    {
      forall i :: 0 <= i < |pending| ==> 0 < |pending[i]| <= PROCESS_CHUNK_SIZE
    }

    /** An empty result says that there is no more data. */
    method ReadBinary(maxDataSize: nat) returns (data: seq<byte>)
      requires Valid() && maxDataSize == PROCESS_CHUNK_SIZE
      modifies this
      ensures Valid() && |data| <= maxDataSize
      ensures old(pending) == [] ==> data == [] && pending == []
      ensures old(pending) != [] ==> data != [] && old(pending) == [data] + pending
    {
      if pending == [] {
        data := [];
      } else {
        data := pending[0];
        pending := pending[1..];
      }
    }
  }

  // ---------- with and without a string pool ----------

  ghost predicate PoolOk(env: Env, pool: DetectorStringPool.StringPool?)
    reads pool
  {
    pool != null ==> pool.Valid() && pool.crc == env.crc
  }

  ghost function PoolOf(pool: DetectorStringPool.StringPool?): Pool
    reads pool
  {
    if pool == null then map[] else pool.Contents()
  }

  function EnvWith(env: Env, pool: DetectorStringPool.StringPool?): Env {
    if pool == null then Unpooled(env) else env
  }

  /** What the code asserts of a stream that is read without a pool. */
  predicate Served(env: Env, pool: DetectorStringPool.StringPool?, callbacks: seq<Callback>) {
    pool == null ==> forall i :: 0 <= i < |callbacks| ==> !NeedsPool(env, callbacks[i])
  }

  lemma ServedParts(env: Env, pool: DetectorStringPool.StringPool?, a: seq<Callback>, b: seq<Callback>)
    ensures Served(env, pool, a + b) <==> Served(env, pool, a) && Served(env, pool, b)
  {
    if pool == null && Served(env, pool, a + b) {
      forall i | 0 <= i < |a|
        ensures !NeedsPool(env, a[i])
      {
        assert (a + b)[i] == a[i];
      }
      forall i | 0 <= i < |b|
        ensures !NeedsPool(env, b[i])
      {
        assert (a + b)[|a| + i] == b[i];
      }
    }
  }

  class SaxParser {
    const env: Env
    var buffer: seq<byte>
    var callbacks: seq<Callback>

    constructor (env: Env)
      ensures this.env == env && buffer == [] && callbacks == []
    {
      this.env := env;
      buffer, callbacks := [], [];
    }

    method ProcessStream(stream: InputStream)
      requires stream.Valid() && PoolOk(env, stream.stringPool)
      requires var p := Feed(EnvWith(env, stream.stringPool), buffer, PoolOf(stream.stringPool), stream.pending);
               Served(env, stream.stringPool, p.callbacks)
      modifies this, stream, stream.stringPool
      ensures stream.pending == [] && PoolOk(env, stream.stringPool)
      ensures var p := Feed(EnvWith(env, stream.stringPool), old(buffer), old(PoolOf(stream.stringPool)),
                            old(stream.pending));
              && callbacks == old(callbacks) + p.callbacks
              && buffer == p.buffer
              && PoolOf(stream.stringPool) == p.pool
    {
      ghost var e := EnvWith(env, stream.stringPool);
      ghost var all := Feed(e, buffer, PoolOf(stream.stringPool), stream.pending);
      ghost var calls := callbacks;
      var data := stream.ReadBinary(PROCESS_CHUNK_SIZE);
      while data != []
        invariant stream.Valid() && PoolOk(env, stream.stringPool)
        invariant data == [] ==> stream.pending == []
        invariant ToCome(stream, data, calls, all)
        decreases |stream.pending| + (if data == [] then 0 else 1)
      {
        ghost var before := callbacks;
        ghost var first := FeedChunk(e, buffer, PoolOf(stream.stringPool), data);
        ghost var rest := Feed(e, first.buffer, first.pool, stream.pending);
        assert ([data] + stream.pending)[1..] == stream.pending;
        ServedParts(env, stream.stringPool, first.callbacks, rest.callbacks);
        ProcessChunk(data, stream.stringPool);
        Assoc(before, first.callbacks, rest.callbacks);
        data := stream.ReadBinary(PROCESS_CHUNK_SIZE);
      }
    }

    /** With `data` read and the rest of the stream to come, it all adds up. */
    ghost predicate ToCome(stream: InputStream, data: seq<byte>, calls: seq<Callback>, all: Parsed)
      reads this, stream, stream.stringPool
    {
      var todo := if data == [] then [] else [data] + stream.pending;
      var p := Feed(EnvWith(env, stream.stringPool), buffer, PoolOf(stream.stringPool), todo);
      && calls + all.callbacks == callbacks + p.callbacks && all.buffer == p.buffer && all.pool == p.pool
      && Served(env, stream.stringPool, p.callbacks)
    }

    /** One round of the loop in ProcessStream. */
    method ProcessChunk(chunk: seq<byte>, pool: DetectorStringPool.StringPool?)
      requires PoolOk(env, pool)
      requires Served(env, pool, FeedChunk(EnvWith(env, pool), buffer, PoolOf(pool), chunk).callbacks)
      modifies this, pool
      ensures PoolOk(env, pool)
      ensures var p := FeedChunk(EnvWith(env, pool), old(buffer), old(PoolOf(pool)), chunk);
              && callbacks == old(callbacks) + p.callbacks
              && buffer == p.buffer
              && PoolOf(pool) == p.pool
    {
      var dataInBuffer := buffer != [];
      var data := chunk;
      assert buffer == [] ==> buffer + chunk == chunk;
      if dataInBuffer {
        buffer := buffer + chunk;
        data := buffer;
      }
      var dataStart := ProcessEntries(data, dataInBuffer, pool);
      if dataInBuffer {
        buffer := buffer[dataStart..];
      }
    }

    /** The inner loop: as many entries as `data` holds.  Tells how far it got. */
    method ProcessEntries(data: seq<byte>, dataInBuffer: bool, pool: DetectorStringPool.StringPool?)
      returns (dataStart: nat)
      requires PoolOk(env, pool) && Served(env, pool, Decode(EnvWith(env, pool), data, PoolOf(pool)).callbacks)
      requires buffer == if dataInBuffer then data else []
      modifies this, pool
      ensures PoolOk(env, pool)
      ensures var d := Decode(EnvWith(env, pool), data, old(PoolOf(pool)));
              callbacks == old(callbacks) + d.callbacks && AtEnd(pool, d, data, dataStart, dataInBuffer)
    {
      assert data[0..] == data;
      dataStart := EntryLoop(data, dataInBuffer, pool, Decode(EnvWith(env, pool), data, PoolOf(pool)));
    }

    method EntryLoop(data: seq<byte>, dataInBuffer: bool, pool: DetectorStringPool.StringPool?, ghost whole: Decoded)
      returns (dataStart: nat)
      requires Along(pool, whole, [], data, 0, |data|, dataInBuffer)
      modifies this, pool
      ensures PoolOk(env, pool)
      ensures callbacks == old(callbacks) + whole.callbacks && AtEnd(pool, whole, data, dataStart, dataInBuffer)
    {
      dataStart := 0;
      var dataEnd: nat := |data|;
      ghost var made := [];
      while dataStart != dataEnd
        invariant Along(pool, whole, made, data, dataStart, dataEnd, dataInBuffer)
        invariant callbacks == old(callbacks) + made
        decreases dataEnd - dataStart
      {
        if dataEnd - dataStart < ENTRY_SIZE {
          NothingToCome(pool, whole, made, data, dataStart, dataEnd, dataInBuffer);
          if !dataInBuffer {
            buffer := buffer + data[dataStart..dataEnd];
          }
          return;
        }
        ghost var news;
        dataStart, dataEnd, news := Turn(data, dataStart, dataInBuffer, pool, whole, made);
        Assoc(old(callbacks), made, news);
        made := made + news;
      }
      NothingToCome(pool, whole, made, data, dataStart, dataEnd, dataInBuffer);
    }

    /** The inner loop has left what cannot be decoded yet, in the buffer unless it is unknown. */
    ghost predicate AtEnd(pool: DetectorStringPool.StringPool?, d: Decoded, data: seq<byte>, dataStart: nat,
                          dataInBuffer: bool)
      reads this, pool
    {
      && dataStart <= |data| && data[dataStart..] == d.rest && PoolOf(pool) == d.pool
      && buffer == if dataInBuffer then data else if d.unknown then [] else d.rest
    }

    /** Inside the inner loop, which is at `dataStart` and will go on to `dataEnd`. */
    ghost predicate Along(pool: DetectorStringPool.StringPool?, whole: Decoded, made: seq<Callback>, data: seq<byte>,
                          dataStart: nat, dataEnd: nat, dataInBuffer: bool)
      reads this, pool
    {
      && PoolOk(env, pool) && Served(env, pool, whole.callbacks)
      && dataStart <= dataEnd <= |data| && (dataEnd == |data| || dataEnd == dataStart)
      && Progress(EnvWith(env, pool), whole, made, data[dataStart..], dataEnd < |data|, PoolOf(pool))
      && buffer == if dataInBuffer then data else if dataEnd == |data| || whole.unknown then [] else data[dataStart..]
    }

    /** Where the loop ends, all that the whole stands for has been called back. */
    lemma NothingToCome(pool: DetectorStringPool.StringPool?, whole: Decoded, made: seq<Callback>, data: seq<byte>,
                        dataStart: nat, dataEnd: nat, dataInBuffer: bool)
      requires Along(pool, whole, made, data, dataStart, dataEnd, dataInBuffer)
      requires dataStart == dataEnd || |data| - dataStart < ENTRY_SIZE
      ensures whole.callbacks == made && whole.rest == data[dataStart..] && whole.pool == PoolOf(pool)
      ensures dataEnd == |data| ==> !whole.unknown && buffer == if dataInBuffer then data else []
      ensures dataStart == dataEnd ==> AtEnd(pool, whole, data, dataStart, dataInBuffer)
    {
      if dataEnd == |data| {
        ShortNeedsMore(EnvWith(env, pool), data[dataStart..], PoolOf(pool));
        assert made + [] == made;
      }
    }

    /** One turn of the inner loop, seen from the whole. */
    method Turn(data: seq<byte>, start: nat, dataInBuffer: bool, pool: DetectorStringPool.StringPool?,
                ghost whole: Decoded, ghost before: seq<Callback>)
      returns (dataStart: nat, dataEnd: nat, ghost news: seq<Callback>)
      requires start + ENTRY_SIZE <= |data| && Along(pool, whole, before, data, start, |data|, dataInBuffer)
      modifies this, pool
      ensures Along(pool, whole, before + news, data, dataStart, dataEnd, dataInBuffer)
      ensures start <= dataStart && dataEnd - dataStart < |data| - start
      ensures callbacks == old(callbacks) + news
    {
      ghost var entry := Advance(env, pool, whole, before, data, start, PoolOf(pool));
      dataStart, dataEnd := ProcessEntry(data, start, dataInBuffer, pool, entry);
      news := News(entry);
      TurnEnds(pool, whole, before, data, start, dataInBuffer, old(PoolOf(pool)), entry, dataStart, dataEnd);
    }

    lemma TurnEnds(pool: DetectorStringPool.StringPool?, whole: Decoded, before: seq<Callback>, data: seq<byte>,
                   start: nat, dataInBuffer: bool, poolBefore: Pool, entry: Entry, dataStart: nat, dataEnd: nat)
      requires start < |data| && PoolOk(env, pool) && Served(env, pool, whole.callbacks)
      requires Advanced(EnvWith(env, pool), whole, before, data, start, poolBefore, entry)
      requires StandsAt(entry, data, start, dataStart, dataEnd) && PoolOf(pool) == PoolNext(entry, poolBefore)
      requires buffer == Kept(entry, if dataInBuffer then data else [], data[start..], dataInBuffer)
      ensures Along(pool, whole, before + News(entry), data, dataStart, dataEnd, dataInBuffer)
      ensures start <= dataStart && dataEnd - dataStart < |data| - start
    {
      assert before + [] == before;
    }

    /** What has become of an entry at `start`: where the parser stands and what it has called back. */
    twostate predicate Dealt(entry: Entry, data: seq<byte>, start: nat, dataInBuffer: bool,
                             pool: DetectorStringPool.StringPool?, dataStart: nat, dataEnd: nat)
      requires start <= |data|
      reads this, pool
    {
      && callbacks == old(callbacks) + News(entry)
      && PoolOf(pool) == PoolNext(entry, old(PoolOf(pool)))
      && buffer == Kept(entry, old(buffer), data[start..], dataInBuffer)
      && StandsAt(entry, data, start, dataStart, dataEnd)
    }

    /** One turn of the inner loop, with a complete entry header at `start`. */
    method ProcessEntry(data: seq<byte>, start: nat, dataInBuffer: bool, pool: DetectorStringPool.StringPool?,
                        ghost entry: Entry)
      returns (dataStart: nat, dataEnd: nat)
      requires start + ENTRY_SIZE <= |data| && PoolOk(env, pool)
      requires entry == DecodeEntry(EnvWith(env, pool), data[start..], PoolOf(pool))
      requires pool == null && entry.Got? ==> !NeedsPool(env, entry.callback)
      modifies this, pool
      ensures PoolOk(env, pool)
      ensures Dealt(entry, data, start, dataInBuffer, pool, dataStart, dataEnd)
    {
      dataStart, dataEnd := start, |data|;
      SliceOfDrop(data, start, 0, 4);
      SliceOfDrop(data, start, 4, 8);
      var name, sizeAndFlags := ReadU32(data[start..start + 4]), ReadU32(data[start + 4..start + 8]);
      var dataType, value := sizeAndFlags / VALUE_LIMIT, sizeAndFlags % VALUE_LIMIT;
      if dataType == INT_TAG {
        Call(Tag(name, value != 0), pool);
        dataStart := dataStart + ENTRY_SIZE;
      } else if dataType == INT_DATA_U8 {
        Call(Plain(name, ToBytes(value % 0x100, 1)), pool);
        dataStart := dataStart + ENTRY_SIZE;
      } else if dataType == INT_DATA_U16 {
        Call(Plain(name, ToBytes(value % 0x1_0000, 2)), pool);
        dataStart := dataStart + ENTRY_SIZE;
      } else if dataType == INT_DATA_U29 {
        Call(Plain(name, ToBytes(value, 4)), pool);
        dataStart := dataStart + ENTRY_SIZE;
      } else if dataType == INT_POOLED_STRING || dataType == INT_POOLED_STRING_CRC32 || dataType == INT_SIZE {
        dataStart, dataEnd := ProcessPayload(name, dataType, value, data, start, dataInBuffer, pool);
      } else {
        dataEnd := dataStart;
      }
    }

    /** The cases with data behind the entry. */
    method ProcessPayload(name: u32, dataType: nat, value: nat, data: seq<byte>, start: nat, dataInBuffer: bool,
                          pool: DetectorStringPool.StringPool?)
      returns (dataStart: nat, dataEnd: nat)
      requires start + ENTRY_SIZE <= |data| && value < VALUE_LIMIT && PoolOk(env, pool)
      requires dataType == INT_POOLED_STRING || dataType == INT_POOLED_STRING_CRC32 || dataType == INT_SIZE
      requires var entry := DecodeBody(EnvWith(env, pool), name, dataType, value, data[start..], PoolOf(pool));
               pool == null && entry.Got? ==> !NeedsPool(env, entry.callback)
      modifies this, pool
      ensures PoolOk(env, pool)
      ensures Dealt(DecodeBody(EnvWith(env, pool), name, dataType, value, data[start..], old(PoolOf(pool))),
                    data, start, dataInBuffer, pool, dataStart, dataEnd)
    {
      dataStart, dataEnd := start, |data|;
      if value + ENTRY_SIZE <= dataEnd - dataStart {
        dataStart := dataStart + ENTRY_SIZE;
        var payload := data[dataStart..dataStart + value];
        SliceOfDrop(data, start, ENTRY_SIZE, ENTRY_SIZE + value);
        if dataType == INT_POOLED_STRING {
          CallPooled(name, payload, pool);
        } else {
          Call(Data(name, payload, value, false, dataType == INT_POOLED_STRING_CRC32), pool);
        }
        dataStart := dataStart + value;
      } else {
        if !dataInBuffer {
          buffer := buffer + data[dataStart..dataEnd];
        }
        dataEnd := dataStart;
      }
    }

    /** A string that is to be pooled. */
    method CallPooled(name: u32, payload: seq<byte>, pool: DetectorStringPool.StringPool)
      requires PoolOk(env, pool)
      modifies this`callbacks, pool
      ensures PoolOk(env, pool)
      ensures var interned := Interned(env.crc, old(pool.Contents()), payload);
              var cb := Data(name, interned[env.crc(payload)], |payload|, true, false);
              callbacks == old(callbacks) + [cb] && pool.Contents() == AfterHandler(env, cb, interned)
    {
      var _, _, pooled := pool.InsertCopy(payload);
      Call(Data(name, pooled.chars, |payload|, true, false), pool);
    }

    /** A callback, and the handler behind it, which may read the data as a string. */
    method Call(cb: Callback, pool: DetectorStringPool.StringPool?)
      requires PoolOk(env, pool) && (pool == null ==> !NeedsPool(env, cb))
      requires cb.Data? && !cb.isPooledString ==> cb.size == |cb.data|
      modifies this`callbacks, pool
      ensures PoolOk(env, pool)
      ensures callbacks == old(callbacks) + [cb]
      ensures PoolOf(pool) == AfterHandler(EnvWith(env, pool), cb, old(PoolOf(pool)))
    {
      callbacks := callbacks + [cb];
      if env.readsString(cb) {
        var _ := ReadString(cb, pool);
      }
    }
  }

  /** Data::PrepareString.  A reader without a pool gets the data as they are, and must not be asked
      for a string that was pooled. */
  method ReadString(cb: Callback, pool: DetectorStringPool.StringPool?) returns (text: Option<seq<byte>>)
    requires pool != null ==> pool.Valid()
    requires pool == null && cb.Data? ==> !cb.isPooledString && !cb.isPooledStringCrc32 && cb.size == |cb.data|
    modifies pool
    ensures pool != null ==>
              pool.Valid() && (text, pool.Contents()) == PrepareString(pool.crc, cb, old(pool.Contents()))
    ensures pool == null ==> text == if cb.Data? then Some(cb.data) else None
  {
    if cb.Tag? {
      return None;
    }
    if pool == null {
      assert cb.data[..cb.size] == cb.data;
      return Some(cb.data[..cb.size]);
    }
    if cb.isPooledStringCrc32 {
      if |cb.data| < 4 {
        return None;
      }
      var found := pool.Find(ReadU32(cb.data[..4]));
      text := if found.Some? then Some(UpToNul(found.value.chars)) else None;
    } else if cb.isPooledString {
      text := if cb.size <= |cb.data| then Some(cb.data[..cb.size]) else None;
    } else {
      var _, _, pooled := pool.InsertCopy(cb.data);
      text := if cb.size <= |pooled.chars| then Some(pooled.chars[..cb.size]) else None;
    }
  }

  /** The callbacks made so far and what is left make up the whole; once stopped, nothing is to come. */
  ghost predicate Progress(env: Env, whole: Decoded, made: seq<Callback>, left: seq<byte>, stopped: bool, pool: Pool) {
    if stopped then whole == Decoded(made, left, pool, whole.unknown)
    else whole == Before(made, Decode(env, left, pool))
  }

  // ---------- what becomes of an entry ----------

  function News(entry: Entry): seq<Callback> {
    if entry.Got? then [entry.callback] else []
  }

  function PoolNext(entry: Entry, pool: Pool): Pool {
    if entry.Got? then entry.pool else pool
  }

  /** The buffer, to which an incomplete entry is added. */
  function Kept(entry: Entry, buffer: seq<byte>, left: seq<byte>, dataInBuffer: bool): seq<byte> {
    if entry.NeedMore? && !dataInBuffer then buffer + left else buffer
  }

  predicate StandsAt(entry: Entry, data: seq<byte>, start: nat, dataStart: nat, dataEnd: nat) {
    if entry.Got? then dataStart == start + entry.length && dataEnd == |data| else dataStart == dataEnd == start
  }

  /** The entry brings the parser forward, or tells why it stops. */
  ghost predicate Advanced(e: Env, whole: Decoded, made: seq<Callback>, data: seq<byte>, start: nat, pool: Pool,
                           entry: Entry)
    requires start <= |data|
  {
    match entry
    case Got(cb, length, pool') =>
      start + length <= |data| && length > 0 && Progress(e, whole, made + [cb], data[start + length..], false, pool')
    case NeedMore => !whole.unknown && Progress(e, whole, made, data[start..], true, pool)
    case Unknown => whole.unknown && Progress(e, whole, made, data[start..], true, pool)
  }

  lemma Advance(env: Env, stringPool: DetectorStringPool.StringPool?, whole: Decoded, made: seq<Callback>,
                data: seq<byte>, start: nat, pool: Pool)
    returns (entry: Entry)
    requires start <= |data| && Progress(EnvWith(env, stringPool), whole, made, data[start..], false, pool)
    requires Served(env, stringPool, whole.callbacks)
    ensures entry == DecodeEntry(EnvWith(env, stringPool), data[start..], pool)
    ensures stringPool == null && entry.Got? ==> !NeedsPool(env, entry.callback)
    ensures Advanced(EnvWith(env, stringPool), whole, made, data, start, pool, entry)
  {
    var e := EnvWith(env, stringPool);
    entry := DecodeEntry(e, data[start..], pool);
    match entry
    case Got(cb, length, pool') =>
      assert data[start..][length..] == data[start + length..];
      var d := Decode(e, data[start + length..], pool');
      Assoc(made, [cb], d.callbacks);
      assert whole.callbacks == (made + [cb]) + d.callbacks && whole.callbacks[|made|] == cb;
    case NeedMore =>
    case Unknown =>
  }
}
