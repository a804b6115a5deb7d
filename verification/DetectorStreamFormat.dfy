/** The detector stream: 8-byte entries (a name, then a 3-bit type and 29 bits of value or size),
    some followed by a payload, and the one-shot decoder that says what a byte stream means.
    Reader and writer have the same byte order, taken here as little endian. */
module DetectorStreamFormat {
  import opened Bytes
  import opened Wrappers
  import opened Seqs

  const ENTRY_SIZE := 8
  /** One more than StreamEntry::dataSizeMask; also the weight of the type bits. */
  const VALUE_LIMIT := 0x2000_0000

  const INT_SIZE := 0
  const INT_TAG := 1
  const INT_DATA_U8 := 2
  const INT_DATA_U16 := 3
  const INT_DATA_U29 := 4
  const INT_POOLED_STRING_CRC32 := 5
  const INT_POOLED_STRING := 6

  /** sizeAndFlags: the type in the top 3 bits, the value below. */
  function Pack(dataType: nat, value: nat): u32
    requires dataType < 8 && value < VALUE_LIMIT
  {
    dataType * VALUE_LIMIT + value
  }

  function StreamEntry(name: u32, sizeAndFlags: u32): (s: seq<byte>)
    ensures |s| == ENTRY_SIZE
  {
    ToBytes(name, 4) + ToBytes(sizeAndFlags, 4)
  }

  function ReadU32(b: seq<byte>): u32
    requires |b| == 4
  {
    Pow256Values();
    FromBytesBound(b);
    FromBytes(b)
  }

  /** The string pool's contents: a checksum and the string it stands for. */
  type Pool = map<u32, seq<byte>>

  /** The checksum is a parameter; a handler may read an entry's data as a string, which can put
      that string into the reader's pool. */
  datatype Env = Env(crc: seq<byte> -> u32, readsString: Callback -> bool)

  /** What the parser hands to its callbacks.  `data` is what DataPtr points at, `size` is DataSize. */
  datatype Callback =
    | Tag(name: u32, isOpen: bool)
    | Data(name: u32, data: seq<byte>, size: nat, isPooledString: bool, isPooledStringCrc32: bool)

  function Plain(name: u32, data: seq<byte>): Callback {
    Data(name, data, |data|, false, false)
  }

  /** InsertCopy: the first string with a checksum stays. */
  function Interned(crc: seq<byte> -> u32, pool: Pool, s: seq<byte>): (r: Pool)
    ensures crc(s) in r && r.Keys == pool.Keys + {crc(s)}
    ensures forall c :: c in pool ==> r[c] == pool[c]
    ensures crc(s) !in pool ==> r[crc(s)] == s
  {
    if crc(s) in pool then pool else pool[crc(s) := s]
  }

  /** The pool after a callback whose handler may read its data as a string. */
  function AfterHandler(env: Env, cb: Callback, pool: Pool): Pool {
    if env.readsString(cb) then PrepareString(env.crc, cb, pool).1 else pool
  }

  /** strlen */
  function UpToNul(s: seq<byte>): (r: seq<byte>)
    ensures r <= s && 0 !in r
    ensures |r| < |s| ==> s[|r|] == 0
  {
    if s == [] || s[0] == 0 then [] else [s[0]] + UpToNul(s[1..])
  }

  /** Data::PrepareString with a pool: the string a handler reads, and the pool afterwards.  None
      when the code would follow a null pointer or read past the end of the pooled copy. */
  function PrepareString(crc: seq<byte> -> u32, cb: Callback, pool: Pool): (Option<seq<byte>>, Pool) {
    if cb.Tag? then (None, pool)
    else if cb.isPooledStringCrc32 then
      if |cb.data| >= 4 && ReadU32(cb.data[..4]) in pool
      then (Some(UpToNul(pool[ReadU32(cb.data[..4])])), pool)
      else (None, pool)
    else if cb.isPooledString then
      (if cb.size <= |cb.data| then Some(cb.data[..cb.size]) else None, pool)
    else
      var pool' := Interned(crc, pool, cb.data);
      (if cb.size <= |pool'[crc(cb.data)]| then Some(pool'[crc(cb.data)][..cb.size]) else None, pool')
  }

  /** A reader without a string pool: handlers get the data as they are, and nothing is filed. */
  function Unpooled(env: Env): Env {
    Env(env.crc, _ => false)
  }

  /** A callback for pooled data that a reader without a pool cannot serve. */
  predicate NeedsPool(env: Env, cb: Callback) {
    cb.Data? && (cb.isPooledString || (cb.isPooledStringCrc32 && env.readsString(cb)))
  }

  // ---------- one entry ----------

  datatype Entry =
    | NeedMore                                               // the entry is not complete
    | Unknown                                                // a type code the parser does not know
    | Got(callback: Callback, length: nat, pool: Pool)

  function DecodeEntry(env: Env, b: seq<byte>, pool: Pool): (r: Entry)
    ensures r.Got? ==> ENTRY_SIZE <= r.length <= |b|
  {
    if |b| < ENTRY_SIZE then NeedMore
    else
      var name, sizeAndFlags := ReadU32(b[..4]), ReadU32(b[4..8]);
      DecodeBody(env, name, sizeAndFlags / VALUE_LIMIT, sizeAndFlags % VALUE_LIMIT, b, pool)
  }

  function DecodeBody(env: Env, name: u32, dataType: nat, value: nat, b: seq<byte>, pool: Pool): (r: Entry)
    requires |b| >= ENTRY_SIZE && value < VALUE_LIMIT
    ensures r.Got? ==> ENTRY_SIZE <= r.length <= |b|
  {
    if dataType == INT_TAG then Deliver(env, Tag(name, value != 0), ENTRY_SIZE, pool)
    else if dataType == INT_DATA_U8 then Deliver(env, Plain(name, ToBytes(value % 0x100, 1)), ENTRY_SIZE, pool)
    else if dataType == INT_DATA_U16 then Deliver(env, Plain(name, ToBytes(value % 0x1_0000, 2)), ENTRY_SIZE, pool)
    else if dataType == INT_DATA_U29 then Deliver(env, Plain(name, ToBytes(value, 4)), ENTRY_SIZE, pool)
    else if dataType != INT_SIZE && dataType != INT_POOLED_STRING_CRC32 && dataType != INT_POOLED_STRING then Unknown
    else if |b| < ENTRY_SIZE + value then NeedMore
    else
      var payload := b[ENTRY_SIZE..ENTRY_SIZE + value];
      if dataType == INT_POOLED_STRING then
        var pool' := Interned(env.crc, pool, payload);
        Deliver(env, Data(name, pool'[env.crc(payload)], value, true, false), ENTRY_SIZE + value, pool')
      else
        Deliver(env, Data(name, payload, value, false, dataType == INT_POOLED_STRING_CRC32), ENTRY_SIZE + value, pool)
  }

  function Deliver(env: Env, cb: Callback, length: nat, pool: Pool): Entry {
    Got(cb, length, AfterHandler(env, cb, pool))
  }

  /** A complete entry does not depend on what follows it. */
  lemma EntryIsLocal(env: Env, a: seq<byte>, b: seq<byte>, pool: Pool)
    ensures DecodeEntry(env, a, pool) != NeedMore ==> DecodeEntry(env, a + b, pool) == DecodeEntry(env, a, pool)
  {
    if |a| >= ENTRY_SIZE {
      SliceOfPrefix(a, a + b, 0, 4, |a|);
      SliceOfPrefix(a, a + b, 4, 8, |a|);
      var value := ReadU32(a[4..8]) % VALUE_LIMIT;
      if |a| >= ENTRY_SIZE + value {
        SliceOfPrefix(a, a + b, ENTRY_SIZE, ENTRY_SIZE + value, |a|);
      }
    }
  }

  // ---------- a whole stream at once ----------

  datatype Decoded = Decoded(callbacks: seq<Callback>, rest: seq<byte>, pool: Pool, unknown: bool)

  function Decode(env: Env, b: seq<byte>, pool: Pool): (r: Decoded)
    ensures |r.rest| <= |b|
    decreases |b|
  {
    match DecodeEntry(env, b, pool)
    case NeedMore => Decoded([], b, pool, false)
    case Unknown => Decoded([], b, pool, true)
    case Got(cb, length, pool') => Before([cb], Decode(env, b[length..], pool'))
  }

  function Before(callbacks: seq<Callback>, d: Decoded): Decoded {
    d.(callbacks := callbacks + d.callbacks)
  }

  /** Decoding may stop anywhere and resume with what was left over. */
  lemma {:induction false} DecodeResumes(env: Env, a: seq<byte>, b: seq<byte>, pool: Pool)
    requires !Decode(env, a, pool).unknown
    ensures var d := Decode(env, a, pool);
            Decode(env, a + b, pool) == Before(d.callbacks, Decode(env, d.rest + b, d.pool))
    decreases |a|
  {
    EntryIsLocal(env, a, b, pool);
    match DecodeEntry(env, a, pool)
    case NeedMore =>
      assert [] + Decode(env, a + b, pool).callbacks == Decode(env, a + b, pool).callbacks;
    case Got(cb, length, pool') =>
      DropOfAppend(a, b, length);
      DecodeResumes(env, a[length..], b, pool');
      var d := Decode(env, a[length..], pool');
      Assoc([cb], d.callbacks, Decode(env, d.rest + b, d.pool).callbacks);
  }

  /** An unknown entry ends what can be decoded at once; DetectorChunking says how the parser, which
      goes on with the next chunk, takes it. */
  lemma {:induction false} UnknownStops(env: Env, a: seq<byte>, b: seq<byte>, pool: Pool)
    requires Decode(env, a, pool).unknown
    ensures var d := Decode(env, a, pool);
            Decode(env, a + b, pool) == d.(rest := d.rest + b)
    decreases |a|
  {
    EntryIsLocal(env, a, b, pool);
    match DecodeEntry(env, a, pool)
    case Unknown =>
    case Got(cb, length, pool') =>
      DropOfAppend(a, b, length);
      UnknownStops(env, a[length..], b, pool');
  }

  /** What is left over is the unconsumed tail, and no complete entry of a known type. */
  lemma {:induction false} RestIsTail(env: Env, b: seq<byte>, pool: Pool)
    ensures var d := Decode(env, b, pool);
            && b[|b| - |d.rest|..] == d.rest
            && DecodeEntry(env, d.rest, d.pool) == (if d.unknown then Unknown else NeedMore)
    decreases |b|
  {
    match DecodeEntry(env, b, pool)
    case NeedMore =>
    case Unknown =>
    case Got(cb, length, pool') =>
      RestIsTail(env, b[length..], pool');
  }
}
