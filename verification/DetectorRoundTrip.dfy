/** The parser undoes the writer: names, kinds, values and order, with the reader's string pool in
    lock-step with the writer's. */
module DetectorRoundTrip {
  import opened Bytes
  import opened Wrappers
  import opened Seqs
  import opened DetectorStreamFormat
  import opened DetectorOutputStream
  import opened DetectorChunking

  // ---------- reading values back ----------

  /** Data::Read of an integer: same size, or sign- or zero-extended from 1, 2 or 4 bytes.  None
      when the code asserts. */
  function ReadInt(cb: Callback, t: IntType): Option<int> {
    if !cb.Data? then None
    else if cb.size == t.width then Some(OfBits(t, FromBytes(cb.data)))
    else if cb.size < t.width && (cb.size == 1 || cb.size == 2 || cb.size == 4)
    then Some(OfBits(IntType(cb.size, t.signed), FromBytes(cb.data)))
    else None
  }

  /** Reading at type `as` a value written at type t: the same type or a wider one, same signedness. */
  predicate Widens(t: IntType, wider: IntType) {
    IsIntType(wider) && wider.width >= t.width && wider.signed == t.signed
  }

  /** What the reader makes of a callback, with string pool q, is what was written. */
  ghost predicate Means(crc: seq<byte> -> u32, op: Op, cb: Callback, q: Pool) {
    cb.name == op.name &&
    match op
    case BeginTag(name) => cb == Tag(name, true)
    case EndTag(name) => cb == Tag(name, false)
    case WriteInt(name, t, v) => cb.Data? && forall wider :: Widens(t, wider) ==> ReadInt(cb, wider) == Some(v)
    case WriteBlob(name, data) => cb == Plain(name, data)
    case WriteString(name, chars) => cb.Data? && PrepareString(crc, cb, q).0 == Some(chars)
  }

  // ---------- one entry of each kind ----------

  lemma SplitEntry(name: u32, dataType: nat, value: nat, tail: seq<byte>)
    requires dataType < 8 && value < VALUE_LIMIT
    ensures var b := StreamEntry(name, Pack(dataType, value)) + tail;
            && ReadU32(b[..4]) == name
            && ReadU32(b[4..8]) / VALUE_LIMIT == dataType && ReadU32(b[4..8]) % VALUE_LIMIT == value
            && b[ENTRY_SIZE..] == tail
  {
    var b := StreamEntry(name, Pack(dataType, value)) + tail;
    Pow256Values();
    FromToBytes(name, 4);
    FromToBytes(Pack(dataType, value), 4);
    assert b[..4] == ToBytes(name, 4) && b[4..8] == ToBytes(Pack(dataType, value), 4);
  }

  /** An entry without payload. */
  lemma DecodeShortEntry(env: Env, name: u32, dataType: nat, value: nat, tail: seq<byte>, pool: Pool)
    requires INT_TAG <= dataType <= INT_DATA_U29 && value < VALUE_LIMIT
    ensures var b := StreamEntry(name, Pack(dataType, value)) + tail;
            DecodeEntry(env, b, pool) == DecodeBody(env, name, dataType, value, b, pool)
  {
    SplitEntry(name, dataType, value, tail);
  }

  /** An entry with payload. */
  lemma DecodeLongEntry(env: Env, name: u32, dataType: nat, payload: seq<byte>, tail: seq<byte>, pool: Pool)
    requires dataType == INT_SIZE || dataType == INT_POOLED_STRING_CRC32 || dataType == INT_POOLED_STRING
    requires |payload| < VALUE_LIMIT
    ensures var b := StreamEntry(name, Pack(dataType, |payload|)) + payload + tail;
            DecodeEntry(env, b, pool) ==
              if dataType == INT_POOLED_STRING then
                var pool' := Interned(env.crc, pool, payload);
                Deliver(env, Data(name, pool'[env.crc(payload)], |payload|, true, false), ENTRY_SIZE + |payload|, pool')
              else
                Deliver(env, Data(name, payload, |payload|, false, dataType == INT_POOLED_STRING_CRC32),
                        ENTRY_SIZE + |payload|, pool)
  {
    var head := StreamEntry(name, Pack(dataType, |payload|));
    SplitEntry(name, dataType, |payload|, payload + tail);
    Assoc(head, payload, tail);
    var b := head + payload + tail;
    assert b[ENTRY_SIZE..ENTRY_SIZE + |payload|] == payload;
  }

  lemma IntReadsBack(t: IntType, value: int, data: seq<byte>, name: u32, wider: IntType)
    requires IsIntType(t) && InType(t, value) && Widens(t, wider)
    requires FromBytes(data) == Bits(t, value)
    requires |data| == t.width || (|data| == 4 && t.width >= 4 && FitsInEntry(Bits(t, value)))
    ensures ReadInt(Plain(name, data), wider) == Some(value)
  {
  }

  /** The bytes a reader gets for an integer: a long one that fits in the entry arrives as four. */
  function IntData(width: nat, bits: nat): (data: seq<byte>)
    ensures |data| == if width == 8 && FitsInEntry(bits) then 4 else width
  {
    ToBytes(bits, if width == 8 && FitsInEntry(bits) then 4 else width)
  }

  lemma IntDecodes(env: Env, name: u32, t: IntType, bits: nat, tail: seq<byte>, pool: Pool)
    requires IsIntType(t) && bits < Pow256(t.width)
    ensures var b := EmitInt(name, t.width, bits);
            DecodeEntry(env, b + tail, pool) == Deliver(env, Plain(name, IntData(t.width, bits)), |b|, pool)
    ensures FromBytes(IntData(t.width, bits)) == bits
  {
    Pow256Values();
    var data := IntData(t.width, bits);
    FromToBytes(bits, |data|);
    if t.width == 1 {
      DecodeShortEntry(env, name, INT_DATA_U8, bits, tail, pool);
    } else if t.width == 2 {
      DecodeShortEntry(env, name, INT_DATA_U16, bits, tail, pool);
    } else if FitsInEntry(bits) {
      DecodeShortEntry(env, name, INT_DATA_U29, bits, tail, pool);
    } else {
      DecodeLongEntry(env, name, INT_SIZE, data, tail, pool);
    }
  }

  /** Integer coding: whichever form the 29-bit test selects, reading gives the value back. */
  lemma IntRoundTrip(env: Env, name: u32, t: IntType, value: int, tail: seq<byte>, pool: Pool)
    requires IsIntType(t) && InType(t, value)
    ensures var b, cb := EmitInt(name, t.width, Bits(t, value)), Plain(name, IntData(t.width, Bits(t, value)));
            && DecodeEntry(env, b + tail, pool) == Deliver(env, cb, |b|, pool)
            && Means(env.crc, WriteInt(name, t, value), cb, pool)
  {
    IntDecodes(env, name, t, Bits(t, value), tail, pool);
    IntMeans(env.crc, t, value, IntData(t.width, Bits(t, value)), name, pool);
  }

  lemma IntMeans(crc: seq<byte> -> u32, t: IntType, value: int, data: seq<byte>, name: u32, pool: Pool)
    requires IsIntType(t) && InType(t, value) && FromBytes(data) == Bits(t, value)
    requires |data| == t.width || (|data| == 4 && t.width >= 4 && FitsInEntry(Bits(t, value)))
    ensures Means(crc, WriteInt(name, t, value), Plain(name, data), pool)
  {
    forall wider | Widens(t, wider)
      ensures ReadInt(Plain(name, data), wider) == Some(value)
    {
      IntReadsBack(t, value, data, name, wider);
    }
  }

  /** A blob comes back exactly when its size leaves the type bits of the entry alone; the writer
      does not check. */
  lemma BlobRoundTrip(env: Env, name: u32, data: seq<byte>, tail: seq<byte>, pool: Pool)
    requires |data| < 0x1_0000_0000
    ensures var b := Emit(env.crc, WriteBlob(name, data), None);
            DecodeEntry(env, b + tail, pool) == Deliver(env, Plain(name, data), |b|, pool) <==> |data| < VALUE_LIMIT
  {
    if |data| < VALUE_LIMIT {
      DecodeLongEntry(env, name, INT_SIZE, data, tail, pool);
    } else {
      var dataType, value := |data| / VALUE_LIMIT, |data| % VALUE_LIMIT;
      assert Pack(dataType, value) == |data|;
      SplitEntry(name, dataType, value, data + tail);
      Assoc(StreamEntry(name, |data|), data, tail);
    }
  }

  // ---------- the pools ----------

  /** No two known strings have the same checksum. */
  ghost predicate NoCollision(crc: seq<byte> -> u32, known: seq<byte> -> bool) {
    forall s, t :: known(s) && known(t) && crc(s) == crc(t) ==> s == t
  }

  /** Every string of the pool is known and filed under its own checksum. */
  ghost predicate Sound(crc: seq<byte> -> u32, known: seq<byte> -> bool, pool: Pool) {
    forall c :: c in pool ==> known(pool[c]) && crc(pool[c]) == c
  }

  /** Lock-step: the reader's pool resolves every checksum the writer's pool holds, to the same string. */
  ghost predicate Tracks(w: Option<Pool>, r: Pool) {
    w.Some? ==> forall c :: c in w.value ==> c in r && r[c] == w.value[c]
  }

  /** The callback an operation leads to, when the writer's pool is `w`. */
  function Delivered(crc: seq<byte> -> u32, op: Op, w: Option<Pool>): Callback
    requires Writable(op)
  {
    match op
    case BeginTag(name) => Tag(name, true)
    case EndTag(name) => Tag(name, false)
    case WriteInt(name, t, v) => Plain(name, IntData(t.width, Bits(t, v)))
    case WriteBlob(name, data) => Plain(name, data)
    case WriteString(name, chars) =>
      if w == None then Plain(name, chars)
      else if crc(chars) in w.value then Data(name, ToBytes(crc(chars), 4), 4, false, true)
      else Data(name, chars, |chars|, true, false)
  }

  /** The strings an operation can put into the reader's pool are known: a string written, which also
      has no NUL, and other data if the handler reads it as a string. */
  predicate Admissible(env: Env, known: seq<byte> -> bool, op: Op)
    requires Writable(op)
  {
    match op
    case BeginTag(_) => true
    case EndTag(_) => true
    case WriteString(_, chars) => known(chars) && 0 !in chars
    case _ =>
      var cb := Delivered(env.crc, op, None);
      env.readsString(cb) ==> known(cb.data)
  }

  lemma InternedIsSound(crc: seq<byte> -> u32, known: seq<byte> -> bool, pool: Pool, s: seq<byte>)
    requires NoCollision(crc, known) && Sound(crc, known, pool) && known(s)
    ensures Sound(crc, known, Interned(crc, pool, s))
    ensures Interned(crc, pool, s)[crc(s)] == s
  {
    assert crc(s) in pool ==> pool[crc(s)] == s;
  }

  lemma HandlerKeepsLockStep(env: Env, known: seq<byte> -> bool, op: Op, w: Option<Pool>, v: Option<Pool>, r: Pool)
    requires NoCollision(env.crc, known) && Writable(op) && Admissible(env, known, op)
    requires Sound(env.crc, known, r) && Tracks(v, r)
    ensures var r' := AfterHandler(env, Delivered(env.crc, op, w), r);
            Sound(env.crc, known, r') && Tracks(v, r')
  {
    var cb := Delivered(env.crc, op, w);
    if cb.Data? && env.readsString(cb) && !cb.isPooledString && !cb.isPooledStringCrc32 {
      InternedIsSound(env.crc, known, r, cb.data);
    }
  }

  /** What the reader's pool is before the handler runs. */
  function ParserPool(crc: seq<byte> -> u32, op: Op, w: Option<Pool>, r: Pool): Pool {
    if op.WriteString? && w.Some? && crc(op.chars) !in w.value then Interned(crc, r, op.chars) else r
  }

  lemma ParserKeepsLockStep(crc: seq<byte> -> u32, known: seq<byte> -> bool, op: Op, w: Option<Pool>, r: Pool)
    requires NoCollision(crc, known) && (op.WriteString? ==> known(op.chars))
    requires Sound(crc, known, r) && Tracks(w, r) && (w.Some? ==> Sound(crc, known, w.value))
    ensures Sound(crc, known, ParserPool(crc, op, w, r)) && Tracks(PoolAfter(crc, op, w), ParserPool(crc, op, w, r))
    ensures PoolAfter(crc, op, w).Some? ==> Sound(crc, known, PoolAfter(crc, op, w).value)
  {
    if op.WriteString? && w.Some? {
      InternedIsSound(crc, known, w.value, op.chars);
      InternedIsSound(crc, known, r, op.chars);
    }
  }

  // ---------- one entry, whatever it is ----------

  /** A pool in lock-step with the writer's: the only thing reading a string needs. */
  ghost predicate GoodPool(crc: seq<byte> -> u32, known: seq<byte> -> bool, w: Option<Pool>, q: Pool) {
    Sound(crc, known, q) && Tracks(w, q)
  }

  /** A string sent as its checksum only is read back as the string written exactly when it holds
      no NUL: the reader measures it with strlen. */
  lemma CrcReferenceReadsBack(crc: seq<byte> -> u32, name: u32, chars: seq<byte>, q: Pool)
    requires crc(chars) in q && q[crc(chars)] == chars
    ensures PrepareString(crc, Data(name, ToBytes(crc(chars), 4), 4, false, true), q).0 == Some(chars) <==> 0 !in chars
  {
    Pow256Values();
    FromToBytes(crc(chars), 4);
    var b := ToBytes(crc(chars), 4);
    assert b[..4] == b;
    assert UpToNul(chars) == chars ==> 0 !in chars;
  }

  lemma StringRoundTrip(env: Env, known: seq<byte> -> bool, name: u32, chars: seq<byte>, tail: seq<byte>,
                        w: Option<Pool>, r: Pool)
    requires NoCollision(env.crc, known) && known(chars) && 0 !in chars && |chars| < VALUE_LIMIT
    requires GoodPool(env.crc, known, w, r)
    ensures var op, b := WriteString(name, chars), EmitString(env.crc, name, chars, w);
            && DecodeEntry(env, b + tail, r)
                 == Deliver(env, Delivered(env.crc, op, w), |b|, ParserPool(env.crc, op, w, r))
            && forall q :: GoodPool(env.crc, known, PoolAfter(env.crc, op, w), q) ==>
                 Means(env.crc, op, Delivered(env.crc, op, w), q)
  {
    var crc32, cb := env.crc(chars), Delivered(env.crc, WriteString(name, chars), w);
    assert chars[..|chars|] == chars;
    if w == None {
      DecodeLongEntry(env, name, INT_SIZE, chars, tail, r);
      forall q | Sound(env.crc, known, q)
        ensures PrepareString(env.crc, cb, q).0 == Some(chars)
      {
        InternedIsSound(env.crc, known, q, chars);
      }
    } else if crc32 in w.value {
      DecodeLongEntry(env, name, INT_POOLED_STRING_CRC32, ToBytes(crc32, 4), tail, r);
      forall q | GoodPool(env.crc, known, w, q)
        ensures PrepareString(env.crc, cb, q).0 == Some(chars)
      {
        assert crc32 in q && known(q[crc32]) && env.crc(q[crc32]) == crc32;
        CrcReferenceReadsBack(env.crc, name, chars, q);
      }
    } else {
      DecodeLongEntry(env, name, INT_POOLED_STRING, chars, tail, r);
      InternedIsSound(env.crc, known, r, chars);
    }
  }

  /** The entry an operation writes decodes to one callback that means the operation. */
  lemma OpRoundTrip(env: Env, known: seq<byte> -> bool, op: Op, tail: seq<byte>, w: Option<Pool>, r: Pool)
    requires Writable(op) && (op.WriteBlob? ==> |op.data| < VALUE_LIMIT)
    requires NoCollision(env.crc, known) && Admissible(env, known, op) && GoodPool(env.crc, known, w, r)
    ensures var b, cb := Emit(env.crc, op, w), Delivered(env.crc, op, w);
            && DecodeEntry(env, b + tail, r) == Deliver(env, cb, |b|, ParserPool(env.crc, op, w, r))
            && forall q :: GoodPool(env.crc, known, PoolAfter(env.crc, op, w), q) ==> Means(env.crc, op, cb, q)
  {
    match op
    case BeginTag(name) =>
      DecodeShortEntry(env, name, INT_TAG, 1, tail, r);
    case EndTag(name) =>
      DecodeShortEntry(env, name, INT_TAG, 0, tail, r);
    case WriteInt(name, t, v) =>
      IntRoundTrip(env, name, t, v, tail, r);
    case WriteBlob(name, data) =>
      BlobRoundTrip(env, name, data, tail, r);
    case WriteString(name, chars) =>
      StringRoundTrip(env, known, name, chars, tail, w, r);
  }

  // ---------- whole streams ----------

  ghost predicate AllMean(crc: seq<byte> -> u32, ops: seq<Op>, callbacks: seq<Callback>, q: Pool) {
    |callbacks| == |ops| && forall i :: 0 <= i < |ops| ==> Means(crc, ops[i], callbacks[i], q)
  }

  /** The writes a stream may consist of. */
  predicate Sendable(env: Env, known: seq<byte> -> bool, ops: seq<Op>) {
    && AllWritable(ops)
    && forall i :: 0 <= i < |ops| ==>
         Admissible(env, known, ops[i]) && (ops[i].WriteBlob? ==> |ops[i].data| < VALUE_LIMIT)
  }

  /** The pools of writer and reader where a stretch of the stream starts. */
  ghost predicate InStep(env: Env, known: seq<byte> -> bool, w: Option<Pool>, r: Pool) {
    && NoCollision(env.crc, known) && GoodPool(env.crc, known, w, r)
    && (w.Some? ==> Sound(env.crc, known, w.value))
  }

  lemma {:induction false} PoolOnlyGrows(crc: seq<byte> -> u32, known: seq<byte> -> bool, ops: seq<Op>,
                                         w: Option<Pool>, q: Pool)
    requires GoodPool(crc, known, PoolAfterAll(crc, ops, w), q)
    ensures GoodPool(crc, known, w, q)
    decreases |ops|
  {
    if ops != [] {
      PoolOnlyGrows(crc, known, ops[1..], PoolAfter(crc, ops[0], w), q);
    }
  }

  lemma MeaningOfFirst(env: Env, known: seq<byte> -> bool, ops: seq<Op>, cb: Callback, w: Option<Pool>, q: Pool)
    requires ops != [] && GoodPool(env.crc, known, PoolAfterAll(env.crc, ops, w), q)
    requires forall p :: GoodPool(env.crc, known, PoolAfter(env.crc, ops[0], w), p) ==> Means(env.crc, ops[0], cb, p)
    ensures Means(env.crc, ops[0], cb, q)
  {
    PoolOnlyGrows(env.crc, known, ops[1..], PoolAfter(env.crc, ops[0], w), q);
  }

  lemma ConsMeans(crc: seq<byte> -> u32, ops: seq<Op>, cb: Callback, callbacks: seq<Callback>, q: Pool)
    requires ops != [] && Means(crc, ops[0], cb, q) && AllMean(crc, ops[1..], callbacks, q)
    ensures AllMean(crc, ops, [cb] + callbacks, q)
  {
    forall i | 0 <= i < |ops|
      ensures Means(crc, ops[i], ([cb] + callbacks)[i], q)
    {
      if i > 0 {
        assert Means(crc, ops[1..][i - 1], callbacks[i - 1], q);
      }
    }
  }

  /** After the first operation the pools are in step again. */
  lemma StaysInStep(env: Env, known: seq<byte> -> bool, op: Op, w: Option<Pool>, r: Pool)
    requires InStep(env, known, w, r) && Writable(op) && Admissible(env, known, op)
    ensures InStep(env, known, PoolAfter(env.crc, op, w),
                   AfterHandler(env, Delivered(env.crc, op, w), ParserPool(env.crc, op, w, r)))
  {
    ParserKeepsLockStep(env.crc, known, op, w, r);
    HandlerKeepsLockStep(env, known, op, w, PoolAfter(env.crc, op, w), ParserPool(env.crc, op, w, r));
  }

  /** Parser undoes writer, and the pools stay in lock-step: what was written decodes without rest
      to one callback per operation, in order, and with any pool in lock-step with the writer's -
      the reader's own is one - each callback means what was written. */
  lemma {:induction false} StreamRoundTrip(env: Env, known: seq<byte> -> bool, ops: seq<Op>, w: Option<Pool>, r: Pool)
    requires InStep(env, known, w, r) && Sendable(env, known, ops)
    ensures var d := Decode(env, EmitAll(env.crc, ops, w), r);
            && d.rest == [] && !d.unknown
            && InStep(env, known, PoolAfterAll(env.crc, ops, w), d.pool)
            && forall q :: GoodPool(env.crc, known, PoolAfterAll(env.crc, ops, w), q) ==>
                 AllMean(env.crc, ops, d.callbacks, q)
    decreases |ops|
  {
    if ops == [] {
      ShortNeedsMore(env, [], r);
    } else {
      var op, w' := ops[0], PoolAfter(env.crc, ops[0], w);
      var b, tail := Emit(env.crc, op, w), EmitAll(env.crc, ops[1..], w');
      var cb := Delivered(env.crc, op, w);
      var r' := AfterHandler(env, cb, ParserPool(env.crc, op, w, r));
      OpRoundTrip(env, known, op, tail, w, r);
      StaysInStep(env, known, op, w, r);
      StreamRoundTrip(env, known, ops[1..], w', r');
      assert (b + tail)[|b|..] == tail;
      var d := Decode(env, tail, r');
      assert Decode(env, b + tail, r) == Before([cb], d);
      forall q | GoodPool(env.crc, known, PoolAfterAll(env.crc, ops, w), q)
        ensures AllMean(env.crc, ops, [cb] + d.callbacks, q)
      {
        MeaningOfFirst(env, known, ops, cb, w, q);
        ConsMeans(env.crc, ops, cb, d.callbacks, q);
      }
    }
  }

  /** The same through the parser, however the stream is cut: fresh pools on both sides, or none at
      the writer. */
  lemma ChunkedRoundTrip(env: Env, known: seq<byte> -> bool, ops: seq<Op>, pooled: bool, chunks: seq<seq<byte>>)
    requires NoCollision(env.crc, known) && Sendable(env, known, ops)
    requires Concat(chunks) == EmitAll(env.crc, ops, if pooled then Some(map[]) else None)
    ensures var p := Feed(env, [], map[], chunks);
            && p.buffer == []
            && AllMean(env.crc, ops, p.callbacks, p.pool)
  {
    var w := if pooled then Some(map[]) else None;
    StreamRoundTrip(env, known, ops, w, map[]);
    ShortNeedsMore(env, [], map[]);
    assert [] + Concat(chunks) == Concat(chunks);
    FeedIsDecode(env, [], map[], chunks);
  }

  // ---------- no pools at all ----------

  /** The callbacks of writes without a pool. */
  function AllDelivered(crc: seq<byte> -> u32, ops: seq<Op>): (r: seq<Callback>)
    requires AllWritable(ops)
    ensures |r| == |ops| && forall i :: 0 <= i < |ops| ==> r[i] == Delivered(crc, ops[i], None)
  {
    seq(|ops|, i requires 0 <= i < |ops| => Delivered(crc, ops[i], None))
  }

  lemma UnpooledEntry(env: Env, op: Op, tail: seq<byte>)
    requires Writable(op) && (op.WriteBlob? ==> |op.data| < VALUE_LIMIT)
    ensures var b := Emit(env.crc, op, None);
            DecodeEntry(Unpooled(env), b + tail, map[]) == Got(Delivered(env.crc, op, None), |b|, map[])
  {
    if op.WriteString? {
      DecodeLongEntry(Unpooled(env), op.name, INT_SIZE, op.chars, tail, map[]);
    } else {
      OpRoundTrip(Unpooled(env), _ => false, op, tail, None, map[]);
    }
  }

  lemma {:induction false} UnpooledDecode(env: Env, ops: seq<Op>)
    requires AllWritable(ops) && forall i :: 0 <= i < |ops| && ops[i].WriteBlob? ==> |ops[i].data| < VALUE_LIMIT
    ensures Decode(Unpooled(env), EmitAll(env.crc, ops, None), map[])
         == Decoded(AllDelivered(env.crc, ops), [], map[], false)
    decreases |ops|
  {
    if ops == [] {
      ShortNeedsMore(Unpooled(env), [], map[]);
    } else {
      var b, tail := Emit(env.crc, ops[0], None), EmitAll(env.crc, ops[1..], None);
      UnpooledEntry(env, ops[0], tail);
      UnpooledDecode(env, ops[1..]);
      assert (b + tail)[|b|..] == tail;
      assert AllDelivered(env.crc, ops) == [Delivered(env.crc, ops[0], None)] + AllDelivered(env.crc, ops[1..]);
    }
  }

  lemma DeliveredInFull(env: Env, op: Op)
    requires Writable(op)
    ensures var cb := Delivered(env.crc, op, None);
            !NeedsPool(env, cb) && (op.WriteString? ==> cb == Plain(op.name, op.chars))
  {
  }

  /** With a pool on neither side, the default of both streams, every write comes back as it was - no
      two strings can be confused, and strings may hold NULs - and no callback needs a pool. */
  lemma UnpooledRoundTrip(env: Env, ops: seq<Op>, chunks: seq<seq<byte>>)
    requires AllWritable(ops) && forall i :: 0 <= i < |ops| && ops[i].WriteBlob? ==> |ops[i].data| < VALUE_LIMIT
    requires Concat(chunks) == EmitAll(env.crc, ops, None)
    ensures Feed(Unpooled(env), [], map[], chunks) == Parsed(AllDelivered(env.crc, ops), [], map[])
    ensures forall i :: 0 <= i < |ops| ==>
              var cb := AllDelivered(env.crc, ops)[i];
              !NeedsPool(env, cb) && (ops[i].WriteString? ==> cb == Plain(ops[i].name, ops[i].chars))
  {
    UnpooledDecode(env, ops);
    ShortNeedsMore(Unpooled(env), [], map[]);
    assert [] + Concat(chunks) == Concat(chunks);
    FeedIsDecode(Unpooled(env), [], map[], chunks);
    forall i | 0 <= i < |ops|
      ensures var cb := AllDelivered(env.crc, ops)[i];
              !NeedsPool(env, cb) && (ops[i].WriteString? ==> cb == Plain(ops[i].name, ops[i].chars))
    {
      DeliveredInFull(env, ops[i]);
    }
  }

  // ---------- a handler that reads strings by name ----------

  /** A handler that reads as strings the data of these names. */
  function ReadsNamed(names: set<u32>): Callback -> bool {
    (cb: Callback) => cb.Data? && cb.name in names
  }

  /** The strings at stake in a stream: those written, and what else such a handler reads as a string. */
  function StringsOf(names: set<u32>, ops: seq<Op>): seq<seq<byte>>
    requires AllWritable(ops)
    decreases |ops|
  {
    if ops == [] then [] else StringsOfOne(names, ops[0]) + StringsOf(names, ops[1..])
  }

  function StringsOfOne(names: set<u32>, op: Op): seq<seq<byte>>
    requires Writable(op)
  {
    match op
    case WriteString(_, chars) => [chars]
    case WriteBlob(name, data) => if name in names then [data] else []
    case WriteInt(name, t, v) => if name in names then [IntData(t.width, Bits(t, v))] else []
    case _ => []
  }

  function Among(strings: seq<seq<byte>>): seq<byte> -> bool {
    (s: seq<byte>) => s in strings
  }

  lemma {:induction false} StringsAreKnown(crc: seq<byte> -> u32, names: set<u32>, ops: seq<Op>,
                                           strings: seq<seq<byte>>)
    requires AllWritable(ops) && forall s :: s in StringsOf(names, ops) ==> s in strings
    requires forall i :: 0 <= i < |ops| && ops[i].WriteString? ==> 0 !in ops[i].chars
    ensures forall i :: 0 <= i < |ops| ==> Admissible(Env(crc, ReadsNamed(names)), Among(strings), ops[i])
    decreases |ops|
  {
    if ops != [] {
      assert forall s :: s in StringsOfOne(names, ops[0]) ==> s in StringsOf(names, ops);
      StringsAreKnown(crc, names, ops[1..], strings);
      forall i | 0 <= i < |ops|
        ensures Admissible(Env(crc, ReadsNamed(names)), Among(strings), ops[i])
      {
        if i > 0 {
          assert ops[i] == ops[1..][i - 1];
        }
      }
    }
  }

  /** With such a handler all that is asked is that no two of the strings at stake in this stream have
      the same checksum. */
  lemma NamedRoundTrip(crc: seq<byte> -> u32, names: set<u32>, ops: seq<Op>, pooled: bool, chunks: seq<seq<byte>>)
    requires AllWritable(ops)
    requires forall i :: 0 <= i < |ops| && ops[i].WriteString? ==> 0 !in ops[i].chars
    requires forall i :: 0 <= i < |ops| && ops[i].WriteBlob? ==> |ops[i].data| < VALUE_LIMIT
    requires forall s, t :: s in StringsOf(names, ops) && t in StringsOf(names, ops) && crc(s) == crc(t) ==> s == t
    requires Concat(chunks) == EmitAll(crc, ops, if pooled then Some(map[]) else None)
    ensures var p := Feed(Env(crc, ReadsNamed(names)), [], map[], chunks);
            && p.buffer == []
            && AllMean(crc, ops, p.callbacks, p.pool)
  {
    var env, known := Env(crc, ReadsNamed(names)), Among(StringsOf(names, ops));
    StringsAreKnown(crc, names, ops, StringsOf(names, ops));
    ChunkedRoundTrip(env, known, ops, pooled, chunks);
  }

  /** Reading strings as they arrive: after the first k operations the parser has made exactly their
      callbacks and its pool resolves everything the writer's held at that point. */
  lemma StreamSplits(env: Env, known: seq<byte> -> bool, ops: seq<Op>, k: nat, w: Option<Pool>, r: Pool)
    requires InStep(env, known, w, r) && Sendable(env, known, ops) && k <= |ops|
    ensures Sendable(env, known, ops[..k]) && Sendable(env, known, ops[k..])
    ensures EmitAll(env.crc, ops, w)
         == EmitAll(env.crc, ops[..k], w) + EmitAll(env.crc, ops[k..], PoolAfterAll(env.crc, ops[..k], w))
    ensures var d := Decode(env, EmitAll(env.crc, ops[..k], w), r);
            && AllMean(env.crc, ops[..k], d.callbacks, d.pool)
            && d.callbacks <= Decode(env, EmitAll(env.crc, ops, w), r).callbacks
  {
    EmitSplits(env.crc, ops, k, w);
    StreamRoundTrip(env, known, ops[..k], w, r);
    DecodeResumes(env, EmitAll(env.crc, ops[..k], w),
                  EmitAll(env.crc, ops[k..], PoolAfterAll(env.crc, ops[..k], w)), r);
  }
}
