/** DetectorOutputStream into memory: packs tags, integers, blobs and strings into entries. */
module DetectorOutputStream {
  import opened Bytes
  import opened Wrappers
  import opened Seqs
  import opened DetectorStreamFormat
  import DetectorStringPool

  // ---------- integers ----------

  /** An integer type of the sources: its size in bytes and whether it is signed. */
  datatype IntType = IntType(width: nat, signed: bool)

  predicate IsIntType(t: IntType) {
    t.width == 1 || t.width == 2 || t.width == 4 || t.width == 8
  }

  /** How many values an integer of this many bytes has. */
  function Range(width: nat): (r: nat)
    ensures r > 0
  {
    if width == 1 then 0x100 else if width == 2 then 0x1_0000
    else if width == 4 then 0x1_0000_0000 else 0x1_0000_0000_0000_0000
  }

  predicate InType(t: IntType, value: int) {
    if t.signed then -(Range(t.width) / 2) <= value < Range(t.width) / 2 else 0 <= value < Range(t.width)
  }

  /** The same bits taken as an unsigned integer. */
  function Bits(t: IntType, value: int): (bits: nat)
    requires InType(t, value)
    ensures bits < Range(t.width)
  {
    if value < 0 then value + Range(t.width) else value
  }

  /** The same bits taken as an integer of type t. */
  function OfBits(t: IntType, bits: nat): int {
    if t.signed && bits >= Range(t.width) / 2 then bits - Range(t.width) else bits
  }

  /** Whether the value part of an entry has room for these bits. */
  predicate FitsInEntry(bits: nat) {
    bits < VALUE_LIMIT
  }

  /** The masks and shifts of StreamEntry, as the arithmetic this model uses. */
  lemma MasksAreArithmetic(x: bv32, dataType: bv32)
    requires dataType < 8
    ensures (x & 0x1fffffff) == x <==> x < 0x2000_0000
    ensures (x & 0x1fffffff) == x % 0x2000_0000
    ensures ((x & 0xE0000000) >> 29) == x / 0x2000_0000
    ensures x < 0x2000_0000 ==> ((dataType << 29) | x) == dataType * 0x2000_0000 + x
  {
  }

  // ---------- what is written ----------

  datatype Op =
    | BeginTag(name: u32)
    | EndTag(name: u32)
    | WriteInt(name: u32, intType: IntType, value: int)
    | WriteBlob(name: u32, data: seq<byte>)
    | WriteString(name: u32, chars: seq<byte>)

  /** What the writer demands of its caller: types fit, sizes are 32-bit, strings are shorter than
      the 29-bit limit it asserts. */
  predicate Writable(op: Op) {
    match op
    case BeginTag(_) => true
    case EndTag(_) => true
    case WriteInt(_, t, v) => IsIntType(t) && InType(t, v)
    case WriteBlob(_, data) => |data| < 0x1_0000_0000
    case WriteString(_, chars) => |chars| < VALUE_LIMIT
  }

  function EmitInt(name: u32, width: nat, bits: nat): seq<byte>
    requires (width == 1 || width == 2 || width == 4 || width == 8) && bits < Range(width)
  {
    if width == 1 then StreamEntry(name, Pack(INT_DATA_U8, bits))
    else if width == 2 then StreamEntry(name, Pack(INT_DATA_U16, bits))
    else if FitsInEntry(bits) then StreamEntry(name, Pack(INT_DATA_U29, bits))
    else StreamEntry(name, width) + ToBytes(bits, width)
  }

  /** A string goes out in full the first time and as its checksum from then on. */
  function EmitString(crc: seq<byte> -> u32, name: u32, chars: seq<byte>, pool: Option<Pool>): seq<byte>
    requires |chars| < VALUE_LIMIT
  {
    if pool == None then StreamEntry(name, |chars|) + chars
    else if crc(chars) in pool.value then StreamEntry(name, Pack(INT_POOLED_STRING_CRC32, 4)) + ToBytes(crc(chars), 4)
    else StreamEntry(name, Pack(INT_POOLED_STRING, |chars|)) + chars
  }

  function Emit(crc: seq<byte> -> u32, op: Op, pool: Option<Pool>): seq<byte>
    requires Writable(op)
  {
    match op
    case BeginTag(name) => StreamEntry(name, Pack(INT_TAG, 1))
    case EndTag(name) => StreamEntry(name, Pack(INT_TAG, 0))
    case WriteInt(name, t, v) => EmitInt(name, t.width, Bits(t, v))
    case WriteBlob(name, data) => StreamEntry(name, |data|) + data
    case WriteString(name, chars) => EmitString(crc, name, chars, pool)
  }

  function PoolAfter(crc: seq<byte> -> u32, op: Op, pool: Option<Pool>): Option<Pool> {
    if op.WriteString? && pool.Some? then Some(Interned(crc, pool.value, op.chars)) else pool
  }

  predicate AllWritable(ops: seq<Op>) {
    forall i :: 0 <= i < |ops| ==> Writable(ops[i])
  }

  function EmitAll(crc: seq<byte> -> u32, ops: seq<Op>, pool: Option<Pool>): seq<byte>
    requires AllWritable(ops)
    decreases |ops|
  {
    if ops == [] then []
    else Emit(crc, ops[0], pool) + EmitAll(crc, ops[1..], PoolAfter(crc, ops[0], pool))
  }

  function PoolAfterAll(crc: seq<byte> -> u32, ops: seq<Op>, pool: Option<Pool>): Option<Pool>
    decreases |ops|
  {
    if ops == [] then pool else PoolAfterAll(crc, ops[1..], PoolAfter(crc, ops[0], pool))
  }

  lemma {:induction false} EmitSplits(crc: seq<byte> -> u32, ops: seq<Op>, k: nat, w: Option<Pool>)
    requires AllWritable(ops) && k <= |ops|
    ensures AllWritable(ops[..k]) && AllWritable(ops[k..])
    ensures EmitAll(crc, ops, w) == EmitAll(crc, ops[..k], w) + EmitAll(crc, ops[k..], PoolAfterAll(crc, ops[..k], w))
    decreases k
  {
    if k == 0 {
      assert ops[..0] == [] && ops[0..] == ops;
      assert [] + EmitAll(crc, ops, w) == EmitAll(crc, ops, w);
    } else {
      var w', front, back := PoolAfter(crc, ops[0], w), ops[1..][..k - 1], ops[k..];
      EmitSplits(crc, ops[1..], k - 1, w');
      assert ops[..k] == [ops[0]] + front && ops[1..][k - 1..] == back;
      assert ([ops[0]] + front)[1..] == front;
      Assoc(Emit(crc, ops[0], w), EmitAll(crc, front, w'), EmitAll(crc, back, PoolAfterAll(crc, front, w')));
    }
  }

  /** One operation more. */
  lemma EmitMore(crc: seq<byte> -> u32, ops: seq<Op>, op: Op, w: Option<Pool>)
    requires AllWritable(ops) && Writable(op)
    ensures AllWritable(ops + [op])
    ensures EmitAll(crc, ops + [op], w) == EmitAll(crc, ops, w) + Emit(crc, op, PoolAfterAll(crc, ops, w))
    ensures PoolAfterAll(crc, ops + [op], w) == PoolAfter(crc, op, PoolAfterAll(crc, ops, w))
  {
    var more := ops + [op];
    EmitSplits(crc, more, |ops|, w);
    assert more[..|ops|] == ops && more[|ops|..] == [op] && [op][1..] == [];
    var pool := PoolAfterAll(crc, ops, w);
    assert EmitAll(crc, [op], pool) == Emit(crc, op, pool) + EmitAll(crc, [], PoolAfter(crc, op, pool));
    PoolMore(crc, ops, op, w);
  }

  lemma {:induction false} PoolMore(crc: seq<byte> -> u32, ops: seq<Op>, op: Op, w: Option<Pool>)
    ensures PoolAfterAll(crc, ops + [op], w) == PoolAfter(crc, op, PoolAfterAll(crc, ops, w))
    decreases |ops|
  {
    var more := ops + [op];
    if ops == [] {
      assert more == [op] && [op][1..] == [];
    } else {
      assert more[1..] == ops[1..] + [op];
      PoolMore(crc, ops[1..], op, PoolAfter(crc, ops[0], w));
    }
  }

  class OutputStream {
    const crc: seq<byte> -> u32
    const stringPool: DetectorStringPool.StringPool?
    var data: seq<byte>

    /** What has been written since the last header, and the bytes and the pool there were then. */
    ghost var ops: seq<Op>
    ghost var base: seq<byte>
    ghost var basePool: Option<Pool>

    constructor (crc: seq<byte> -> u32, stringPool: DetectorStringPool.StringPool?)
      requires stringPool != null ==> stringPool.Valid() && stringPool.crc == crc
      ensures Valid() && this.crc == crc && this.stringPool == stringPool && data == [] && ops == []
    {
      this.crc, this.stringPool := crc, stringPool;
      data, ops, base := [], [], [];
      basePool := if stringPool == null then None else Some(stringPool.Contents());
    }

    ghost predicate PoolOk()
      reads this, stringPool
    {
      stringPool != null ==> stringPool.Valid() && stringPool.crc == crc
    }

    /** The bytes are the encoding of the operations, and so is the pool, whatever calls were made. */
    ghost predicate Valid()
      reads this, stringPool
    {
      && PoolOk() && AllWritable(ops)
      && data == base + EmitAll(crc, ops, basePool)
      && PoolContents() == PoolAfterAll(crc, ops, basePool)
    }

    function PoolContents(): Option<Pool>
      reads this, stringPool
    {
      if stringPool == null then None else Some(stringPool.Contents())
    }

    method WriteBinary(bytes: seq<byte>)
      modifies this`data
      ensures data == old(data) + bytes
    {
      data := data + bytes;
    }

    /** The platform byte; the operations that follow are told apart from what came before. */
    method WriteHeader(platform: byte)
      requires Valid()
      modifies this
      ensures Valid() && data == old(data) + [platform]
      ensures ops == [] && base == data && basePool == PoolContents() == old(PoolContents())
    {
      WriteBinary([platform]);
      ops, base, basePool := [], data, PoolContents();
    }

    /** The bytes of one more operation are written; now it counts. */
    ghost method Note(op: Op, before: seq<byte>)
      requires PoolOk() && AllWritable(ops) && Writable(op) && before == base + EmitAll(crc, ops, basePool)
      requires data == before + Emit(crc, op, PoolAfterAll(crc, ops, basePool))
      requires PoolContents() == PoolAfter(crc, op, PoolAfterAll(crc, ops, basePool))
      modifies this`ops
      ensures Valid() && ops == old(ops) + [op]
    {
      EmitMore(crc, ops, op, basePool);
      Assoc(base, EmitAll(crc, ops, basePool), Emit(crc, op, PoolAfterAll(crc, ops, basePool)));
      ops := ops + [op];
    }

    method BeginTag(name: u32)
      requires Valid()
      modifies this`data, this`ops
      ensures Valid() && ops == old(ops) + [Op.BeginTag(name)]
      ensures data == old(data) + Emit(crc, Op.BeginTag(name), PoolContents())
    {
      ghost var before := data;
      WriteBinary(StreamEntry(name, INT_TAG * VALUE_LIMIT + 1));
      Note(Op.BeginTag(name), before);
    }

    method EndTag(name: u32)
      requires Valid()
      modifies this`data, this`ops
      ensures Valid() && ops == old(ops) + [Op.EndTag(name)]
      ensures data == old(data) + Emit(crc, Op.EndTag(name), PoolContents())
    {
      ghost var before := data;
      WriteBinary(StreamEntry(name, INT_TAG * VALUE_LIMIT));
      Note(Op.EndTag(name), before);
    }

    method WriteInt(name: u32, t: IntType, value: int)
      requires Valid() && IsIntType(t) && InType(t, value)
      modifies this`data, this`ops
      ensures Valid() && ops == old(ops) + [Op.WriteInt(name, t, value)]
      ensures data == old(data) + Emit(crc, Op.WriteInt(name, t, value), PoolContents())
    {
      ghost var before := data;
      var bits := Bits(t, value);
      if t.width == 1 {
        WriteBinary(StreamEntry(name, INT_DATA_U8 * VALUE_LIMIT + bits));
      } else if t.width == 2 {
        WriteBinary(StreamEntry(name, INT_DATA_U16 * VALUE_LIMIT + bits));
      } else if bits % VALUE_LIMIT == bits {
        WriteBinary(StreamEntry(name, INT_DATA_U29 * VALUE_LIMIT + bits));
      } else {
        WriteBinary(StreamEntry(name, t.width));
        WriteBinary(ToBytes(bits, t.width));
        Assoc(before, StreamEntry(name, t.width), ToBytes(bits, t.width));
      }
      Note(Op.WriteInt(name, t, value), before);
    }

    method WriteBlob(name: u32, bytes: seq<byte>)
      requires Valid() && |bytes| < 0x1_0000_0000
      modifies this`data, this`ops
      ensures Valid() && ops == old(ops) + [Op.WriteBlob(name, bytes)]
      ensures data == old(data) + Emit(crc, Op.WriteBlob(name, bytes), PoolContents())
    {
      ghost var before := data;
      WriteBinary(StreamEntry(name, |bytes|));
      WriteBinary(bytes);
      Assoc(before, StreamEntry(name, |bytes|), bytes);
      Note(Op.WriteBlob(name, bytes), before);
    }

    /** The pool gets a copy of the string, or keeps the caller's pointer. */
    method WriteString(name: u32, text: DetectorStringPool.CString, isCopyString: bool)
      requires Valid() && |text.chars| < VALUE_LIMIT
      requires stringPool != null && !isCopyString ==> text !in stringPool.ownedStrings && text !in stringPool.freed
      modifies this`data, this`ops, stringPool
      ensures Valid() && ops == old(ops) + [Op.WriteString(name, text.chars)]
      ensures data == old(data) + Emit(crc, Op.WriteString(name, text.chars), old(PoolContents()))
      ensures PoolContents() == PoolAfter(crc, Op.WriteString(name, text.chars), old(PoolContents()))
      ensures stringPool != null ==>
                Filed(stringPool, text, isCopyString, old(stringPool.crcToString), old(stringPool.ownedStrings))
      ensures stringPool != null && isCopyString && crc(text.chars) !in old(stringPool.crcToString) ==>
                fresh(stringPool.crcToString[crc(text.chars)])
    {
      ghost var before := data;
      var chars := text.chars;
      if stringPool != null {
        var isInserted, crc32 := PoolString(text, isCopyString);
        if !isInserted {
          WriteBinary(StreamEntry(name, INT_POOLED_STRING_CRC32 * VALUE_LIMIT + 4));
          WriteBinary(ToBytes(crc32, 4));
          Assoc(before, StreamEntry(name, Pack(INT_POOLED_STRING_CRC32, 4)), ToBytes(crc32, 4));
        } else {
          WriteBinary(StreamEntry(name, |chars| + INT_POOLED_STRING * VALUE_LIMIT));
          WriteBinary(chars);
          Assoc(before, StreamEntry(name, Pack(INT_POOLED_STRING, |chars|)), chars);
        }
      } else {
        WriteBinary(StreamEntry(name, |chars|));
        WriteBinary(chars);
        Assoc(before, StreamEntry(name, |chars|), chars);
      }
      Note(Op.WriteString(name, chars), before);
    }

    /** A new string is filed as the pool's own copy, or as the caller's; one known before changes nothing. */
    ghost predicate Filed(pool: DetectorStringPool.StringPool, text: DetectorStringPool.CString, isCopyString: bool,
                          before: map<u32, DetectorStringPool.CString>, owned: set<DetectorStringPool.CString>)
      reads pool
    {
      var crc32 := crc(text.chars);
      if crc32 in before then pool.crcToString == before && pool.ownedStrings == owned
      else
        && crc32 in pool.crcToString
        && if isCopyString then pool.ownedStrings == owned + {pool.crcToString[crc32]}
           else pool.crcToString[crc32] == text && pool.ownedStrings == owned
    }

    method PoolString(text: DetectorStringPool.CString, isCopyString: bool) returns (isInserted: bool, crc32: u32)
      requires stringPool != null && stringPool.Valid() && stringPool.crc == crc
      requires !isCopyString ==> text !in stringPool.ownedStrings && text !in stringPool.freed
      modifies stringPool
      ensures stringPool.Valid() && crc32 == crc(text.chars)
      ensures isInserted == (crc32 !in old(stringPool.Contents()))
      ensures stringPool.Contents() == Interned(crc, old(stringPool.Contents()), text.chars)
      ensures Filed(stringPool, text, isCopyString, old(stringPool.crcToString), old(stringPool.ownedStrings))
      ensures isInserted && isCopyString ==> fresh(stringPool.crcToString[crc32])
    {
      if isCopyString {
        var pooled;
        isInserted, crc32, pooled := stringPool.InsertCopy(text.chars);
      } else {
        isInserted, crc32 := stringPool.Insert(text);
      }
    }
  }
}
