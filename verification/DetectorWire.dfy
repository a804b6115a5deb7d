/** The detector stream byte by byte: what every write puts into it, and what every entry means. */
module DetectorWire {
  import opened Bytes
  import opened Wrappers
  import opened Seqs
  import opened DetectorStreamFormat
  import opened DetectorOutputStream

  // ---------- the writer ----------

  lemma EntryBytes(name: u32, sizeAndFlags: u32)
    ensures StreamEntry(name, sizeAndFlags) == Word(name) + Word(sizeAndFlags)
  {
    WordIs(name);
    WordIs(sizeAndFlags);
  }

  /** A tag: type 1, and whether it opens. */
  lemma TagBytes(crc: seq<byte> -> u32, name: u32, pool: Option<Pool>)
    ensures Emit(crc, BeginTag(name), pool) == Word(name) + Word(0x2000_0001)
    ensures Emit(crc, EndTag(name), pool) == Word(name) + Word(0x2000_0000)
  {
    EntryBytes(name, 0x2000_0001);
    EntryBytes(name, 0x2000_0000);
  }

  /** The value of an integer as the bits of its type. */
  function TwosComplement(width: nat, value: int): int {
    if value >= 0 then value
    else if width == 1 then value + 0x100
    else if width == 2 then value + 0x1_0000
    else if width == 4 then value + 0x1_0000_0000
    else value + 0x1_0000_0000_0000_0000
  }

  /** An integer stands in the entry if it is of one or two bytes, types 2 and 3, or has no more than 29
      bits, type 4; the others follow an entry that tells their size. */
  lemma IntBytes(crc: seq<byte> -> u32, name: u32, t: IntType, value: int, pool: Option<Pool>)
    requires IsIntType(t) && InType(t, value)
    ensures var bits, b := TwosComplement(t.width, value), Emit(crc, WriteInt(name, t, value), pool);
            if t.width == 1 then b == Word(name) + Word(0x4000_0000 + bits)
            else if t.width == 2 then b == Word(name) + Word(0x6000_0000 + bits)
            else if bits < 0x2000_0000 then b == Word(name) + Word(0x8000_0000 + bits)
            else b == Word(name) + Word(t.width) + (if t.width == 4 then Word(bits) else Quad(bits))
  {
    var bits := TwosComplement(t.width, value);
    assert Bits(t, value) == bits;
    if t.width == 1 {
      EntryBytes(name, 0x4000_0000 + bits);
    } else if t.width == 2 {
      EntryBytes(name, 0x6000_0000 + bits);
    } else if bits < 0x2000_0000 {
      EntryBytes(name, 0x8000_0000 + bits);
    } else {
      EntryBytes(name, t.width);
      if t.width == 4 {
        WordIs(bits);
      } else {
        QuadIs(bits);
      }
    }
  }

  /** A blob: its size, and type 0 unless the size runs into the type bits. */
  lemma BlobBytes(crc: seq<byte> -> u32, name: u32, data: seq<byte>, pool: Option<Pool>)
    requires |data| < 0x1_0000_0000
    ensures Emit(crc, WriteBlob(name, data), pool) == Word(name) + Word(|data|) + data
  {
    EntryBytes(name, |data|);
  }

  /** A string: as a blob without a pool; with one, type 6 in full the first time, and from then on type 5
      and its checksum. */
  lemma StringBytes(crc: seq<byte> -> u32, name: u32, chars: seq<byte>, pool: Option<Pool>)
    requires |chars| < 0x2000_0000
    ensures Emit(crc, WriteString(name, chars), pool)
         == if pool == None then Word(name) + Word(|chars|) + chars
            else if crc(chars) in pool.value then Word(name) + Word(0xa000_0004) + Word(crc(chars))
            else Word(name) + Word(0xc000_0000 + |chars|) + chars
  {
    EntryBytes(name, |chars|);
    EntryBytes(name, 0xa000_0004);
    EntryBytes(name, 0xc000_0000 + |chars|);
    WordIs(crc(chars));
  }

  lemma {:induction false} PoolKeeps(crc: seq<byte> -> u32, ops: seq<Op>, w: Pool, c: u32)
    requires c in w
    ensures PoolAfterAll(crc, ops, Some(w)).Some? && c in PoolAfterAll(crc, ops, Some(w)).value
    decreases |ops|
  {
    if ops != [] {
      PoolKeeps(crc, ops[1..], PoolAfter(crc, ops[0], Some(w)).value, c);
    }
  }

  /** From its second time on a string costs 12 bytes, whatever is written in between. */
  lemma SecondTimeByChecksum(crc: seq<byte> -> u32, before: seq<Op>, between: seq<Op>, first: u32, second: u32,
                             chars: seq<byte>, w: Pool)
    requires AllWritable(before) && AllWritable(between) && |chars| < 0x2000_0000
    ensures var all := before + [WriteString(first, chars)] + between;
            && AllWritable(all) && AllWritable(all + [WriteString(second, chars)])
            && EmitAll(crc, all + [WriteString(second, chars)], Some(w))
               == EmitAll(crc, all, Some(w)) + (Word(second) + Word(0xa000_0004) + Word(crc(chars)))
  {
    var start := before + [WriteString(first, chars)];
    var all := start + between;
    var pool := PoolAfterAll(crc, start, Some(w));
    EmitMore(crc, before, WriteString(first, chars), Some(w));
    PoolStays(crc, before, w);
    PoolsJoin(crc, start, between, Some(w));
    PoolKeeps(crc, between, pool.value, crc(chars));
    EmitMore(crc, all, WriteString(second, chars), Some(w));
    StringBytes(crc, second, chars, PoolAfterAll(crc, all, Some(w)));
  }

  lemma {:induction false} PoolStays(crc: seq<byte> -> u32, ops: seq<Op>, w: Pool)
    ensures PoolAfterAll(crc, ops, Some(w)).Some?
    decreases |ops|
  {
    if ops != [] {
      PoolStays(crc, ops[1..], PoolAfter(crc, ops[0], Some(w)).value);
    }
  }

  lemma {:induction false} PoolsJoin(crc: seq<byte> -> u32, a: seq<Op>, b: seq<Op>, w: Option<Pool>)
    ensures PoolAfterAll(crc, a + b, w) == PoolAfterAll(crc, b, PoolAfterAll(crc, a, w))
    decreases |a|
  {
    if a == [] {
      assert a + b == b;
    } else {
      ConsAppend(a, b);
      PoolsJoin(crc, a[1..], b, PoolAfter(crc, a[0], w));
    }
  }

  // ---------- the reader ----------

  /** Four bytes, least significant first. */
  function WordAt(b0: int, b1: int, b2: int, b3: int): int {
    b0 + 0x100 * b1 + 0x1_0000 * b2 + 0x100_0000 * b3
  }

  /** The name of an entry, and its 29 bits of value or size. */
  function NameOf(b: seq<byte>): u32
    requires |b| >= 8
  {
    WordAt(b[0], b[1], b[2], b[3])
  }

  function ValueOf(b: seq<byte>): nat
    requires |b| >= 8
  {
    WordAt(b[4], b[5], b[6], b[7] % 32)
  }

  lemma ReadU32Is(b: seq<byte>)
    requires |b| == 4
    ensures ReadU32(b) == WordAt(b[0], b[1], b[2], b[3])
  {
    WordBehind(b);
    assert b[4..] == [];
  }

  lemma TopBits(b0: byte, b1: byte, b2: byte, b3: byte)
    ensures var x := WordAt(b0, b1, b2, b3);
            x / 0x2000_0000 == b3 / 32 && x % 0x2000_0000 == WordAt(b0, b1, b2, b3 % 32)
  {
    var low, top := WordAt(b0, b1, b2, b3 % 32), b3 / 32;
    assert WordAt(b0, b1, b2, b3) == low + 0x2000_0000 * top && 0 <= low < 0x2000_0000;
  }

  /** The 3 type bits and the 29 value bits of an entry. */
  lemma EntryParts(b: seq<byte>)
    requires |b| >= 8
    ensures ReadU32(b[..4]) == NameOf(b)
    ensures ReadU32(b[4..8]) / 0x2000_0000 == b[7] / 32 && ReadU32(b[4..8]) % 0x2000_0000 == ValueOf(b)
  {
    ReadU32Is(b[..4]);
    ReadU32Is(b[4..8]);
    TopBits(b[4], b[5], b[6], b[7]);
  }

  /** What an entry with nothing behind it is called back as. */
  lemma ShortEntryMeans(env: Env, b: seq<byte>, pool: Pool)
    requires |b| >= 8 && 1 <= b[7] / 32 <= 4
    ensures var e, name := DecodeEntry(env, b, pool), NameOf(b);
            && e.Got? && e.length == 8
            && (b[7] / 32 == 1 ==> e.callback == Tag(name, ValueOf(b) != 0))
            && (b[7] / 32 == 2 ==> e.callback == Data(name, [b[4]], 1, false, false))
            && (b[7] / 32 == 3 ==> e.callback == Data(name, [b[4], b[5]], 2, false, false))
            && (b[7] / 32 == 4 ==> e.callback == Data(name, [b[4], b[5], b[6], b[7] % 32], 4, false, false))
  {
    EntryParts(b);
    LowBytes(b[4], b[5], b[6], b[7] % 32);
  }

  lemma LowBytes(b0: byte, b1: byte, b2: byte, b3: byte)
    ensures var x := WordAt(b0, b1, b2, b3);
            && 0 <= x < 0x1_0000_0000
            && ToBytes(x % 0x100, 1) == [b0] && ToBytes(x % 0x1_0000, 2) == [b0, b1]
            && ToBytes(x, 4) == [b0, b1, b2, b3]
  {
    LowParts(b0, b1, b2, b3);
    OneByte(b0);
    TwoBytes(b0, b1);
    FourBytes(b0, b1, b2, b3);
  }

  lemma LowParts(b0: byte, b1: byte, b2: byte, b3: byte)
    ensures var x := WordAt(b0, b1, b2, b3);
            0 <= x < 0x1_0000_0000 && x % 0x100 == b0 && x % 0x1_0000 == WordAt(b0, b1, 0, 0)
  {
    var q := WordAt(b2, b3, 0, 0);
    var r := WordAt(b1, b2, b3, 0);
    assert WordAt(b0, b1, b2, b3) == WordAt(b0, b1, 0, 0) + 0x1_0000 * q;
    assert WordAt(b0, b1, b2, b3) == b0 + 0x100 * r;
  }

  lemma OneByte(b0: byte)
    ensures ToBytes(b0, 1) == [b0]
  {
    assert FromBytes([b0]) == b0 + 256 * FromBytes([]);
    ToFromBytes([b0]);
  }

  lemma TwoBytes(b0: byte, b1: byte)
    ensures WordAt(b0, b1, 0, 0) >= 0 && ToBytes(WordAt(b0, b1, 0, 0), 2) == [b0, b1]
  {
    var s := [b0, b1];
    assert s[1..] == [b1] && FromBytes([b1]) == b1 + 256 * FromBytes([]);
    assert FromBytes(s) == b0 + 256 * FromBytes(s[1..]);
    ToFromBytes(s);
  }

  lemma FourBytes(b0: byte, b1: byte, b2: byte, b3: byte)
    ensures WordAt(b0, b1, b2, b3) >= 0 && ToBytes(WordAt(b0, b1, b2, b3), 4) == [b0, b1, b2, b3]
  {
    var s := [b0, b1, b2, b3];
    WordBehind(s);
    assert s[4..] == [];
    ToFromBytes(s);
  }

  /** What an entry with data behind it is called back as; a type 7 is unknown. */
  lemma LongEntryMeans(env: Env, b: seq<byte>, pool: Pool)
    requires |b| >= 8 && (b[7] / 32 == 0 || b[7] / 32 >= 5)
    ensures var e, name, size := DecodeEntry(env, b, pool), NameOf(b), ValueOf(b);
            if b[7] / 32 == 7 then e == Unknown
            else if |b| < 8 + size then e == NeedMore
            else
              var data := b[8..8 + size];
              && e.Got? && e.length == 8 + size
              && (b[7] / 32 == 0 ==> e.callback == Data(name, data, size, false, false))
              && (b[7] / 32 == 5 ==> e.callback == Data(name, data, size, false, true))
              && (b[7] / 32 == 6 ==>
                    && e.callback.Data? && e.callback.name == name && e.callback.size == size
                    && e.callback.isPooledString && !e.callback.isPooledStringCrc32
                    && e.callback.data == if env.crc(data) in pool then pool[env.crc(data)] else data)
  {
    EntryParts(b);
  }

  // ---------- strings ----------

  /** Reading a string that came inline files it, unless its checksum is taken, and the string in the pool
      is what the handler gets. */
  lemma InlineStringIsPooled(crc: seq<byte> -> u32, cb: Callback, pool: Pool)
    requires cb.Data? && !cb.isPooledString && !cb.isPooledStringCrc32 && cb.size == |cb.data|
    ensures var (text, pool') := PrepareString(crc, cb, pool);
            if crc(cb.data) in pool then
              && pool' == pool
              && text == if |pool[crc(cb.data)]| >= |cb.data| then Some(pool[crc(cb.data)][..|cb.data|]) else None
            else pool' == pool[crc(cb.data) := cb.data] && text == Some(cb.data)
  {
    assert cb.data[..cb.size] == cb.data;
  }

  /** And so is what a handler reads during a callback. */
  lemma HandlerPools(env: Env, cb: Callback, pool: Pool)
    requires cb.Data? && !cb.isPooledString && !cb.isPooledStringCrc32
    ensures AfterHandler(env, cb, pool)
         == if env.readsString(cb) && env.crc(cb.data) !in pool then pool[env.crc(cb.data) := cb.data] else pool
  {
  }
}
