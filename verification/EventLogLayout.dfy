/** The event log byte by byte: what stands where, in numbers. */
module EventLogLayout {
  import opened Bytes
  import opened Seqs
  import opened EventLogFormat

  /** Id, size and flags of an event, its payload, and padding to a multiple of 8. */
  lemma EventBytes(e: Event)
    ensures Encode(e) == Word(e.id) + Half(|e.payload|) + Half(e.flags) + e.payload + e.padding
    ensures |e.padding| == (8 - |e.payload| % 8) % 8
  {
    WordIs(e.id);
    HalfIs(|e.payload|);
    HalfIs(e.flags);
    assert EventHeader(e.id, |e.payload|, e.flags) == Word(e.id) + Half(|e.payload|) + Half(e.flags);
  }

  /** A prolog: its name, 8 bytes of payload, no flags, and the thread. */
  lemma PrologBytes(threadId: u64)
    ensures Encode(PrologEvent(threadId)) == Word(0xc83704ec) + [8, 0, 0, 0] + Quad(threadId)
  {
    EventBytes(PrologEvent(threadId));
    QuadIs(threadId);
    assert Half(8) + Half(0) == [8, 0, 0, 0];
    Assoc(Word(0xc83704ec), Half(8), Half(0));
  }

  /** The file begins with "VOEL" and versions 1, 0 and 0. */
  lemma HeaderBytes()
    ensures LogHeader() == [0x56, 0x4f, 0x45, 0x4c, 1, 0, 0, 0, 0, 0, 0, 0, 0, 0, 0, 0]
  {
    WordIs(1);
    WordIs(0);
  }

  // ---------- the name of a prolog ----------

  /** EventNameHash: the DJB2a hash of a name, in 32 bits. */
  function NameHash(name: seq<bv64>): bv64 {
    if name == [] then 5381 else Mixed(NameHash(name[..|name| - 1]), name[|name| - 1])
  }

  function Mixed(h: bv64, c: bv64): bv64 {
    (((h << 5) + h) ^ c) & 0xffff_ffff
  }

  lemma NameHashAt(name: seq<bv64>, k: nat)
    requires k < |name|
    ensures NameHash(name[..k + 1]) == Mixed(NameHash(name[..k]), name[k])
  {
    var more := name[..k + 1];
    assert |more| == k + 1 && more[..k] == name[..k] && more[k] == name[k];
  }

  /** The hash of "Prolog" is the number the reader looks for. */
  lemma PrologHashIs()
    ensures NameHash([0x50, 0x72, 0x6f, 0x6c, 0x6f, 0x67]) as nat == PROLOG_HASH
  {
    var name: seq<bv64> := [0x50, 0x72, 0x6f, 0x6c, 0x6f, 0x67];
    NameHashAt(name, 0);
    NameHashAt(name, 1);
    NameHashAt(name, 2);
    NameHashAt(name, 3);
    NameHashAt(name, 4);
    NameHashAt(name, 5);
    assert name[..6] == name && NameHash(name[..0]) == 5381;
    assert NameHash(name) == 0xc83704ec;
  }
}
