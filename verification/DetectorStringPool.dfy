/** DetectorDefaultStringPool: strings by checksum, some of them copies the pool owns and frees. */
module DetectorStringPool {
  import opened Bytes
  import opened Wrappers
  import opened DetectorStreamFormat

  /** A NUL-terminated string in memory; pointers to it are references to the object. */
  class CString {
    const chars: seq<byte>

    constructor (chars: seq<byte>)
      ensures this.chars == chars
    {
      this.chars := chars;
    }
  }

  ghost predicate Pooled(m: map<u32, CString>, text: CString) {
    exists c :: c in m && m[c] == text
  }

  lemma PooledStays(m: map<u32, CString>, m': map<u32, CString>, text: CString)
    requires Pooled(m, text)
    requires forall c :: c in m && m[c] == text ==> c in m' && m'[c] == text
    ensures Pooled(m', text)
  {
    var c :| c in m && m[c] == text;
    assert c in m' && m'[c] == text;
  }

  ghost predicate InUse(m: map<u32, CString>, freed: set<CString>, c: u32) {
    c in m ==> m[c] !in freed
  }

  ghost predicate OneChecksum(m: map<u32, CString>, owned: set<CString>, c: u32, d: u32) {
    c in m && d in m && m[c] == m[d] && m[c] in owned ==> c == d
  }

  /** Texts in use are not freed, and owned ones have one checksum each. */
  ghost predicate TextsOk(m: map<u32, CString>, owned: set<CString>, freed: set<CString>) {
    (forall c :: InUse(m, freed, c)) && forall c, d :: OneChecksum(m, owned, c, d)
  }

  lemma AddKeepsTexts(m: map<u32, CString>, owned: set<CString>, freed: set<CString>,
                      c0: u32, text: CString, owned': set<CString>)
    requires TextsOk(m, owned, freed) && c0 !in m && text !in freed
    requires if owned' == owned then text !in owned
             else owned' == owned + {text} && forall c :: c in m ==> m[c] != text
    ensures TextsOk(m[c0 := text], owned', freed)
  {
    var m' := m[c0 := text];
    forall c
      ensures InUse(m', freed, c)
    {
      assert InUse(m, freed, c);
    }
    forall c, d
      ensures OneChecksum(m', owned', c, d)
    {
      assert OneChecksum(m, owned, c, d);
    }
  }

  lemma EraseKeepsTexts(m: map<u32, CString>, owned: set<CString>, freed: set<CString>, c0: u32)
    requires TextsOk(m, owned, freed) && c0 in m
    ensures TextsOk(m - {c0}, owned - {m[c0]}, freed + ({m[c0]} * owned))
  {
    var m', owned', freed' := m - {c0}, owned - {m[c0]}, freed + ({m[c0]} * owned);
    forall c
      ensures InUse(m', freed', c)
    {
      assert InUse(m, freed, c) && OneChecksum(m, owned, c, c0);
    }
    forall c, d
      ensures OneChecksum(m', owned', c, d)
    {
      assert OneChecksum(m, owned, c, d);
    }
  }

  class StringPool {
    const crc: seq<byte> -> u32
    var crcToString: map<u32, CString>
    var ownedStrings: set<CString>

    /** The copies this pool has given back to the allocator. */
    ghost var freed: set<CString>

    /** No text in use has been freed, and owned ones have one checksum each. */
    ghost predicate Valid()
      reads this
    {
      && (forall text :: text in ownedStrings ==> text !in freed && Pooled(crcToString, text))
      && TextsOk(crcToString, ownedStrings, freed)
    }

    /** What each checksum stands for. */
    function Contents(): Pool
      reads this
    {
      map c | c in crcToString :: crcToString[c].chars
    }

    constructor (crc: seq<byte> -> u32)
      ensures Valid() && Contents() == map[] && this.crc == crc
      ensures freed == {} && ownedStrings == {}
    {
      this.crc := crc;
      crcToString, ownedStrings, freed := map[], {}, {};
    }

    method InsertCopy(chars: seq<byte>) returns (inserted: bool, crc32: u32, pooled: CString)
      requires Valid()
      modifies this
      ensures Valid() && freed == old(freed)
      ensures crc32 == crc(chars) && inserted == (crc32 !in old(crcToString))
      ensures Contents() == Interned(crc, old(Contents()), chars)
      ensures crc32 in crcToString && pooled == crcToString[crc32]
      ensures if inserted then fresh(pooled) && ownedStrings == old(ownedStrings) + {pooled}
              else ownedStrings == old(ownedStrings) && crcToString == old(crcToString)
      ensures forall c :: c in old(crcToString) ==> c in crcToString && crcToString[c] == old(crcToString)[c]
    {
      crc32 := crc(chars);
      if crc32 in crcToString {
        inserted, pooled := false, crcToString[crc32];
      } else {
        pooled := new CString(chars);
        AddKeepsTexts(crcToString, ownedStrings, freed, crc32, pooled, ownedStrings + {pooled});
        ownedStrings := ownedStrings + {pooled};
        crcToString := crcToString[crc32 := pooled];
        inserted := true;
        forall text | text in ownedStrings
          ensures Pooled(crcToString, text)
        {
          if text == pooled {
            assert crcToString[crc32] == text;
          } else {
            PooledStays(old(crcToString), crcToString, text);
          }
        }
      }
    }

    /** Keeps the caller's pointer, which must be none of the pool's own copies. */
    method Insert(text: CString) returns (inserted: bool, crc32: u32)
      requires Valid() && text !in ownedStrings && text !in freed
      modifies this
      ensures Valid() && freed == old(freed) && ownedStrings == old(ownedStrings)
      ensures crc32 == crc(text.chars) && inserted == (crc32 !in old(crcToString))
      ensures Contents() == Interned(crc, old(Contents()), text.chars)
      ensures crcToString == if inserted then old(crcToString)[crc32 := text] else old(crcToString)
    {
      crc32 := crc(text.chars);
      inserted := crc32 !in crcToString;
      if inserted {
        AddKeepsTexts(crcToString, ownedStrings, freed, crc32, text, ownedStrings);
        crcToString := crcToString[crc32 := text];
        forall own | own in ownedStrings
          ensures Pooled(crcToString, own)
        {
          PooledStays(old(crcToString), crcToString, own);
        }
      }
    }

    method Find(crc32: u32) returns (text: Option<CString>)
      ensures text == if crc32 in crcToString then Some(crcToString[crc32]) else None
    {
      if crc32 in crcToString {
        return Some(crcToString[crc32]);
      }
      return None;
    }

    /** Removes one text; frees it exactly if it was the pool's own copy. */
    method Erase(crc32: u32)
      requires Valid()
      modifies this
      ensures Valid()
      ensures Contents() == old(Contents()) - {crc32}
      ensures freed
           == old(freed)
              + (if crc32 in old(crcToString) then {old(crcToString)[crc32]} * old(ownedStrings) else {})
      ensures ownedStrings == old(ownedStrings) - freed
    {
      if crc32 in crcToString {
        var text := crcToString[crc32];
        EraseKeepsTexts(crcToString, ownedStrings, freed, crc32);
        assert if text in ownedStrings then {text} * ownedStrings == {text}
               else ownedStrings - {text} == ownedStrings && freed + ({text} * ownedStrings) == freed;
        if text in ownedStrings {
          freed := freed + {text};
          ownedStrings := ownedStrings - {text};
        }
        crcToString := crcToString - {crc32};
        forall own | own in ownedStrings
          ensures Pooled(crcToString, own)
        {
          PooledStays(old(crcToString), crcToString, own);
        }
      }
    }

    /** Frees every own copy once, no borrowed text, and forgets everything. */
    method Reset()
      requires Valid()
      modifies this
      ensures Valid() && Contents() == map[] && ownedStrings == {}
      ensures freed == old(freed) + old(ownedStrings)
    {
      var left := ownedStrings;
      ghost var before, owned := freed, ownedStrings;
      while left != {}
        invariant left <= owned && freed == before + (owned - left)
        invariant left !! freed
        decreases left
      {
        var text :| text in left;
        freed := freed + {text};
        left := left - {text};
      }
      crcToString := map[];
      ownedStrings := {};
    }
  }
}
