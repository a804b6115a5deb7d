/** A session from its Start in one process to the tree a reader has of it. */
module DetectorSessionRead {
  import opened Bytes
  import opened Wrappers
  import opened Seqs
  import opened DetectorStreamFormat
  import opened DetectorChunking
  import opened DetectorOutputStream
  import opened DetectorRoundTrip
  import opened DetectorTree
  import opened DetectorDomParser
  import opened DetectorManager
  import opened DetectorReports
  import opened DetectorSession
  import opened DetectorSessions
  import opened DetectorRuns
  import opened DetectorSessionStream
  import opened DetectorSaxParser
  import DetectorStringPool

  // ---------- how a stream may come ----------

  /** The size of the next chunk: the one asked for, if it is the size of a chunk and not more than is
      left. */
  function NextSize(left: nat, sizes: seq<nat>): (k: nat)
    requires left > 0
    ensures 0 < k <= left && k <= PROCESS_CHUNK_SIZE
  {
    var most := if left < PROCESS_CHUNK_SIZE then left else PROCESS_CHUNK_SIZE;
    if sizes != [] && 0 < sizes[0] < most then sizes[0] else most
  }

  /** The bytes cut into chunks, of these sizes as far as they go. */
  function Cut(bytes: seq<byte>, sizes: seq<nat>): seq<seq<byte>>
    decreases |bytes|
  {
    if bytes == [] then []
    else
      var k := NextSize(|bytes|, sizes);
      [bytes[..k]] + Cut(bytes[k..], if sizes == [] then [] else sizes[1..])
  }

  lemma {:induction false} CutsOnly(bytes: seq<byte>, sizes: seq<nat>)
    ensures Concat(Cut(bytes, sizes)) == bytes
    ensures forall i :: 0 <= i < |Cut(bytes, sizes)| ==> 0 < |Cut(bytes, sizes)[i]| <= PROCESS_CHUNK_SIZE
    decreases |bytes|
  {
    if bytes != [] {
      var k := NextSize(|bytes|, sizes);
      var first, rest := bytes[..k], Cut(bytes[k..], if sizes == [] then [] else sizes[1..]);
      CutsOnly(bytes[k..], if sizes == [] then [] else sizes[1..]);
      ConsAppend([first], rest);
      assert [first][1..] + rest == rest && first + bytes[k..] == bytes;
      var all := [first] + rest;
      forall i | 0 <= i < |all|
        ensures 0 < |all[i]| <= PROCESS_CHUNK_SIZE
      {
        assert i > 0 ==> all[i] == rest[i - 1];
      }
    }
  }

  function Sizes(chunks: seq<seq<byte>>): seq<nat> {
    if chunks == [] then [] else [|chunks[0]|] + Sizes(chunks[1..])
  }

  /** Any chunks an input stream may hand out are such a cutting. */
  lemma {:induction false} CutsAll(chunks: seq<seq<byte>>)
    requires forall i :: 0 <= i < |chunks| ==> 0 < |chunks[i]| <= 15 * 1024
    ensures Cut(Concat(chunks), Sizes(chunks)) == chunks
    decreases |chunks|
  {
    if chunks != [] {
      var bytes, sizes := Concat(chunks), Sizes(chunks);
      CutsAll(chunks[1..]);
      assert bytes == chunks[0] + Concat(chunks[1..]) && sizes[0] == |chunks[0]| && sizes[1..] == Sizes(chunks[1..]);
      assert bytes[..|chunks[0]|] == chunks[0] && bytes[|chunks[0]|..] == Concat(chunks[1..]);
      assert chunks == [chunks[0]] + chunks[1..];
    }
  }

  // ---------- what is read ----------

  /** What a reader makes of a session that ran to its Stop: it is back at the root, which has the
      start data and the frames by number, each with what the detectors wrote in it. */
  lemma SessionReads(env: Env, known: seq<byte> -> bool, platform: byte, infos: seq<DetectorInfo>, ds: seq<Detector>,
                     at: seq<nat>, extra: Script, m: int, n: nat, pooled: bool, chunks: seq<seq<byte>>)
    returns (read: seq<Item<Callback>>)
    requires |at| == |ds| && Behaved(ds, extra) && !EndsByItself(m, n)
    requires NoCollision(env.crc, known) && Sendable(env, known, SessionOps(platform, infos, ds, at, extra, m, n))
    requires Concat(chunks)
          == EmitAll(env.crc, SessionOps(platform, infos, ds, at, extra, m, n), if pooled then Some(map[]) else None)
    ensures var p := Feed(env, [], map[], chunks);
            && p.buffer == [] && WellNested(p.callbacks)
            && AcceptsAll([Tree(0, [], [])], p.callbacks)
            && TakeAll([Tree(0, [], [])], p.callbacks) == [RootOf(read)]
            && Same(env.crc, SessionItems(platform, infos, SessionFrames(ds, at, extra, n + 1)), read, p.pool)
            && IsSessionTree(RootOf(read), n + 1)
  {
    FramesBalance(ds, at, extra, n + 1);
    read := SessionRoundTrip(env, known, platform, infos, SessionFrames(ds, at, extra, n + 1), pooled, chunks);
  }

  /** A reader, with a string pool of its own, that gets the bytes behind the header in these pieces. */
  method ReadStream(env: Env, bytes: seq<byte>, sizes: seq<nat>)
    returns (callbacks: seq<Callback>, strings: DetectorStringPool.StringPool)
    requires bytes != []
    ensures fresh(strings) && strings.Valid()
    ensures var p := Feed(env, [], map[], Cut(bytes[1..], sizes));
            callbacks == p.callbacks && strings.Contents() == p.pool
  {
    strings := new DetectorStringPool.StringPool(env.crc);
    CutsOnly(bytes[1..], sizes);
    var stream := new InputStream(strings, Cut(bytes[1..], sizes));
    var sax := new SaxParser(env);
    sax.ProcessStream(stream);
    callbacks := sax.callbacks;
  }

  /** The DOM parser fed what a reader gets of such a session. */
  method ParseSession(callbacks: seq<Callback>, ghost root: Tree) returns (parser: DomParser)
    requires AcceptsAll([Tree(0, [], [])], callbacks) && TakeAll([Tree(0, [], [])], callbacks) == [root]
    ensures fresh(parser) && parser.Valid() && parser.CanParse() && parser.spine == [root]
  {
    parser := new DomParser();
    parser.Process(callbacks);
    parser.CanParseAtRoot();
  }

  predicate Unused(pool: Option<Pool>) {
    pool == None || pool == Some(map[])
  }

  /** The parser is back at the root, and the root is what was read for these items; strings are those
      of the reader's pool. */
  ghost predicate IsBack(parser: DomParser, strings: DetectorStringPool.StringPool, crc: seq<byte> -> u32,
                         items: seq<Item<Op>>, read: seq<Item<Callback>>)
    reads parser, parser.path, parser.closed, strings
  {
    && parser.Valid() && parser.CanParse() && parser.spine == [RootOf(read)]
    && Same(crc, items, read, strings.Contents())
  }

  /** The reader's half. */
  method ReadBack(env: Env, ghost known: seq<byte> -> bool, ghost items: seq<Item<Op>>, ghost pooled: bool,
                  bytes: seq<byte>, sizes: seq<nat>)
    returns (parser: DomParser, strings: DetectorStringPool.StringPool, ghost read: seq<Item<Callback>>)
    requires LeavesWrite(items) && NoCollision(env.crc, known) && Sendable(env, known, Ops(items))
    requires bytes != [] && bytes[1..] == EmitAll(env.crc, Ops(items), if pooled then Some(map[]) else None)
    ensures IsBack(parser, strings, env.crc, items, read)
  {
    var callbacks;
    callbacks, strings := ReadStream(env, bytes, sizes);
    CutsOnly(bytes[1..], sizes);
    read := TreeRoundTrip(env, known, items, pooled, Cut(bytes[1..], sizes));
    parser := ParseSession(callbacks, RootOf(read));
  }

  lemma IdleBehaved(ds: seq<Detector>, at: seq<nat>, extra: Script)
    requires Idle(ds, at) && AlwaysWrites(extra)
    ensures Behaved(ds, extra)
  {
    forall i | 0 <= i < |ds|
      ensures ds[i].Balanced()
    {
      assert IdleAt(ds, i, at);
    }
  }

  /** From Start to the tree: a session of a manager on a stream of its own, read in pieces of any
      sizes.  Unless FrameUpdate ends it, DetectorDOMParser is back at the root, and the root holds what
      the session wrote: the start data and the frames by number, with what each detector wrote in them. */
  method WriteAndRead(env: Env, ghost known: seq<byte> -> bool, platform: byte, registered: seq<Detector>,
                      output: OutputStream,
                      drillerList: seq<DetectorInfo>, numFrames: int, n: nat, extra: Script, ghost at: seq<nat>,
                      sizes: seq<nat>)
    returns (parser: DomParser?, strings: DetectorStringPool.StringPool?, ghost read: seq<Item<Callback>>)
    requires output.Valid() && output.crc == env.crc && output.data == [] && Unused(output.PoolContents())
    requires drillerList != [] && n < FRAME_LIMIT - 1
    requires UniqueIds(registered) && NamesOnce(registered, drillerList) && Describable(drillerList)
    requires Idle(Named(registered, drillerList), at) && AlwaysWrites(extra)
    requires NoCollision(env.crc, known)
    requires Sendable(env, known,
                      SessionOps(platform, drillerList, Named(registered, drillerList), at, extra, numFrames, n))
    modifies output, output.stringPool, Named(registered, drillerList)
    ensures parser == null <==> EndsByItself(numFrames, n)
    ensures parser != null ==>
              && strings != null && IsSessionTree(RootOf(read), n + 1)
              && IsBack(parser, strings, env.crc,
                        SessionItems(platform, drillerList,
                                     SessionFrames(Named(registered, drillerList), at, extra, n + 1)),
                        read)
  {
    ghost var pooled, ds := output.PoolContents().Some?, Named(registered, drillerList);
    IdleBehaved(ds, at, extra);
    var isEnded := RunSession(platform, registered, output, drillerList, numFrames, n, extra, at);
    if isEnded {
      return null, null, [];
    }
    ghost var frames := SessionFrames(ds, at, extra, n + 1);
    ghost var items := SessionItems(platform, drillerList, frames);
    FramesBalance(ds, at, extra, n + 1);
    SessionWrites(platform, drillerList, frames);
    parser, strings, read := ReadBack(env, known, items, pooled, output.data, sizes);
    SessionTree(env.crc, platform, drillerList, frames, read, strings.Contents());
  }
}
