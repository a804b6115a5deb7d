/** From a session to the reader's tree: writer, chunked parser and DOM parser together. */
module DetectorSessionStream {
  import opened Bytes
  import opened Wrappers
  import opened DetectorStreamFormat
  import opened DetectorChunking
  import opened DetectorOutputStream
  import opened DetectorRoundTrip
  import opened DetectorTree
  import opened DetectorDomParser
  import opened DetectorManager

  /** The items read are the items written: the same tags, and leaves that mean the writes. */
  ghost predicate Same(crc: seq<byte> -> u32, written: seq<Item<Op>>, read: seq<Item<Callback>>, q: Pool)
    decreases written, 0
  {
    |read| == |written| && forall i :: 0 <= i < |written| ==> SameOne(crc, written[i], read[i], q)
  }

  ghost predicate SameOne(crc: seq<byte> -> u32, written: Item<Op>, read: Item<Callback>, q: Pool)
    decreases written, 1
  {
    match written
    case Leaf(op) => read.Leaf? && read.value.Data? && Means(crc, op, read.value, q)
    case Branch(name, items) => read.Branch? && read.name == name && Same(crc, items, read.items, q)
  }

  lemma MeansSplit(crc: seq<byte> -> u32, a: seq<Op>, b: seq<Op>, callbacks: seq<Callback>, q: Pool)
    requires AllMean(crc, a + b, callbacks, q)
    ensures AllMean(crc, a, callbacks[..|a|], q) && AllMean(crc, b, callbacks[|a|..], q)
  {
    forall i | 0 <= i < |a|
      ensures Means(crc, a[i], callbacks[..|a|][i], q)
    {
      assert Means(crc, (a + b)[i], callbacks[i], q);
    }
    forall i | 0 <= i < |b|
      ensures Means(crc, b[i], callbacks[|a|..][i], q)
    {
      assert Means(crc, (a + b)[|a| + i], callbacks[|a| + i], q);
    }
  }

  /** Callbacks that mean the writes of some items are the sending of the same items. */
  lemma {:induction false} ReadItems(crc: seq<byte> -> u32, written: seq<Item<Op>>, callbacks: seq<Callback>, q: Pool)
    returns (read: seq<Item<Callback>>)
    requires LeavesWrite(written) && AllMean(crc, Ops(written), callbacks, q)
    ensures DataLeaves(read) && Callbacks(read) == callbacks && Same(crc, written, read, q)
    decreases written, 0
  {
    if written == [] {
      read := [];
    } else {
      var first := FlattenOne(written[0], TagOp());
      MeansSplit(crc, first, Ops(written[1..]), callbacks, q);
      var item := ReadItem(crc, written[0], callbacks[..|first|], q);
      var rest := ReadItems(crc, written[1..], callbacks[|first|..], q);
      read := [item] + rest;
      assert read[1..] == rest;
      SameCons(crc, written, item, rest, q);
      assert callbacks[..|first|] + callbacks[|first|..] == callbacks;
    }
  }

  lemma SameCons(crc: seq<byte> -> u32, written: seq<Item<Op>>, item: Item<Callback>, rest: seq<Item<Callback>>,
                 q: Pool)
    requires written != [] && SameOne(crc, written[0], item, q) && Same(crc, written[1..], rest, q)
    ensures Same(crc, written, [item] + rest, q)
  {
    forall i | 0 <= i < |written|
      ensures SameOne(crc, written[i], ([item] + rest)[i], q)
    {
      if i > 0 {
        assert SameOne(crc, written[1..][i - 1], rest[i - 1], q);
      }
    }
  }

  lemma {:induction false} ReadItem(crc: seq<byte> -> u32, written: Item<Op>, callbacks: seq<Callback>, q: Pool)
    returns (read: Item<Callback>)
    requires LeafWrites(written) && AllMean(crc, FlattenOne(written, TagOp()), callbacks, q)
    ensures DataLeaf(read) && FlattenOne(read, TagCallback()) == callbacks && SameOne(crc, written, read, q)
    decreases written, 1
  {
    match written
    case Leaf(op) =>
      assert Means(crc, [op][0], callbacks[0], q);
      read := Leaf(callbacks[0]);
      assert callbacks == [callbacks[0]];
    case Branch(name, items) =>
      var inner := Ops(items);
      MeansSplit(crc, [BeginTag(name)] + inner, [EndTag(name)], callbacks, q);
      MeansSplit(crc, [BeginTag(name)], inner, callbacks[..1 + |inner|], q);
      var body := callbacks[..1 + |inner|][1..];
      var readItems := ReadItems(crc, items, body, q);
      read := Branch(name, readItems);
      assert Means(crc, [BeginTag(name)][0], callbacks[0], q);
      assert Means(crc, [EndTag(name)][0], callbacks[1 + |inner|], q);
      assert callbacks == [callbacks[0]] + body + [callbacks[1 + |inner|]];
  }

  // ---------- the frames of a session ----------

  lemma {:induction false} FrameItemAt(frames: seq<seq<Item<Op>>>, k: nat)
    requires k < |frames|
    ensures |FrameItems(frames)| == |frames| && FrameItems(frames)[k] == FrameItem(k, frames[k])
    decreases |frames|
  {
    var last := |frames| - 1;
    if last > 0 {
      FrameItemAt(frames[..last], if k < last then k else 0);
    }
  }

  lemma {:induction false} AllBranches(read: seq<Item<Callback>>)
    requires forall i :: 0 <= i < |read| ==> read[i].Branch?
    ensures DataOf(read) == [] && |TagsOf(read)| == |read|
    ensures forall i :: 0 <= i < |read| ==> TagsOf(read)[i] == TreeOf(read[i])
    decreases |read|
  {
    if read != [] {
      AllBranches(read[1..]);
      assert TagsOf(read) == [TreeOf(read[0])] + TagsOf(read[1..]);
      forall i | 0 <= i < |read|
        ensures TagsOf(read)[i] == TreeOf(read[i])
      {
        assert i > 0 ==> read[i] == read[1..][i - 1];
      }
    }
  }

  /** A frame read back carries its number as its first data. */
  lemma FrameReadsItsNumber(crc: seq<byte> -> u32, k: nat, reports: seq<Item<Op>>, read: Item<Callback>, q: Pool)
    requires SameOne(crc, FrameItem(k, reports), read, q)
    ensures read.Branch? && TreeOf(read).name == FRAME
    ensures TreeOf(read).data != [] && TreeOf(read).data[0].name == FRAME_NUM
    ensures ReadInt(TreeOf(read).data[0], S32) == Some(k)
  {
    var items: seq<Item<Op>> := [Leaf(WriteInt(FRAME_NUM, S32, k))] + reports;
    assert Same(crc, items, read.items, q);
    assert SameOne(crc, items[0], read.items[0], q);
    var num := read.items[0].value;
    assert Means(crc, WriteInt(FRAME_NUM, S32, k), num, q);
    assert DataOf(read.items) == [num] + DataOf(read.items[1..]);
    assert Widens(S32, S32);
  }

  /** What the DOM parser's root holds after a session: the start data, then the frames by number. */
  ghost predicate IsSessionTree(root: Tree, frames: nat) {
    && root.data == [] && |root.tags| == frames + 1
    && root.tags[0].name == START_DATA
    && forall i :: 1 <= i < |root.tags| ==> IsFrameTree(root.tags[i], i - 1)
  }

  ghost predicate IsFrameTree(t: Tree, k: nat) {
    && t.name == FRAME && t.data != [] && t.data[0].name == FRAME_NUM
    && ReadInt(t.data[0], S32) == Some(k)
  }

  lemma SessionTree(crc: seq<byte> -> u32, platform: u32, infos: seq<DetectorInfo>, frames: seq<seq<Item<Op>>>,
                    read: seq<Item<Callback>>, q: Pool)
    requires Same(crc, SessionItems(platform, infos, frames), read, q)
    ensures IsSessionTree(Tree(0, DataOf(read), TagsOf(read)), |frames|)
  {
    var items := SessionItems(platform, infos, frames);
    assert |items| == |frames| + 1 by {
      if frames != [] {
        FrameItemAt(frames, 0);
      }
    }
    assert SameOne(crc, items[0], read[0], q);
    forall i | 1 <= i < |read|
      ensures read[i].Branch? && IsFrameTree(TreeOf(read[i]), i - 1)
    {
      SessionFrame(crc, platform, infos, frames, read, q, i);
    }
    AllBranches(read);
  }

  lemma SessionFrame(crc: seq<byte> -> u32, platform: u32, infos: seq<DetectorInfo>, frames: seq<seq<Item<Op>>>,
                     read: seq<Item<Callback>>, q: Pool, i: nat)
    requires Same(crc, SessionItems(platform, infos, frames), read, q)
    requires 1 <= i <= |frames| && |read| == |frames| + 1
    ensures read[i].Branch? && IsFrameTree(TreeOf(read[i]), i - 1)
  {
    FrameItemAt(frames, i - 1);
    assert SameOne(crc, SessionItems(platform, infos, frames)[i], read[i], q);
    FrameReadsItsNumber(crc, i - 1, frames[i - 1], read[i], q);
  }

  /** A tree written, cut anyhow and parsed is the tree again: the reader's root has the same tags in
      the same places, and at its leaves what was written. */
  lemma TreeRoundTrip(env: Env, known: seq<byte> -> bool, items: seq<Item<Op>>, pooled: bool, chunks: seq<seq<byte>>)
    returns (read: seq<Item<Callback>>)
    requires LeavesWrite(items) && NoCollision(env.crc, known) && Sendable(env, known, Ops(items))
    requires Concat(chunks) == EmitAll(env.crc, Ops(items), if pooled then Some(map[]) else None)
    ensures var p, root := Feed(env, [], map[], chunks), Tree(0, DataOf(read), TagsOf(read));
            && Same(env.crc, items, read, p.pool)
            && p.buffer == [] && WellNested(p.callbacks)
            && AcceptsAll([Tree(0, [], [])], p.callbacks)
            && TakeAll([Tree(0, [], [])], p.callbacks) == [root]
  {
    ChunkedRoundTrip(env, known, Ops(items), pooled, chunks);
    var p := Feed(env, [], map[], chunks);
    read := ReadItems(env.crc, items, p.callbacks, p.pool);
    ItemsNest(read, []);
    TakesItems([Tree(0, [], [])], read);
    assert [] + DataOf(read) == DataOf(read) && [] + TagsOf(read) == TagsOf(read);
  }

  function RootOf(read: seq<Item<Callback>>): Tree {
    Tree(0, DataOf(read), TagsOf(read))
  }

  /** The stream of a session, however cut, brings the parser back to the root with the session's
      tree: the start data and the frames numbered from 0, in order, each with what was written in it. */
  lemma SessionRoundTrip(env: Env, known: seq<byte> -> bool, platform: u32, infos: seq<DetectorInfo>,
                         frames: seq<seq<Item<Op>>>, pooled: bool, chunks: seq<seq<byte>>)
    returns (read: seq<Item<Callback>>)
    requires forall i :: 0 <= i < |frames| ==> LeavesWrite(frames[i])
    requires NoCollision(env.crc, known) && Sendable(env, known, Ops(SessionItems(platform, infos, frames)))
    requires Concat(chunks)
          == EmitAll(env.crc, Ops(SessionItems(platform, infos, frames)), if pooled then Some(map[]) else None)
    ensures var p := Feed(env, [], map[], chunks);
            && p.buffer == [] && WellNested(p.callbacks)
            && AcceptsAll([Tree(0, [], [])], p.callbacks)
            && TakeAll([Tree(0, [], [])], p.callbacks) == [RootOf(read)]
            && Same(env.crc, SessionItems(platform, infos, frames), read, p.pool)
            && IsSessionTree(RootOf(read), |frames|)
  {
    SessionWrites(platform, infos, frames);
    read := TreeRoundTrip(env, known, SessionItems(platform, infos, frames), pooled, chunks);
    SessionTree(env.crc, platform, infos, frames, read, Feed(env, [], map[], chunks).pool);
  }
}
