/** One session: its stream from the header on, frame by frame. */
module DetectorSession {
  import opened Bytes
  import opened Seqs
  import opened DetectorOutputStream
  import opened DetectorTree
  import opened DetectorManager
  import opened DetectorReports
  import DetectorStreamFormat
  import DetectorStringPool

  // ---------- sessions ----------

  const FRAME_LIMIT := 0x8000_0000

  /** What a session has to show: its finished frames, what the open frame holds so far, and how often
      each detector has been called. */
  datatype Book = Book(frames: seq<seq<Item<Op>>>, reports: seq<Item<Op>>, at: seq<nat>)

  class Session {
    const platform: byte
    const numFrames: int
    const output: OutputStream
    var curFrame: nat
    var detectors: seq<Detector>

    ghost const infos: seq<DetectorInfo>
    ghost var book: Book

    ghost predicate Attached()
      reads this, output, output.stringPool, detectors`output, detectors`calls
    {
      && output.Valid() && NoRepeats(detectors) && Crew(detectors, output, book.at)
      && curFrame == |book.frames| <= FRAME_LIMIT
    }

    /** A frame is open. */
    ghost predicate Valid()
      reads this, output, output.stringPool, detectors`output, detectors`calls
    {
      Attached() && curFrame < FRAME_LIMIT && output.ops == OpenSession(platform, infos, book.frames, book.reports)
    }

    /** All frames are closed. */
    ghost predicate Between()
      reads this, output, output.stringPool, detectors`output, detectors`calls
    {
      Attached() && output.ops == Ops(SessionItems(platform, infos, book.frames))
    }

    constructor (platform: byte, ghost infos: seq<DetectorInfo>, numFrames: int, output: OutputStream)
      ensures this.platform == platform && this.infos == infos && this.numFrames == numFrames && this.output == output
      ensures curFrame == 0 && detectors == [] && book == Book([], [], [])
    {
      this.platform, this.infos, this.numFrames, this.output := platform, infos, numFrames, output;
      curFrame, detectors, book := 0, [], Book([], [], []);
    }

    /** The front of the stream: the header, the description of the detectors, and the first frame. */
    method Begin(drillerList: seq<DetectorInfo>)
      requires output.Valid() && drillerList == infos && Describable(infos)
      requires curFrame == 0 && detectors == [] && book == Book([], [], [])
      modifies this`book, output, output.stringPool
      ensures Valid() && book == old(book)
      ensures output.base == old(output.data) + [platform] && output.basePool == old(output.PoolContents())
    {
      output.WriteHeader(platform);
      WriteStartData(output, platform, drillerList);
      OpenFrame();
    }

    /** A frame begins: after the start data, and in FrameUpdate unless the session ends there. */
    method OpenFrame()
      requires Between() && curFrame < FRAME_LIMIT
      modifies this`book, output`data, output`ops
      ensures Valid() && book == old(book).(reports := [])
    {
      FrameOpens(platform, infos, book.frames);
      output.BeginTag(FRAME);
      output.WriteInt(FRAME_NUM, S32, curFrame);
      book := book.(reports := []);
    }

    /** A detector joins the session and gets its Start call. */
    method Join(detector: Detector)
      requires Valid() && detector.output == null && detector !in detectors && detector.Balanced()
      modifies this`detectors, this`book, output`data, output`ops, output.stringPool, detector
      ensures Valid() && detectors == old(detectors) + [detector]
      ensures book == Book(old(book).frames, old(book).reports + detector.Says(old(detector.calls)),
                           old(book).at + [old(detector.calls) + 1])
    {
      ghost var more := detector.Says(detector.calls);
      ReportAdds(platform, infos, book.frames, book.reports, more);
      detector.output := output;
      detector.Report();
      forall i | 0 <= i < |detectors|
        ensures MemberAt(detectors, i, output, book.at)
      {
        assert old(MemberAt(detectors, i, output, book.at)) && detectors[i] in detectors;
      }
      JoinsCrew(detectors, detector, output, book.at);
      detectors := detectors + [detector];
      book := Book(book.frames, book.reports + more, book.at + [detector.calls]);
    }

    /** A detector of the session writes on its own account, during a frame. */
    method Record(items: seq<Item<Op>>)
      requires Valid() && Writes(items)
      modifies this`book, output`data, output`ops, output.stringPool
      ensures Valid() && book == old(book).(reports := old(book).reports + items)
    {
      ReportAdds(platform, infos, book.frames, book.reports, items);
      WriteItems(output, items);
      book := book.(reports := book.reports + items);
    }

    /** The first half of the session's turn in FrameUpdate: the open frame is finished. */
    method CloseFrame()
      requires Valid()
      modifies this`book, this`curFrame, output`data, output`ops, output.stringPool, detectors`calls
      ensures Between() && book == NextBook(old(book), detectors) && curFrame == old(curFrame) + 1
    {
      ghost var next := NextBook(book, detectors);
      TurnCloses(platform, infos, book, detectors);
      CallAndClose(detectors, output, book.at);
      curFrame, book := curFrame + 1, next;
    }

    /** The end of a session in Stop: the detectors have their last call and are let go, and a frame
        is closed, whether or not one is open. */
    method Finish()
      requires Attached()
      modifies output`data, output`ops, output.stringPool, detectors`calls, detectors`output
      ensures output.Valid() && Released(detectors, book.at)
      ensures output.ops == old(output.ops) + Ops(Reports(detectors, book.at)) + [EndTag(FRAME)]
    {
      ReleaseEach(detectors, output, book.at);
      output.EndTag(FRAME);
    }
  }

  /** The detectors' calls finish the open frame. */
  function NextBook(b: Book, detectors: seq<Detector>): Book
    requires |b.at| == |detectors|
  {
    Book(b.frames + [b.reports + Reports(detectors, b.at)], [], Plus(b.at, 1))
  }

  lemma FrameOpens(platform: u32, infos: seq<DetectorInfo>, frames: seq<seq<Item<Op>>>)
    ensures Ops(SessionItems(platform, infos, frames)) + [BeginTag(FRAME)] + [WriteInt(FRAME_NUM, S32, |frames|)]
         == OpenSession(platform, infos, frames, [])
  {
    var closed := Ops(SessionItems(platform, infos, frames));
    assert closed + [BeginTag(FRAME)] + [WriteInt(FRAME_NUM, S32, |frames|)]
        == closed + [BeginTag(FRAME), WriteInt(FRAME_NUM, S32, |frames|)] + Ops([]);
  }

  lemma JoinsCrew(detectors: seq<Detector>, detector: Detector, output: OutputStream, at: seq<nat>)
    requires NoRepeats(detectors) && Crew(detectors, output, at)
    requires detector !in detectors && detector.output == output && detector.Balanced()
    ensures NoRepeats(detectors + [detector]) && Crew(detectors + [detector], output, at + [detector.calls])
  {
    var more := detectors + [detector];
    NoRepeatsAppend(detectors, [detector]);
    forall i | 0 <= i < |more|
      ensures MemberAt(more, i, output, at + [detector.calls])
    {
      assert i < |detectors| ==> MemberAt(detectors, i, output, at);
    }
  }

  lemma TurnCloses(platform: u32, infos: seq<DetectorInfo>, b: Book, detectors: seq<Detector>)
    requires |b.at| == |detectors|
    ensures var next := NextBook(b, detectors);
            && OpenSession(platform, infos, b.frames, b.reports) + Ops(Reports(detectors, b.at)) + [EndTag(FRAME)]
                 == Ops(SessionItems(platform, infos, next.frames))
            && next.at == Plus(b.at, 1) && |next.frames| == |b.frames| + 1
  {
    ReportAdds(platform, infos, b.frames, b.reports, Reports(detectors, b.at));
    FrameCloses(platform, infos, b.frames, b.reports + Reports(detectors, b.at));
  }

  // ---------- the writes of Start ----------

  /** Descriptions are shorter than the limit the writer asserts. */
  predicate Describable(infos: seq<DetectorInfo>) {
    forall i :: 0 <= i < |infos| ==> ParamsFit(infos[i].params)
  }

  predicate ParamsFit(params: seq<Param>) {
    forall i :: 0 <= i < |params| ==> |params[i].desc| < DetectorStreamFormat.VALUE_LIMIT
  }

  method WriteParam(output: OutputStream, p: Param)
    requires output.Valid() && |p.desc| < DetectorStreamFormat.VALUE_LIMIT
    modifies output`data, output`ops, output.stringPool
    ensures output.Valid() && output.ops == old(output.ops) + FlattenOne(ParamItem(p), TagOp())
  {
    ghost var before := output.ops;
    output.BeginTag(PARAM);
    output.WriteInt(NAME, U32, p.name);
    var desc := new DetectorStringPool.CString(p.desc);
    output.WriteString(DESCRIPTION, desc, true);
    output.WriteInt(TYPE, S32, p.paramType);
    output.WriteInt(VALUE, S32, p.value);
    output.EndTag(PARAM);
    ParamOps(p);
    SixMore(before, BeginTag(PARAM), WriteInt(NAME, U32, p.name), WriteString(DESCRIPTION, p.desc),
            WriteInt(TYPE, S32, p.paramType), WriteInt(VALUE, S32, p.value), EndTag(PARAM));
  }

  lemma SixMore(s: seq<Op>, a: Op, b: Op, c: Op, d: Op, e: Op, f: Op)
    ensures s + [a] + [b] + [c] + [d] + [e] + [f] == s + [a, b, c, d, e, f]
  {
  }

  /** The part of Start that describes one detector and its parameters. */
  method WriteInfo(output: OutputStream, di: DetectorInfo)
    requires output.Valid() && ParamsFit(di.params)
    modifies output`data, output`ops, output.stringPool
    ensures output.Valid() && output.ops == old(output.ops) + FlattenOne(InfoItem(di), TagOp())
  {
    ghost var before := output.ops;
    output.BeginTag(DETECTOR);
    output.WriteInt(NAME, U32, di.id);
    WriteParams(output, di.params);
    output.EndTag(DETECTOR);
    InfoOps(di);
    InParts(before, BeginTag(DETECTOR), WriteInt(NAME, U32, di.id), Ops(ParamItems(di.params)), EndTag(DETECTOR));
  }

  lemma InParts(s: seq<Op>, a: Op, b: Op, inner: seq<Op>, c: Op)
    ensures s + [a] + [b] + inner + [c] == s + ([a, b] + inner + [c])
  {
  }

  method WriteParams(output: OutputStream, params: seq<Param>)
    requires output.Valid() && ParamsFit(params)
    modifies output`data, output`ops, output.stringPool
    ensures output.Valid() && output.ops == old(output.ops) + Ops(ParamItems(params))
  {
    ghost var before := output.ops;
    var i := 0;
    while i < |params|
      invariant 0 <= i <= |params| && output.Valid()
      invariant output.ops == before + Ops(ParamItems(params[..i]))
    {
      ghost var so, item := ParamItems(params[..i]), ParamItem(params[i]);
      WriteParam(output, params[i]);
      ParamItemsSnoc(params, i);
      FlattenAppend(so, [item], TagOp());
      FlattenSingle(item, TagOp());
      Assoc(before, Ops(so), FlattenOne(item, TagOp()));
      i := i + 1;
    }
    assert params[..i] == params;
  }

  /** The StartData tag. */
  method WriteStartData(output: OutputStream, platform: byte, drillerList: seq<DetectorInfo>)
    requires output.Valid() && output.ops == [] && Describable(drillerList)
    modifies output`data, output`ops, output.stringPool
    ensures output.Valid() && output.ops == Ops(SessionItems(platform, drillerList, []))
  {
    output.BeginTag(START_DATA);
    output.WriteInt(PLATFORM, U32, platform);
    assert output.ops == [BeginTag(START_DATA), WriteInt(PLATFORM, U32, platform)];
    WriteInfos(output, drillerList);
    output.EndTag(START_DATA);
    StartOps(platform, drillerList);
  }

  method WriteInfos(output: OutputStream, drillerList: seq<DetectorInfo>)
    requires output.Valid() && Describable(drillerList)
    modifies output`data, output`ops, output.stringPool
    ensures output.Valid() && output.ops == old(output.ops) + Ops(InfoItems(drillerList))
  {
    ghost var before := output.ops;
    var i := 0;
    while i < |drillerList|
      invariant 0 <= i <= |drillerList| && output.Valid()
      invariant output.ops == before + Ops(InfoItems(drillerList[..i]))
    {
      ghost var so, item := InfoItems(drillerList[..i]), InfoItem(drillerList[i]);
      WriteInfo(output, drillerList[i]);
      InfoItemsSnoc(drillerList, i);
      FlattenAppend(so, [item], TagOp());
      FlattenSingle(item, TagOp());
      Assoc(before, Ops(so), FlattenOne(item, TagOp()));
      i := i + 1;
    }
    assert drillerList[..i] == drillerList;
  }

  lemma ParamOps(p: Param)
    ensures FlattenOne(ParamItem(p), TagOp())
         == [BeginTag(PARAM), WriteInt(NAME, U32, p.name), WriteString(DESCRIPTION, p.desc),
             WriteInt(TYPE, S32, p.paramType), WriteInt(VALUE, S32, p.value), EndTag(PARAM)]
  {
    var a, b: Item<Op>, c: Item<Op>, d: Item<Op> :=
      Leaf(WriteInt(NAME, U32, p.name)), Leaf(WriteString(DESCRIPTION, p.desc)),
      Leaf(WriteInt(TYPE, S32, p.paramType)), Leaf(WriteInt(VALUE, S32, p.value));
    FlattenAppend([a, b], [c, d], TagOp());
    FlattenAppend([a], [b], TagOp());
    FlattenAppend([c], [d], TagOp());
    FlattenSingle(a, TagOp());
    FlattenSingle(b, TagOp());
    FlattenSingle(c, TagOp());
    FlattenSingle(d, TagOp());
    assert [a, b, c, d] == [a, b] + [c, d] && [a, b] == [a] + [b] && [c, d] == [c] + [d];
    assert ParamItem(p).items == [a, b, c, d];
  }

  lemma InfoOps(di: DetectorInfo)
    ensures FlattenOne(InfoItem(di), TagOp())
         == [BeginTag(DETECTOR), WriteInt(NAME, U32, di.id)] + Ops(ParamItems(di.params)) + [EndTag(DETECTOR)]
  {
    HeadedBranch(DETECTOR, WriteInt(NAME, U32, di.id), ParamItems(di.params));
  }

  lemma StartOps(platform: u32, infos: seq<DetectorInfo>)
    ensures Ops(SessionItems(platform, infos, []))
         == [BeginTag(START_DATA), WriteInt(PLATFORM, U32, platform)] + Ops(InfoItems(infos)) + [EndTag(START_DATA)]
  {
    HeadedBranch(START_DATA, WriteInt(PLATFORM, U32, platform), InfoItems(infos));
    assert SessionItems(platform, infos, []) == [StartItem(platform, infos)];
    FlattenSingle(StartItem(platform, infos), TagOp());
  }

  lemma HeadedBranch(name: u32, op: Op, items: seq<Item<Op>>)
    ensures FlattenOne(Branch(name, [Leaf(op)] + items), TagOp())
         == [BeginTag(name), op] + Ops(items) + [EndTag(name)]
  {
    FlattenAppend([Leaf(op)], items, TagOp());
    FlattenSingle(Leaf(op), TagOp());
    assert [BeginTag(name)] + ([op] + Ops(items)) == [BeginTag(name), op] + Ops(items);
  }

  lemma {:induction false} ParamItemsSnoc(params: seq<Param>, i: nat)
    requires i < |params|
    ensures ParamItems(params[..i + 1]) == ParamItems(params[..i]) + [ParamItem(params[i])]
    decreases i
  {
    if i > 0 {
      ParamItemsSnoc(params[1..], i - 1);
      assert params[..i + 1][1..] == params[1..][..i] && params[..i][1..] == params[1..][..i - 1];
    }
  }

  lemma {:induction false} InfoItemsSnoc(infos: seq<DetectorInfo>, i: nat)
    requires i < |infos|
    ensures InfoItems(infos[..i + 1]) == InfoItems(infos[..i]) + [InfoItem(infos[i])]
    decreases i
  {
    if i > 0 {
      InfoItemsSnoc(infos[1..], i - 1);
      assert infos[..i + 1][1..] == infos[1..][..i] && infos[..i][1..] == infos[1..][..i - 1];
    }
  }
}
