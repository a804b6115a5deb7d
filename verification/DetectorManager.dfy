/** DetectorManagerImpl: sessions that write what registered detectors report, frame by frame. */
module DetectorManager {
  import opened Bytes
  import opened Seqs
  import opened DetectorOutputStream
  import opened DetectorTree

  const START_DATA: u32 := 0xecf3f53f
  const PLATFORM: u32 := 0x3952d0cb
  const DETECTOR: u32 := 0xa6e1fb73
  const NAME: u32 := 0x5e237e06
  const PARAM: u32 := 0xa4fa7c89
  const DESCRIPTION: u32 := 0x6de44026
  const TYPE: u32 := 0x8cde5729
  const VALUE: u32 := 0x1d775834
  const FRAME: u32 := 0xb5f83ccd
  const FRAME_NUM: u32 := 0x85a1a919

  const U32 := IntType(4, false)
  const S32 := IntType(4, true)

  datatype Param = Param(desc: seq<byte>, name: u32, paramType: s32, value: s32)
  datatype DetectorInfo = DetectorInfo(id: u32, params: seq<Param>)

  function TagOp(): (u32, bool) -> Op {
    (name: u32, isOpen: bool) => if isOpen then BeginTag(name) else EndTag(name)
  }

  /** The writes that send some items. */
  function Ops(items: seq<Item<Op>>): seq<Op> {
    Flatten(items, TagOp())
  }

  // ---------- what a session sends ----------

  function ParamItem(p: Param): Item<Op> {
    Branch(PARAM, [Leaf(WriteInt(NAME, U32, p.name)), Leaf(WriteString(DESCRIPTION, p.desc)),
                   Leaf(WriteInt(TYPE, S32, p.paramType)), Leaf(WriteInt(VALUE, S32, p.value))])
  }

  function ParamItems(params: seq<Param>): seq<Item<Op>> {
    if params == [] then [] else [ParamItem(params[0])] + ParamItems(params[1..])
  }

  function InfoItem(di: DetectorInfo): Item<Op> {
    Branch(DETECTOR, [Leaf(WriteInt(NAME, U32, di.id))] + ParamItems(di.params))
  }

  function InfoItems(infos: seq<DetectorInfo>): seq<Item<Op>> {
    if infos == [] then [] else [InfoItem(infos[0])] + InfoItems(infos[1..])
  }

  function StartItem(platform: u32, infos: seq<DetectorInfo>): Item<Op> {
    Branch(START_DATA, [Leaf(WriteInt(PLATFORM, U32, platform))] + InfoItems(infos))
  }

  /** Frame number n with what the detectors wrote during it. */
  function FrameItem(n: nat, reports: seq<Item<Op>>): Item<Op> {
    Branch(FRAME, [Leaf(WriteInt(FRAME_NUM, S32, n))] + reports)
  }

  function FrameItems(frames: seq<seq<Item<Op>>>): seq<Item<Op>>
    decreases |frames|
  {
    if frames == [] then [] else FrameItems(frames[..|frames| - 1]) + [FrameItem(|frames| - 1, frames[|frames| - 1])]
  }

  function SessionItems(platform: u32, infos: seq<DetectorInfo>, frames: seq<seq<Item<Op>>>): seq<Item<Op>> {
    [StartItem(platform, infos)] + FrameItems(frames)
  }

  /** What has been written while frame |frames| is open and `reports` is what it holds so far. */
  function OpenSession(platform: u32, infos: seq<DetectorInfo>, frames: seq<seq<Item<Op>>>,
                       reports: seq<Item<Op>>): seq<Op> {
    Ops(SessionItems(platform, infos, frames)) + [BeginTag(FRAME), WriteInt(FRAME_NUM, S32, |frames|)] + Ops(reports)
  }

  lemma FrameOps(n: nat, reports: seq<Item<Op>>)
    ensures FlattenOne(FrameItem(n, reports), TagOp())
         == [BeginTag(FRAME), WriteInt(FRAME_NUM, S32, n)] + Ops(reports) + [EndTag(FRAME)]
  {
    var num: Item<Op> := Leaf(WriteInt(FRAME_NUM, S32, n));
    FlattenAppend([num], reports, TagOp());
    FlattenSingle(num, TagOp());
    assert FlattenOne(num, TagOp()) == [WriteInt(FRAME_NUM, S32, n)];
    assert FlattenOne(FrameItem(n, reports), TagOp())
        == [BeginTag(FRAME)] + ([WriteInt(FRAME_NUM, S32, n)] + Ops(reports)) + [EndTag(FRAME)];
  }

  /** Closing the open frame completes one more frame. */
  lemma FrameCloses(platform: u32, infos: seq<DetectorInfo>, frames: seq<seq<Item<Op>>>, reports: seq<Item<Op>>)
    ensures OpenSession(platform, infos, frames, reports) + [EndTag(FRAME)]
         == Ops(SessionItems(platform, infos, frames + [reports]))
  {
    var more, frame := frames + [reports], FrameItem(|frames|, reports);
    assert more[..|more| - 1] == frames;
    var items := SessionItems(platform, infos, frames);
    Assoc([StartItem(platform, infos)], FrameItems(frames), [frame]);
    assert SessionItems(platform, infos, more) == items + [frame];
    FlattenAppend(items, [frame], TagOp());
    FlattenSingle(frame, TagOp());
    FrameOps(|frames|, reports);
    var begin := [BeginTag(FRAME), WriteInt(FRAME_NUM, S32, |frames|)];
    Assoc(Ops(items), begin, Ops(reports));
    Assoc(Ops(items), begin + Ops(reports), [EndTag(FRAME)]);
  }

  lemma ReportAdds(platform: u32, infos: seq<DetectorInfo>, frames: seq<seq<Item<Op>>>,
                   reports: seq<Item<Op>>, more: seq<Item<Op>>)
    ensures OpenSession(platform, infos, frames, reports) + Ops(more)
         == OpenSession(platform, infos, frames, reports + more)
  {
    FlattenAppend(reports, more, TagOp());
    Assoc(Ops(SessionItems(platform, infos, frames)) + [BeginTag(FRAME), WriteInt(FRAME_NUM, S32, |frames|)],
          Ops(reports), Ops(more));
  }

  // ---------- balance ----------

  predicate LeafWrites(item: Item<Op>) {
    match item
    case Leaf(op) => !op.BeginTag? && !op.EndTag?
    case Branch(_, items) => forall i :: 0 <= i < |items| ==> LeafWrites(items[i])
  }

  predicate LeavesWrite(items: seq<Item<Op>>) {
    forall i :: 0 <= i < |items| ==> LeafWrites(items[i])
  }

  function Weight(op: Op): int {
    if op.BeginTag? then 1 else if op.EndTag? then -1 else 0
  }

  /** Tags opened less tags closed. */
  function Balance(ops: seq<Op>): int
    decreases |ops|
  {
    if ops == [] then 0 else Weight(ops[0]) + Balance(ops[1..])
  }

  lemma {:induction false} BalanceAppend(a: seq<Op>, b: seq<Op>)
    ensures Balance(a + b) == Balance(a) + Balance(b)
    decreases |a|
  {
    if a == [] {
      assert a + b == b;
    } else {
      ConsAppend(a, b);
      BalanceAppend(a[1..], b);
    }
  }

  lemma {:induction false} ItemsBalance(items: seq<Item<Op>>)
    requires LeavesWrite(items)
    ensures Balance(Ops(items)) == 0
    decreases items, 0
  {
    if items != [] {
      ItemBalances(items[0]);
      ItemsBalance(items[1..]);
      BalanceAppend(FlattenOne(items[0], TagOp()), Ops(items[1..]));
    }
  }

  lemma {:induction false} ItemBalances(item: Item<Op>)
    requires LeafWrites(item)
    ensures Balance(FlattenOne(item, TagOp())) == 0
    decreases item, 1
  {
    match item
    case Leaf(op) =>
      assert [op][1..] == [];
    case Branch(name, items) =>
      ItemsBalance(items);
      var open, close := [BeginTag(name)], [EndTag(name)];
      assert open[1..] == [] && close[1..] == [];
      BalanceAppend(open + Ops(items), close);
      BalanceAppend(open, Ops(items));
  }

  lemma {:induction false} InfosWrite(infos: seq<DetectorInfo>)
    ensures LeavesWrite(InfoItems(infos))
    decreases |infos|
  {
    if infos != [] {
      InfosWrite(infos[1..]);
      ParamsWrite(infos[0].params);
    }
  }

  lemma {:induction false} ParamsWrite(params: seq<Param>)
    ensures LeavesWrite(ParamItems(params))
    decreases |params|
  {
    if params != [] {
      ParamsWrite(params[1..]);
      assert LeafWrites(ParamItem(params[0]));
    }
  }

  lemma {:induction false} FramesWrite(frames: seq<seq<Item<Op>>>)
    requires forall i :: 0 <= i < |frames| ==> LeavesWrite(frames[i])
    ensures LeavesWrite(FrameItems(frames))
    decreases |frames|
  {
    if frames != [] {
      var last := |frames| - 1;
      FramesWrite(frames[..last]);
      assert LeavesWrite(frames[last]);
      assert LeafWrites(FrameItem(last, frames[last]));
    }
  }

  lemma SessionWrites(platform: u32, infos: seq<DetectorInfo>, frames: seq<seq<Item<Op>>>)
    requires forall i :: 0 <= i < |frames| ==> LeavesWrite(frames[i])
    ensures LeavesWrite(SessionItems(platform, infos, frames))
  {
    InfosWrite(infos);
    FramesWrite(frames);
    assert LeafWrites(StartItem(platform, infos));
  }

  // ---------- sessions that end by themselves ----------

  /** What has been written when FrameUpdate has closed the last of `frames`, has found that numFrames
      is reached and has called Stop: the detectors' last reports, and the frame closed once more. */
  function StoppedByItself(platform: u32, infos: seq<DetectorInfo>, frames: seq<seq<Item<Op>>>,
                           reports: seq<Item<Op>>): seq<Op> {
    Ops(SessionItems(platform, infos, frames)) + Ops(reports) + [EndTag(FRAME)]
  }

  ghost predicate IsSending(ops: seq<Op>) {
    exists items :: LeavesWrite(items) && ops == Ops(items)
  }

  /** Such a stream closes a tag too many, so it is the sending of no tree. */
  lemma StoppedIsUnbalanced(platform: u32, infos: seq<DetectorInfo>, frames: seq<seq<Item<Op>>>, reports: seq<Item<Op>>)
    requires LeavesWrite(reports) && forall i :: 0 <= i < |frames| ==> LeavesWrite(frames[i])
    ensures Balance(StoppedByItself(platform, infos, frames, reports)) == -1
    ensures !IsSending(StoppedByItself(platform, infos, frames, reports))
  {
    SessionWrites(platform, infos, frames);
    ItemsBalance(SessionItems(platform, infos, frames));
    ItemsBalance(reports);
    var closed := Ops(SessionItems(platform, infos, frames)) + Ops(reports);
    BalanceAppend(Ops(SessionItems(platform, infos, frames)), Ops(reports));
    BalanceAppend(closed, [EndTag(FRAME)]);
    assert [EndTag(FRAME)][1..] == [];
    forall items | LeavesWrite(items)
      ensures Ops(items) != StoppedByItself(platform, infos, frames, reports)
    {
      ItemsBalance(items);
    }
  }
}
