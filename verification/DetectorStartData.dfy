/** The start data of a session write by write, with the names it uses on the stream. */
module DetectorStartData {
  import opened Bytes
  import opened DetectorOutputStream
  import opened DetectorTree
  import opened DetectorManager

  function Joined<T>(parts: seq<seq<T>>): seq<T> {
    if parts == [] then [] else parts[0] + Joined(parts[1..])
  }

  /** A parameter of a detector. */
  function ParamWrites(p: Param): seq<Op> {
    [BeginTag(0xa4fa7c89),
     WriteInt(0x5e237e06, IntType(4, false), p.name),
     WriteString(0x6de44026, p.desc),
     WriteInt(0x8cde5729, IntType(4, true), p.paramType),
     WriteInt(0x1d775834, IntType(4, true), p.value),
     EndTag(0xa4fa7c89)]
  }

  function EachParam(params: seq<Param>): (r: seq<seq<Op>>)
    ensures |r| == |params| && forall i :: 0 <= i < |r| ==> r[i] == ParamWrites(params[i])
  {
    seq(|params|, i requires 0 <= i < |params| => ParamWrites(params[i]))
  }

  function EachDetector(infos: seq<DetectorInfo>): (r: seq<seq<Op>>)
    ensures |r| == |infos| && forall i :: 0 <= i < |r| ==> r[i] == DetectorWrites(infos[i])
  {
    seq(|infos|, i requires 0 <= i < |infos| => DetectorWrites(infos[i]))
  }

  /** A detector of the list, with its parameters in order. */
  function DetectorWrites(di: DetectorInfo): seq<Op> {
    [BeginTag(0xa6e1fb73), WriteInt(0x5e237e06, IntType(4, false), di.id)]
    + Joined(EachParam(di.params))
    + [EndTag(0xa6e1fb73)]
  }

  lemma ParamOps(p: Param)
    ensures FlattenOne(ParamItem(p), TagOp()) == ParamWrites(p)
  {
    var a: Item<Op> := Leaf(WriteInt(NAME, U32, p.name));
    var b: Item<Op> := Leaf(WriteString(DESCRIPTION, p.desc));
    var c: Item<Op> := Leaf(WriteInt(TYPE, S32, p.paramType));
    var d: Item<Op> := Leaf(WriteInt(VALUE, S32, p.value));
    FlattenSingle(d, TagOp());
    FlattenPair(c, [d]);
    FlattenPair(b, [c, d]);
    FlattenPair(a, [b, c, d]);
  }

  lemma FlattenPair(item: Item<Op>, rest: seq<Item<Op>>)
    ensures Flatten([item] + rest, TagOp()) == FlattenOne(item, TagOp()) + Flatten(rest, TagOp())
  {
    assert ([item] + rest)[1..] == rest;
  }

  lemma {:induction false} ParamsOps(params: seq<Param>)
    ensures Ops(ParamItems(params)) == Joined(EachParam(params))
  {
    if params != [] {
      assert EachParam(params)[1..] == EachParam(params[1..]);
      ParamsOps(params[1..]);
      ParamOps(params[0]);
      FlattenPair(ParamItem(params[0]), ParamItems(params[1..]));
    }
  }

  lemma InfoOps(di: DetectorInfo)
    ensures FlattenOne(InfoItem(di), TagOp()) == DetectorWrites(di)
  {
    var name: Item<Op> := Leaf(WriteInt(NAME, U32, di.id));
    FlattenPair(name, ParamItems(di.params));
    ParamsOps(di.params);
  }

  lemma {:induction false} InfosOps(infos: seq<DetectorInfo>)
    ensures Ops(InfoItems(infos)) == Joined(EachDetector(infos))
  {
    if infos != [] {
      assert EachDetector(infos)[1..] == EachDetector(infos[1..]);
      InfosOps(infos[1..]);
      InfoOps(infos[0]);
      FlattenPair(InfoItem(infos[0]), InfoItems(infos[1..]));
    }
  }

  /** A session's stream begins with the platform and every detector of the list, in order, and goes on
      with the frames, numbered from 0. */
  lemma StartDataWrites(platform: u32, infos: seq<DetectorInfo>)
    ensures Ops(SessionItems(platform, infos, []))
         == [BeginTag(0xecf3f53f), WriteInt(0x3952d0cb, IntType(4, false), platform)]
            + Joined(EachDetector(infos))
            + [EndTag(0xecf3f53f)]
  {
    var here: Item<Op> := Leaf(WriteInt(PLATFORM, U32, platform));
    FlattenPair(here, InfoItems(infos));
    InfosOps(infos);
    FlattenSingle(StartItem(platform, infos), TagOp());
    assert SessionItems(platform, infos, []) == [StartItem(platform, infos)];
  }

  lemma FrameWrites(platform: u32, infos: seq<DetectorInfo>, frames: seq<seq<Item<Op>>>, reports: seq<Item<Op>>)
    ensures Ops(SessionItems(platform, infos, frames + [reports]))
         == Ops(SessionItems(platform, infos, frames))
            + [BeginTag(0xb5f83ccd), WriteInt(0x85a1a919, IntType(4, true), |frames|)] + Ops(reports)
            + [EndTag(0xb5f83ccd)]
  {
    FrameCloses(platform, infos, frames, reports);
  }
}
