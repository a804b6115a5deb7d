/** Detectors, and the tags and values they report. */
module DetectorReports {
  import opened Bytes
  import opened Seqs
  import opened DetectorOutputStream
  import opened DetectorTree
  import opened DetectorManager
  import DetectorStringPool

  // ---------- writing items ----------

  /** Items whose leaves are writes the stream takes. */
  predicate Writes(items: seq<Item<Op>>) {
    LeavesWrite(items) && AllWritable(Ops(items))
  }

  /** What is written at each of a number of occasions, and nothing any more after them. */
  type Script = seq<seq<Item<Op>>>

  function Said(script: Script, n: nat): seq<Item<Op>> {
    if n < |script| then script[n] else []
  }

  predicate WritesAt(script: Script, n: nat) {
    Writes(Said(script, n))
  }

  ghost predicate AlwaysWrites(script: Script) {
    forall n: nat :: WritesAt(script, n)
  }

  predicate WritesOne(item: Item<Op>) {
    LeafWrites(item) && AllWritable(FlattenOne(item, TagOp()))
  }

  lemma WritableParts(a: seq<Op>, b: seq<Op>)
    ensures AllWritable(a + b) <==> AllWritable(a) && AllWritable(b)
  {
    if AllWritable(a + b) {
      assert forall i :: 0 <= i < |a| ==> (a + b)[i] == a[i];
      forall i | 0 <= i < |b|
        ensures Writable(b[i])
      {
        assert (a + b)[|a| + i] == b[i];
      }
    }
  }

  lemma WritesParts(items: seq<Item<Op>>)
    requires Writes(items) && items != []
    ensures WritesOne(items[0]) && Writes(items[1..])
  {
    WritableParts(FlattenOne(items[0], TagOp()), Ops(items[1..]));
  }

  lemma WritesInner(name: u32, items: seq<Item<Op>>)
    requires WritesOne(Branch(name, items))
    ensures Writes(items)
  {
    WritableParts([BeginTag(name)] + Ops(items), [EndTag(name)]);
    WritableParts([BeginTag(name)], Ops(items));
  }

  /** What a detector does to report some items. */
  method WriteItems(output: OutputStream, items: seq<Item<Op>>)
    requires output.Valid() && Writes(items)
    modifies output`data, output`ops, output.stringPool
    ensures output.Valid() && output.ops == old(output.ops) + Ops(items)
    decreases items, 0
  {
    if items == [] {
      assert output.ops + [] == output.ops;
    } else {
      WritesParts(items);
      ghost var before := output.ops;
      WriteItem(output, items[0]);
      WriteItems(output, items[1..]);
      Assoc(before, FlattenOne(items[0], TagOp()), Ops(items[1..]));
    }
  }

  method WriteItem(output: OutputStream, item: Item<Op>)
    requires output.Valid() && WritesOne(item)
    modifies output`data, output`ops, output.stringPool
    ensures output.Valid() && output.ops == old(output.ops) + FlattenOne(item, TagOp())
    decreases item, 1
  {
    match item
    case Leaf(op) =>
      assert [op][0] == op;
      WriteOp(output, op);
    case Branch(name, items) =>
      ghost var before := output.ops;
      WritesInner(name, items);
      output.BeginTag(name);
      WriteItems(output, items);
      output.EndTag(name);
      Assoc(before, [BeginTag(name)], Ops(items));
      Assoc(before, [BeginTag(name)] + Ops(items), [EndTag(name)]);
  }

  method WriteOp(output: OutputStream, op: Op)
    requires output.Valid() && Writable(op) && !op.BeginTag? && !op.EndTag?
    modifies output`data, output`ops, output.stringPool
    ensures output.Valid() && output.ops == old(output.ops) + [op]
  {
    match op
    case WriteInt(name, t, v) => output.WriteInt(name, t, v);
    case WriteBlob(name, data) => output.WriteBlob(name, data);
    case WriteString(name, chars) =>
      var text := new DetectorStringPool.CString(chars);
      output.WriteString(name, text, true);
  }

  // ---------- detectors ----------

  /** A detector writes balanced tags each time the manager calls its Start, Update or Stop; what it
      writes at its n-th call is up to it. */
  class Detector {
    const id: u32
    const reports: Script
    var calls: nat
    var output: OutputStream?

    constructor (id: u32, reports: Script)
      ensures this.id == id && this.reports == reports && calls == 0 && output == null
    {
      this.id, this.reports := id, reports;
      calls, output := 0, null;
    }

    /** What it writes at its n-th call. */
    function Says(n: nat): seq<Item<Op>> {
      Said(reports, n)
    }

    ghost predicate Balanced() {
      AlwaysWrites(reports)
    }

    method Report()
      requires output != null && output.Valid() && Balanced()
      modifies this`calls, output`data, output`ops, output.stringPool
      ensures calls == old(calls) + 1
      ensures output.Valid() && output.ops == old(output.ops) + Ops(Says(old(calls)))
    {
      assert WritesAt(reports, calls);
      WriteItems(output, Says(calls));
      calls := calls + 1;
    }
  }

  /** What these detectors report at their next call, in order. */
  function Reports(detectors: seq<Detector>, at: seq<nat>): seq<Item<Op>>
    requires |at| == |detectors|
    decreases |detectors|
  {
    if detectors == [] then []
    else
      var last := |detectors| - 1;
      Reports(detectors[..last], at[..last]) + detectors[last].Says(at[last])
  }

  function Plus(at: seq<nat>, n: nat): (r: seq<nat>)
    ensures |r| == |at| && forall i {:trigger r[i]} :: 0 <= i < |at| ==> r[i] == at[i] + n
  {
    if at == [] then [] else Plus(at[..|at| - 1], n) + [at[|at| - 1] + n]
  }

  lemma ReportsMore(detectors: seq<Detector>, at: seq<nat>, i: nat)
    requires |at| == |detectors| && i < |at|
    ensures Reports(detectors[..i + 1], at[..i + 1]) == Reports(detectors[..i], at[..i]) + detectors[i].Says(at[i])
  {
    assert detectors[..i + 1][..i] == detectors[..i] && at[..i + 1][..i] == at[..i];
  }

  lemma {:induction false} ReportsWrite(detectors: seq<Detector>, at: seq<nat>)
    requires |at| == |detectors| && forall d :: d in detectors ==> d.Balanced()
    ensures LeavesWrite(Reports(detectors, at))
    decreases |detectors|
  {
    if detectors != [] {
      var last := |detectors| - 1;
      ReportsWrite(detectors[..last], at[..last]);
      assert detectors[last] in detectors && WritesAt(detectors[last].reports, at[last]);
    }
  }

  ghost predicate MemberAt(detectors: seq<Detector>, i: nat, output: OutputStream, at: seq<nat>)
    requires i < |detectors| == |at|
    reads detectors`output, detectors`calls
  {
    detectors[i].output == output && detectors[i].calls == at[i] && detectors[i].Balanced()
  }

  /** The detectors write to this stream, balanced tags only, and have been called so many times. */
  ghost predicate Crew(detectors: seq<Detector>, output: OutputStream, at: seq<nat>)
    reads detectors`output, detectors`calls
  {
    |at| == |detectors| && forall i :: 0 <= i < |detectors| ==> MemberAt(detectors, i, output, at)
  }

  /** The first i of them have had one more call. */
  function Called(at: seq<nat>, i: nat): (r: seq<nat>)
    requires i <= |at|
    ensures |r| == |at|
  {
    Plus(at[..i], 1) + at[i..]
  }

  lemma OneMoreCalled(at: seq<nat>, i: nat)
    requires i < |at|
    ensures Called(at, i)[i] == at[i]
    ensures Called(at, i)[i := at[i] + 1] == Called(at, i + 1)
  {
  }

  lemma AllCalled(at: seq<nat>)
    ensures Called(at, 0) == at && Called(at, |at|) == Plus(at, 1)
  {
    assert at[..|at|] == at && at[|at|..] == [] && at[0..] == at && at[..0] == [];
  }

  /** The first i of them have had one more call, and what they reported is on the stream. */
  ghost predicate Calling(detectors: seq<Detector>, output: OutputStream, at: seq<nat>, start: seq<Op>, i: nat)
    requires |at| == |detectors|
    reads output, output.stringPool, detectors`output, detectors`calls
  {
    && i <= |at| && output.Valid() && Crew(detectors, output, Called(at, i))
    && output.ops == start + Ops(Reports(detectors[..i], at[..i]))
  }

  /** Every detector gets its call, in order. */
  method CallEach(detectors: seq<Detector>, output: OutputStream, ghost at: seq<nat>)
    requires output.Valid() && NoRepeats(detectors) && Crew(detectors, output, at)
    modifies output`data, output`ops, output.stringPool, detectors`calls
    ensures output.Valid() && Crew(detectors, output, Plus(at, 1))
    ensures output.ops == old(output.ops) + Ops(Reports(detectors, at))
  {
    var i := 0;
    ghost var start := output.ops;
    BeginCalling(detectors, output, at);
    while i < |detectors|
      invariant 0 <= i <= |detectors| && Calling(detectors, output, at, start, i)
    {
      CallNext(detectors, i, output, at, start);
      i := i + 1;
    }
    EndCalling(detectors, output, at, start);
  }

  lemma EndCalling(detectors: seq<Detector>, output: OutputStream, at: seq<nat>, start: seq<Op>)
    requires |at| == |detectors| && Calling(detectors, output, at, start, |at|)
    ensures output.Valid() && Crew(detectors, output, Plus(at, 1))
    ensures output.ops == start + Ops(Reports(detectors, at))
  {
    AllCalled(at);
    assert detectors[..|at|] == detectors && at[..|at|] == at;
  }

  lemma BeginCalling(detectors: seq<Detector>, output: OutputStream, at: seq<nat>)
    requires output.Valid() && Crew(detectors, output, at)
    ensures Calling(detectors, output, at, output.ops, 0)
  {
    AllCalled(at);
    assert detectors[..0] == [] && at[..0] == [] && output.ops + Ops([]) == output.ops;
  }

  method CallNext(detectors: seq<Detector>, i: nat, output: OutputStream, ghost at: seq<nat>, ghost start: seq<Op>)
    requires |at| == |detectors| && i < |at| && NoRepeats(detectors) && Calling(detectors, output, at, start, i)
    modifies output`data, output`ops, output.stringPool, {detectors[i]}`calls
    ensures Calling(detectors, output, at, start, i + 1)
  {
    ghost var before := output.ops;
    OneMoreCalled(at, i);
    CallOne(detectors, i, output, Called(at, i));
    NextCalling(detectors, output, at, start, i, before);
  }

  lemma NextCalling(detectors: seq<Detector>, output: OutputStream, at: seq<nat>, start: seq<Op>, i: nat,
                    before: seq<Op>)
    requires i < |at| == |detectors| && before == start + Ops(Reports(detectors[..i], at[..i]))
    requires output.Valid() && Crew(detectors, output, Called(at, i + 1))
    requires output.ops == before + Ops(detectors[i].Says(at[i]))
    ensures Calling(detectors, output, at, start, i + 1)
  {
    ReportOne(detectors, at, i, start);
  }

  method CallOne(detectors: seq<Detector>, i: nat, output: OutputStream, ghost at: seq<nat>)
    requires i < |detectors| && output.Valid() && NoRepeats(detectors) && Crew(detectors, output, at)
    modifies output`data, output`ops, output.stringPool, {detectors[i]}`calls
    ensures output.Valid() && Crew(detectors, output, at[i := at[i] + 1])
    ensures output.ops == old(output.ops) + Ops(detectors[i].Says(at[i]))
  {
    assert MemberAt(detectors, i, output, at);
    detectors[i].Report();
    ghost var now := at[i := at[i] + 1];
    forall j | 0 <= j < |detectors|
      ensures MemberAt(detectors, j, output, now)
    {
      assert old(MemberAt(detectors, j, output, at));
      Once(detectors, i);
    }
  }

  lemma ReportOne(detectors: seq<Detector>, at: seq<nat>, i: nat, start: seq<Op>)
    requires i < |at| == |detectors|
    ensures start + Ops(Reports(detectors[..i], at[..i])) + Ops(detectors[i].Says(at[i]))
         == start + Ops(Reports(detectors[..i + 1], at[..i + 1]))
  {
    ReportsMore(detectors, at, i);
    FlattenAppend(Reports(detectors[..i], at[..i]), detectors[i].Says(at[i]), TagOp());
    Assoc(start, Ops(Reports(detectors[..i], at[..i])), Ops(detectors[i].Says(at[i])));
  }

  /** The calls at the end of a frame, and its closing tag. */
  method CallAndClose(detectors: seq<Detector>, output: OutputStream, ghost at: seq<nat>)
    requires output.Valid() && NoRepeats(detectors) && Crew(detectors, output, at)
    modifies output`data, output`ops, output.stringPool, detectors`calls
    ensures output.Valid() && Crew(detectors, output, Plus(at, 1))
    ensures output.ops == old(output.ops) + Ops(Reports(detectors, at)) + [EndTag(FRAME)]
  {
    CallEach(detectors, output, at);
    output.EndTag(FRAME);
  }

  ghost predicate ReleasedAt(detectors: seq<Detector>, i: nat, at: seq<nat>)
    requires i < |detectors| == |at|
    reads detectors`output, detectors`calls
  {
    detectors[i].calls == at[i] + 1 && detectors[i].output == null
  }

  /** The detectors have had one more call than `at` and have no stream any more. */
  ghost predicate Released(detectors: seq<Detector>, at: seq<nat>)
    reads detectors`output, detectors`calls
  {
    |at| == |detectors| && forall i :: 0 <= i < |detectors| ==> ReleasedAt(detectors, i, at)
  }

  ghost predicate ReleasingAt(detectors: seq<Detector>, output: OutputStream, at: seq<nat>, i: nat, j: nat)
    requires j < |detectors| == |at|
    reads detectors`output, detectors`calls
  {
    if j < i then ReleasedAt(detectors, j, at) else MemberAt(detectors, j, output, at)
  }

  /** The first i of them have had their last call and are let go. */
  ghost predicate Releasing(detectors: seq<Detector>, output: OutputStream, at: seq<nat>, start: seq<Op>, i: nat)
    requires |at| == |detectors|
    reads output, output.stringPool, detectors`output, detectors`calls
  {
    && i <= |at| && output.Valid() && (forall j :: 0 <= j < |at| ==> ReleasingAt(detectors, output, at, i, j))
    && output.ops == start + Ops(Reports(detectors[..i], at[..i]))
  }

  /** Each detector has its last call and is let go. */
  method ReleaseEach(detectors: seq<Detector>, output: OutputStream, ghost at: seq<nat>)
    requires output.Valid() && NoRepeats(detectors) && Crew(detectors, output, at)
    modifies output`data, output`ops, output.stringPool, detectors`calls, detectors`output
    ensures output.Valid() && Released(detectors, at)
    ensures output.ops == old(output.ops) + Ops(Reports(detectors, at))
  {
    var i := 0;
    ghost var start := output.ops;
    BeginReleasing(detectors, output, at);
    while i < |detectors|
      invariant 0 <= i <= |detectors| && Releasing(detectors, output, at, start, i)
    {
      ReleaseNext(detectors, i, output, at, start);
      i := i + 1;
    }
    EndReleasing(detectors, output, at, start);
  }

  lemma BeginReleasing(detectors: seq<Detector>, output: OutputStream, at: seq<nat>)
    requires output.Valid() && Crew(detectors, output, at)
    ensures Releasing(detectors, output, at, output.ops, 0)
  {
    assert detectors[..0] == [] && at[..0] == [] && output.ops + Ops([]) == output.ops;
    forall j | 0 <= j < |at|
      ensures ReleasingAt(detectors, output, at, 0, j)
    {
      assert MemberAt(detectors, j, output, at);
    }
  }

  lemma EndReleasing(detectors: seq<Detector>, output: OutputStream, at: seq<nat>, start: seq<Op>)
    requires |at| == |detectors| && Releasing(detectors, output, at, start, |at|)
    ensures output.Valid() && Released(detectors, at) && output.ops == start + Ops(Reports(detectors, at))
  {
    assert detectors[..|at|] == detectors && at[..|at|] == at;
    forall j | 0 <= j < |at|
      ensures ReleasedAt(detectors, j, at)
    {
      assert ReleasingAt(detectors, output, at, |at|, j);
    }
  }

  method ReleaseNext(detectors: seq<Detector>, i: nat, output: OutputStream, ghost at: seq<nat>, ghost start: seq<Op>)
    requires |at| == |detectors| && i < |at| && NoRepeats(detectors) && Releasing(detectors, output, at, start, i)
    modifies output`data, output`ops, output.stringPool, {detectors[i]}`calls, {detectors[i]}`output
    ensures Releasing(detectors, output, at, start, i + 1)
  {
    assert ReleasingAt(detectors, output, at, i, i);
    ReportOne(detectors, at, i, start);
    detectors[i].Report();
    detectors[i].output := null;
    ghost var now := i + 1;
    forall j | 0 <= j < |at|
      ensures ReleasingAt(detectors, output, at, now, j)
    {
      assert old(ReleasingAt(detectors, output, at, i, j));
      Once(detectors, i);
    }
  }
}
