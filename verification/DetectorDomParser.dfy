/** DetectorDOMParser: builds the tree of a stream by walking a pointer through its nodes. */
module DetectorDomParser {
  import opened Bytes
  import opened Seqs
  import opened DetectorStreamFormat
  import opened DetectorTree

  // ---------- the tree the stream stands for ----------

  /** A DOM node keeps its data and its subtags, each in order, but not their interleaving. */
  datatype Tree = Tree(name: u32, data: seq<Callback>, tags: seq<Tree>)

  function DataOf(items: seq<Item<Callback>>): seq<Callback> {
    if items == [] then []
    else (if items[0].Leaf? then [items[0].value] else []) + DataOf(items[1..])
  }

  function TagsOf(items: seq<Item<Callback>>): seq<Tree>
    decreases items, 0
  {
    if items == [] then []
    else (if items[0].Branch? then [TreeOf(items[0])] else []) + TagsOf(items[1..])
  }

  function TreeOf(item: Item<Callback>): Tree
    requires item.Branch?
    decreases item, 1
  {
    Tree(item.name, DataOf(item.items), TagsOf(item.items))
  }

  // ---------- the open nodes, as values ----------

  /** From the root down: what each open node holds besides the open node below it. */
  type Spine = seq<Tree>

  function Last<T>(s: seq<T>): T
    requires s != []
  {
    s[|s| - 1]
  }

  function Front<T>(s: seq<T>): seq<T>
    requires s != []
  {
    s[..|s| - 1]
  }

  function WithData(t: Tree, cb: Callback): Tree {
    t.(data := t.data + [cb])
  }

  function WithTag(t: Tree, tag: Tree): Tree {
    t.(tags := t.tags + [tag])
  }

  /** A tag can be closed only if one is open. */
  predicate Possible(spine: Spine, cb: Callback) {
    spine != [] && (cb.Tag? && !cb.isOpen ==> |spine| > 1)
  }

  /** And the code asserts that it is the innermost open one. */
  predicate Accepts(spine: Spine, cb: Callback) {
    Possible(spine, cb) && (cb.Tag? && !cb.isOpen ==> Last(spine).name == cb.name)
  }

  function Take(spine: Spine, cb: Callback): (r: Spine)
    requires Possible(spine, cb)
    ensures r != []
  {
    match cb
    case Data(_, _, _, _, _) => Front(spine) + [WithData(Last(spine), cb)]
    case Tag(name, isOpen) =>
      if isOpen then spine + [Tree(name, [], [])]
      else
        var rest := Front(spine);
        Front(rest) + [WithTag(Last(rest), Last(spine))]
  }

  predicate AcceptsAll(spine: Spine, callbacks: seq<Callback>)
    decreases |callbacks|
  {
    callbacks == [] || (Accepts(spine, callbacks[0]) && AcceptsAll(Take(spine, callbacks[0]), callbacks[1..]))
  }

  function TakeAll(spine: Spine, callbacks: seq<Callback>): Spine
    requires AcceptsAll(spine, callbacks)
    decreases |callbacks|
  {
    if callbacks == [] then spine else TakeAll(Take(spine, callbacks[0]), callbacks[1..])
  }

  lemma {:induction false} TakeAllAppend(spine: Spine, a: seq<Callback>, b: seq<Callback>)
    requires AcceptsAll(spine, a) && AcceptsAll(TakeAll(spine, a), b)
    ensures AcceptsAll(spine, a + b) && TakeAll(spine, a + b) == TakeAll(TakeAll(spine, a), b)
    decreases |a|
  {
    if a == [] {
      assert a + b == b;
    } else {
      ConsAppend(a, b);
      TakeAllAppend(Take(spine, a[0]), a[1..], b);
    }
  }

  /** The tree of some items hung below the innermost open node. */
  function Grown(spine: Spine, items: seq<Item<Callback>>): Spine
    requires spine != []
  {
    var t := Last(spine);
    Front(spine) + [Tree(t.name, t.data + DataOf(items), t.tags + TagsOf(items))]
  }

  lemma GrownTwice(spine: Spine, a: Item<Callback>, rest: seq<Item<Callback>>)
    requires spine != []
    ensures Grown(Grown(spine, [a]), rest) == Grown(spine, [a] + rest)
  {
    var items := [a] + rest;
    assert items[1..] == rest && [a][1..] == [];
    var t := Last(spine);
    assert DataOf([a]) == (if a.Leaf? then [a.value] else []);
    assert TagsOf([a]) == (if a.Branch? then [TreeOf(a)] else []);
    Assoc(t.data, DataOf([a]), DataOf(rest));
    Assoc(t.tags, TagsOf([a]), TagsOf(rest));
  }

  /** DOM building: the callbacks of a tree, wherever they arrive, add exactly that tree there. */
  lemma {:induction false} TakesItems(spine: Spine, items: seq<Item<Callback>>)
    requires spine != [] && DataLeaves(items)
    ensures AcceptsAll(spine, Callbacks(items)) && TakeAll(spine, Callbacks(items)) == Grown(spine, items)
    decreases items, 0
  {
    if items == [] {
      var t := Last(spine);
      assert Tree(t.name, t.data + [], t.tags + []) == t;
    } else {
      TakesItem(spine, items[0]);
      TakesItems(Grown(spine, [items[0]]), items[1..]);
      TakeAllAppend(spine, FlattenOne(items[0], TagCallback()), Callbacks(items[1..]));
      GrownTwice(spine, items[0], items[1..]);
      assert [items[0]] + items[1..] == items;
    }
  }

  lemma {:induction false} TakesItem(spine: Spine, item: Item<Callback>)
    requires spine != [] && DataLeaf(item)
    ensures var c := FlattenOne(item, TagCallback());
            AcceptsAll(spine, c) && TakeAll(spine, c) == Grown(spine, [item])
    decreases item, 1
  {
    GrownByOne(spine, item);
    match item
    case Leaf(value) =>
      TakesOne(spine, value);
    case Branch(name, items) =>
      var open, close := Tag(name, true), Tag(name, false);
      TakesOne(spine, open);
      var deeper := spine + [Tree(name, [], [])];
      TakesItems(deeper, items);
      var grown := Grown(deeper, items);
      assert [] + DataOf(items) == DataOf(items) && [] + TagsOf(items) == TagsOf(items);
      assert Front(deeper) == spine;
      assert grown == spine + [TreeOf(item)];
      TakesOne(grown, close);
      TakeAllAppend(deeper, Callbacks(items), [close]);
      TakeAllAppend(spine, [open], Callbacks(items) + [close]);
      Assoc([open], Callbacks(items), [close]);
  }

  lemma TakesOne(spine: Spine, cb: Callback)
    requires Accepts(spine, cb)
    ensures AcceptsAll(spine, [cb]) && TakeAll(spine, [cb]) == Take(spine, cb)
  {
    assert [cb][1..] == [];
  }

  lemma GrownByOne(spine: Spine, item: Item<Callback>)
    requires spine != []
    ensures Grown(spine, [item]) == Front(spine) + [if item.Leaf? then WithData(Last(spine), item.value)
                                                    else WithTag(Last(spine), TreeOf(item))]
  {
    var t := Last(spine);
    assert [item][1..] == [];
    assert t.data + [] == t.data && t.tags + [] == t.tags;
    if item.Leaf? {
      assert DataOf([item]) == [item.value] && TagsOf([item]) == [];
    } else {
      assert DataOf([item]) == [] && TagsOf([item]) == [TreeOf(item)];
    }
  }

  /** Accepting goes with nesting: the open nodes below the root are the open tags. */
  lemma {:induction false} AcceptsWellNested(spine: Spine, open: seq<u32>, callbacks: seq<Callback>)
    requires |spine| == |open| + 1 && forall i :: 0 <= i < |open| ==> spine[i + 1].name == open[i]
    ensures AcceptsAll(spine, callbacks) <==> NestAll(open, callbacks).Some?
    ensures AcceptsAll(spine, callbacks) ==> |TakeAll(spine, callbacks)| == |NestAll(open, callbacks).value| + 1
    decreases |callbacks|
  {
    if callbacks != [] {
      assert Accepts(spine, callbacks[0]) <==> Nest(open, callbacks[0]).Some?;
      if Accepts(spine, callbacks[0]) {
        AcceptsWellNested(Take(spine, callbacks[0]), Nest(open, callbacks[0]).value, callbacks[1..]);
      }
    }
  }

  // ---------- printing a tree ----------

  function LeavesOf(data: seq<Callback>): seq<Item<Callback>> {
    if data == [] then [] else [Leaf(data[0])] + LeavesOf(data[1..])
  }

  /** A node's data first, then its subtags. */
  function Print(t: Tree): Item<Callback>
    decreases t, 1
  {
    Branch(t.name, LeavesOf(t.data) + PrintAll(t.tags))
  }

  function PrintAll(tags: seq<Tree>): seq<Item<Callback>>
    decreases tags, 0
  {
    if tags == [] then [] else [Print(tags[0])] + PrintAll(tags[1..])
  }

  lemma {:induction false} DataTagsAppend(a: seq<Item<Callback>>, b: seq<Item<Callback>>)
    ensures DataOf(a + b) == DataOf(a) + DataOf(b) && TagsOf(a + b) == TagsOf(a) + TagsOf(b)
    decreases |a|
  {
    if a == [] {
      assert a + b == b;
    } else {
      ConsAppend(a, b);
      DataTagsAppend(a[1..], b);
      Assoc(if a[0].Leaf? then [a[0].value] else [], DataOf(a[1..]), DataOf(b));
      Assoc(if a[0].Branch? then [TreeOf(a[0])] else [], TagsOf(a[1..]), TagsOf(b));
    }
  }

  lemma {:induction false} LeavesAreData(data: seq<Callback>)
    ensures DataOf(LeavesOf(data)) == data && TagsOf(LeavesOf(data)) == []
    decreases |data|
  {
    if data != [] {
      LeavesAreData(data[1..]);
      var rest := LeavesOf(data[1..]);
      assert LeavesOf(data)[1..] == rest;
      assert [data[0]] + data[1..] == data;
    }
  }

  /** Writing a tree and parsing it gives the tree back. */
  lemma {:induction false} PrintParses(t: Tree)
    ensures TreeOf(Print(t)) == t
    decreases t, 1
  {
    LeavesAreData(t.data);
    PrintAllParses(t.tags);
    DataTagsAppend(LeavesOf(t.data), PrintAll(t.tags));
    assert t.data + [] == t.data;
  }

  lemma {:induction false} PrintAllParses(tags: seq<Tree>)
    ensures TagsOf(PrintAll(tags)) == tags && DataOf(PrintAll(tags)) == []
    decreases tags, 0
  {
    if tags != [] {
      PrintParses(tags[0]);
      PrintAllParses(tags[1..]);
      assert PrintAll(tags)[1..] == PrintAll(tags[1..]);
      assert [tags[0]] + tags[1..] == tags;
    }
  }

  // ---------- the nodes in memory ----------

  class Node {
    var name: u32
    var parent: Node?
    var data: seq<Callback>
    var tags: seq<Node>

    constructor (name: u32, parent: Node?)
      ensures this.name == name && this.parent == parent && data == [] && tags == []
    {
      this.name, this.parent := name, parent;
      data, tags := [], [];
    }
  }

  /** The node and everything below it is finished and is the tree t. */
  ghost predicate Represents(n: Node, t: Tree, closed: set<Node>)
    reads closed
    decreases t
  {
    && n in closed && n.name == t.name && n.data == t.data && |n.tags| == |t.tags|
    && forall j :: 0 <= j < |t.tags| ==>
         n.tags[j] in closed && n.tags[j].parent == n && Represents(n.tags[j], t.tags[j], closed)
  }

  lemma {:induction false} RepresentsInMore(n: Node, t: Tree, closed: set<Node>, more: set<Node>)
    requires Represents(n, t, closed) && closed <= more
    ensures Represents(n, t, more)
    decreases t
  {
    forall j | 0 <= j < |t.tags|
      ensures Represents(n.tags[j], t.tags[j], more)
    {
      RepresentsInMore(n.tags[j], t.tags[j], closed, more);
    }
  }

  /** A node whose subtags are finished is finished itself. */
  lemma RepresentsTop(n: Node, t: Tree, closed: set<Node>, more: set<Node>)
    requires closed <= more && n in more && n.name == t.name && n.data == t.data && |n.tags| == |t.tags|
    requires forall j :: 0 <= j < |t.tags| ==>
               n.tags[j] in closed && n.tags[j].parent == n && Represents(n.tags[j], t.tags[j], closed)
    ensures Represents(n, t, more)
  {
    forall j | 0 <= j < |t.tags|
      ensures Represents(n.tags[j], t.tags[j], more)
    {
      RepresentsInMore(n.tags[j], t.tags[j], closed, more);
    }
  }

  class DomParser {
    const root: Node
    var topNode: Node?

    /** The open nodes from the root to topNode, what they hold, and the finished nodes. */
    ghost var path: seq<Node>
    ghost var spine: Spine
    ghost var closed: set<Node>

    /** Node i of the path holds what entry i of the spine says, and the open node below it last. */
    ghost predicate Holds(i: nat, finished: set<Node>)
      requires i < |path| == |spine|
      reads this, path, finished
    {
      var n, t, deeper := path[i], spine[i], i + 1 < |path|;
      && n.name == t.name && n.data == t.data
      && |n.tags| == |t.tags| + (if deeper then 1 else 0)
      && (deeper ==> n.tags[|t.tags|] == path[i + 1] && path[i + 1].parent == n)
      && forall j :: 0 <= j < |t.tags| ==>
           n.tags[j] in finished && n.tags[j].parent == n && Represents(n.tags[j], t.tags[j], finished)
    }

    ghost predicate Valid()
      reads this, path, closed
    {
      && |path| == |spine| > 0
      && path[0] == root && root.parent == null && topNode == path[|path| - 1]
      && NoRepeats(path)
      && (forall i :: 0 <= i < |path| ==> path[i] !in closed)
      && (forall i :: 0 <= i < |path| ==> Holds(i, closed))
    }

    constructor ()
      ensures Valid() && fresh(root) && fresh(path) && fresh(closed)
      ensures spine == [Tree(0, [], [])]
    {
      root := new Node(0, null);
      new;
      topNode := root;
      path, spine, closed := [root], [Tree(0, [], [])], {};
    }

    /** True exactly when no tag is open. */
    predicate CanParse()
      reads this
    {
      topNode == root
    }

    lemma CanParseAtRoot()
      requires Valid()
      ensures CanParse() <==> |spine| == 1
    {
      Once(path, 0);
    }

    /** With no tag open, the memory below the root is the tree in the spine. */
    lemma RootRepresents()
      requires Valid() && |spine| == 1
      ensures root.name == spine[0].name && root.data == spine[0].data && |root.tags| == |spine[0].tags|
      ensures forall j :: 0 <= j < |root.tags| ==>
                root.tags[j].parent == root && Represents(root.tags[j], spine[0].tags[j], closed)
    {
      assert Holds(0, closed);
    }

    method OnTag(name: u32, isOpen: bool)
      requires Valid() && Possible(spine, Tag(name, isOpen))
      modifies this, topNode
      ensures Valid() && spine == Take(old(spine), Tag(name, isOpen))
      ensures forall n :: n in path && n !in old(path) ==> fresh(n)
    {
      if isOpen {
        OpenTag(name);
      } else {
        CloseTag();
      }
    }

    method OpenTag(name: u32)
      requires Valid()
      modifies this, topNode
      ensures Valid() && spine == old(spine) + [Tree(name, [], [])]
      ensures |path| == |old(path)| + 1 && path[..|old(path)|] == old(path) && fresh(path[|old(path)|])
      ensures closed == old(closed)
    {
      var node := new Node(name, topNode);
      topNode.tags := topNode.tags + [node];
      topNode := node;
      NoRepeatsAppend(path, [node]);
      Once(path, |path| - 1);
      path, spine := path + [node], spine + [Tree(name, [], [])];
      forall i | 0 <= i < |path|
        ensures Holds(i, closed)
      {
        assert i < |old(path)| ==> old(Holds(i, closed));
      }
    }

    method CloseTag()
      requires Valid() && |spine| > 1
      modifies this
      ensures Valid()
      ensures var rest := Front(old(spine)); spine == Front(rest) + [WithTag(Last(rest), Last(old(spine)))]
      ensures path == Front(old(path)) && closed == old(closed) + {Last(old(path))}
    {
      ghost var below, last := |path| - 2, |path| - 1;
      Once(path, last);
      TakeOneMore(path, last);
      assert path[..last] + [path[last]] == path;
      NoRepeatsAppend(path[..last], [path[last]]);
      ghost var more := closed + {topNode};
      forall i | 0 <= i < |path|
        ensures Holds(i, more)
      {
        HoldsInMore(i, more);
      }
      assert Holds(below, closed) && Holds(last, closed);
      RepresentsTop(path[last], spine[last], closed, more);
      topNode := topNode.parent;
      path, closed := path[..last], more;
      spine := spine[..below] + [WithTag(spine[below], spine[last])];
      forall i | 0 <= i < |path|
        ensures Holds(i, closed)
      {
        assert old(Holds(i, more));
      }
    }

    /** What a node of the path holds stays so when more nodes are finished. */
    lemma HoldsInMore(i: nat, more: set<Node>)
      requires |path| == |spine| && i < |path| && Holds(i, closed) && closed <= more
      ensures Holds(i, more)
    {
      forall j | 0 <= j < |spine[i].tags|
        ensures Represents(path[i].tags[j], spine[i].tags[j], more)
      {
        RepresentsInMore(path[i].tags[j], spine[i].tags[j], closed, more);
      }
    }

    method OnData(cb: Callback)
      requires Valid() && cb.Data?
      modifies this`spine, topNode
      ensures Valid() && spine == Take(old(spine), cb)
      ensures path == old(path) && closed == old(closed)
    {
      Once(path, |path| - 1);
      topNode.data := topNode.data + [cb];
      spine := Front(spine) + [WithData(Last(spine), cb)];
      forall i | 0 <= i < |path|
        ensures Holds(i, closed)
      {
        assert old(Holds(i, closed));
      }
    }

    /** The parser behind a stream: every callback goes to OnTag or OnData. */
    method Process(callbacks: seq<Callback>)
      requires Valid() && AcceptsAll(spine, callbacks)
      modifies this, path
      ensures Valid() && spine == TakeAll(old(spine), callbacks)
    {
      var i := 0;
      assert callbacks[0..] == callbacks;
      while i < |callbacks|
        invariant 0 <= i <= |callbacks|
        invariant Valid() && forall n :: n in path && n !in old(path) ==> fresh(n)
        invariant AcceptsAll(spine, callbacks[i..])
        invariant TakeAll(spine, callbacks[i..]) == TakeAll(old(spine), callbacks)
      {
        var cb := callbacks[i];
        assert callbacks[i..][0] == cb && callbacks[i..][1..] == callbacks[i + 1..];
        assert topNode == path[|path| - 1] && topNode in path;
        CallBack(cb);
        i := i + 1;
      }
    }

    method CallBack(cb: Callback)
      requires Valid() && Possible(spine, cb)
      modifies this, topNode
      ensures Valid() && spine == Take(old(spine), cb)
      ensures forall n :: n in path && n !in old(path) ==> fresh(n)
    {
      if cb.Tag? {
        OnTag(cb.name, cb.isOpen);
      } else {
        OnData(cb);
      }
    }
  }

  /** A fresh parser fed the sending of some items ends at the root, and the memory below the root
      is their tree; it is at the root exactly if what it was fed is well nested. */
  method ParseTree(callbacks: seq<Callback>) returns (parser: DomParser)
    requires NestAll([], callbacks).Some?
    ensures parser.Valid()
    ensures parser.CanParse() <==> WellNested(callbacks)
    ensures forall items :: DataLeaves(items) && Callbacks(items) == callbacks ==>
              parser.spine == [Tree(0, DataOf(items), TagsOf(items))]
  {
    parser := new DomParser();
    var spine: Spine := [Tree(0, [], [])];
    AcceptsWellNested(spine, [], callbacks);
    parser.Process(callbacks);
    parser.CanParseAtRoot();
    forall items | DataLeaves(items) && Callbacks(items) == callbacks
      ensures parser.spine == [Tree(0, DataOf(items), TagsOf(items))]
    {
      TakesItems(spine, items);
      assert [] + DataOf(items) == DataOf(items) && [] + TagsOf(items) == TagsOf(items);
    }
  }
}
