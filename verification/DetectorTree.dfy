/** Tags and data as trees: the structure behind a well-nested sequence of callbacks or writes. */
module DetectorTree {
  import opened Bytes
  import opened Wrappers
  import opened Seqs
  import opened DetectorStreamFormat

  /** What stands between an open tag and its close, in order. */
  datatype Item<+T> = Leaf(value: T) | Branch(name: u32, items: seq<Item<T>>)

  /** The items as the flat sequence they are sent in; `tag` makes the marks of a tag. */
  function Flatten<T>(items: seq<Item<T>>, tag: (u32, bool) -> T): seq<T>
    decreases items, 0
  {
    if items == [] then [] else FlattenOne(items[0], tag) + Flatten(items[1..], tag)
  }

  function FlattenOne<T>(item: Item<T>, tag: (u32, bool) -> T): seq<T>
    decreases item, 1
  {
    match item
    case Leaf(value) => [value]
    case Branch(name, items) => [tag(name, true)] + Flatten(items, tag) + [tag(name, false)]
  }

  lemma {:induction false} FlattenAppend<T>(a: seq<Item<T>>, b: seq<Item<T>>, tag: (u32, bool) -> T)
    ensures Flatten(a + b, tag) == Flatten(a, tag) + Flatten(b, tag)
    decreases |a|
  {
    if a == [] {
      assert a + b == b;
    } else {
      ConsAppend(a, b);
      FlattenAppend(a[1..], b, tag);
      Assoc(FlattenOne(a[0], tag), Flatten(a[1..], tag), Flatten(b, tag));
    }
  }

  lemma FlattenSingle<T>(item: Item<T>, tag: (u32, bool) -> T)
    ensures Flatten([item], tag) == FlattenOne(item, tag)
  {
    assert Flatten([item], tag) == FlattenOne(item, tag) + Flatten([], tag);
  }

  function TagCallback(): (u32, bool) -> Callback {
    (name: u32, isOpen: bool) => Tag(name, isOpen)
  }

  function Callbacks(items: seq<Item<Callback>>): seq<Callback> {
    Flatten(items, TagCallback())
  }

  /** The leaves are data, not marks of tags. */
  predicate DataLeaves(items: seq<Item<Callback>>) {
    forall i :: 0 <= i < |items| ==> DataLeaf(items[i])
  }

  predicate DataLeaf(item: Item<Callback>) {
    match item
    case Leaf(value) => value.Data?
    case Branch(_, items) => forall i :: 0 <= i < |items| ==> DataLeaf(items[i])
  }

  // ---------- well nested ----------

  /** The names of the open tags after one more callback; None when a close does not match. */
  function Nest(open: seq<u32>, cb: Callback): Option<seq<u32>> {
    match cb
    case Tag(name, isOpen) =>
      if isOpen then Some(open + [name])
      else if open != [] && open[|open| - 1] == name then Some(open[..|open| - 1])
      else None
    case Data(_, _, _, _, _) => Some(open)
  }

  function NestAll(open: seq<u32>, callbacks: seq<Callback>): Option<seq<u32>>
    decreases |callbacks|
  {
    if callbacks == [] then Some(open)
    else
      match Nest(open, callbacks[0])
      case None => None
      case Some(next) => NestAll(next, callbacks[1..])
  }

  predicate WellNested(callbacks: seq<Callback>) {
    NestAll([], callbacks) == Some([])
  }

  lemma {:induction false} NestAllAppend(open: seq<u32>, a: seq<Callback>, b: seq<Callback>)
    ensures NestAll(open, a + b) ==
              match NestAll(open, a) case None => None case Some(next) => NestAll(next, b)
    decreases |a|
  {
    if a == [] {
      assert a + b == b;
    } else {
      ConsAppend(a, b);
      if Nest(open, a[0]).Some? {
        NestAllAppend(Nest(open, a[0]).value, a[1..], b);
      }
    }
  }

  /** Trees are sent well nested, inside any open tags. */
  lemma {:induction false} ItemsNest(items: seq<Item<Callback>>, open: seq<u32>)
    requires DataLeaves(items)
    ensures NestAll(open, Callbacks(items)) == Some(open)
    decreases items, 0
  {
    if items != [] {
      ItemNests(items[0], open);
      NestAllAppend(open, FlattenOne(items[0], TagCallback()), Callbacks(items[1..]));
      ItemsNest(items[1..], open);
    }
  }

  lemma {:induction false} ItemNests(item: Item<Callback>, open: seq<u32>)
    requires DataLeaf(item)
    ensures NestAll(open, FlattenOne(item, TagCallback())) == Some(open)
    decreases item, 1
  {
    match item
    case Leaf(value) =>
      assert [value][1..] == [];
    case Branch(name, items) =>
      var inner := Callbacks(items);
      ItemsNest(items, open + [name]);
      assert [Tag(name, true)] + inner + [Tag(name, false)] == [Tag(name, true)] + (inner + [Tag(name, false)]);
      NestAllAppend(open + [name], inner, [Tag(name, false)]);
      assert (open + [name])[..|open|] == open;
      assert ([Tag(name, true)] + (inner + [Tag(name, false)]))[1..] == inner + [Tag(name, false)];
      assert [Tag(name, false)][1..] == [];
  }

  // ---------- every well-nested sequence is the sending of a tree ----------

  /** A tag still open, with the items seen in it so far. */
  datatype Frame = Frame(name: u32, items: seq<Item<Callback>>)

  /** What has been sent when these items are complete at top level and these frames are open. */
  function Sent(top: seq<Item<Callback>>, frames: seq<Frame>): seq<Callback>
    decreases |frames|
  {
    if frames == [] then Callbacks(top)
    else
      var f := frames[|frames| - 1];
      Sent(top, frames[..|frames| - 1]) + [Tag(f.name, true)] + Callbacks(f.items)
  }

  function Names(frames: seq<Frame>): (r: seq<u32>)
    ensures |r| == |frames|
  {
    seq(|frames|, i requires 0 <= i < |frames| => frames[i].name)
  }

  ghost predicate FramesOk(top: seq<Item<Callback>>, frames: seq<Frame>) {
    DataLeaves(top) && forall i :: 0 <= i < |frames| ==> DataLeaves(frames[i].items)
  }

  /** One more complete item where the sending stands. */
  lemma AddItem(top: seq<Item<Callback>>, frames: seq<Frame>, item: Item<Callback>)
    returns (top': seq<Item<Callback>>, frames': seq<Frame>)
    requires FramesOk(top, frames) && DataLeaf(item)
    ensures FramesOk(top', frames') && Names(frames') == Names(frames)
    ensures Sent(top', frames') == Sent(top, frames) + FlattenOne(item, TagCallback())
  {
    FlattenSingle(item, TagCallback());
    if frames == [] {
      top', frames' := top + [item], [];
      FlattenAppend(top, [item], TagCallback());
    } else {
      var last := |frames| - 1;
      var f := frames[last];
      top', frames' := top, frames[..last] + [Frame(f.name, f.items + [item])];
      FlattenAppend(f.items, [item], TagCallback());
      assert frames'[..last] == frames[..last];
      Assoc(Sent(top, frames[..last]) + [Tag(f.name, true)], Callbacks(f.items), FlattenOne(item, TagCallback()));
    }
  }

  lemma OpenFrame(top: seq<Item<Callback>>, frames: seq<Frame>, name: u32) returns (frames': seq<Frame>)
    requires FramesOk(top, frames)
    ensures FramesOk(top, frames') && Names(frames') == Names(frames) + [name]
    ensures Sent(top, frames') == Sent(top, frames) + [Tag(name, true)]
  {
    frames' := frames + [Frame(name, [])];
    assert frames'[..|frames|] == frames;
    assert Sent(top, frames) + [Tag(name, true)] + [] == Sent(top, frames) + [Tag(name, true)];
  }

  lemma CloseFrame(top: seq<Item<Callback>>, frames: seq<Frame>)
    returns (top': seq<Item<Callback>>, frames': seq<Frame>)
    requires FramesOk(top, frames) && frames != []
    ensures FramesOk(top', frames') && Names(frames') == Names(frames)[..|frames| - 1]
    ensures Sent(top', frames') == Sent(top, frames) + [Tag(frames[|frames| - 1].name, false)]
  {
    var last := |frames| - 1;
    var f := frames[last];
    top', frames' := AddItem(top, frames[..last], Branch(f.name, f.items));
    var s, o, i, c := Sent(top, frames[..last]), [Tag(f.name, true)], Callbacks(f.items), [Tag(f.name, false)];
    Assoc(s, o, i);
    Assoc(s, o + i, c);
  }

  lemma {:induction false} SentReaches(top: seq<Item<Callback>>, frames: seq<Frame>, callbacks: seq<Callback>)
    returns (top': seq<Item<Callback>>, frames': seq<Frame>)
    requires FramesOk(top, frames) && NestAll(Names(frames), callbacks).Some?
    ensures FramesOk(top', frames') && Some(Names(frames')) == NestAll(Names(frames), callbacks)
    ensures Sent(top', frames') == Sent(top, frames) + callbacks
    decreases |callbacks|
  {
    top', frames' := top, frames;
    if callbacks == [] {
      assert Sent(top, frames) + callbacks == Sent(top, frames);
    } else {
      var cb := callbacks[0];
      if cb.Data? {
        top', frames' := AddItem(top, frames, Leaf(cb));
      } else if cb.isOpen {
        frames' := OpenFrame(top, frames, cb.name);
      } else {
        top', frames' := CloseFrame(top, frames);
      }
      ghost var sent := Sent(top', frames');
      top', frames' := SentReaches(top', frames', callbacks[1..]);
      Assoc(Sent(top, frames), [cb], callbacks[1..]);
      assert [cb] + callbacks[1..] == callbacks;
    }
  }

  /** The well-nested sequences are exactly the sendings of trees. */
  lemma WellNestedIsTree(callbacks: seq<Callback>)
    ensures WellNested(callbacks) <==> exists items :: DataLeaves(items) && Callbacks(items) == callbacks
  {
    if WellNested(callbacks) {
      assert Names([]) == [];
      var items, frames := SentReaches([], [], callbacks);
      assert [] + callbacks == callbacks;
      assert frames == [];
    }
    forall items | DataLeaves(items) && Callbacks(items) == callbacks
      ensures WellNested(callbacks)
    {
      ItemsNest(items, []);
    }
  }
}
