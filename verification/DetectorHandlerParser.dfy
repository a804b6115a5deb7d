/** DetectorSAXParserHandler: dispatches a stream to a hierarchy of handlers with a stack, skipping
    whatever stands inside a tag its parent's handler does not know. */
module DetectorHandlerParser {
  import opened Bytes
  import opened Wrappers
  import opened Seqs
  import opened DetectorStreamFormat
  import opened DetectorTree

  type Handler = nat

  /** The calls handlers receive. */
  datatype Call =
    | EnterTag(handler: Handler, name: u32)
    | ExitTag(handler: Handler, child: Option<Handler>, name: u32)
    | HandleData(handler: Handler, data: Callback)

  /** OnEnterTag of every handler: the child handler of a tag, if the handler knows the tag.  Handlers
      may remember anything, so the answer may depend on all calls made before. */
  type Enter = (seq<Call>, Handler, u32) -> Option<Handler>

  /** The handler of a child tag of `parent`, which may itself be missing. */
  function ChildOf(enter: Enter, before: seq<Call>, parent: Option<Handler>, name: u32): Option<Handler> {
    if parent.Some? then enter(before, parent.value, name) else None
  }

  /** A handler is called if there is one. */
  function OnEnter(h: Option<Handler>, name: u32): seq<Call> {
    if h.Some? then [EnterTag(h.value, name)] else []
  }

  function OnExit(h: Option<Handler>, child: Option<Handler>, name: u32): seq<Call> {
    if h.Some? then [ExitTag(h.value, child, name)] else []
  }

  function OnValue(h: Option<Handler>, value: Callback): seq<Call> {
    if h.Some? then [HandleData(h.value, value)] else []
  }

  // ---------- the recursive walk ----------

  /** The calls for these items, handler h being responsible for them and `before` the calls so far. */
  function Walk(enter: Enter, before: seq<Call>, h: Option<Handler>, items: seq<Item<Callback>>): seq<Call>
    decreases items, 0
  {
    if items == [] then []
    else
      var first := WalkOne(enter, before, h, items[0]);
      first + Walk(enter, before + first, h, items[1..])
  }

  function WalkOne(enter: Enter, before: seq<Call>, h: Option<Handler>, item: Item<Callback>): seq<Call>
    decreases item, 1
  {
    match item
    case Leaf(value) => OnValue(h, value)
    case Branch(name, items) =>
      var child := ChildOf(enter, before, h, name);
      OnEnter(h, name) + Walk(enter, before + OnEnter(h, name), child, items) + OnExit(h, child, name)
  }

  // ---------- the stack ----------

  /** The handlers of the open tags, the root's first, and the calls made. */
  datatype Dispatcher = Dispatcher(stack: seq<Option<Handler>>, calls: seq<Call>)

  function Top(stack: seq<Option<Handler>>): Option<Handler>
    requires stack != []
  {
    stack[|stack| - 1]
  }

  function Entered(enter: Enter, d: Dispatcher, name: u32): Dispatcher
    requires d.stack != []
  {
    Dispatcher(d.stack + [ChildOf(enter, d.calls, Top(d.stack), name)], d.calls + OnEnter(Top(d.stack), name))
  }

  function Left(d: Dispatcher, name: u32): Dispatcher
    requires d.stack != []
  {
    var rest := d.stack[..|d.stack| - 1];
    Dispatcher(rest, d.calls + if rest == [] then [] else OnExit(Top(rest), Top(d.stack), name))
  }

  /** What one callback does; once the root handler is popped, nothing. */
  function Next(enter: Enter, d: Dispatcher, cb: Callback): Dispatcher {
    if d.stack == [] then d
    else if cb.Data? then d.(calls := d.calls + OnValue(Top(d.stack), cb))
    else if cb.isOpen then Entered(enter, d, cb.name)
    else Left(d, cb.name)
  }

  function After(enter: Enter, d: Dispatcher, callbacks: seq<Callback>): Dispatcher
    decreases |callbacks|
  {
    if callbacks == [] then d else After(enter, Next(enter, d, callbacks[0]), callbacks[1..])
  }

  class SaxParserHandler {
    const enter: Enter
    const root: Handler
    var stack: seq<Option<Handler>>
    var calls: seq<Call>

    function State(): Dispatcher
      reads this
    {
      Dispatcher(stack, calls)
    }

    constructor (enter: Enter, root: Handler)
      ensures State() == Dispatcher([Some(root)], []) && this.enter == enter && this.root == root
    {
      this.enter, this.root := enter, root;
      stack, calls := [Some(root)], [];
    }

    method OnTag(name: u32, isOpen: bool)
      modifies this
      ensures State() == Next(enter, old(State()), Tag(name, isOpen))
      ensures isOpen && old(stack) != [] && Top(old(stack)).Some? ==>
                && calls == old(calls) + [EnterTag(Top(old(stack)).value, name)]
                && stack == old(stack) + [enter(old(calls), Top(old(stack)).value, name)]
      ensures !isOpen && |old(stack)| > 1 && Top(stack).Some? ==>
                calls == old(calls) + [ExitTag(Top(stack).value, Top(old(stack)), name)]
    {
      if |stack| == 0 {
        return;
      }
      if isOpen {
        var childHandler: Option<Handler> := None;
        var currentHandler := stack[|stack| - 1];
        if currentHandler.Some? {
          childHandler := enter(calls, currentHandler.value, name);
          calls := calls + [EnterTag(currentHandler.value, name)];
        }
        stack := stack + [childHandler];
      } else {
        var currentHandler := stack[|stack| - 1];
        stack := stack[..|stack| - 1];
        if |stack| > 0 {
          var parentHandler := stack[|stack| - 1];
          if parentHandler.Some? {
            calls := calls + [ExitTag(parentHandler.value, currentHandler, name)];
          }
        }
      }
    }

    method OnData(data: Callback)
      requires data.Data?
      modifies this`calls
      ensures State() == Next(enter, old(State()), data)
      ensures calls == if stack != [] && Top(stack).Some? then old(calls) + [HandleData(Top(stack).value, data)]
                       else old(calls)
    {
      if |stack| == 0 {
        return;
      }
      var currentHandler := stack[|stack| - 1];
      if currentHandler.Some? {
        calls := calls + [HandleData(currentHandler.value, data)];
      }
    }

    method Process(callbacks: seq<Callback>)
      modifies this
      ensures State() == After(enter, old(State()), callbacks)
    {
      var i := 0;
      assert callbacks[0..] == callbacks;
      while i < |callbacks|
        invariant 0 <= i <= |callbacks|
        invariant After(enter, State(), callbacks[i..]) == After(enter, old(State()), callbacks)
      {
        var cb := callbacks[i];
        assert callbacks[i..][0] == cb && callbacks[i..][1..] == callbacks[i + 1..];
        if cb.Tag? {
          OnTag(cb.name, cb.isOpen);
        } else {
          OnData(cb);
        }
        i := i + 1;
      }
    }
  }

  // ---------- the stack refines the walk ----------

  lemma {:induction false} AfterAppend(enter: Enter, d: Dispatcher, a: seq<Callback>, b: seq<Callback>)
    ensures After(enter, d, a + b) == After(enter, After(enter, d, a), b)
    decreases |a|
  {
    if a == [] {
      assert a + b == b;
    } else {
      ConsAppend(a, b);
      AfterAppend(enter, Next(enter, d, a[0]), a[1..], b);
    }
  }

  lemma AfterOne(enter: Enter, d: Dispatcher, cb: Callback)
    ensures After(enter, d, [cb]) == Next(enter, d, cb)
  {
    assert [cb][1..] == [];
  }

  function Called(d: Dispatcher, calls: seq<Call>): Dispatcher {
    d.(calls := d.calls + calls)
  }

  /** Dispatch by stack makes, for the sending of any items inside any open tags, exactly the calls
      of a recursive walk over the items, and ends with the stack it began with. */
  lemma {:induction false} StackRefinesWalk(enter: Enter, d: Dispatcher, items: seq<Item<Callback>>)
    requires DataLeaves(items) && d.stack != []
    ensures After(enter, d, Callbacks(items)) == Called(d, Walk(enter, d.calls, Top(d.stack), items))
    decreases items, 0
  {
    if items == [] {
      assert d.calls + [] == d.calls;
    } else {
      var first := WalkOne(enter, d.calls, Top(d.stack), items[0]);
      StackRefinesWalkOne(enter, d, items[0]);
      StackRefinesWalk(enter, Called(d, first), items[1..]);
      AfterAppend(enter, d, FlattenOne(items[0], TagCallback()), Callbacks(items[1..]));
      Assoc(d.calls, first, Walk(enter, d.calls + first, Top(d.stack), items[1..]));
    }
  }

  lemma {:induction false} StackRefinesWalkOne(enter: Enter, d: Dispatcher, item: Item<Callback>)
    requires DataLeaf(item) && d.stack != []
    ensures After(enter, d, FlattenOne(item, TagCallback())) == Called(d, WalkOne(enter, d.calls, Top(d.stack), item))
    decreases item, 1
  {
    match item
    case Leaf(value) =>
      AfterOne(enter, d, value);
    case Branch(name, items) =>
      var open, close, inner, inside := Tag(name, true), Tag(name, false), Callbacks(items), Entered(enter, d, name);
      var h, child := Top(d.stack), Top(inside.stack);
      var walked := Walk(enter, inside.calls, child, items);
      AfterOne(enter, d, open);
      StackRefinesWalk(enter, inside, items);
      AfterOne(enter, Called(inside, walked), close);
      AfterAppend(enter, d, [open] + inner, [close]);
      AfterAppend(enter, d, [open], inner);
      assert inside.stack[..|d.stack|] == d.stack;
      Assoc(d.calls, OnEnter(h, name), walked);
      Assoc(d.calls, OnEnter(h, name) + walked, OnExit(h, child, name));
  }

  /** The whole stream: the calls of the walk, and only the root handler is left on the stack. */
  lemma DispatchIsWalk(enter: Enter, root: Handler, callbacks: seq<Callback>, items: seq<Item<Callback>>)
    requires DataLeaves(items) && Callbacks(items) == callbacks
    ensures After(enter, Dispatcher([Some(root)], []), callbacks)
         == Dispatcher([Some(root)], Walk(enter, [], Some(root), items))
  {
    StackRefinesWalk(enter, Dispatcher([Some(root)], []), items);
    assert [] + Walk(enter, [], Some(root), items) == Walk(enter, [], Some(root), items);
  }

  // ---------- who is responsible ----------

  /** The open tags, or None once the root handler itself has been popped. */
  type Position = Option<seq<u32>>

  function NextPosition(p: Position, cb: Callback): Position {
    if p == None || cb.Data? then p
    else if cb.isOpen then Some(p.value + [cb.name])
    else if p.value == [] then None
    else Some(p.value[..|p.value| - 1])
  }

  function PositionAfter(p: Position, callbacks: seq<Callback>): Position
    decreases |callbacks|
  {
    if callbacks == [] then p else PositionAfter(NextPosition(p, callbacks[0]), callbacks[1..])
  }

  function Height(p: Position): nat {
    if p == None then 0 else |p.value| + 1
  }

  /** One handler for the root and one for every open tag. */
  lemma {:induction false} HeightCountsOpenTags(enter: Enter, d: Dispatcher, p: Position, callbacks: seq<Callback>)
    requires |d.stack| == Height(p)
    ensures |After(enter, d, callbacks).stack| == Height(PositionAfter(p, callbacks))
    decreases |callbacks|
  {
    if callbacks != [] {
      HeightCountsOpenTags(enter, Next(enter, d, callbacks[0]), NextPosition(p, callbacks[0]), callbacks[1..]);
    }
  }

  /** Where a tag was not recognised, nothing inside it is. */
  predicate Shadowed(stack: seq<Option<Handler>>) {
    forall i, j :: 0 <= i < j < |stack| && stack[i] == None ==> stack[j] == None
  }

  /** A handler is responsible exactly if every open tag was recognised by its parent's handler. */
  lemma {:induction false} ResponsibleWhenAllRecognised(enter: Enter, d: Dispatcher, callbacks: seq<Callback>)
    requires Shadowed(d.stack)
    ensures var stack := After(enter, d, callbacks).stack;
            Shadowed(stack) && (stack != [] ==> (Top(stack).Some? <==> forall i :: 0 <= i < |stack| ==> stack[i].Some?))
    decreases |callbacks|
  {
    if callbacks != [] {
      ResponsibleWhenAllRecognised(enter, Next(enter, d, callbacks[0]), callbacks[1..]);
    }
  }

  // ---------- which calls are made ----------

  /** Where the dispatch of a stream stands after its first i callbacks. */
  function At(enter: Enter, root: Handler, callbacks: seq<Callback>, i: nat): Dispatcher
    requires i <= |callbacks|
  {
    After(enter, Dispatcher([Some(root)], []), callbacks[..i])
  }

  /** Every open tag was recognised by its parent's handler. */
  predicate AllRecognised(stack: seq<Option<Handler>>) {
    forall i :: 0 <= i < |stack| ==> stack[i].Some?
  }

  lemma OneMoreCallback(enter: Enter, root: Handler, callbacks: seq<Callback>, i: nat)
    requires i < |callbacks|
    ensures At(enter, root, callbacks, i + 1) == Next(enter, At(enter, root, callbacks, i), callbacks[i])
    ensures Shadowed(At(enter, root, callbacks, i).stack)
  {
    var start := Dispatcher([Some(root)], []);
    assert callbacks[..i + 1] == callbacks[..i] + [callbacks[i]];
    AfterAppend(enter, start, callbacks[..i], [callbacks[i]]);
    AfterOne(enter, At(enter, root, callbacks, i), callbacks[i]);
    ResponsibleWhenAllRecognised(enter, start, callbacks[..i]);
  }

  /** Data reaches the handler in charge, if every open tag was recognised, and nobody otherwise. */
  lemma DataIsHandled(enter: Enter, root: Handler, callbacks: seq<Callback>, i: nat)
    requires i < |callbacks| && callbacks[i].Data? && At(enter, root, callbacks, i).stack != []
    ensures var d, d' := At(enter, root, callbacks, i), At(enter, root, callbacks, i + 1);
            && d'.stack == d.stack
            && (AllRecognised(d.stack) ==>
                  Top(d.stack).Some? && d'.calls == d.calls + [HandleData(Top(d.stack).value, callbacks[i])])
            && (!AllRecognised(d.stack) ==> d'.calls == d.calls)
  {
    OneMoreCallback(enter, root, callbacks, i);
  }

  /** An opening tag: the handler in charge is told and asked for the tag's own handler. */
  lemma TagIsEntered(enter: Enter, root: Handler, callbacks: seq<Callback>, i: nat)
    requires i < |callbacks| && callbacks[i].Tag? && callbacks[i].isOpen && At(enter, root, callbacks, i).stack != []
    ensures var d, d', name := At(enter, root, callbacks, i), At(enter, root, callbacks, i + 1), callbacks[i].name;
            && (AllRecognised(d.stack) ==>
                  && Top(d.stack).Some?
                  && d'.calls == d.calls + [EnterTag(Top(d.stack).value, name)]
                  && d'.stack == d.stack + [enter(d.calls, Top(d.stack).value, name)])
            && (!AllRecognised(d.stack) ==> d'.calls == d.calls && d'.stack == d.stack + [None])
  {
    OneMoreCallback(enter, root, callbacks, i);
  }

  /** A closing tag: the handler of the tag around it is told, with the handler of the tag. */
  lemma TagIsExited(enter: Enter, root: Handler, callbacks: seq<Callback>, i: nat)
    requires i < |callbacks| && callbacks[i].Tag? && !callbacks[i].isOpen
    requires |At(enter, root, callbacks, i).stack| > 1
    ensures var d, d', name := At(enter, root, callbacks, i), At(enter, root, callbacks, i + 1), callbacks[i].name;
            var outer := d.stack[..|d.stack| - 1];
            && d'.stack == outer
            && (AllRecognised(outer) ==>
                  Top(outer).Some? && d'.calls == d.calls + [ExitTag(Top(outer).value, Top(d.stack), name)])
            && (!AllRecognised(outer) ==> d'.calls == d.calls)
  {
    OneMoreCallback(enter, root, callbacks, i);
    var d := At(enter, root, callbacks, i);
    var outer := d.stack[..|d.stack| - 1];
    if Top(outer).Some? {
      assert forall j :: 0 <= j < |outer| ==> d.stack[j] == outer[j];
    }
  }

  /** The tag of the root handler is closed last, and nothing is called from then on. */
  lemma NothingBehindTheRoot(enter: Enter, root: Handler, callbacks: seq<Callback>, i: nat)
    requires i < |callbacks|
    ensures var d, d' := At(enter, root, callbacks, i), At(enter, root, callbacks, i + 1);
            && (|d.stack| == 1 && callbacks[i].Tag? && !callbacks[i].isOpen ==> d' == Dispatcher([], d.calls))
            && (d.stack == [] ==> d' == d)
  {
    OneMoreCallback(enter, root, callbacks, i);
  }

  /** Inside a tag, whatever stood in between, the handler in charge is the one asked for at the tag. */
  lemma InChargeInside(enter: Enter, root: Handler, callbacks: seq<Callback>, j: nat, i: nat,
                       items: seq<Item<Callback>>)
    requires j < i <= |callbacks| && callbacks[j].Tag? && callbacks[j].isOpen
    requires DataLeaves(items) && callbacks[j + 1..i] == Callbacks(items)
    requires At(enter, root, callbacks, j).stack != []
    ensures var d := At(enter, root, callbacks, j);
            var child := if Top(d.stack).Some? then enter(d.calls, Top(d.stack).value, callbacks[j].name) else None;
            At(enter, root, callbacks, i).stack == d.stack + [child]
  {
    var inside := At(enter, root, callbacks, j + 1);
    OneMoreCallback(enter, root, callbacks, j);
    assert callbacks[..i] == callbacks[..j + 1] + callbacks[j + 1..i];
    AfterAppend(enter, Dispatcher([Some(root)], []), callbacks[..j + 1], callbacks[j + 1..i]);
    StackRefinesWalk(enter, inside, items);
  }

  /** A stream of well-nested callbacks never pops the root handler. */
  lemma WellNestedKeepsRoot(enter: Enter, root: Handler, callbacks: seq<Callback>, i: nat)
    requires i <= |callbacks| && NestAll([], callbacks).Some?
    ensures At(enter, root, callbacks, i).stack != []
  {
    assert callbacks[..i] + callbacks[i..] == callbacks;
    NestedPosition([], callbacks[..i], callbacks[i..]);
    HeightCountsOpenTags(enter, Dispatcher([Some(root)], []), Some([]), callbacks[..i]);
  }

  /** The open tags are those of the nesting, as long as it holds. */
  lemma {:induction false} NestedPosition(open: seq<u32>, a: seq<Callback>, b: seq<Callback>)
    requires NestAll(open, a + b).Some?
    ensures NestAll(open, a).Some? && PositionAfter(Some(open), a) == NestAll(open, a)
    decreases |a|
  {
    if a != [] {
      ConsAppend(a, b);
      NestedPosition(Nest(open, a[0]).value, a[1..], b);
    }
  }

  // ---------- handlers without memory ----------

  function Memoryless(answer: (Handler, u32) -> Option<Handler>): Enter {
    (before: seq<Call>, h: Handler, name: u32) => answer(h, name)
  }

  /** The handler responsible inside the open tags `path`, counted from the root handler. */
  function Resolve(answer: (Handler, u32) -> Option<Handler>, root: Handler, path: seq<u32>): Option<Handler>
    decreases |path|
  {
    if path == [] then Some(root)
    else ChildOf(Memoryless(answer), [], Resolve(answer, root, path[..|path| - 1]), path[|path| - 1])
  }

  function HandlersAlong(answer: (Handler, u32) -> Option<Handler>, root: Handler,
                         path: seq<u32>): (r: seq<Option<Handler>>)
    ensures |r| == |path| + 1 && r[|path|] == Resolve(answer, root, path)
    decreases |path|
  {
    (if path == [] then [] else HandlersAlong(answer, root, path[..|path| - 1])) + [Resolve(answer, root, path)]
  }

  /** The handlers of all prefixes of the open tags. */
  function StackAt(answer: (Handler, u32) -> Option<Handler>, root: Handler, p: Position): seq<Option<Handler>> {
    if p == None then [] else HandlersAlong(answer, root, p.value)
  }

  lemma StackAtNext(answer: (Handler, u32) -> Option<Handler>, root: Handler, p: Position, d: Dispatcher, cb: Callback)
    requires d.stack == StackAt(answer, root, p)
    ensures Next(Memoryless(answer), d, cb).stack == StackAt(answer, root, NextPosition(p, cb))
  {
    if p.Some? && cb.Tag? && cb.isOpen {
      assert (p.value + [cb.name])[..|p.value|] == p.value;
    }
  }

  /** With handlers that always answer alike, who is responsible depends on the open tags only. */
  lemma {:induction false} StackIsByPosition(answer: (Handler, u32) -> Option<Handler>, root: Handler, p: Position,
                                             d: Dispatcher, callbacks: seq<Callback>)
    requires d.stack == StackAt(answer, root, p)
    ensures After(Memoryless(answer), d, callbacks).stack == StackAt(answer, root, PositionAfter(p, callbacks))
    decreases |callbacks|
  {
    if callbacks != [] {
      StackAtNext(answer, root, p, d, callbacks[0]);
      StackIsByPosition(answer, root, NextPosition(p, callbacks[0]), Next(Memoryless(answer), d, callbacks[0]),
                        callbacks[1..]);
    }
  }
}
