/** ConsoleFunctorBase: the commands and variables of a console, which are the nodes of its list. */
module ConsoleFunctors {
  import opened Seqs

  type Flags = bv32

  const IS_INVISIBLE: Flags := 1 << 4
  const DONT_DUPLICATE: Flags := 1 << 8

  /** tolower of the C locale. */
  function LowerChar(c: char): char {
    if 'A' <= c <= 'Z' then ((c as int) + 32) as char else c
  }

  function Lower(s: string): (r: string)
    ensures |r| == |s| && forall i :: 0 <= i < |s| ==> r[i] == LowerChar(s[i])
  {
    if s == [] then [] else [LowerChar(s[0])] + Lower(s[1..])
  }

  class ConsoleFunctorBase {
    const name: string
    const flags: Flags
    const typeId: nat
    var console: object?
    var prev: ConsoleFunctorBase?
    var next: ConsoleFunctorBase?
    var isDeferred: bool

    constructor (name: string, flags: Flags, typeId: nat)
      ensures this.name == name && this.flags == flags && this.typeId == typeId
      ensures console == null && prev == null && next == null && isDeferred
    {
      this.name, this.flags, this.typeId := name, flags, typeId;
      console, prev, next, isDeferred := null, null, null, true;
    }

    /** The key under which a console files this functor. */
    function Key(): string {
      Lower(name)
    }

    predicate Invisible() {
      flags & IS_INVISIBLE == IS_INVISIBLE
    }

    predicate Duplicable() {
      flags & DONT_DUPLICATE == 0
    }

    /** Puts this functor before the head of the list of `l`, leaving its own prev as it is: a list `d`
        that ends here goes on with `l`. */
    method Link(head: ConsoleFunctorBase?, ghost d: seq<ConsoleFunctorBase>, ghost l: seq<ConsoleFunctorBase>)
      returns (newHead: ConsoleFunctorBase)
      requires d != [] && d[|d| - 1] == this && Linked(d[0], d)
      requires Linked(head, l) && forall f :: f in d ==> f !in l
      modifies this`next, Node(head)`prev
      ensures newHead == this && Linked(d[0], d + l)
    {
      NoRepeatsAppend(d, l);
      Once(d, |d| - 1);
      if l != [] {
        Once(l, 0);
      }
      next := head;
      if head != null {
        head.prev := this;
      }
      newHead := this;
      forall i | 0 <= i < |d + l|
        ensures NodeAt(d + l, i)
      {
        if i < |d| {
          assert old(NodeAt(d, i)) && d[i] in d && (head != null ==> head in l);
        } else {
          assert old(NodeAt(l, i - |d|)) && this in d && l[i - |d|] in l;
        }
      }
    }

    /** Takes this functor out of the list that begins at `head`, where `l` are its functors.  A functor
        that is in no list changes nothing. */
    method Unlink(head: ConsoleFunctorBase?, ghost l: seq<ConsoleFunctorBase>) returns (newHead: ConsoleFunctorBase?)
      requires Linked(head, l) && (this in l || (prev == null && next == null))
      modifies this`prev, this`next, Node(prev)`next, Node(next)`prev
      ensures Linked(newHead, Without(l, this)) && prev == null && next == null
    {
      ghost var k := Position(l, this);
      if head == null {
        return null;
      }
      assert this in l ==> NodeAt(l, k);
      newHead := head;
      if head == this {
        newHead := next;
      }
      Bypass(head, l, k);
      BypassedIsLinked(head, l, this);
    }

    /** Makes the neighbours point to each other. */
    method Bypass(ghost head: ConsoleFunctorBase?, ghost l: seq<ConsoleFunctorBase>, ghost k: nat)
      requires Linked(head, l) && k == Position(l, this)
      requires k < |l| || (prev == null && next == null)
      modifies this`prev, this`next, Node(prev)`next, Node(next)`prev
      ensures prev == null && next == null
      ensures forall j :: 0 <= j < |l| && j != k ==> BypassedAt(l, k, j)
    {
      if k < |l| {
        assert NodeAt(l, k);
        Once(l, k);
      }
      var before, after := prev, next;
      if prev != null {
        prev.next := after;
        prev := null;
      }
      if next != null {
        next.prev := before;
        next := null;
      }
      forall j | 0 <= j < |l| && j != k
        ensures BypassedAt(l, k, j)
      {
        assert old(NodeAt(l, j));
        Once(l, j);
      }
    }
  }

  ghost function Node(f: ConsoleFunctorBase?): set<ConsoleFunctorBase> {
    if f == null then {} else {f}
  }

  // ---------- lists ----------

  ghost function At(l: seq<ConsoleFunctorBase>, i: int): ConsoleFunctorBase? {
    if 0 <= i < |l| then l[i] else null
  }

  ghost predicate NodeAt(l: seq<ConsoleFunctorBase>, i: nat)
    requires i < |l|
    reads l`prev, l`next
  {
    l[i].prev == At(l, i - 1) && l[i].next == At(l, i + 1)
  }

  /** The functors of `l` form, in this order, a doubly linked list that begins at `head`. */
  ghost predicate Linked(head: ConsoleFunctorBase?, l: seq<ConsoleFunctorBase>)
    reads l`prev, l`next
  {
    head == At(l, 0) && NoRepeats(l) && forall i :: 0 <= i < |l| ==> NodeAt(l, i)
  }

  /** Node j of a list whose node k is passed over, if it is one of the list. */
  ghost predicate BypassedAt(l: seq<ConsoleFunctorBase>, k: nat, j: nat)
    requires j < |l|
    reads l`prev, l`next
  {
    && l[j].prev == At(l, if j == k + 1 && k < |l| then j - 2 else j - 1)
    && l[j].next == At(l, if j + 1 == k && k < |l| then j + 2 else j + 1)
  }

  lemma Neighbours(head: ConsoleFunctorBase?, l: seq<ConsoleFunctorBase>, f: ConsoleFunctorBase)
    requires Linked(head, l) && f in l
    ensures f.prev != null ==> f.prev in l
    ensures f.next != null ==> f.next in l
  {
    assert NodeAt(l, Position(l, f));
  }

  function Position(l: seq<ConsoleFunctorBase>, f: ConsoleFunctorBase): (k: nat)
    ensures k <= |l| && (k < |l| ==> l[k] == f) && f !in l[..k]
    ensures f in l <==> k < |l|
  {
    if l == [] then 0 else if l[0] == f then 0 else 1 + Position(l[1..], f)
  }

  lemma WithoutFront(f: ConsoleFunctorBase, l: seq<ConsoleFunctorBase>)
    requires f !in l
    ensures Without([f] + l, f) == l
  {
    assert ([f] + l)[1..] == l;
    WithoutAbsent(l, f);
  }

  lemma CutAt(l: seq<ConsoleFunctorBase>, k: nat)
    requires k < |l| && l[k] !in l[..k] && l[k] !in l[k + 1..]
    ensures Without(l, l[k]) == l[..k] + l[k + 1..]
  {
    var a, b, f := l[..k], l[k + 1..], l[k];
    SplitAt(l, k);
    WithoutAppend(a, [f] + b, f);
    WithoutAbsent(a, f);
    WithoutFront(f, b);
  }

  /** Without repeats, leaving a functor out is cutting the one place where it is. */
  lemma WithoutAt(l: seq<ConsoleFunctorBase>, f: ConsoleFunctorBase)
    requires NoRepeats(l)
    ensures var k := Position(l, f); Without(l, f) == if k < |l| then l[..k] + l[k + 1..] else l
  {
    var k := Position(l, f);
    if k < |l| {
      Once(l, k);
      CutAt(l, k);
    } else {
      WithoutAbsent(l, f);
    }
  }

  lemma BypassedIsLinked(head: ConsoleFunctorBase?, l: seq<ConsoleFunctorBase>, f: ConsoleFunctorBase)
    requires NoRepeats(l) && head == At(l, 0)
    requires forall j :: 0 <= j < |l| && j != Position(l, f) ==> BypassedAt(l, Position(l, f), j)
    ensures Linked(if Position(l, f) == 0 then At(l, 1) else head, Without(l, f))
  {
    var k, rest := Position(l, f), Without(l, f);
    WithoutAt(l, f);
    WithoutNoRepeats(l, f);
    forall i | 0 <= i < |rest|
      ensures NodeAt(rest, i)
    {
      assert BypassedAt(l, k, if i < k then i else i + 1);
    }
  }
}
