/** Console: functors on a doubly linked list, and an index of them by lower-case name. */
module Consoles {
  import opened Seqs
  import opened ConsoleFunctors
  import opened ConsoleRegistry
  import opened AutoComplete

  const MAX_COMMAND_PLUS_ARGS := 64

  type CommandMap = map<string, Functors>

  function Lookup(commands: CommandMap, key: string): Functors {
    if key in commands then commands[key] else []
  }

  /** The index is a function of the list. */
  ghost predicate Indexed(commands: CommandMap, l: Functors) {
    forall key :: Lookup(commands, key) == Named(l, key)
  }

  lemma IndexAdded(commands: CommandMap, l: Functors, f: ConsoleFunctorBase)
    requires Indexed(commands, l)
    ensures Indexed(commands[f.Key() := Lookup(commands, f.Key()) + [f]], [f] + l)
  {
    var after := commands[f.Key() := Lookup(commands, f.Key()) + [f]];
    forall key
      ensures Lookup(after, key) == Named([f] + l, key)
    {
      assert Lookup(commands, key) == Named(l, key);
      assert ([f] + l)[1..] == l;
    }
  }

  lemma IndexRemoved(commands: CommandMap, l: Functors, f: ConsoleFunctorBase)
    requires Indexed(commands, l)
    ensures f.Key() in commands ==> Indexed(commands[f.Key() := Without(commands[f.Key()], f)], Without(l, f))
    ensures f.Key() !in commands ==> Indexed(commands, Without(l, f))
  {
    var after := if f.Key() in commands then commands[f.Key() := Without(commands[f.Key()], f)] else commands;
    forall key
      ensures Lookup(after, key) == Named(Without(l, f), key)
    {
      assert Lookup(commands, key) == Named(l, key);
      NamedWithout(l, f, key);
      NamedMembers(l, key);
      if key != f.Key() {
        WithoutAbsent(Named(l, key), f);
      }
    }
  }

  /** The index after find and erase under the name of f. */
  function Erased(commands: CommandMap, f: ConsoleFunctorBase): CommandMap
    requires f.Key() in commands
  {
    var filed := commands[f.Key()];
    var i := Position(filed, f);
    if i < |filed| then commands[f.Key() := filed[..i] + filed[i + 1..]] else commands
  }

  lemma ErasedIsWithout(commands: CommandMap, f: ConsoleFunctorBase)
    requires f.Key() in commands && NoRepeats(commands[f.Key()])
    ensures Erased(commands, f) == commands[f.Key() := Without(commands[f.Key()], f)]
  {
    WithoutAt(commands[f.Key()], f);
  }

  lemma NamesNoRepeats(commands: CommandMap, l: Functors, key: string)
    requires Indexed(commands, l) && NoRepeats(l) && key in commands
    ensures NoRepeats(commands[key])
  {
    assert Lookup(commands, key) == Named(l, key);
    NamedNoRepeats(l, key);
  }

  lemma EraseKeepsIndexed(commands: CommandMap, l: Functors, f: ConsoleFunctorBase)
    requires Indexed(commands, l) && NoRepeats(l)
    ensures Indexed(if f.Key() in commands then Erased(commands, f) else commands, Without(l, f))
  {
    IndexRemoved(commands, l, f);
    if f.Key() in commands {
      NamesNoRepeats(commands, l, f.Key());
      ErasedIsWithout(commands, f);
    }
  }

  class Console {
    var head: ConsoleFunctorBase?
    var commands: CommandMap
    ghost var functors: Functors

    ghost predicate Valid()
      reads this, functors`console, functors`prev, functors`next
    {
      && Linked(head, functors) && Compatible(functors) && Indexed(commands, functors)
      && forall f :: f in functors ==> f.console == this
    }

    constructor ()
      ensures Valid() && functors == []
    {
      head, commands, functors := null, map[], [];
    }

    /** Files a functor under its name and puts it first in the list, unless it belongs to another
        console, is here already, is unlike the functors of its name or may not be duplicated. */
    method RegisterFunctor(functor: ConsoleFunctorBase)
      requires Valid() && (functor in functors || (functor.prev == null && functor.next == null))
      modifies this, functor`console, functor`next, Node(head)`prev
      ensures Valid()
      ensures functors
           == if old(functor.console) == null || old(functor.console) == this
              then AfterRegister(old(functors), functor) else old(functors)
      ensures functor.console == if functor in functors then this else old(functor.console)
      ensures functor in functors || functor.next == null
    {
      if functor.console != null && functor.console != this {
        return;
      }
      var lowerName := functor.Key();
      assert Lookup(commands, lowerName) == Named(functors, lowerName);
      if lowerName in commands {
        var filed := commands[lowerName];
        if functor in filed {
          NamedMembers(functors, lowerName);
          return;
        }
        if filed != [] {
          var front := filed[0];
          if front.flags != functor.flags || front.typeId != functor.typeId {
            return;
          }
          if !front.Duplicable() {
            return;
          }
        }
      }
      AcceptsMeans(functors, functor);
      commands := File(functor);
      functor.console := this;
      LinkFiled(functor);
    }

    /** Appends to the vector of the functor's name. */
    method File(functor: ConsoleFunctorBase) returns (filed: CommandMap)
      requires Indexed(commands, functors)
      ensures Indexed(filed, [functor] + functors)
    {
      IndexAdded(commands, functors, functor);
      filed := commands[functor.Key() := Lookup(commands, functor.Key()) + [functor]];
    }

    /** Puts a functor that is filed already at the front of the list. */
    method LinkFiled(functor: ConsoleFunctorBase)
      requires Linked(head, functors) && functor !in functors && functor.prev == null && functor.next == null
      requires Compatible([functor] + functors) && Indexed(commands, [functor] + functors)
      requires functor.console == this && forall f :: f in functors ==> f.console == this
      modifies this`head, this`functors, functor`next, Node(head)`prev
      ensures Valid() && functors == [functor] + old(functors)
    {
      head := functor.Link(head, [functor], functors);
      functors := [functor] + functors;
    }

    /** Takes a functor of this console out of the list and from under its name. */
    method UnregisterFunctor(functor: ConsoleFunctorBase)
      requires Valid() && (functor in functors || (functor.prev == null && functor.next == null))
      modifies this, functor, Node(functor.prev)`next, Node(functor.next)`prev
      ensures Valid()
      ensures functors == if old(functor.console) == this then Without(old(functors), functor) else old(functors)
      ensures old(functor.console) == this ==> functor.console == null && functor.prev == null && functor.next == null
      ensures old(functor.console) != this ==> functor.console == old(functor.console)
      ensures functor.isDeferred == old(functor.isDeferred)
    {
      if functor.console != this {
        return;
      }
      CompatibleWithout(functors, functor);
      EraseNamed(functor);
      head := functor.Unlink(head, functors);
      functor.console := null;
      functors := Without(functors, functor);
    }

    /** The part of UnregisterFunctor that concerns the index.  A name stays when its last functor goes. */
    method EraseNamed(functor: ConsoleFunctorBase)
      requires Indexed(commands, functors) && NoRepeats(functors)
      modifies this`commands
      ensures Indexed(commands, Without(functors, functor)) && commands.Keys == old(commands.Keys)
    {
      var lowerName := functor.Key();
      EraseKeepsIndexed(commands, functors, functor);
      if lowerName in commands {
        var filed := commands[lowerName];
        var i := Position(filed, functor);
        if i < |filed| {
          commands := commands[lowerName := filed[..i] + filed[i + 1..]];
        }
      }
    }

    /** The functor a name stands for: of the visible ones filed under it the oldest. */
    method FindCommand(command: string) returns (found: ConsoleFunctorBase?)
      requires Valid()
      ensures found == FirstVisible(Named(functors, Lower(command)))
    {
      var lowerName := Lower(command);
      assert Lookup(commands, lowerName) == Named(functors, lowerName);
      if lowerName in commands {
        var filed := commands[lowerName];
        var i := 0;
        while i < |filed|
          invariant 0 <= i <= |filed| && FirstVisible(filed) == FirstVisible(filed[i..])
        {
          if !filed[i].Invisible() {
            return filed[i];
          }
          assert filed[i..][1..] == filed[i + 1..];
          i := i + 1;
        }
      }
      return null;
    }

    /** Completes a command as far as the visible functors it may stand for agree; `matches` grows by
        their names. */
    method AutoCompleteCommand(command: string, matches: seq<string>)
      returns (largestSubstring: string, allMatches: seq<string>)
      requires Valid() && |VisibleMatches(functors, command)| <= MAX_COMMAND_PLUS_ARGS
      ensures command == "" ==> largestSubstring == "" && allMatches == matches
      ensures var names := VisibleMatches(functors, command);
              && (command != "" ==> allMatches == matches + names)
              && (names == [] ==> largestSubstring == command)
              && (command != "" && names != [] ==>
                   && Completes(command, names, largestSubstring)
                   && |largestSubstring| <= |names[0]|
                   && forall k :: |command| <= k < |largestSubstring| ==> largestSubstring[k] == names[0][k])
    {
      if command == "" {
        return command, matches;
      }
      var commandSubset := GatherMatches(command);
      allMatches := matches + commandSubset;
      largestSubstring := command;
      if commandSubset != [] {
        MatchesAre(functors, command);
        largestSubstring := LargestSubstring(command, commandSubset);
      }
    }

    /** The loop of AutoCompleteCommand over the list. */
    method GatherMatches(command: string) returns (commandSubset: seq<string>)
      requires Linked(head, functors)
      ensures commandSubset == VisibleMatches(functors, command)
    {
      commandSubset := [];
      var curr := head;
      ghost var i := 0;
      while curr != null
        invariant 0 <= i <= |functors| && curr == At(functors, i)
        invariant commandSubset + VisibleMatches(functors[i..], command) == VisibleMatches(functors, command)
        decreases |functors| - i
      {
        assert NodeAt(functors, i) && functors[i..][1..] == functors[i + 1..];
        if !curr.Invisible() && StartsWith(curr.name, command) {
          Assoc(commandSubset, [curr.name], VisibleMatches(functors[i + 1..], command));
          commandSubset := commandSubset + [curr.name];
        } else {
          assert VisibleMatches(functors[i..], command) == VisibleMatches(functors[i + 1..], command);
        }
        curr := curr.next;
        i := i + 1;
      }
    }

    /** Registers every functor of the deferred list, which is empty afterwards.  Those not accepted keep
        the console they had, if any. */
    method LinkDeferredFunctors(deferredHead: ConsoleFunctorBase?, ghost deferred: Functors)
      returns (newDeferredHead: ConsoleFunctorBase?)
      requires Valid() && Linked(deferredHead, deferred) && Waiting(deferred)
      modifies this, Node(head)`prev, deferred
      ensures Valid() && functors == LinkAll(old(functors), deferred) && newDeferredHead == null
      ensures forall f :: f in deferred ==> Settled(f, old(f.console))
    {
      var dhead, curr := deferredHead, deferredHead;
      ghost var rest, was, all := deferred, map f | f in deferred :: f.console, LinkAll(functors, deferred);
      while curr != null
        invariant curr == dhead && Linking(dhead, rest, was, all)
        invariant head == old(head) || head in deferred
        invariant was == map f | f in deferred :: old(f.console)
        decreases |rest|
      {
        assert curr in rest && (curr.next != null ==> curr.next in rest) by {
          assert NodeAt(rest, 0);
        }
        dhead, curr := LinkNext(dhead, rest, was, all);
        rest := rest[1..];
      }
      newDeferredHead := null;
    }

    /** No longer deferred: in the list, or with the console it had. */
    ghost predicate Settled(f: ConsoleFunctorBase, was: object?)
      reads this, f
    {
      !f.isDeferred && f.console == if f in functors then this else was
    }

    /** The loop of LinkDeferredFunctors with `rest` to come: `was` tells the console each had before. */
    ghost predicate Linking(deferredHead: ConsoleFunctorBase?, rest: Functors,
                            was: map<ConsoleFunctorBase, object?>, all: Functors)
      reads this, functors, rest, was.Keys
    {
      && Valid() && Linked(deferredHead, rest) && Waiting(rest) && LinkAll(functors, rest) == all
      && (forall f :: f in rest ==> f in was)
      && forall f :: f in was ==> if f in rest then f.console == was[f] else Settled(f, was[f])
    }

    /** The step of LinkDeferredFunctors for the functor at the front. */
    method LinkNext(curr: ConsoleFunctorBase, ghost rest: Functors,
                    ghost was: map<ConsoleFunctorBase, object?>, ghost all: Functors)
      returns (newDeferredHead: ConsoleFunctorBase?, next: ConsoleFunctorBase?)
      requires Linking(curr, rest, was, all)
      modifies this, Node(head)`prev, Node(curr.next)`prev, curr
      ensures rest != [] && Linking(newDeferredHead, rest[1..], was, all) && next == newDeferredHead
      ensures head == old(head) || head == curr
    {
      newDeferredHead, next := LinkFront(curr, rest);
      assert forall f :: f in rest <==> f == curr || f in rest[1..];
      forall f | f in was
        ensures if f in rest[1..] then f.console == was[f] else Settled(f, was[f])
      {
        assert f != curr ==> f.console == old(f.console) && f.isDeferred == old(f.isDeferred);
      }
    }

    /** The front of the deferred list leaves it and is registered. */
    method LinkFront(curr: ConsoleFunctorBase, ghost rest: Functors)
      returns (newDeferredHead: ConsoleFunctorBase?, next: ConsoleFunctorBase?)
      requires Valid() && Linked(curr, rest) && Waiting(rest)
      modifies this, Node(head)`prev, Node(curr.next)`prev, curr
      ensures rest != [] && curr == rest[0] && curr !in rest[1..]
      ensures Valid() && functors == AfterRegister(old(functors), curr) && Grown(old(functors), curr)
      ensures Linked(newDeferredHead, rest[1..]) && next == newDeferredHead && Waiting(rest[1..])
      ensures Settled(curr, old(curr.console))
      ensures head == old(head) || head == curr
    {
      newDeferredHead, next := TakeFront(curr, rest);
      Settle(curr, newDeferredHead, rest[1..]);
    }

    ghost predicate Grown(before: Functors, functor: ConsoleFunctorBase)
      reads this
    {
      functors == before || functors == [functor] + before
    }

    /** Registers a functor that is in no list and ends its deferral; the other deferred ones keep theirs. */
    method Settle(functor: ConsoleFunctorBase, ghost othersHead: ConsoleFunctorBase?, ghost others: Functors)
      requires Valid() && Linked(othersHead, others) && Waiting(others)
      requires functor !in others && functor !in functors && functor.prev == null && functor.next == null
      requires functor.console == null || functor.console == this
      modifies this, functor, Node(head)`prev
      ensures Valid() && functors == AfterRegister(old(functors), functor) && Grown(old(functors), functor)
      ensures Linked(othersHead, others) && Waiting(others)
      ensures Settled(functor, old(functor.console))
      ensures head == old(head) || head == functor
    {
      RegisterWaiting(functor, othersHead, others);
      functor.isDeferred := false;
    }

    method RegisterWaiting(functor: ConsoleFunctorBase, ghost othersHead: ConsoleFunctorBase?, ghost others: Functors)
      requires Valid() && Linked(othersHead, others) && Waiting(others) && functor !in others
      requires functor !in functors && functor.prev == null && functor.next == null
      requires functor.console == null || functor.console == this
      modifies this, functor`console, functor`next, Node(head)`prev
      ensures Valid() && functors == AfterRegister(old(functors), functor) && Grown(old(functors), functor)
      ensures functor.console == if functor in functors then this else old(functor.console)
      ensures Linked(othersHead, others) && Waiting(others)
    {
      RegisterBeside(functor, othersHead, others);
    }

    /** RegisterFunctor leaves alone a list that has nothing in common with this console's. */
    method RegisterBeside(functor: ConsoleFunctorBase, ghost othersHead: ConsoleFunctorBase?, ghost others: Functors)
      requires Valid() && Linked(othersHead, others) && functor !in others
      requires forall f :: f in others ==> f !in functors
      requires functor !in functors && functor.prev == null && functor.next == null
      requires functor.console == null || functor.console == this
      modifies this, functor`console, functor`next, Node(head)`prev
      ensures Valid() && functors == AfterRegister(old(functors), functor) && Grown(old(functors), functor)
      ensures functor.console == if functor in functors then this else old(functor.console)
      ensures Linked(othersHead, others)
    {
      assert head != null ==> head in functors;
      RegisterFunctor(functor);
    }

    /** The front of the deferred list leaves it; the console's own list is another one. */
    method TakeFront(curr: ConsoleFunctorBase, ghost rest: Functors)
      returns (newDeferredHead: ConsoleFunctorBase?, next: ConsoleFunctorBase?)
      requires Valid() && Linked(curr, rest) && Waiting(rest)
      modifies Node(curr.next)`prev, curr`prev, curr`next
      ensures rest != [] && curr == rest[0] && curr !in rest[1..] && curr.prev == null && curr.next == null
      ensures Valid() && Linked(newDeferredHead, rest[1..]) && next == newDeferredHead
    {
      assert NodeAt(rest, 0);
      assert Without(rest, curr) == rest[1..] by {
        WithoutAt(rest, curr);
      }
      next := curr.next;
      assert curr in rest && (next != null ==> next in rest && next !in functors);
      newDeferredHead := curr.Unlink(curr, rest);
    }

    /** Functors that this console may take. */
    ghost predicate Waiting(l: Functors)
      reads this, l`console
    {
      forall f :: f in l ==> f !in functors && (f.console == null || f.console == this)
    }

    /** Gives the whole list back to the deferred functors, behind those that are there. */
    method MoveFunctorsToDeferredHead(deferredHead: ConsoleFunctorBase?, ghost deferred: Functors)
      returns (newDeferredHead: ConsoleFunctorBase?)
      requires Valid() && Linked(deferredHead, deferred) && forall f :: f in deferred ==> f !in functors
      modifies this, functors`console, functors`isDeferred, functors`prev, deferred`next
      ensures Valid() && functors == [] && commands == map[]
      ensures Linked(newDeferredHead, deferred + old(functors))
      ensures forall f :: f in old(functors) ==> f.console == null && f.isDeferred
    {
      commands := map[];
      DeferAll();
      if deferredHead != null {
        LinkBehind(deferredHead, deferred);
        newDeferredHead := deferredHead;
      } else {
        newDeferredHead := head;
        assert deferred + functors == functors;
      }
      head, functors := null, [];
    }

    /** Lets a deferred list go on with the list of this console, whose head is lost. */
    method LinkBehind(deferredHead: ConsoleFunctorBase, ghost deferred: Functors)
      requires Linked(head, functors) && Linked(deferredHead, deferred)
      requires forall f :: f in deferred ==> f !in functors
      modifies this`head, Node(head)`prev, deferred`next
      ensures Linked(deferredHead, deferred + functors)
    {
      var oldDeferred := LastOf(deferredHead, deferred);
      head := oldDeferred.Link(head, deferred, functors);
    }

    /** The second loop of MoveFunctorsToDeferredHead: the end of the deferred list. */
    static method LastOf(deferredHead: ConsoleFunctorBase, ghost deferred: Functors)
      returns (oldDeferred: ConsoleFunctorBase)
      requires Linked(deferredHead, deferred)
      ensures deferred != [] && oldDeferred == deferred[|deferred| - 1] && oldDeferred in deferred
    {
      oldDeferred := deferredHead;
      ghost var j := 0;
      while oldDeferred.next != null
        invariant 0 <= j < |deferred| && oldDeferred == deferred[j]
        decreases |deferred| - j
      {
        assert NodeAt(deferred, j);
        oldDeferred := oldDeferred.next;
        j := j + 1;
      }
      assert NodeAt(deferred, j);
    }

    /** The first loop of MoveFunctorsToDeferredHead: no functor of the list has a console any more. */
    method DeferAll()
      requires Linked(head, functors)
      modifies functors`console, functors`isDeferred
      ensures forall f :: f in functors ==> f.console == null && f.isDeferred
    {
      var curr := head;
      ghost var i := 0;
      while curr != null
        invariant 0 <= i <= |functors| && curr == At(functors, i)
        invariant forall f :: f in functors[..i] ==> f.console == null && f.isDeferred
        decreases |functors| - i
      {
        assert NodeAt(functors, i) && curr in functors;
        curr.console := null;
        curr.isDeferred := true;
        curr := curr.next;
        i := i + 1;
      }
    }
  }

  function FirstVisible(l: Functors): ConsoleFunctorBase? {
    if l == [] then null else if !l[0].Invisible() then l[0] else FirstVisible(l[1..])
  }

  lemma {:induction false} NoneVisible(l: Functors)
    ensures FirstVisible(l) == null <==> forall f :: f in l ==> f.Invisible()
  {
    if l != [] {
      NoneVisible(l[1..]);
    }
  }

  /** Functors of one name are visible together, so a name is found unless its functors are invisible,
      and then it stands for the one registered first. */
  lemma FoundIsOldest(l: Functors, key: string)
    requires Consistent(l)
    ensures FirstVisible(Named(l, key)) == null <==> forall f :: f in l && f.Key() == key ==> f.Invisible()
    ensures FirstVisible(Named(l, key)) != null ==> FirstVisible(Named(l, key)) == Named(l, key)[0]
  {
    var filed := Named(l, key);
    NamedMembers(l, key);
    NoneVisible(filed);
    if filed != [] && filed[0].Invisible() {
      assert filed[0] in filed;
      forall f | f in filed
        ensures f.Invisible()
      {
        LikeKinds(l, filed[0], f);
      }
    }
  }

  /** The names a command may stand for, in the order of the list. */
  function VisibleMatches(l: Functors, command: string): seq<string> {
    if l == [] then []
    else
      (if !l[0].Invisible() && StartsWith(l[0].name, command) then [l[0].name] else [])
      + VisibleMatches(l[1..], command)
  }

  lemma {:induction false} MatchesAre(l: Functors, command: string)
    ensures forall n :: n in VisibleMatches(l, command)
                   <==> StartsWith(n, command) && exists f :: f in l && !f.Invisible() && f.name == n
  {
    if l != [] {
      MatchesAre(l[1..], command);
      assert forall f :: f in l <==> f == l[0] || f in l[1..];
    }
  }
}
