/** The functors that wait for a console: how a functor begins and ends, and how consoles take the
    waiting ones over and give theirs back. */
module ConsoleDeferral {
  import opened Seqs
  import opened ConsoleFunctors
  import opened ConsoleRegistry
  import opened Consoles

  /** The head of a console's list, whose prev a new functor changes. */
  ghost function HeadOf(console: Console?): set<ConsoleFunctorBase>
    reads if console == null then {} else {console}
  {
    if console == null then {} else Node(console.head)
  }

  ghost function Self(console: Console?): set<Console> {
    if console == null then {} else {console}
  }

  /** The static members of ConsoleFunctorBase.  `alive` are the functors constructed and not destroyed,
      and `rejectedBy` has those of them that were not accepted by the console they were made for. */
  class DeferredFunctors {
    var head: ConsoleFunctorBase?
    var invoked: bool
    ghost var functors: Functors
    ghost var alive: set<ConsoleFunctorBase>
    ghost var rejectedBy: map<ConsoleFunctorBase, Console>

    ghost predicate Valid()
      reads this, functors, alive
    {
      && Linked(head, functors)
      && (forall f :: f in functors ==> f in alive && f.console == null && f.isDeferred)
      && forall f :: f in rejectedBy ==> f in alive && f.console == rejectedBy[f]
    }

    /** The live functors that refer to a console are those it lists and those it rejected; `unbooked` may
        be listed before it is counted as live. */
    ghost predicate Known(console: Console, unbooked: ConsoleFunctorBase?)
      reads this, alive, console
    {
      && (forall f :: f in console.functors ==> f == unbooked || (f in alive && f !in rejectedBy))
      && forall f :: f in alive && f.console == console ==> f in console.functors || f in rejectedBy
    }

    ghost predicate ValidWith(console: Console?)
      reads this, functors, alive, Self(console), if console == null then [] else console.functors
    {
      Valid() && (console != null ==> console.Valid() && Known(console, null))
    }

    constructor ()
      ensures Valid() && functors == [] && !invoked && alive == {} && rejectedBy == map[]
    {
      head, invoked, functors, alive, rejectedBy := null, false, [], {}, map[];
    }

    /** The constructor of a functor without a console: it waits, or, once consoles have asked for the
        waiting ones, registers with the current console, if there is one, and refers to that console
        even if not accepted. */
    method Create(name: string, flags: Flags, typeId: nat, console: Console?) returns (functor: ConsoleFunctorBase)
      requires ValidWith(console)
      modifies this, Node(head)`prev, Self(console), HeadOf(console)`prev
      ensures fresh(functor) && functor.name == name && functor.flags == flags && functor.typeId == typeId
      ensures ValidWith(console) && invoked == old(invoked)
      ensures functors == if invoked then old(functors) else [functor] + old(functors)
      ensures console != null && invoked ==> console.functors == AfterRegister(old(console.functors), functor)
      ensures console != null && !invoked ==> console.functors == old(console.functors)
      ensures functor.isDeferred == (!invoked || console == null)
      ensures functor.console == if invoked then console else null
      ensures Booked(functor, if invoked then console else null, old(alive), old(rejectedBy))
    {
      functor := new ConsoleFunctorBase(name, flags, typeId);
      if invoked {
        if console != null {
          functor.console := console;
          RegisterNew(functor, console);
        }
        Book(functor, console);
      } else {
        Wait(functor, console);
      }
    }

    /** The constructor of a functor with a console. */
    method CreateFor(console: Console, name: string, flags: Flags, typeId: nat) returns (functor: ConsoleFunctorBase)
      requires ValidWith(console)
      modifies this`alive, this`rejectedBy, console, HeadOf(console)`prev
      ensures fresh(functor) && functor.name == name && functor.flags == flags && functor.typeId == typeId
      ensures ValidWith(console) && console.functors == AfterRegister(old(console.functors), functor)
      ensures !functor.isDeferred && functor.console == console
      ensures Booked(functor, console, old(alive), old(rejectedBy))
    {
      functor := new ConsoleFunctorBase(name, flags, typeId);
      functor.console, functor.isDeferred := console, false;
      RegisterMade(functor, console);
      Book(functor, console);
    }

    /** One more live functor, which the console it refers to lists or has rejected. */
    ghost predicate Booked(functor: ConsoleFunctorBase, console: Console?,
                           before: set<ConsoleFunctorBase>, rejectedBefore: map<ConsoleFunctorBase, Console>)
      reads this, Self(console)
    {
      && alive == before + {functor}
      && rejectedBy == if console != null && functor !in console.functors
                       then rejectedBefore[functor := console] else rejectedBefore
    }

    ghost method Book(functor: ConsoleFunctorBase, console: Console?)
      requires Valid() && functor !in alive && functor !in functors && functor.console == console
      requires console != null ==> console.Valid() && Known(console, functor)
      modifies this`alive, this`rejectedBy
      ensures ValidWith(console) && Booked(functor, console, old(alive), old(rejectedBy))
    {
      alive := alive + {functor};
      if console != null && functor !in console.functors {
        rejectedBy := rejectedBy[functor := console];
      }
    }

    method Wait(functor: ConsoleFunctorBase, ghost console: Console?)
      requires ValidWith(console) && functor !in alive && functor.prev == null && functor.next == null
      requires functor.console == null && functor.isDeferred
      modifies this`head, this`functors, this`alive, functor`next, Node(head)`prev
      ensures ValidWith(console) && functors == [functor] + old(functors)
      ensures Booked(functor, null, old(alive), rejectedBy)
      ensures console != null ==> console.functors == old(console.functors)
    {
      assert head != null ==> head in functors;
      assert console != null && head != null ==> head !in console.functors;
      head := functor.Link(head, [functor], functors);
      functors := [functor] + functors;
      alive := alive + {functor};
    }

    method RegisterNew(functor: ConsoleFunctorBase, console: Console)
      requires ValidWith(console) && functor !in alive && functor.prev == null && functor.next == null
      requires functor.console == console
      modifies functor, console, Node(console.head)`prev
      ensures Valid() && console.Valid() && Known(console, functor) && !functor.isDeferred && functor.console == console
      ensures console.functors == AfterRegister(old(console.functors), functor)
    {
      assert console.head != null ==> console.head in console.functors;
      LinkAlone(functor, console);
    }

    static method LinkAlone(functor: ConsoleFunctorBase, console: Console)
      requires console.Valid() && functor !in console.functors && functor.prev == null && functor.next == null
      requires functor.console == console
      modifies functor, console, Node(console.head)`prev
      ensures console.Valid() && !functor.isDeferred && functor.console == console
      ensures console.functors == AfterRegister(old(console.functors), functor)
      ensures console.Grown(old(console.functors), functor)
    {
      var _ := console.LinkDeferredFunctors(functor, [functor]);
    }

    method RegisterMade(functor: ConsoleFunctorBase, console: Console)
      requires ValidWith(console) && functor !in alive && functor.prev == null && functor.next == null
      requires functor.console == console
      modifies functor`console, functor`next, console, Node(console.head)`prev
      ensures Valid() && console.Valid() && Known(console, functor) && functor.console == console
      ensures console.functors == AfterRegister(old(console.functors), functor)
    {
      assert console.head != null ==> console.head in console.functors;
      console.RegisterFunctor(functor);
    }

    /** The destructor of a functor: afterwards no list holds it.  One that was rejected calls the console
        that rejected it, which must not have ended. */
    method Destroy(functor: ConsoleFunctorBase, console: Console?)
      requires ValidWith(console) && functor in alive && functor.console == console
      requires functor in functors || (console != null && functor in console.functors)
            || (functor.prev == null && functor.next == null)
      modifies this, functor, Self(console), Node(functor.prev)`next, Node(functor.next)`prev
      ensures ValidWith(console) && functor !in functors && functors == Without(old(functors), functor)
      ensures alive == old(alive) - {functor} && rejectedBy == old(rejectedBy) - {functor}
      ensures console != null ==>
                functor !in console.functors && console.functors == Without(old(console.functors), functor)
    {
      alive, rejectedBy := alive - {functor}, rejectedBy - {functor};
      if console != null {
        WithoutAbsent(functors, functor);
        Leave(functor, console);
      } else if functor.isDeferred {
        head := functor.Unlink(head, functors);
        functors := Without(functors, functor);
      } else {
        WithoutAbsent(functors, functor);
      }
    }

    /** The functor leaves its console, and the waiting ones stay linked. */
    method Leave(functor: ConsoleFunctorBase, console: Console)
      requires Linked(head, functors) && console.Valid() && functor.console == console && functor !in functors
      requires forall f :: f in functors ==> f.console == null
      requires functor in console.functors || (functor.prev == null && functor.next == null)
      modifies functor, console, Node(functor.prev)`next, Node(functor.next)`prev
      ensures Linked(head, functors) && console.Valid() && console.functors == Without(old(console.functors), functor)
    {
      if functor in console.functors {
        Neighbours(console.head, console.functors, functor);
      }
      console.UnregisterFunctor(functor);
    }

    /** A console takes over what waits.  A functor it rejects refers to no console. */
    method LinkTo(console: Console)
      requires ValidWith(console)
      modifies this, console, Node(console.head)`prev, functors
      ensures ValidWith(console) && functors == [] && invoked
      ensures console.functors == LinkAll(old(console.functors), old(functors))
      ensures alive == old(alive) && rejectedBy == old(rejectedBy)
      ensures forall f :: f in alive ==> f.console == if f in old(functors) && f in console.functors then console
                                                      else old(f.console)
    {
      LinkAllMembers(console.functors, functors);
      TakeOver(console);
    }

    method TakeOver(console: Console)
      requires Valid() && console.Valid()
      modifies this, console, Node(console.head)`prev, functors
      ensures Valid() && console.Valid() && functors == [] && invoked
      ensures alive == old(alive) && rejectedBy == old(rejectedBy)
      ensures console.functors == LinkAll(old(console.functors), old(functors))
      ensures forall f :: f in old(functors) ==> f.console == if f in console.functors then console else null
    {
      invoked := true;
      head := LinkWaiting(console, head, functors);
      functors := [];
    }

    static method LinkWaiting(console: Console, waitingHead: ConsoleFunctorBase?, ghost waiting: Functors)
      returns (newHead: ConsoleFunctorBase?)
      requires console.Valid() && Linked(waitingHead, waiting) && forall f :: f in waiting ==> f.console == null
      modifies console, Node(console.head)`prev, waiting
      ensures console.Valid() && newHead == null && console.functors == LinkAll(old(console.functors), waiting)
      ensures forall f :: f in waiting ==> f.console == if f in console.functors then console else null
    {
      newHead := console.LinkDeferredFunctors(waitingHead, waiting);
    }

    /** The destructor of a console: its functors wait again, behind those that are waiting, and the live
        ones that still refer to it are exactly those it rejected. */
    method TakeBack(console: Console)
      requires ValidWith(console)
      modifies this, console, functors`next
      modifies console.functors`console, console.functors`isDeferred, console.functors`prev
      ensures ValidWith(console) && functors == old(functors) + old(console.functors) && !invoked
      ensures console.functors == [] && alive == old(alive) && rejectedBy == old(rejectedBy)
      ensures forall f :: f in alive ==> (f.console == console <==> f in rejectedBy && rejectedBy[f] == console)
      ensures forall f :: f in alive ==> f.console == if f in old(console.functors) then null else old(f.console)
    {
      head := console.MoveFunctorsToDeferredHead(head, functors);
      functors := functors + old(console.functors);
      invoked := false;
    }

    /** Of two functors with the same name that must not be duplicated the second is discarded, and it
        outlives the console it refers to. */
    method RejectedOutlives(console: Console) returns (functor: ConsoleFunctorBase)
      requires ValidWith(console) && invoked && console.functors == []
      modifies this, Node(head)`prev, console, functors`next
      ensures ValidWith(console) && functor in alive && functor.console == console
    {
      var first := Create("a", DONT_DUPLICATE, 0, console);
      functor := Create("a", DONT_DUPLICATE, 0, console);
      TakeBack(console);
    }

    /** One console ends, with nothing waiting, and another begins: it gets every functor of the first,
        the list and the order under each name turned round. */
    method Rehost(ended: Console, begun: Console)
      requires ValidWith(ended) && ValidWith(begun) && functors == [] && ended != begun && begun.functors == []
      modifies this, ended, begun, ended.functors
      ensures ValidWith(ended) && ValidWith(begun)
      ensures functors == [] && begun.functors == Reversed(old(ended.functors))
      ensures forall key :: Named(begun.functors, key) == Reversed(Named(old(ended.functors), key))
    {
      ghost var all := ended.functors;
      TakeBack(ended);
      assert functors == all;
      LinkTo(begun);
      RelinkTakesAll(all);
      forall key
        ensures Named(begun.functors, key) == Reversed(Named(all, key))
      {
        RelinkReversesNames(all, key);
      }
    }
  }
}
