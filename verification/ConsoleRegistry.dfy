/** What a console holds after registrations: its list as a value, and the index the list determines. */
module ConsoleRegistry {
  import opened ConsoleFunctors
  import opened Seqs

  type Functors = seq<ConsoleFunctorBase>

  /** The functors of a list under one name, the oldest first: a list grows at its front. */
  function Named(l: Functors, key: string): Functors {
    if l == [] then [] else Named(l[1..], key) + (if l[0].Key() == key then [l[0]] else [])
  }

  predicate SameKind(f: ConsoleFunctorBase, g: ConsoleFunctorBase) {
    f.flags == g.flags && f.typeId == g.typeId
  }

  /** Two functors may be registered together: under different names, or alike and duplicable. */
  predicate MayShare(f: ConsoleFunctorBase, g: ConsoleFunctorBase) {
    f.Key() == g.Key() ==> SameKind(f, g) && f.Duplicable()
  }

  predicate Compatible(l: Functors) {
    forall i, j {:trigger MayShare(l[i], l[j])} :: 0 <= i < j < |l| ==> MayShare(l[i], l[j])
  }

  /** The test a new functor must pass: only the oldest of its name is looked at. */
  predicate Accepts(l: Functors, f: ConsoleFunctorBase) {
    var filed := Named(l, f.Key());
    f !in filed && (filed != [] ==> SameKind(filed[0], f) && filed[0].Duplicable())
  }

  function AfterRegister(l: Functors, f: ConsoleFunctorBase): Functors {
    if Accepts(l, f) then [f] + l else l
  }

  datatype Call = Register(functor: ConsoleFunctorBase) | Unregister(functor: ConsoleFunctorBase)

  function After(l: Functors, c: Call): Functors {
    match c
    case Register(f) => AfterRegister(l, f)
    case Unregister(f) => Without(l, f)
  }

  function Run(l: Functors, calls: seq<Call>): Functors
    decreases |calls|
  {
    if calls == [] then l else Run(After(l, calls[0]), calls[1..])
  }

  /** Registers the functors of a deferred list, the front first. */
  function LinkAll(l: Functors, deferred: Functors): Functors
    decreases |deferred|
  {
    if deferred == [] then l else LinkAll(AfterRegister(l, deferred[0]), deferred[1..])
  }

  function Reversed(l: Functors): (r: Functors)
    ensures |r| == |l|
    decreases |l|
  {
    if l == [] then [] else [l[|l| - 1]] + Reversed(l[..|l| - 1])
  }

  // ---------- names ----------

  lemma {:induction false} NamedMembers(l: Functors, key: string)
    ensures forall f :: f in Named(l, key) ==> f in l && f.Key() == key
    ensures forall f :: f in l && f.Key() == key ==> f in Named(l, key)
  {
    if l != [] {
      NamedMembers(l[1..], key);
      assert forall f :: f in l ==> f == l[0] || f in l[1..];
    }
  }

  lemma {:induction false} NamedAppend(a: Functors, b: Functors, key: string)
    ensures Named(a + b, key) == Named(b, key) + Named(a, key)
  {
    if a == [] {
      assert a + b == b;
    } else {
      assert (a + b)[1..] == a[1..] + b;
      NamedAppend(a[1..], b, key);
    }
  }

  lemma {:induction false} NamedWithout(l: Functors, f: ConsoleFunctorBase, key: string)
    ensures Named(Without(l, f), key) == Without(Named(l, key), f)
  {
    if l != [] {
      var one := if l[0].Key() == key then [l[0]] else [];
      NamedWithout(l[1..], f, key);
      WithoutAppend(Named(l[1..], key), one, f);
      NamedAppend(if l[0] == f then [] else [l[0]], Without(l[1..], f), key);
    }
  }

  lemma {:induction false} NamedNoRepeats(l: Functors, key: string)
    requires NoRepeats(l)
    ensures NoRepeats(Named(l, key))
  {
    if l != [] {
      NoRepeatsTail(l);
      NamedNoRepeats(l[1..], key);
      NamedMembers(l[1..], key);
      NoRepeatsAppend(Named(l[1..], key), if l[0].Key() == key then [l[0]] else []);
    }
  }

  // ---------- compatibility ----------

  lemma CompatibleWith(l: Functors, f: ConsoleFunctorBase)
    ensures Compatible([f] + l) <==> Compatible(l) && forall g :: g in l ==> MayShare(f, g)
  {
    var m := [f] + l;
    if Compatible(m) {
      forall i, j | 0 <= i < j < |l|
        ensures MayShare(l[i], l[j])
      {
        assert MayShare(m[i + 1], m[j + 1]);
      }
      forall g | g in l
        ensures MayShare(f, g)
      {
        var i :| 0 <= i < |l| && l[i] == g;
        assert MayShare(m[0], m[i + 1]);
      }
    }
    if Compatible(l) && forall g :: g in l ==> MayShare(f, g) {
      forall i, j | 0 <= i < j < |m|
        ensures MayShare(m[i], m[j])
      {
        assert m[j] == l[j - 1];
        assert i > 0 ==> MayShare(l[i - 1], l[j - 1]);
      }
    }
  }

  /** Looking at the oldest functor of the name is as good as looking at all of the list. */
  lemma AcceptsMeans(l: Functors, f: ConsoleFunctorBase)
    requires Compatible(l)
    ensures Accepts(l, f) <==> f !in l && Compatible([f] + l)
  {
    NamedMembers(l, f.Key());
    CompatibleWith(l, f);
    var filed := Named(l, f.Key());
    if filed != [] {
      assert filed[0] in filed;
      forall g | g in l && g.Key() == f.Key()
        ensures SameKind(filed[0], g)
      {
        LikeKinds(l, filed[0], g);
      }
    }
  }

  lemma LikeKinds(l: Functors, f: ConsoleFunctorBase, g: ConsoleFunctorBase)
    requires Compatible(l) && f in l && g in l && f.Key() == g.Key()
    ensures SameKind(f, g)
  {
    var i :| 0 <= i < |l| && l[i] == f;
    var j :| 0 <= j < |l| && l[j] == g;
    if i < j {
      assert MayShare(l[i], l[j]);
    } else if j < i {
      assert MayShare(l[j], l[i]);
    }
  }

  lemma {:induction false} CompatibleWithout(l: Functors, f: ConsoleFunctorBase)
    requires Compatible(l)
    ensures Compatible(Without(l, f))
  {
    if l != [] {
      assert l == [l[0]] + l[1..];
      CompatibleWith(l[1..], l[0]);
      CompatibleWithout(l[1..], f);
      CompatibleWith(Without(l[1..], f), l[0]);
      assert [] + Without(l[1..], f) == Without(l[1..], f);
    }
  }

  // ---------- runs ----------

  ghost predicate Consistent(l: Functors) {
    NoRepeats(l) && Compatible(l)
  }

  lemma RegisterKeeps(l: Functors, f: ConsoleFunctorBase)
    requires Consistent(l)
    ensures Consistent(AfterRegister(l, f))
  {
    if Accepts(l, f) {
      AcceptsMeans(l, f);
      NoRepeatsAppend([f], l);
    }
  }

  lemma UnregisterKeeps(l: Functors, f: ConsoleFunctorBase)
    requires Consistent(l)
    ensures Consistent(Without(l, f))
  {
    WithoutNoRepeats(l, f);
    CompatibleWithout(l, f);
  }

  /** After any calls, functors under one name are alike, and one that must not be duplicated is the
      only one under its name. */
  lemma {:induction false} RunKeeps(l: Functors, calls: seq<Call>)
    requires Consistent(l)
    ensures Consistent(Run(l, calls))
    ensures var end := Run(l, calls);
            forall f, g :: f in end && g in end && f.Key() == g.Key() ==>
              SameKind(f, g) && (f.Duplicable() || Named(end, f.Key()) == [f])
    decreases |calls|
  {
    if calls == [] {
      forall f, g | f in l && g in l && f.Key() == g.Key()
        ensures SameKind(f, g) && (f.Duplicable() || Named(l, f.Key()) == [f])
      {
        LikeKinds(l, f, g);
        OnlyOne(l, f);
      }
    } else {
      RegisterKeeps(l, calls[0].functor);
      UnregisterKeeps(l, calls[0].functor);
      RunKeeps(After(l, calls[0]), calls[1..]);
    }
  }

  lemma NotTwo(l: Functors, f: ConsoleFunctorBase, g: ConsoleFunctorBase)
    requires Compatible(l) && f in l && g in l && f.Key() == g.Key() && f != g
    ensures f.Duplicable()
  {
    var i :| 0 <= i < |l| && l[i] == f;
    var j :| 0 <= j < |l| && l[j] == g;
    if i < j {
      assert MayShare(l[i], l[j]);
    } else {
      assert MayShare(l[j], l[i]);
    }
  }

  lemma OnlyOne(l: Functors, f: ConsoleFunctorBase)
    requires Consistent(l) && f in l
    ensures f.Duplicable() || Named(l, f.Key()) == [f]
  {
    var filed := Named(l, f.Key());
    NamedMembers(l, f.Key());
    NamedNoRepeats(l, f.Key());
    var k :| 0 <= k < |filed| && filed[k] == f;
    Once(filed, k);
    if |filed| > 1 {
      var other := filed[if k == 0 then 1 else 0];
      assert other in filed;
      NotTwo(l, f, other);
    }
  }

  /** Unregistering takes back the registration before it. */
  lemma UnregisterUndoes(l: Functors, f: ConsoleFunctorBase)
    requires f !in l
    ensures Run(l, [Register(f), Unregister(f)]) == l
  {
    WithoutAbsent(l, f);
    WithoutAppend([f], l, f);
    var calls := [Register(f), Unregister(f)];
    assert calls[1..] == [Unregister(f)] && calls[1..][1..] == [];
    assert [] + l == l;
    assert Run(After(l, calls[0]), calls[1..]) == Without(AfterRegister(l, f), f);
  }

  // ---------- hand-over ----------

  lemma {:induction false} LinkAllSnoc(l: Functors, deferred: Functors, f: ConsoleFunctorBase)
    ensures LinkAll(l, deferred + [f]) == AfterRegister(LinkAll(l, deferred), f)
    decreases |deferred|
  {
    var more := deferred + [f];
    if deferred == [] {
      assert more == [f] && more[1..] == [];
    } else {
      assert more[1..] == deferred[1..] + [f];
      LinkAllSnoc(AfterRegister(l, deferred[0]), deferred[1..], f);
    }
  }

  lemma {:induction false} LinkAllMembers(l: Functors, deferred: Functors)
    ensures forall f :: f in LinkAll(l, deferred) ==> f in l || f in deferred
    ensures forall f :: f in l ==> f in LinkAll(l, deferred)
    ensures |LinkAll(l, deferred)| <= |l| + |deferred|
    decreases |deferred|
  {
    if deferred != [] {
      LinkAllMembers(AfterRegister(l, deferred[0]), deferred[1..]);
    }
  }

  lemma {:induction false} LinkAllKeeps(l: Functors, deferred: Functors)
    requires Consistent(l)
    ensures Consistent(LinkAll(l, deferred))
    decreases |deferred|
  {
    if deferred != [] {
      RegisterKeeps(l, deferred[0]);
      LinkAllKeeps(AfterRegister(l, deferred[0]), deferred[1..]);
    }
  }

  lemma {:induction false} ReversedMembers(l: Functors)
    ensures forall f :: f in l ==> f in Reversed(l)
    ensures forall f :: f in Reversed(l) ==> f in l
    decreases |l|
  {
    if l != [] {
      TakeOneMore(l, |l| - 1);
      ReversedMembers(l[..|l| - 1]);
    }
  }

  /** An empty console takes over a deferred list whole, turned round, exactly when the functors of the
      list are different ones that may be registered together. */
  lemma {:induction false} RelinkTakesAll(deferred: Functors)
    ensures LinkAll([], deferred) == Reversed(deferred) <==> Consistent(deferred)
    decreases |deferred|
  {
    if deferred != [] {
      var f, init := deferred[|deferred| - 1], deferred[..|deferred| - 1];
      RelinkTakesAll(init);
      RelinkOne(init, f);
      LinkAllSnoc([], init, f);
      ConsistentSnoc(init, f);
      assert deferred == init + [f];
    }
  }

  lemma RelinkOne(init: Functors, f: ConsoleFunctorBase)
    ensures AfterRegister(LinkAll([], init), f) == [f] + Reversed(init)
       <==> LinkAll([], init) == Reversed(init) && f !in init && forall g :: g in init ==> MayShare(g, f)
  {
    var l := LinkAll([], init);
    LinkAllMembers([], init);
    LinkAllKeeps([], init);
    assert ([f] + l)[1..] == l && ([f] + Reversed(init))[1..] == Reversed(init);
    if l == Reversed(init) {
      AcceptsMeans(l, f);
      CompatibleWith(l, f);
      ReversedMembers(init);
    }
  }

  lemma ConsistentSnoc(init: Functors, f: ConsoleFunctorBase)
    ensures Consistent(init + [f]) <==> Consistent(init) && f !in init && forall g :: g in init ==> MayShare(g, f)
  {
    var l := init + [f];
    NoRepeatsAppend(init, [f]);
    if Consistent(l) {
      forall i, j | 0 <= i < j < |init|
        ensures MayShare(init[i], init[j])
      {
        assert MayShare(l[i], l[j]);
      }
      forall g | g in init
        ensures MayShare(g, f)
      {
        var i :| 0 <= i < |init| && init[i] == g;
        assert MayShare(l[i], l[|init|]);
      }
    }
  }

  lemma {:induction false} ReversedCons(f: ConsoleFunctorBase, l: Functors)
    ensures Reversed([f] + l) == Reversed(l) + [f]
    decreases |l|
  {
    var m := [f] + l;
    if l == [] {
      assert m == [f];
    } else {
      assert m[..|m| - 1] == [f] + l[..|l| - 1];
      ReversedCons(f, l[..|l| - 1]);
    }
  }

  /** Turning the list round turns the order under every name round. */
  lemma {:induction false} RelinkReversesNames(l: Functors, key: string)
    ensures Named(Reversed(l), key) == Reversed(Named(l, key))
    decreases |l|
  {
    if l != [] {
      var f, init := l[|l| - 1], l[..|l| - 1];
      assert l == init + [f];
      NamedAppend(init, [f], key);
      NamedAppend([f], Reversed(init), key);
      RelinkReversesNames(init, key);
      assert [f][1..] == [];
      if f.Key() == key {
        assert Named([f], key) == [f];
        ReversedCons(f, Named(init, key));
      } else {
        assert Named([f], key) == [];
        assert [] + Named(init, key) == Named(init, key);
        assert Named(Reversed(init), key) + [] == Named(Reversed(init), key);
      }
    }
  }

  ghost predicate MayJoin(a: Functors, b: Functors) {
    forall f, g :: f in a && g in b ==> f != g && MayShare(f, g)
  }

  /** The deferred list after a hand-over is the old one and the console's; what an empty console takes
      from it is all of it exactly when the two may be registered together. */
  lemma HandOver(deferred: Functors, functors: Functors)
    requires Consistent(functors)
    ensures LinkAll([], deferred + functors) == Reversed(deferred + functors)
       <==> Consistent(deferred) && MayJoin(deferred, functors)
  {
    RelinkTakesAll(deferred + functors);
    ConsistentAppend(deferred, functors);
  }

  /** With nothing deferred before, everything comes back, turned round. */
  lemma HandOverAll(functors: Functors, key: string)
    requires Consistent(functors)
    ensures LinkAll([], [] + functors) == Reversed(functors)
    ensures Named(LinkAll([], [] + functors), key) == Reversed(Named(functors, key))
  {
    assert [] + functors == functors;
    RelinkTakesAll(functors);
    RelinkReversesNames(functors, key);
  }

  lemma ConsistentAppend(a: Functors, b: Functors)
    requires Consistent(b)
    ensures Consistent(a + b) <==> Consistent(a) && MayJoin(a, b)
  {
    var l := a + b;
    NoRepeatsAppend(a, b);
    if Consistent(l) {
      assert forall i :: 0 <= i < |a| ==> l[i] == a[i];
      forall f, g | f in a && g in b
        ensures MayShare(f, g)
      {
        var i :| 0 <= i < |a| && a[i] == f;
        var j :| 0 <= j < |b| && b[j] == g;
        assert MayShare(l[i], l[|a| + j]);
      }
    }
    if Consistent(a) && MayJoin(a, b) {
      forall i, j | 0 <= i < j < |l|
        ensures MayShare(l[i], l[j])
      {
        assert i < |a| ==> a[i] in a;
        assert j >= |a| ==> b[j - |a|] in b;
        assert i >= |a| ==> MayShare(b[i - |a|], b[j - |a|]);
      }
    }
  }
}
