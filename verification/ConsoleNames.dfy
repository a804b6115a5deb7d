/** Names as the user types them: upper and lower case are the same, flags are bits, and what a name stands
    for is said without the index. */
module ConsoleNames {
  import opened Seqs
  import opened ConsoleFunctors
  import opened ConsoleRegistry
  import opened AutoComplete
  import opened Consoles

  // ---------- upper and lower case ----------

  /** The k-th letter of the alphabet, upper and lower case. */
  predicate CasePair(c: char, d: char, k: nat) {
    k < 26 && c as int == 65 + k && d as int == 97 + k
  }

  ghost predicate SameLetter(c: char, d: char) {
    c == d || (exists k :: CasePair(c, d, k)) || exists k :: CasePair(d, c, k)
  }

  ghost predicate SameText(s: string, t: string) {
    |s| == |t| && forall i :: 0 <= i < |s| ==> SameLetter(s[i], t[i])
  }

  /** Two letters have the same lower case exactly if they are the same but for the case. */
  lemma LowerForgetsCase(c: char, d: char)
    ensures LowerChar(c) == LowerChar(d) <==> SameLetter(c, d)
    ensures SameLetter(c, LowerChar(c)) && !(65 <= LowerChar(c) as int < 91)
  {
    if 65 <= c as int < 91 {
      assert CasePair(c, LowerChar(c), c as int - 65);
    }
    if 65 <= d as int < 91 {
      assert CasePair(d, LowerChar(d), d as int - 65);
    }
  }

  lemma LowerIsSameText(s: string, t: string)
    ensures Lower(s) == Lower(t) <==> SameText(s, t)
  {
    if Lower(s) == Lower(t) {
      assert |s| == |Lower(s)| == |t|;
      forall i | 0 <= i < |s|
        ensures SameLetter(s[i], t[i])
      {
        assert Lower(s)[i] == Lower(t)[i];
        LowerForgetsCase(s[i], t[i]);
      }
    }
    if SameText(s, t) {
      forall i | 0 <= i < |s|
        ensures Lower(s)[i] == Lower(t)[i]
      {
        LowerForgetsCase(s[i], t[i]);
      }
    }
  }

  lemma StartsWithSameText(s: string, prefix: string)
    ensures StartsWith(s, prefix) <==> |s| >= |prefix| && SameText(s[..|prefix|], prefix)
  {
    if |s| >= |prefix| {
      LowerIsSameText(s[..|prefix|], prefix);
    }
  }

  // ---------- what a name stands for ----------

  /** A functor that the command may call: of that name, and not invisible. */
  ghost predicate StandsFor(f: ConsoleFunctorBase, command: string) {
    SameText(f.name, command) && f.flags & 0x10 == 0
  }

  lemma VisibleBit(f: ConsoleFunctorBase)
    ensures f.Invisible() <==> f.flags & 0x10 != 0
    ensures f.Duplicable() <==> f.flags & 0x100 == 0
  {
    var flags := f.flags;
    assert flags & 0x10 == 0 || flags & 0x10 == 0x10;
  }

  lemma {:induction false} FirstVisibleAppend(a: Functors, b: Functors)
    ensures FirstVisible(a + b) == if FirstVisible(a) != null then FirstVisible(a) else FirstVisible(b)
    decreases |a|
  {
    if a == [] {
      assert a + b == b;
    } else {
      ConsAppend(a, b);
      FirstVisibleAppend(a[1..], b);
    }
  }

  /** FindCommand finds the last functor of the list, which is the first registered, that the command may
      call, and nothing exactly if there is none. */
  lemma {:induction false} FoundExactly(l: Functors, command: string)
    ensures var found := FirstVisible(Named(l, Lower(command)));
            && (found == null <==> forall j :: 0 <= j < |l| ==> !StandsFor(l[j], command))
            && (found != null ==> exists i :: 0 <= i < |l| && IsLast(l, command, i) && l[i] == found)
    decreases |l|
  {
    if l != [] {
      var key := Lower(command);
      var rest, one := l[1..], if l[0].Key() == key then [l[0]] else [];
      FoundExactly(rest, command);
      FirstVisibleAppend(Named(rest, key), one);
      LowerIsSameText(l[0].name, command);
      VisibleBit(l[0]);
      var last := FirstVisible(Named(rest, key));
      if last != null {
        var i :| 0 <= i < |rest| && IsLast(rest, command, i) && rest[i] == last;
        LastInLonger(l, command, i);
      } else {
        forall j | 0 < j < |l|
          ensures !StandsFor(l[j], command)
        {
          assert l[j] == rest[j - 1];
        }
        assert StandsFor(l[0], command) ==> IsLast(l, command, 0);
      }
    }
  }

  ghost predicate IsLast(l: Functors, command: string, i: nat)
    requires i < |l|
  {
    StandsFor(l[i], command) && forall j :: i < j < |l| ==> !StandsFor(l[j], command)
  }

  lemma LastInLonger(l: Functors, command: string, i: nat)
    requires l != [] && i < |l| - 1 && IsLast(l[1..], command, i)
    ensures IsLast(l, command, i + 1) && l[i + 1] == l[1..][i]
  {
    forall j | i + 1 < j < |l|
      ensures !StandsFor(l[j], command)
    {
      assert l[j] == l[1..][j - 1];
    }
  }

  /** Commands that differ in case only stand for the same functor, and have the same matches. */
  lemma CaseDoesNotMatter(l: Functors, c: string, d: string)
    requires SameText(c, d)
    ensures FirstVisible(Named(l, Lower(c))) == FirstVisible(Named(l, Lower(d)))
    ensures VisibleMatches(l, c) == VisibleMatches(l, d)
  {
    LowerIsSameText(c, d);
    SameMatches(l, c, d);
  }

  lemma {:induction false} SameMatches(l: Functors, c: string, d: string)
    requires Lower(c) == Lower(d) && |c| == |d|
    ensures VisibleMatches(l, c) == VisibleMatches(l, d)
  {
    if l != [] {
      SameMatches(l[1..], c, d);
    }
  }

  // ---------- what a completion lists ----------

  ghost predicate Listed(f: ConsoleFunctorBase, command: string) {
    f.flags & 0x10 == 0 && |f.name| >= |command| && SameText(f.name[..|command|], command)
  }

  /** One functor after the other, in the order of the list. */
  lemma {:induction false} MatchesInOrder(a: Functors, b: Functors, f: ConsoleFunctorBase, command: string)
    ensures VisibleMatches(a + [f] + b, command)
         == VisibleMatches(a, command) + (if Listed(f, command) then [f.name] else []) + VisibleMatches(b, command)
    decreases |a|
  {
    if a == [] {
      assert a + [f] + b == [f] + b && ([f] + b)[1..] == b;
      StartsWithSameText(f.name, command);
      VisibleBit(f);
    } else {
      assert (a + [f] + b)[0] == a[0] && (a + [f] + b)[1..] == a[1..] + [f] + b;
      MatchesInOrder(a[1..], b, f, command);
    }
  }

  // ---------- who is accepted ----------

  /** May stand under one name: alike, and not to be kept single. */
  predicate Alike(f: ConsoleFunctorBase, g: ConsoleFunctorBase) {
    f.flags == g.flags && f.typeId == g.typeId && f.flags & 0x100 == 0
  }

  /** A functor is accepted exactly if it is not listed and all of its name are like it. */
  lemma AcceptedExactly(l: Functors, f: ConsoleFunctorBase)
    requires Consistent(l)
    ensures AfterRegister(l, f)
         == if f !in l && forall g :: g in l && SameText(g.name, f.name) ==> Alike(f, g) then [f] + l else l
  {
    AcceptsMeans(l, f);
    CompatibleWith(l, f);
    VisibleBit(f);
    forall g | g in l
      ensures MayShare(f, g) <==> (SameText(g.name, f.name) ==> Alike(f, g))
    {
      LowerIsSameText(g.name, f.name);
    }
  }

  /** After any calls: functors of one name have the same flags and type, and none is listed twice. */
  lemma NamesStayAlike(l: Functors, calls: seq<Call>, f: ConsoleFunctorBase, g: ConsoleFunctorBase)
    requires Consistent(l) && f in Run(l, calls) && g in Run(l, calls) && f != g && SameText(f.name, g.name)
    ensures Alike(f, g) && NoRepeats(Run(l, calls))
  {
    LowerIsSameText(f.name, g.name);
    VisibleBit(f);
    RunKeeps(l, calls);
    NotTwo(Run(l, calls), f, g);
  }
}
