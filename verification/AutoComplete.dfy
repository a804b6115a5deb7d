/** Completion of a command: the longest text with which all the names it may stand for begin. */
module AutoComplete {
  import opened ConsoleFunctors

  /** The case-insensitive test of the string functions. */
  predicate StartsWith(s: string, prefix: string) {
    |s| >= |prefix| && Lower(s[..|prefix|]) == Lower(prefix)
  }

  lemma StartsWithMeans(s: string, prefix: string)
    ensures StartsWith(s, prefix)
       <==> |s| >= |prefix| && forall i :: 0 <= i < |prefix| ==> LowerChar(s[i]) == LowerChar(prefix[i])
  {
    if |s| >= |prefix| {
      var a, b := Lower(s[..|prefix|]), Lower(prefix);
      if a == b {
        forall i | 0 <= i < |prefix|
          ensures LowerChar(s[i]) == LowerChar(prefix[i])
        {
          assert a[i] == b[i] && s[..|prefix|][i] == s[i];
        }
      }
    }
  }

  ghost predicate AllStartWith(names: seq<string>, prefix: string) {
    forall n :: n in names ==> StartsWith(n, prefix)
  }

  function CountOf(prefix: string, names: seq<string>): (count: nat)
    decreases |names|
  {
    if names == [] then 0
    else CountOf(prefix, names[..|names| - 1]) + (if StartsWith(names[|names| - 1], prefix) then 1 else 0)
  }

  lemma {:induction false} CountIsFull(prefix: string, names: seq<string>)
    ensures CountOf(prefix, names) <= |names|
    ensures CountOf(prefix, names) == |names| <==> AllStartWith(names, prefix)
    decreases |names|
  {
    if names != [] {
      var init := names[..|names| - 1];
      CountIsFull(prefix, init);
      assert forall n :: n in names <==> n in init || n == names[|names| - 1];
    }
  }

  method CountMatchingPrefixes(prefix: string, stringSet: seq<string>) returns (count: nat)
    ensures count == CountOf(prefix, stringSet)
  {
    count := 0;
    var i := 0;
    while i < |stringSet|
      invariant 0 <= i <= |stringSet| && count == CountOf(prefix, stringSet[..i])
    {
      assert stringSet[..i + 1][..i] == stringSet[..i];
      if StartsWith(stringSet[i], prefix) {
        count := count + 1;
      }
      i := i + 1;
    }
    assert stringSet[..i] == stringSet;
  }

  /** The completion of a command by the names that match it. */
  ghost predicate Completes(command: string, names: seq<string>, result: string) {
    && command <= result && AllStartWith(names, result)
    && forall s :: AllStartWith(names, s) ==> |s| <= |result|
  }

  lemma LongerMatches(names: seq<string>, prefix: string, s: string)
    requires names != [] && |prefix| < |names[0]|
    requires AllStartWith(names, prefix) && AllStartWith(names, s) && |s| > |prefix|
    ensures AllStartWith(names, prefix + [names[0][|prefix|]])
  {
    var longer := prefix + [names[0][|prefix|]];
    assert names[0] in names;
    StartsWithMeans(names[0], s);
    forall n | n in names
      ensures StartsWith(n, longer)
    {
      StartsWithMeans(n, prefix);
      StartsWithMeans(n, s);
      StartsWithMeans(n, longer);
    }
  }

  /** A common beginning that the next letter of one name ends is the longest there is. */
  lemma CannotGrow(names: seq<string>, prefix: string)
    requires names != [] && |prefix| < |names[0]|
    requires AllStartWith(names, prefix) && !AllStartWith(names, prefix + [names[0][|prefix|]])
    ensures forall s :: AllStartWith(names, s) ==> |s| <= |prefix|
  {
    forall s | AllStartWith(names, s)
      ensures |s| <= |prefix|
    {
      if |s| > |prefix| {
        LongerMatches(names, prefix, s);
      }
    }
  }

  lemma NoLongerThanFirst(names: seq<string>)
    requires names != []
    ensures forall s :: AllStartWith(names, s) ==> |s| <= |names[0]|
  {
    forall s | AllStartWith(names, s)
      ensures |s| <= |names[0]|
    {
      assert names[0] in names;
    }
  }

  /** The loop of AutoCompleteCommand over the first name found. */
  method LargestSubstring(command: string, commandSubset: seq<string>) returns (largestSubstring: string)
    requires commandSubset != [] && AllStartWith(commandSubset, command)
    ensures Completes(command, commandSubset, largestSubstring)
    ensures |largestSubstring| <= |commandSubset[0]|
    ensures forall k :: |command| <= k < |largestSubstring| ==> largestSubstring[k] == commandSubset[0][k]
  {
    largestSubstring := command;
    var front := commandSubset[0];
    var totalCount := CountMatchingPrefixes(command, commandSubset);
    CountIsFull(command, commandSubset);
    assert StartsWith(front, command);
    var i := |largestSubstring|;
    while i < |front|
      invariant |command| <= i == |largestSubstring| <= |front| && command <= largestSubstring
      invariant forall k :: |command| <= k < i ==> largestSubstring[k] == front[k]
      invariant AllStartWith(commandSubset, largestSubstring)
    {
      var nextSubstring := largestSubstring + [front[i]];
      var count := CountMatchingPrefixes(nextSubstring, commandSubset);
      CountIsFull(nextSubstring, commandSubset);
      if count < totalCount {
        CannotGrow(commandSubset, largestSubstring);
        return;
      }
      largestSubstring := nextSubstring;
      i := i + 1;
    }
    NoLongerThanFirst(commandSubset);
  }
}
