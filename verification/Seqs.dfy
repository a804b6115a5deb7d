/** Sequence facts the verifier needs spelled out, one small lemma each. */
module Seqs {
  lemma Assoc<T>(a: seq<T>, b: seq<T>, c: seq<T>)
    ensures a + (b + c) == (a + b) + c
  {
  }

  /** How the head-and-tail recursions see a concatenation. */
  lemma ConsAppend<T>(a: seq<T>, b: seq<T>)
    requires a != []
    ensures a + b != [] && (a + b)[0] == a[0]
    ensures (a + b)[1..] == a[1..] + b
  {
  }

  lemma SplitEqual<T>(a: seq<T>, b: seq<T>, c: seq<T>, d: seq<T>)
    requires |a| == |b|
    ensures a + c == b + d <==> a == b && c == d
  {
    if a + c == b + d {
      assert a == (a + c)[..|a|] && c == (a + c)[|a|..];
      assert b == (b + d)[..|b|] && d == (b + d)[|b|..];
    }
  }

  /** s with the elements from `at` on replaced by data. */
  function Overwrite<T>(s: seq<T>, at: nat, data: seq<T>): (r: seq<T>)
    requires at + |data| <= |s|
    ensures |r| == |s|
  {
    s[..at] + data + s[at + |data|..]
  }

  lemma OverwriteSlices<T>(s: seq<T>, at: nat, data: seq<T>)
    requires at + |data| <= |s|
    ensures var r := Overwrite(s, at, data);
            r[..at] == s[..at] && r[at..at + |data|] == data && r[at + |data|..] == s[at + |data|..]
  {
  }

  lemma JoinSlices<T>(s: seq<T>, a: nat, b: nat, c: nat)
    requires a <= b <= c <= |s|
    ensures s[a..b] + s[b..c] == s[a..c]
  {
  }

  lemma SliceOfPrefix<T>(s: seq<T>, r: seq<T>, a: nat, b: nat, n: nat)
    requires a <= b <= n <= |s| && n <= |r| && s[..n] == r[..n]
    ensures s[a..b] == r[a..b]
  {
    assert s[a..b] == s[..n][a..b] && r[a..b] == r[..n][a..b];
  }

  lemma SliceOfSuffix<T>(s: seq<T>, r: seq<T>, n: nat, a: nat, b: nat)
    requires n <= a <= b <= |s| == |r| && s[n..] == r[n..]
    ensures s[a..b] == r[a..b]
  {
    forall i | a <= i < b
      ensures s[i] == r[i]
    {
      assert s[i] == s[n..][i - n] && r[i] == r[n..][i - n];
    }
  }

  lemma TakeOneMore<T>(s: seq<T>, n: nat)
    requires n < |s|
    ensures s[..n] + [s[n]] == s[..n + 1]
  {
  }

  lemma SplitAt<T>(s: seq<T>, k: nat)
    requires k < |s|
    ensures s == s[..k] + s[k..]
    ensures s[k..] == [s[k]] + s[k + 1..]
    ensures s[k..] != [] && s[k..][0] == s[k] && s[k..][1..] == s[k + 1..]
  {
  }

  lemma SliceOfDrop<T>(s: seq<T>, n: nat, a: nat, b: nat)
    requires a <= b && n + b <= |s|
    ensures s[n..][a..b] == s[n + a..n + b]
  {
  }

  lemma DropOfAppend<T>(a: seq<T>, b: seq<T>, n: nat)
    requires n <= |a|
    ensures (a + b)[n..] == a[n..] + b
  {
  }

  // ---------- lists without repeats ----------

  predicate NoRepeats<T(==)>(s: seq<T>) {
    forall i, j :: 0 <= i < j < |s| ==> Differ(s, i, j)
  }

  predicate Differ<T(==)>(s: seq<T>, i: nat, j: nat)
    requires i < |s| && j < |s|
  {
    s[i] != s[j]
  }

  lemma Once<T>(s: seq<T>, i: nat)
    requires NoRepeats(s) && i < |s|
    ensures forall j :: 0 <= j < |s| && j != i ==> s[j] != s[i]
  {
    forall j | 0 <= j < |s| && j != i
      ensures s[j] != s[i]
    {
      assert if i < j then Differ(s, i, j) else Differ(s, j, i);
    }
  }

  lemma NoRepeatsTail<T>(s: seq<T>)
    requires NoRepeats(s) && s != []
    ensures NoRepeats(s[1..]) && s[0] !in s[1..]
  {
    Once(s, 0);
    forall i, j | 0 <= i < j < |s[1..]|
      ensures Differ(s[1..], i, j)
    {
      assert Differ(s, i + 1, j + 1);
    }
  }

  lemma NoRepeatsAppend<T>(a: seq<T>, b: seq<T>)
    ensures NoRepeats(a + b) <==> NoRepeats(a) && NoRepeats(b) && forall x :: x in a ==> x !in b
  {
    var s := a + b;
    if NoRepeats(s) {
      forall i, j | 0 <= i < j < |a|
        ensures Differ(a, i, j)
      {
        assert Differ(s, i, j);
      }
      forall i, j | 0 <= i < j < |b|
        ensures Differ(b, i, j)
      {
        assert Differ(s, |a| + i, |a| + j);
      }
      forall i, j | 0 <= i < |a| && 0 <= j < |b|
        ensures a[i] != b[j]
      {
        assert Differ(s, i, |a| + j);
      }
    } else {
      var i, j :| 0 <= i < j < |s| && !Differ(s, i, j);
      assert j < |a| ==> !Differ(a, i, j);
      assert i >= |a| ==> !Differ(b, i - |a|, j - |a|);
      assert i < |a| <= j ==> a[i] in a && b[j - |a|] in b;
    }
  }

  /** s with x left out: what find and erase leave of a list without repeats. */
  function Without<T(==)>(s: seq<T>, x: T): (r: seq<T>)
    ensures forall y :: y in r ==> y in s && y != x
    ensures forall y :: y in s && y != x ==> y in r
  {
    if s == [] then [] else (if s[0] == x then [] else [s[0]]) + Without(s[1..], x)
  }

  lemma {:induction false} WithoutAbsent<T>(s: seq<T>, x: T)
    requires x !in s
    ensures Without(s, x) == s
  {
    if s != [] {
      WithoutAbsent(s[1..], x);
    }
  }

  lemma {:induction false} WithoutAppend<T>(a: seq<T>, b: seq<T>, x: T)
    ensures Without(a + b, x) == Without(a, x) + Without(b, x)
  {
    if a == [] {
      assert a + b == b;
    } else {
      assert (a + b)[1..] == a[1..] + b;
      WithoutAppend(a[1..], b, x);
    }
  }

  lemma {:induction false} WithoutNoRepeats<T>(s: seq<T>, x: T)
    requires NoRepeats(s)
    ensures NoRepeats(Without(s, x))
  {
    if s != [] {
      NoRepeatsTail(s);
      WithoutNoRepeats(s[1..], x);
      NoRepeatsAppend(if s[0] == x then [] else [s[0]], Without(s[1..], x));
    }
  }
}
