/** What any run of the queue policy guarantees, and when functions run in the order of queueing. */
module QueuePolicyRuns {
  import opened QueuePolicy

  /** Every function ever queued is in exactly one place, so none runs twice, and one that neither ran
      nor waits was dropped. */
  lemma EachFunctionOnce(init: State, steps: seq<Step>, s: State, id: nat)
    requires Init(init) && IsRun(init, steps, s)
    ensures Occurs(s.messages, id) + PendingCount(s.calls, id) + Occurs(Ids(s.executed), id) + Occurs(s.dropped, id)
         == if id < s.next then 1 else 0
  {
    ReachableInv(init, steps, s);
    assert Places(s, id) == if id < s.next then 1 else 0;
  }

  predicate Drops(step: Step) {
    step == Clear || step == SetActive(false)
  }

  /** Only Clear and SetActive(false) drop anything. */
  lemma {:induction false} OnlyTheseDrop(s: State, steps: seq<Step>, end: State)
    requires IsRun(s, steps, end) && forall i :: 0 <= i < |steps| ==> !Drops(steps[i])
    ensures end.dropped == s.dropped
    decreases |steps|
  {
    if steps != [] {
      assert !Drops(steps[0]);
      forall i | 0 <= i < |steps[1..]|
        ensures !Drops(steps[1..][i])
      {
        assert !Drops(steps[i + 1]);
      }
      OnlyTheseDrop(Do(s, steps[0]), steps[1..], end);
    }
  }

  lemma {:induction false} DroppedStay(s: State, steps: seq<Step>, end: State)
    requires IsRun(s, steps, end)
    ensures s.dropped <= end.dropped
    decreases |steps|
  {
    if steps != [] {
      DroppedStay(Do(s, steps[0]), steps[1..], end);
    }
  }

  lemma {:induction false} CountedOnce(l: seq<nat>, id: nat)
    ensures Occurs(l, id) > 0 <==> id in l
  {
  }

  /** After Clear or SetActive(false) the queue is empty, and what was queued is dropped for good: it is
      never run, nor queued again. */
  lemma DroppedNeverRuns(init: State, before: seq<Step>, s: State, step: Step, s': State, more: seq<Step>, end: State)
    requires Init(init) && IsRun(init, before, s) && (step == Clear || step == SetActive(false))
    requires IsRun(s, [step], s') && IsRun(s', more, end)
    ensures s'.messages == [] && s'.dropped == s.dropped + s.messages && s'.executed == s.executed
    ensures forall id :: id in s.messages ==> id in end.dropped && id !in Ids(end.executed) && id !in end.messages
  {
    assert [step][1..] == [] && IsRun(Do(s, step), [], s');
    ReachableInv(init, before, s);
    StepKeeps(s, step);
    RunKeeps(s', more, end);
    DroppedStay(s', more, end);
    forall id | id in s.messages
      ensures id in end.dropped && id !in Ids(end.executed) && id !in end.messages
    {
      assert id in s'.dropped;
      CountedOnce(end.dropped, id);
      CountedOnce(Ids(end.executed), id);
      CountedOnce(end.messages, id);
      assert Places(end, id) <= 1;
    }
  }

  // ---------- one Execute ----------

  lemma {:induction false} CallsStay(s: State, steps: seq<Step>, end: State)
    requires IsRun(s, steps, end)
    ensures |s.calls| <= |end.calls|
    ensures forall e :: 0 <= e < |s.calls| ==> end.calls[e].swapped == s.calls[e].swapped
    decreases |steps|
  {
    if steps != [] {
      CallsStay(Do(s, steps[0]), steps[1..], end);
    }
  }

  lemma {:induction false} RanHas(executed: seq<Done>, i: nat)
    requires i < |executed|
    ensures executed[i].id in Ran(executed, executed[i].call)
    decreases |executed|
  {
    var last := |executed| - 1;
    if i < last {
      RanHas(executed[..last], i);
    }
  }

  /** Where the ids of a call stand in the line of all calls. */
  lemma {:induction false} SwappedAt(calls: seq<Call>, e: nat, k: nat)
    requires e < |calls| && k < |calls[e].swapped|
    ensures |Swapped(calls[..e])| + k < |Swapped(calls)|
    ensures Swapped(calls)[|Swapped(calls[..e])| + k] == calls[e].swapped[k]
  {
    if e > 0 {
      assert calls[..e][0] == calls[0] && calls[..e][1..] == calls[1..][..e - 1];
      SwappedAt(calls[1..], e - 1, k);
    }
  }

  lemma SwappedBefore(calls: seq<Call>, e: nat, f: nat)
    requires e < f < |calls|
    ensures |Swapped(calls[..e])| + |calls[e].swapped| <= |Swapped(calls[..f])|
    decreases f
  {
    assert calls[..f] == calls[..f - 1] + [calls[f - 1]];
    SwappedAppend(calls[..f - 1], calls[f - 1]);
    if e < f - 1 {
      SwappedBefore(calls, e, f - 1);
    }
  }

  /** An id of an earlier call is smaller. */
  lemma EarlierIsSmaller(s: State, e: nat, k: nat, f: nat, l: nat)
    requires Inv(s) && e <= f < |s.calls| && k < |s.calls[e].swapped| && l < |s.calls[f].swapped|
    requires e < f || k < l
    ensures s.calls[e].swapped[k] < s.calls[f].swapped[l] < s.next
  {
    SwappedAt(s.calls, e, k);
    SwappedAt(s.calls, f, l);
    if e < f {
      SwappedBefore(s.calls, e, f);
    }
    var i, j := |Swapped(s.calls[..e])| + k, |Swapped(s.calls[..f])| + l;
    assert Line(s)[i] < Line(s)[j] < s.next;
  }

  /** What ran is among what its call swapped out. */
  lemma ExecutedAt(s: State, i: nat) returns (k: nat)
    requires Inv(s) && i < |s.executed|
    ensures s.executed[i].call < |s.calls|
    ensures k < |s.calls[s.executed[i].call].swapped| && s.calls[s.executed[i].call].swapped[k] == s.executed[i].id
  {
    var e := s.executed[i].call;
    RanHas(s.executed, i);
    assert CallOk(s, e);
    var ran := Ran(s.executed, e);
    k :| 0 <= k < |ran| && ran[k] == s.executed[i].id;
  }

  /** One Execute runs what is queued at its swap, in order, and all of it by the time it ends; what is
      queued while it runs is left to a later one. */
  lemma ExecuteRunsTheQueue(init: State, before: seq<Step>, s: State, more: seq<Step>, end: State)
    requires Init(init) && IsRun(init, before, s) && IsRun(Do(s, Swap), more, end)
    ensures var e := |s.calls|;
            && e < |end.calls| && Ran(end.executed, e) + end.calls[e].Pending() == s.messages
            && (end.calls[e].local == [] ==> Ran(end.executed, e) == s.messages)
            && forall i :: 0 <= i < |end.executed| && end.executed[i].id >= s.next ==> end.executed[i].call > e
  {
    var e, after := |s.calls|, Do(s, Swap);
    ReachableInv(init, before, s);
    StepKeeps(s, Swap);
    RunKeeps(after, more, end);
    CallsStay(after, more, end);
    assert after.calls[e].swapped == s.messages;
    assert CallOk(end, e);
    assert Ran(end.executed, e) + [] == Ran(end.executed, e);
    forall i | 0 <= i < |end.executed| && end.executed[i].call <= e
      ensures end.executed[i].id < s.next
    {
      var c := end.executed[i].call;
      var k := ExecutedAt(end, i);
      SwappedAt(after.calls, c, k);
      assert Line(after)[|Swapped(after.calls[..c])| + k] < after.next;
    }
  }

  // ---------- the order across calls ----------

  /** A function is started while an earlier call of Execute still has functions to start: that call is
      an outer one, or one on another thread. */
  ghost predicate Overtakes(s: State, step: Step) {
    step.Begin? && exists e :: 0 <= e < step.e && e < |s.calls| && s.calls[e].Pending() != []
  }

  ghost predicate Overtaken(s: State, steps: seq<Step>)
    decreases |steps|
  {
    steps != [] && Enabled(s, steps[0]) && (Overtakes(s, steps[0]) || Overtaken(Do(s, steps[0]), steps[1..]))
  }

  predicate InOrder(s: State) {
    Increasing(Ids(s.executed))
  }

  ghost predicate Ahead(s: State) {
    forall i, e, k :: 0 <= i < |s.executed| && 0 <= e < |s.calls| && 0 <= k < |s.calls[e].Pending()| ==>
      Ids(s.executed)[i] < s.calls[e].Pending()[k]
  }

  ghost predicate Good(s: State) {
    InOrder(s) && Ahead(s)
  }

  lemma PendingAt(s: State, e: nat, k: nat) returns (l: nat)
    requires Inv(s) && e < |s.calls| && k < |s.calls[e].Pending()|
    ensures l == |Ran(s.executed, e)| + k < |s.calls[e].swapped| && s.calls[e].swapped[l] == s.calls[e].Pending()[k]
  {
    assert CallOk(s, e);
    l := |Ran(s.executed, e)| + k;
  }

  lemma PendingGrows(s: State, e: nat, k: nat, f: nat, l: nat)
    requires Inv(s) && e <= f < |s.calls| && k < |s.calls[e].Pending()| && l < |s.calls[f].Pending()|
    requires e < f || k < l
    ensures s.calls[e].Pending()[k] < s.calls[f].Pending()[l]
  {
    var i := PendingAt(s, e, k);
    var j := PendingAt(s, f, l);
    EarlierIsSmaller(s, e, i, f, j);
  }

  lemma BeginKeepsGood(s: State, b: nat)
    requires Inv(s) && Good(s) && Enabled(s, Begin(b)) && !Overtakes(s, Begin(b))
    ensures Good(Do(s, Begin(b)))
  {
    var after := Do(s, Begin(b));
    var x := s.calls[b].local[0];
    IdsAppend(s.executed, Done(b, x));
    assert s.calls[b].Pending()[0] == x;
    forall i, e, k | 0 <= i < |after.executed| && 0 <= e < |after.calls| && 0 <= k < |after.calls[e].Pending()|
      ensures Ids(after.executed)[i] < after.calls[e].Pending()[k]
    {
      var was := if e == b then k + 1 else k;
      assert after.calls[e].Pending()[k] == s.calls[e].Pending()[was];
      if i == |s.executed| {
        assert e >= b;
        PendingGrows(s, b, 0, e, was);
      }
    }
  }

  lemma SwapKeepsGood(s: State)
    requires Inv(s) && Good(s)
    ensures Good(Do(s, Swap))
  {
    var after := Do(s, Swap);
    StepKeeps(s, Swap);
    forall i, e, k | 0 <= i < |after.executed| && 0 <= e < |after.calls| && 0 <= k < |after.calls[e].Pending()|
      ensures Ids(after.executed)[i] < after.calls[e].Pending()[k]
    {
      if e == |s.calls| {
        var j := ExecutedAt(s, i);
        EarlierIsSmaller(after, s.executed[i].call, j, e, k);
      } else {
        assert after.calls[e] == s.calls[e];
      }
    }
  }

  lemma EndKeepsPending(s: State, f: nat)
    requires Enabled(s, End(f))
    ensures forall e :: 0 <= e < |s.calls| ==> Do(s, End(f)).calls[e].Pending() == s.calls[e].Pending()
  {
  }

  lemma StepKeepsGood(s: State, step: Step)
    requires Inv(s) && Good(s) && Enabled(s, step) && !Overtakes(s, step)
    ensures Good(Do(s, step))
  {
    match step
    case Begin(b) => BeginKeepsGood(s, b);
    case Swap => SwapKeepsGood(s);
    case End(f) =>
      EndKeepsPending(s, f);
      assert Ahead(Do(s, step));
    case _ => assert Ahead(Do(s, step));
  }

  lemma LogGrows(s: State, step: Step)
    requires Enabled(s, step)
    ensures Ids(s.executed) <= Ids(Do(s, step).executed)
  {
    if step.Begin? {
      IdsAppend(s.executed, Done(step.e, s.calls[step.e].local[0]));
    }
  }

  lemma WorseThanPending(s: State, step: Step, i: nat, e: nat, k: nat)
    requires Enabled(s, step) && i < |s.executed| && e < |s.calls| && k < |s.calls[e].Pending()|
    requires Ids(s.executed)[i] >= s.calls[e].Pending()[k]
    ensures !Good(Do(s, step))
  {
    var after := Do(s, step);
    var now := Ids(after.executed);
    LogGrows(s, step);
    if step == Begin(e) {
      if k == 0 {
        assert now[i] >= now[|s.executed|];
      } else {
        assert after.calls[e].Pending()[k - 1] == s.calls[e].Pending()[k];
        assert now[i] >= after.calls[e].Pending()[k - 1];
      }
    } else {
      assert after.calls[e].Pending() == s.calls[e].Pending();
      assert now[i] >= after.calls[e].Pending()[k];
    }
  }

  /** What ran, or waits, after a function queued later does so for ever. */
  lemma StepKeepsBad(s: State, step: Step)
    requires !Good(s) && Enabled(s, step)
    ensures !Good(Do(s, step))
  {
    LogGrows(s, step);
    if !InOrder(s) {
      var was, now := Ids(s.executed), Ids(Do(s, step).executed);
      var i, j :| 0 <= i < j < |was| && was[i] >= was[j];
      assert now[i] >= now[j];
    } else {
      var i, e, k :| 0 <= i < |s.executed| && 0 <= e < |s.calls| && 0 <= k < |s.calls[e].Pending()|
                     && Ids(s.executed)[i] >= s.calls[e].Pending()[k];
      WorseThanPending(s, step, i, e, k);
    }
  }

  lemma OvertakingIsBad(s: State, step: Step)
    requires Inv(s) && Enabled(s, step) && Overtakes(s, step)
    ensures !Good(Do(s, step))
  {
    var b := step.e;
    var e :| 0 <= e < b && e < |s.calls| && s.calls[e].Pending() != [];
    var after := Do(s, step);
    IdsAppend(s.executed, Done(b, s.calls[b].local[0]));
    PendingGrows(s, e, 0, b, 0);
    assert Ids(after.executed)[|s.executed|] > after.calls[e].Pending()[0];
  }

  lemma {:induction false} GoodUnlessOvertaken(s: State, steps: seq<Step>, end: State)
    requires Inv(s) && IsRun(s, steps, end)
    ensures Good(end) <==> Good(s) && !Overtaken(s, steps)
    decreases |steps|
  {
    if steps != [] {
      var step := steps[0];
      assert IsRun(Do(s, step), steps[1..], end);
      StepKeeps(s, step);
      GoodUnlessOvertaken(Do(s, step), steps[1..], end);
      if !Good(s) {
        StepKeepsBad(s, step);
      } else if Overtakes(s, step) {
        OvertakingIsBad(s, step);
      } else {
        StepKeepsGood(s, step);
      }
    }
  }

  ghost predicate AllFinished(s: State) {
    forall e :: 0 <= e < |s.calls| ==> s.calls[e].local == []
  }

  /** When every call of Execute has ended, functions have run in the order in which they were queued
      exactly if none was started while an earlier call had functions left. */
  lemma InOrderUnlessOvertaken(init: State, steps: seq<Step>, end: State)
    requires Init(init) && IsRun(init, steps, end) && AllFinished(end)
    ensures InOrder(end) <==> !Overtaken(init, steps)
  {
    ReachableInv(init, [], init);
    GoodUnlessOvertaken(init, steps, end);
  }

  // ---------- inactive queues ----------

  lemma {:induction false} StaysEmpty(s: State, steps: seq<Step>, end: State)
    requires !s.active && s.passed == 0 && s.messages == [] && IsRun(s, steps, end)
    requires forall i :: 0 <= i < |steps| ==> steps[i] != SetActive(true)
    ensures end.messages == []
    decreases |steps|
  {
    if steps != [] {
      assert steps[0] != SetActive(true);
      forall i | 0 <= i < |steps[1..]|
        ensures steps[1..][i] != SetActive(true)
      {
        assert steps[i + 1] != SetActive(true);
      }
      StaysEmpty(Do(s, steps[0]), steps[1..], end);
    }
  }

  ghost predicate FillsInactive(s: State, steps: seq<Step>, end: State) {
    IsRun(s, steps, end) && end.messages != [] && forall i :: 0 <= i < |steps| ==> steps[i] != SetActive(true)
  }

  /** SetActive(false) empties the queue, but the test of m_isActive is made without the lock: the queue
      can fill again while inactive exactly if some thread was past that test. */
  lemma InactiveMayFill(s: State)
    ensures (exists steps, end :: FillsInactive(Do(s, SetActive(false)), steps, end)) <==> s.passed > 0
  {
    var off := Do(s, SetActive(false));
    if s.passed > 0 {
      var end := Do(off, Push);
      var steps := [Push];
      assert steps[1..] == [] && IsRun(end, [], end);
      assert IsRun(off, steps, end);
      assert FillsInactive(off, steps, end);
    } else {
      forall steps, end | FillsInactive(off, steps, end)
        ensures false
      {
        StaysEmpty(off, steps, end);
      }
    }
  }

  // ---------- a nested Execute ----------

  lemma {:induction false} OneMore(init: State, steps: seq<Step>, s: State, step: Step) returns (after: State)
    requires IsRun(init, steps, s) && Enabled(s, step)
    ensures after == Do(s, step) && IsRun(init, steps + [step], after)
    decreases |steps|
  {
    if steps == [] {
      assert [step][1..] == [];
      after := Do(s, step);
      assert IsRun(after, [], after) && steps + [step] == [step];
    } else {
      assert (steps + [step])[1..] == steps[1..] + [step];
      after := OneMore(Do(init, steps[0]), steps[1..], s, step);
    }
  }

  lemma QueueOne(init: State, steps: seq<Step>, s: State) returns (after: State)
    requires IsRun(init, steps, s) && s.active
    ensures after == s.(messages := s.messages + [s.next], next := s.next + 1)
    ensures IsRun(init, steps + [Check, Push], after)
  {
    after := OneMore(init, steps, s, Check);
    after := OneMore(init, steps + [Check], after, Push);
    assert steps + [Check] + [Push] == steps + [Check, Push];
  }

  /** A call of Execute runs the front of what it swapped out to its end. */
  lemma RunOne(init: State, steps: seq<Step>, s: State, e: nat) returns (after: State)
    requires IsRun(init, steps, s) && Enabled(s, Begin(e))
    ensures after == Do(Do(s, Begin(e)), End(e)) && IsRun(init, steps + [Begin(e), End(e)], after)
  {
    after := OneMore(init, steps, s, Begin(e));
    after := OneMore(init, steps + [Begin(e)], after, End(e));
    assert steps + [Begin(e)] + [End(e)] == steps + [Begin(e), End(e)];
  }

  /** Functions 0 and 1 are queued, and a call of Execute is inside function 0. */
  lemma ExecuteIsInside() returns (init: State, steps: seq<Step>, s: State)
    ensures Init(init) && IsRun(init, steps, s)
    ensures s == State(true, 0, 2, [], [Call([0, 1], [0, 1], true)], [Done(0, 0)], [])
  {
    init, steps := State(true, 0, 0, [], [], [], []), [];
    assert IsRun(init, [], init);
    s := QueueOne(init, steps, init);
    steps := steps + [Check, Push];
    s := QueueOne(init, steps, s);
    steps := steps + [Check, Push];
    assert s.messages == [0, 1];
    s := OneMore(init, steps, s, Swap);
    steps := steps + [Swap];
    s := OneMore(init, steps, s, Begin(0));
    steps := steps + [Begin(0)];
  }

  /** Function 0 queues function 2 and calls Execute, which runs it before function 1. */
  lemma NestedExecuteOvertakes() returns (init: State, steps: seq<Step>, end: State)
    ensures Init(init) && IsRun(init, steps, end) && AllFinished(end) && Ids(end.executed) == [0, 2, 1]
  {
    init, steps, end := ExecuteIsInside();
    end := QueueOne(init, steps, end);
    steps := steps + [Check, Push];
    assert end.messages == [2];
    end := OneMore(init, steps, end, Swap);
    steps := steps + [Swap];
    end := RunOne(init, steps, end, 1);
    steps := steps + [Begin(1), End(1)];
    assert [2][1..] == [];
    assert end.calls == [Call([0, 1], [0, 1], true), Call([2], [], false)];
    end := OneMore(init, steps, end, End(0));
    steps := steps + [End(0)];
    assert [0, 1][1..] == [1] && [1][1..] == [];
    assert end.calls == [Call([0, 1], [1], false), Call([2], [], false)];
    end := RunOne(init, steps, end, 0);
    steps := steps + [Begin(0), End(0)];
    assert end.calls == [Call([0, 1], [], false), Call([2], [], false)];
    assert end.executed == [Done(0, 0), Done(1, 2), Done(0, 1)];
  }
}
