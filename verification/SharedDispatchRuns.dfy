/** What holds in every reachable state of the event mutex, and when its threads can all finish. */
module SharedDispatchRuns {
  import opened SharedDispatch

  lemma ReachableInv(init: State, steps: seq<Step>, s: State)
    requires Init(init) && IsRun(init, steps, s)
    ensures Inv(s)
  {
    InitHolds(init);
    RunKeeps(init, steps, s);
  }

  // ---------- who holds the lock ----------

  lemma {:induction false} NoneOwn(guards: seq<bool>)
    requires forall i :: 0 <= i < |guards| ==> !guards[i]
    ensures Owners(guards) == 0
  {
    if guards != [] {
      NoneOwn(guards[1..]);
    }
  }

  lemma {:induction false} OutermostOwns(threads: seq<Thread>)
    requires forall t :: 0 <= t < |threads| ==> ThreadOk(threads[t])
    ensures Sum(threads, Owning()) == Sum(threads, Dispatching())
  {
    if threads != [] {
      var th := threads[0];
      assert ThreadOk(th);
      if th.guards != [] {
        NoneOwn(th.guards[1..]);
      }
      OutermostOwns(threads[1..]);
    }
  }

  /** Every run: each thread inside a dispatch, however deep, holds the lock once; while a connect holds
      it no thread is inside a dispatch and no other connect has it. */
  lemma HoldersAreDispatchers(init: State, steps: seq<Step>, s: State)
    requires Init(init) && IsRun(init, steps, s)
    ensures Sum(s.threads, Owning()) == Sum(s.threads, Dispatching())
    ensures forall t, u :: 0 <= t < |s.threads| && 0 <= u < |s.threads| && s.threads[t].exclusive ==>
              !s.threads[u].InDispatch() && (t == u || !s.threads[u].exclusive)
    ensures forall t :: 0 <= t < |s.threads| && s.threads[t].InDispatch() ==> s.threads[t].wait != ForShared
  {
    ReachableInv(init, steps, s);
    OutermostOwns(s.threads);
    forall t, u | 0 <= t < |s.threads| && 0 <= u < |s.threads| && s.threads[t].exclusive
      ensures !s.threads[u].InDispatch() && (t == u || !s.threads[u].exclusive)
    {
      SumSet(s.threads, t, s.threads[t], Connecting());
      SumSet(s.threads, u, s.threads[u], Dispatching());
      if t != u {
        TwoOfThem(s.threads, t, u);
      }
    }
    forall t | 0 <= t < |s.threads| && s.threads[t].InDispatch()
      ensures s.threads[t].wait != ForShared
    {
      assert ThreadOk(s.threads[t]);
    }
  }

  lemma TwoOfThem(threads: seq<Thread>, t: nat, u: nat)
    requires t < |threads| && u < |threads| && t != u && Sum(threads, Connecting()) <= 1 && threads[t].exclusive
    ensures !threads[u].exclusive
  {
    var idle := threads[t].(exclusive := false);
    SumSet(threads, t, idle, Connecting());
    SumSet(threads[t := idle], u, idle, Connecting());
  }

  /** The count of shared_mutex: the owners and those still inside lock_shared; the top bit: a connect. */
  lemma CounterCounts(init: State, steps: seq<Step>, s: State)
    requires Init(init) && IsRun(init, steps, s)
    ensures s.value % 0x8000_0000 == Sum(s.threads, Counted()) && s.value < 0x1_0000_0000
    ensures s.value >= 0x8000_0000 <==> exists t :: 0 <= t < |s.threads| && s.threads[t].exclusive
  {
    ReachableInv(init, steps, s);
    BitMeansConnecting(s);
    SumIsZero(s.threads, Connecting());
  }

  /** A dispatch inside a dispatch starts at once, whoever waits, and leaves the mutex alone; and since
      the lock bit is clear, even counting the thread twice would not make it wait. */
  lemma NestedDispatchNeverWaits(init: State, steps: seq<Step>, s: State, t: nat)
    requires Init(init) && IsRun(init, steps, s)
    requires Enabled(s, EnterDispatch(t)) && s.threads[t].InDispatch()
    ensures !ExclusiveBit(s.value)
    ensures var after := Do(s, EnterDispatch(t));
            && after.value == s.value && after.threads[t].wait == NotWaiting
            && |after.threads[t].guards| == |s.threads[t].guards| + 1
            && Do(after, LeaveDispatch(t)) == s
  {
    ReachableInv(init, steps, s);
    BitMeansConnecting(s);
    SumSet(s.threads, t, s.threads[t], Dispatching());
    var th := s.threads[t];
    var after := Do(s, EnterDispatch(t));
    assert (th.guards + [false])[..|th.guards|] == th.guards;
    assert s.threads[t := after.threads[t]][t := th] == s.threads;
  }

  // ---------- the documented rules ----------

  /** No connect inside a dispatch or a connect, no dispatch inside a connect. */
  predicate Obeys(s: State, step: Step)
    requires Enabled(s, step)
  {
    var th := s.threads[step.t];
    (step.EnterConnect? ==> !th.InDispatch() && !th.exclusive) && (step.EnterDispatch? ==> !th.exclusive)
  }

  /** The thread waits for a lock while it keeps others, or itself, from releasing it. */
  predicate Breaks(th: Thread) {
    (th.wait == ForExclusive && (th.InDispatch() || th.exclusive)) || (th.wait == ForShared && th.exclusive)
  }

  ghost predicate RulesKept(s: State) {
    forall t :: 0 <= t < |s.threads| ==> !Breaks(s.threads[t])
  }

  /** The two limitations that the traits document are exactly what keeps the rules. */
  lemma RulesAreTheLimitations(s: State, step: Step)
    requires Inv(s) && RulesKept(s) && Enabled(s, step)
    ensures RulesKept(Do(s, step)) <==> Obeys(s, step)
  {
    var t := step.t;
    var th := s.threads[t];
    assert !Breaks(th) && ThreadOk(th);
    BitMeansConnecting(s);
    SumSet(s.threads, t, th, Connecting());
    SumSet(s.threads, t, th, Dispatching());
    var after := Do(s, step);
    forall u | 0 <= u < |s.threads| && u != t
      ensures !Breaks(after.threads[u])
    {
      assert !Breaks(s.threads[u]);
    }
    assert after.threads[t] == th || Breaks(after.threads[t]) || Obeys(s, step);
    assert RulesKept(after) <==> !Breaks(after.threads[t]);
  }

  predicate WaitsFor(s: State, t: nat, u: nat)
    requires t < |s.threads| && u < |s.threads|
  {
    var th, other := s.threads[t], s.threads[u];
    || (th.wait == ForShared && other.exclusive)
    || (th.wait == ForExclusive && (other.exclusive || other.InDispatch() || other.wait == ForShared))
  }

  function Rank(th: Thread): nat {
    match th.wait
    case NotWaiting => 0
    case ForShared => 1
    case ForExclusive => 2
  }

  /** While the rules are kept, waiting leads strictly down: the wait-for graph has no cycle. */
  lemma WaitsDescend(s: State, t: nat, u: nat)
    requires Inv(s) && RulesKept(s) && t < |s.threads| && u < |s.threads| && WaitsFor(s, t, u)
    ensures Rank(s.threads[u]) < Rank(s.threads[t])
  {
    assert !Breaks(s.threads[u]) && ThreadOk(s.threads[u]);
  }

  // ---------- finishing ----------

  function Pending(): Thread -> nat {
    (th: Thread) => |th.guards| + (if th.exclusive then 1 else 0) + (if th.wait == NotWaiting then 0 else 2)
  }

  ghost predicate Quiet(s: State) {
    s.value == 0 && forall t :: 0 <= t < |s.threads| ==> s.threads[t] == Thread([], false, NotWaiting)
  }

  ghost predicate EndsQuietly(s: State, steps: seq<Step>, end: State) {
    IsRun(s, steps, end) && Quiet(end)
  }

  predicate Finishes(step: Step) {
    !step.EnterDispatch? && !step.EnterConnect?
  }

  /** As long as anything is going on, some thread can go on towards its end. */
  lemma SomeoneGoesOn(s: State) returns (step: Step)
    requires Inv(s) && RulesKept(s) && Sum(s.threads, Pending()) > 0
    ensures Enabled(s, step) && Finishes(step) && Do(s, step) != s
  {
    BitMeansConnecting(s);
    SumIsZero(s.threads, Connecting());
    SumIsZero(s.threads, Counted());
    SumIsZero(s.threads, Pending());
    if Sum(s.threads, Connecting()) > 0 {
      var t :| 0 <= t < |s.threads| && Connecting()(s.threads[t]) != 0;
      assert !Breaks(s.threads[t]);
      step := LeaveConnect(t);
    } else if Sum(s.threads, Counted()) > 0 {
      var t :| 0 <= t < |s.threads| && Counted()(s.threads[t]) != 0;
      assert !Breaks(s.threads[t]) && ThreadOk(s.threads[t]);
      step := if s.threads[t].wait == ForShared then SpinShared(t) else LeaveDispatch(t);
    } else {
      var t :| 0 <= t < |s.threads| && Pending()(s.threads[t]) != 0;
      assert Counted()(s.threads[t]) == 0 && Connecting()(s.threads[t]) == 0;
      step := TryExclusive(t);
    }
    assert Do(s, step).threads[step.t] != s.threads[step.t];
  }

  lemma FinishingCounts(s: State, step: Step)
    requires Enabled(s, step) && Finishes(step) && Do(s, step) != s
    ensures Sum(Do(s, step).threads, Pending()) < Sum(s.threads, Pending())
  {
    SumSet(s.threads, step.t, Do(s, step).threads[step.t], Pending());
  }

  lemma NothingPending(s: State)
    requires Inv(s) && Sum(s.threads, Pending()) == 0
    ensures Quiet(s)
  {
    SumIsZero(s.threads, Pending());
    SumIsZero(s.threads, Connecting());
    SumIsZero(s.threads, Counted());
    forall t | 0 <= t < |s.threads|
      ensures s.threads[t] == Thread([], false, NotWaiting)
    {
      assert Pending()(s.threads[t]) == 0;
    }
    BitMeansConnecting(s);
  }

  lemma {:induction false} Finish(s: State) returns (steps: seq<Step>, end: State)
    requires Inv(s) && RulesKept(s)
    ensures EndsQuietly(s, steps, end)
    decreases Sum(s.threads, Pending())
  {
    if Sum(s.threads, Pending()) == 0 {
      NothingPending(s);
      steps, end := [], s;
    } else {
      var step := SomeoneGoesOn(s);
      FinishingCounts(s, step);
      StepKeeps(s, step);
      RulesAreTheLimitations(s, step);
      var more, last := Finish(Do(s, step));
      steps, end := [step] + more, last;
    }
  }

  lemma StuckStep(s: State, step: Step, t: nat)
    requires Inv(s) && Enabled(s, step) && t < |s.threads| && Breaks(s.threads[t])
    ensures Do(s, step).threads[t] == s.threads[t]
  {
    if step.t == t {
      BitMeansConnecting(s);
      SumSet(s.threads, t, s.threads[t], Connecting());
      SumSet(s.threads, t, s.threads[t], Counted());
    }
  }

  /** A thread that broke a rule waits for ever. */
  lemma {:induction false} StuckForEver(s: State, steps: seq<Step>, end: State, t: nat)
    requires Inv(s) && IsRun(s, steps, end) && t < |s.threads| && Breaks(s.threads[t])
    ensures t < |end.threads| && end.threads[t] == s.threads[t]
    decreases |steps|
  {
    if steps != [] {
      StuckStep(s, steps[0], t);
      StepKeeps(s, steps[0]);
      StuckForEver(Do(s, steps[0]), steps[1..], end, t);
    }
  }

  /** From a reachable state all threads can get their locks and finish exactly when no thread has
      broken the rules: the mutex has no deadlock of its own. */
  lemma AllCanFinish(init: State, steps: seq<Step>, s: State)
    requires Init(init) && IsRun(init, steps, s)
    ensures (exists more, end :: EndsQuietly(s, more, end)) <==> RulesKept(s)
  {
    ReachableInv(init, steps, s);
    if RulesKept(s) {
      var more, end := Finish(s);
      assert EndsQuietly(s, more, end);
    } else {
      var t :| 0 <= t < |s.threads| && Breaks(s.threads[t]);
      forall more, end | IsRun(s, more, end)
        ensures !EndsQuietly(s, more, end)
      {
        StuckForEver(s, more, end, t);
      }
    }
  }
}
