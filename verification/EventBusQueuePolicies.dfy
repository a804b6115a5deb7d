/** EventBusQueuePolicy itself, on one thread.  The functions it runs may queue others, clear the queue,
    switch it on and off, and call Execute again. */
module EventBusQueuePolicies {
  import opened Seqs
  import opened QueuePolicy

  datatype Action = Queueing | Clearing | Activating(isActive: bool) | Executing

  /** What each function does when it runs, by its number; later ones do nothing with the queue. */
  type Script = seq<seq<Action>>

  function Actions(script: Script, id: nat): seq<Action> {
    if id < |script| then script[id] else []
  }

  /** The functions with something to do that have not begun. */
  function Todo(script: Script, s: State): set<nat> {
    set id: nat | id < |script| && id !in Ids(s.executed)
  }

  ghost predicate OneThread(s: State) {
    Inv(s) && s.passed == 0
  }

  /** Later, with every call of Execute that was made in between at its end. */
  ghost predicate Later(s: State, s': State) {
    && s.calls <= s'.calls && s.executed <= s'.executed
    && forall k :: |s.calls| <= k < |s'.calls| ==> s'.calls[k].local == []
  }

  lemma LaterOn(s: State, s1: State, s': State)
    requires Later(s, s1) && Later(s1, s')
    ensures Later(s, s')
  {
  }

  lemma {:induction false} IdsPrefix(a: seq<Done>, b: seq<Done>)
    requires a <= b
    ensures Ids(a) <= Ids(b)
  {
  }

  lemma TodoShrinks(script: Script, s: State, s': State)
    requires s.executed <= s'.executed
    ensures Todo(script, s') < Todo(script, s) || Todo(script, s') == Todo(script, s)
  {
    IdsPrefix(s.executed, s'.executed);
    assert forall id :: id in Ids(s.executed) ==> id in Ids(s'.executed);
    assert Todo(script, s') <= Todo(script, s);
  }

  /** A function that waits in a call has not begun. */
  lemma {:induction false} PendingCounts(calls: seq<Call>, e: nat, id: nat)
    requires e < |calls| && id in calls[e].Pending()
    ensures PendingCount(calls, id) > 0
  {
    if e > 0 {
      PendingCounts(calls[1..], e - 1, id);
    }
  }

  lemma FrontIsNew(script: Script, s: State, e: nat)
    requires Inv(s) && Enabled(s, Begin(e))
    ensures var id, s' := s.calls[e].local[0], Do(s, Begin(e));
            && id !in Ids(s.executed) && id in Ids(s'.executed)
            && (id < |script| ==> Todo(script, s') < Todo(script, s) && Todo(script, s) == Todo(script, s') + {id})
  {
    var id, s' := s.calls[e].local[0], Do(s, Begin(e));
    assert s.calls[e].Pending()[0] == id;
    PendingCounts(s.calls, e, id);
    assert Places(s, id) <= 1;
    IdsAppend(s.executed, Done(e, id));
    assert id in [id];
    if id < |script| {
      assert id in Todo(script, s) && id !in Todo(script, s');
    }
  }

  // ---------- what the operations do ----------

  function Queued(s: State): State {
    if s.active then Do(Do(s, Check), Push) else s
  }

  lemma QueuedKeeps(s: State)
    requires OneThread(s)
    ensures OneThread(Queued(s)) && Later(s, Queued(s))
  {
    StepKeeps(s, Check);
    if s.active {
      StepKeeps(Do(s, Check), Push);
    }
  }

  lemma QuietKeeps(s: State, step: Step)
    requires OneThread(s) && (step.Clear? || step.SetActive?)
    ensures OneThread(Do(s, step)) && Later(s, Do(s, step))
  {
    StepKeeps(s, step);
  }

  /** What a function does, action by action. */
  ghost function Acted(script: Script, s: State, actions: seq<Action>): (s': State)
    requires OneThread(s)
    ensures OneThread(s') && Later(s, s')
    decreases Todo(script, s), 2, |actions|
  {
    if actions == [] then s
    else
      var s1 :=
        match actions[0]
        case Queueing => (QueuedKeeps(s); Queued(s))
        case Clearing => (QuietKeeps(s, Clear); Do(s, Clear))
        case Activating(b) => (QuietKeeps(s, SetActive(b)); Do(s, SetActive(b)))
        case Executing => Executed(script, s);
      TodoShrinks(script, s, s1);
      LaterOn(s, s1, Acted(script, s1, actions[1..]));
      Acted(script, s1, actions[1..])
  }

  /** What one action of a function leaves in the queue. */
  lemma ActedOnce(script: Script, s: State, action: Action)
    requires OneThread(s)
    ensures var s' := Acted(script, s, [action]);
            match action
            case Queueing =>
              s'.messages == (if s.active then s.messages + [s.next] else s.messages) && s'.active == s.active
            case Clearing => s'.messages == [] && s'.active == s.active && s'.dropped == s.dropped + s.messages
            case Activating(b) => s'.active == b && s'.messages == if b then s.messages else []
            case Executing => s' == Executed(script, s)
  {
    assert [action][1..] == [];
  }

  /** A call of Execute, to its end. */
  ghost function Executed(script: Script, s: State): (s': State)
    requires OneThread(s)
    ensures OneThread(s') && Later(s, s')
    ensures |s.calls| < |s'.calls| && s'.calls[|s.calls|] == Call(s.messages, [], false)
    decreases Todo(script, s), 1, 0
  {
    StepKeeps(s, Swap);
    Drained(script, Do(s, Swap), |s.calls|)
  }

  /** Call e runs what is left of its functions. */
  ghost function Drained(script: Script, s: State, e: nat): (s': State)
    requires OneThread(s) && InLoop(s, e)
    ensures OneThread(s') && InLoop(s', e) && s.calls[..e] <= s'.calls && s.executed <= s'.executed
    ensures s'.calls[e] == Call(s.calls[e].swapped, [], false)
    decreases Todo(script, s), 0, |s.calls[e].local|
  {
    if s.calls[e].local == [] then s
    else
      TodoShrinks(script, s, RanFront(script, s, e));
      Drained(script, RanFront(script, s, e), e)
  }

  /** Between two functions of call e: nothing is open inside it. */
  ghost predicate InLoop(s: State, e: nat) {
    && e < |s.calls| && !s.calls[e].running
    && forall k :: e < k < |s.calls| ==> s.calls[k].local == []
  }

  /** Call e runs its first function. */
  ghost function RanFront(script: Script, s: State, e: nat): (s': State)
    requires OneThread(s) && InLoop(s, e) && s.calls[e].local != []
    ensures OneThread(s') && FrontRan(s, e, s')
    decreases Todo(script, s), 0, |s.calls[e].local|, 0
  {
    var id, s1 := s.calls[e].local[0], Do(s, Begin(e));
    StepKeeps(s, Begin(e));
    FrontIsNew(script, s, e);
    var s2 := if Actions(script, id) == [] then s1 else Acted(script, s1, Actions(script, id));
    FrontEnds(s, e, s2);
    Do(s2, End(e))
  }

  /** Later, with the first function of call e gone. */
  ghost predicate FrontRan(s: State, e: nat, s': State)
    requires InLoop(s, e) && s.calls[e].local != []
  {
    && InLoop(s', e) && s.calls[..e] <= s'.calls && s.executed <= s'.executed
    && s'.calls[e] == Call(s.calls[e].swapped, s.calls[e].local[1..], false)
  }

  lemma FrontEnds(s: State, e: nat, s2: State)
    requires InLoop(s, e) && s.calls[e].local != [] && Later(Do(s, Begin(e)), s2) && OneThread(s2)
    ensures Enabled(s2, End(e)) && OneThread(Do(s2, End(e))) && FrontRan(s, e, Do(s2, End(e)))
  {
    var s1 := Do(s, Begin(e));
    assert s2.calls[e] == s1.calls[e];
    StepKeeps(s2, End(e));
  }

  // ---------- they are runs ----------

  lemma {:induction false} RunOn(s: State, a: seq<Step>, s1: State, b: seq<Step>, s': State)
    requires IsRun(s, a, s1) && IsRun(s1, b, s')
    ensures IsRun(s, a + b, s')
    decreases |a|
  {
    if a == [] {
      assert a + b == b;
    } else {
      ConsAppend(a, b);
      RunOn(Do(s, a[0]), a[1..], s1, b, s');
    }
  }

  lemma OneStepRun(s: State, step: Step)
    requires Enabled(s, step)
    ensures IsRun(s, [step], Do(s, step))
  {
    assert [step][1..] == [];
  }

  lemma QueuedIsRun(s: State) returns (steps: seq<Step>)
    ensures IsRun(s, steps, Queued(s))
  {
    OneStepRun(s, Check);
    steps := [Check];
    if s.active {
      OneStepRun(Do(s, Check), Push);
      RunOn(s, [Check], Do(s, Check), [Push], Queued(s));
      steps := [Check] + [Push];
    }
  }

  lemma {:induction false} ActedIsRun(script: Script, s: State, actions: seq<Action>) returns (steps: seq<Step>)
    requires OneThread(s)
    ensures IsRun(s, steps, Acted(script, s, actions))
    decreases Todo(script, s), 2, |actions|
  {
    if actions == [] {
      steps := [];
    } else {
      var s1 := Acted(script, s, actions[..1]);
      ActedSplits(script, s, actions);
      var first := FirstIsRun(script, s, actions);
      TodoShrinks(script, s, s1);
      var rest := ActedIsRun(script, s1, actions[1..]);
      RunOn(s, first, s1, rest, Acted(script, s, actions));
      steps := first + rest;
    }
  }

  lemma ActedSplits(script: Script, s: State, actions: seq<Action>)
    requires OneThread(s) && actions != []
    ensures Acted(script, s, actions) == Acted(script, Acted(script, s, actions[..1]), actions[1..])
  {
    assert actions[..1][0] == actions[0] && actions[..1][1..] == [];
  }

  lemma {:induction false} FirstIsRun(script: Script, s: State, actions: seq<Action>) returns (steps: seq<Step>)
    requires OneThread(s) && actions != []
    ensures IsRun(s, steps, Acted(script, s, actions[..1]))
    decreases Todo(script, s), 1, 1
  {
    assert actions[..1][0] == actions[0] && actions[..1][1..] == [];
    match actions[0]
    case Queueing => steps := QueuedIsRun(s);
    case Clearing =>
      steps := [Clear];
      OneStepRun(s, Clear);
    case Activating(b) =>
      steps := [SetActive(b)];
      OneStepRun(s, SetActive(b));
    case Executing => steps := ExecutedIsRun(script, s);
  }

  /** A call of Execute is a run of the policy's steps, whatever the functions do, so all that holds of
      runs holds of it. */
  lemma {:induction false} ExecutedIsRun(script: Script, s: State) returns (steps: seq<Step>)
    requires OneThread(s)
    ensures IsRun(s, steps, Executed(script, s))
    decreases Todo(script, s), 1, 0
  {
    StepKeeps(s, Swap);
    OneStepRun(s, Swap);
    var rest := DrainedIsRun(script, Do(s, Swap), |s.calls|);
    RunOn(s, [Swap], Do(s, Swap), rest, Executed(script, s));
    steps := [Swap] + rest;
  }

  lemma {:induction false} DrainedIsRun(script: Script, s: State, e: nat) returns (steps: seq<Step>)
    requires OneThread(s) && InLoop(s, e)
    ensures IsRun(s, steps, Drained(script, s, e))
    decreases Todo(script, s), 0, |s.calls[e].local|
  {
    if s.calls[e].local == [] {
      steps := [];
    } else {
      var s' := RanFront(script, s, e);
      var first := RanFrontIsRun(script, s, e);
      TodoShrinks(script, s, s');
      var rest := DrainedIsRun(script, s', e);
      RunOn(s, first, s', rest, Drained(script, s, e));
      steps := first + rest;
    }
  }

  lemma {:induction false} RanFrontIsRun(script: Script, s: State, e: nat) returns (steps: seq<Step>)
    requires OneThread(s) && InLoop(s, e) && s.calls[e].local != []
    ensures IsRun(s, steps, RanFront(script, s, e))
    decreases Todo(script, s), 0, |s.calls[e].local|, 0
  {
    var id, s1 := s.calls[e].local[0], Do(s, Begin(e));
    StepKeeps(s, Begin(e));
    FrontIsNew(script, s, e);
    OneStepRun(s, Begin(e));
    var s2, inner := s1, [];
    if Actions(script, id) != [] {
      s2 := Acted(script, s1, Actions(script, id));
      inner := ActedIsRun(script, s1, Actions(script, id));
    }
    OneStepRun(s2, End(e));
    RunOn(s1, inner, s2, [End(e)], Do(s2, End(e)));
    RunOn(s, [Begin(e)], s1, inner + [End(e)], Do(s2, End(e)));
    steps := [Begin(e)] + (inner + [End(e)]);
  }

  /** Whatever the functions do - clear the queue, switch it off, call Execute again - the call runs all
      it swapped out, in order. */
  lemma ExecutedRunsTheQueue(script: Script, s: State)
    requires OneThread(s)
    ensures var e, s' := |s.calls|, Executed(script, s);
            e < |s'.calls| && s'.calls[e].local == [] && Ran(s'.executed, e) == s.messages
  {
    var e, s' := |s.calls|, Executed(script, s);
    assert CallOk(s', e);
    assert Ran(s'.executed, e) + [] == Ran(s'.executed, e);
  }

  // ---------- functions that only queue others ----------

  ghost predicate OnlyQueues(script: Script) {
    forall id, k :: 0 <= id < |script| && 0 <= k < |script[id]| ==> script[id][k] == Queueing
  }

  function Total(script: Script, ids: seq<nat>): nat {
    if ids == [] then 0 else |Actions(script, ids[0])| + Total(script, ids[1..])
  }

  /** The numbers of functions queued one after the other. */
  function Numbers(from: nat, count: nat): (r: seq<nat>)
    ensures |r| == count && forall i :: 0 <= i < count ==> r[i] == from + i
  {
    seq(count, i requires 0 <= i => from + i)
  }

  lemma NumbersAppend(from: nat, a: nat, b: nat)
    ensures Numbers(from, a) + Numbers(from + a, b) == Numbers(from, a + b)
  {
  }

  /** s' is s with so many more functions queued behind the others, if queueing is on. */
  ghost predicate QueuedMore(s: State, count: nat, s': State) {
    && s'.active == s.active
    && s'.messages == s.messages + Numbers(s.next, if s.active then count else 0)
    && s'.next == s.next + (if s.active then count else 0)
  }

  lemma QueuedMoreOn(s: State, a: nat, s1: State, b: nat, s': State)
    requires QueuedMore(s, a, s1) && QueuedMore(s1, b, s')
    ensures QueuedMore(s, a + b, s')
  {
    var x, y := if s.active then a else 0, if s.active then b else 0;
    NumbersAppend(s.next, x, y);
    Assoc(s.messages, Numbers(s.next, x), Numbers(s1.next, y));
  }

  lemma QueuedOne(s: State)
    requires OneThread(s)
    ensures QueuedMore(s, 1, Queued(s)) && Queued(s).calls == s.calls
  {
    assert s.messages + [] == s.messages;
  }

  lemma {:induction false} ActedQueues(script: Script, s: State, actions: seq<Action>)
    requires OneThread(s) && forall k :: 0 <= k < |actions| ==> actions[k] == Queueing
    ensures QueuedMore(s, |actions|, Acted(script, s, actions)) && Acted(script, s, actions).calls == s.calls
    decreases |actions|
  {
    if actions == [] {
      assert s.messages + [] == s.messages;
    } else {
      QueuedKeeps(s);
      QueuedOne(s);
      ActedQueues(script, Queued(s), actions[1..]);
      QueuedMoreOn(s, 1, Queued(s), |actions| - 1, Acted(script, s, actions));
    }
  }

  lemma RanFrontQueues(script: Script, s: State, e: nat)
    requires OneThread(s) && InLoop(s, e) && s.calls[e].local != [] && OnlyQueues(script)
    ensures QueuedMore(s, |Actions(script, s.calls[e].local[0])|, RanFront(script, s, e))
  {
    var id, s1 := s.calls[e].local[0], Do(s, Begin(e));
    StepKeeps(s, Begin(e));
    ActedQueues(script, s1, Actions(script, id));
  }

  lemma {:induction false} DrainedQueues(script: Script, s: State, e: nat)
    requires OneThread(s) && InLoop(s, e) && OnlyQueues(script)
    ensures QueuedMore(s, Total(script, s.calls[e].local), Drained(script, s, e))
    decreases |s.calls[e].local|
  {
    var local := s.calls[e].local;
    if local == [] {
      assert s.messages + [] == s.messages;
    } else {
      var s1 := RanFront(script, s, e);
      RanFrontQueues(script, s, e);
      DrainedQueues(script, s1, e);
      QueuedMoreOn(s, |Actions(script, local[0])|, s1, Total(script, local[1..]), Drained(script, s, e));
    }
  }

  /** Then all they queued waits for the next call, in the order of queueing, and nothing else. */
  lemma ExecutedQueues(script: Script, s: State)
    requires OneThread(s) && OnlyQueues(script)
    ensures Executed(script, s).messages == Numbers(s.next, if s.active then Total(script, s.messages) else 0)
  {
    StepKeeps(s, Swap);
    DrainedQueues(script, Do(s, Swap), |s.calls|);
  }

  // ---------- the class ----------

  class EventBusQueuePolicy {
    var isActive: bool
    var messages: seq<nat>
    var queued: nat // numbers the functions, which are known here by their number only
    ghost var state: State

    ghost predicate Valid()
      reads this
    {
      isActive == state.active && messages == state.messages && queued == state.next && OneThread(state)
    }

    constructor (eventQueueingActiveByDefault: bool)
      ensures Valid() && isActive == eventQueueingActiveByDefault && messages == [] && Init(state)
    {
      isActive, messages, queued := eventQueueingActiveByDefault, [], 0;
      state := State(eventQueueingActiveByDefault, 0, 0, [], [], [], []);
      new;
      ReachableInv(state, [], state);
    }

    /** Queues one more function, whose number is the next. */
    method QueueFunction()
      requires Valid()
      modifies this
      ensures Valid() && state == Queued(old(state)) && isActive == old(isActive)
      ensures isActive ==> messages == old(messages) + [old(queued)] && queued == old(queued) + 1
      ensures !isActive ==> messages == old(messages) && queued == old(queued)
    {
      QueuedKeeps(state);
      state := Queued(state);
      if isActive {
        messages, queued := messages + [queued], queued + 1;
      }
    }

    method Clear()
      requires Valid()
      modifies this
      ensures Valid() && state == Do(old(state), QueuePolicy.Clear)
      ensures messages == [] && isActive == old(isActive) && queued == old(queued)
    {
      StepKeeps(state, QueuePolicy.Clear);
      state := Do(state, QueuePolicy.Clear);
      messages := [];
    }

    method SetActive(isActive: bool)
      requires Valid()
      modifies this
      ensures Valid() && state == Do(old(state), QueuePolicy.SetActive(isActive))
      ensures this.isActive == isActive && queued == old(queued)
      ensures messages == if isActive then old(messages) else []
    {
      StepKeeps(state, QueuePolicy.SetActive(isActive));
      state := Do(state, QueuePolicy.SetActive(isActive));
      this.isActive := isActive;
      if !isActive {
        messages := [];
      }
    }

    /** Runs what is queued now, front first; what the functions queue meanwhile is queued afterwards,
        unless they drop it or run it by a call of their own. */
    method Execute(script: Script)
      requires Valid()
      modifies this
      ensures Valid() && state == Executed(script, old(state))
      decreases Todo(script, state), 1, 0
    {
      ghost var s := state;
      StepKeeps(s, Swap);
      state := Do(state, Swap);
      var localMessages := messages;
      messages := [];
      ghost var e := |s.calls|;
      while localMessages != []
        invariant Valid() && InLoop(state, e) && state.calls[e].local == localMessages && s.executed <= state.executed
        invariant Drained(script, state, e) == Executed(script, s)
      {
        TodoShrinks(script, s, state);
        RunFront(script, localMessages[0], e);
        localMessages := localMessages[1..];
      }
    }

    /** One round of the loop in Execute. */
    method RunFront(script: Script, localMessage: nat, ghost e: nat)
      requires Valid() && InLoop(state, e) && state.calls[e].local != [] && state.calls[e].local[0] == localMessage
      modifies this
      ensures Valid() && state == RanFront(script, old(state), e)
      decreases Todo(script, state), 0, 0
    {
      StepKeeps(state, Begin(e));
      FrontIsNew(script, state, e);
      state := Do(state, Begin(e));
      if Actions(script, localMessage) != [] {
        Invoke(script, Actions(script, localMessage));
      }
      StepKeeps(state, End(e));
      state := Do(state, End(e));
    }

    /** A function of the queue runs. */
    method Invoke(script: Script, actions: seq<Action>)
      requires Valid()
      modifies this
      ensures Valid() && state == Acted(script, old(state), actions)
      decreases Todo(script, state), 2, 0
    {
      ghost var s := state;
      var i := 0;
      assert actions[0..] == actions;
      while i < |actions|
        invariant 0 <= i <= |actions| && Valid() && s.executed <= state.executed
        invariant Acted(script, state, actions[i..]) == Acted(script, s, actions)
      {
        assert actions[i..][..1] == [actions[i]] && actions[i..][1..] == actions[i + 1..];
        TodoShrinks(script, s, state);
        ActedSplits(script, state, actions[i..]);
        InvokeOne(script, actions[i]);
        i := i + 1;
      }
    }

    /** One action of a function. */
    method InvokeOne(script: Script, action: Action)
      requires Valid()
      modifies this
      ensures Valid() && state == Acted(script, old(state), [action])
      decreases Todo(script, state), 1, 1
    {
      assert [action][1..] == [];
      match action {
        case Queueing => QueueFunction();
        case Clearing => Clear();
        case Activating(b) => SetActive(b);
        case Executing => Execute(script);
      }
    }

    method Count() returns (count: nat)
      requires Valid()
      ensures count == |messages| == |state.messages|
    {
      count := |messages|;
    }
  }
}
