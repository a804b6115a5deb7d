/** EventBusQueuePolicy under any interleaving: threads that queue functions, overlapping or nested
    calls of Execute, Clear and SetActive.  A function is known by its number in the order of queueing. */
module QueuePolicy {
  import opened Seqs

  /** A call of Execute: what it swapped out, what is left of it, and whether its front is running. */
  datatype Call = Call(swapped: seq<nat>, local: seq<nat>, running: bool) {
    function Pending(): seq<nat> {
      if running && local != [] then local[1..] else local
    }
  }

  datatype Done = Done(call: nat, id: nat)

  /** `passed` counts the threads between the unlocked test of m_isActive and their push. */
  datatype State = State(active: bool, passed: nat, next: nat, messages: seq<nat>, calls: seq<Call>,
                         executed: seq<Done>, dropped: seq<nat>)

  datatype Step = Check | Push | Swap | Begin(e: nat) | End(e: nat) | Clear | SetActive(isActive: bool)

  predicate Enabled(s: State, step: Step) {
    match step
    case Push => s.passed > 0
    case Begin(e) => e < |s.calls| && !s.calls[e].running && s.calls[e].local != []
    case End(e) => e < |s.calls| && s.calls[e].running && s.calls[e].local != []
    case _ => true
  }

  function Do(s: State, step: Step): State
    requires Enabled(s, step)
  {
    match step
    case Check => if s.active then s.(passed := s.passed + 1) else s
    case Push => s.(passed := s.passed - 1, messages := s.messages + [s.next], next := s.next + 1)
    case Swap => s.(messages := [], calls := s.calls + [Call(s.messages, s.messages, false)])
    case Begin(e) =>
      s.(calls := s.calls[e := s.calls[e].(running := true)], executed := s.executed + [Done(e, s.calls[e].local[0])])
    case End(e) =>
      s.(calls := s.calls[e := s.calls[e].(running := false, local := s.calls[e].local[1..])])
    case Clear => s.(messages := [], dropped := s.dropped + s.messages)
    case SetActive(isActive) =>
      if isActive then s.(active := true)
      else s.(active := false, messages := [], dropped := s.dropped + s.messages)
  }

  predicate Init(s: State) {
    s.passed == 0 && s.next == 0 && s.messages == [] && s.calls == [] && s.executed == [] && s.dropped == []
  }

  ghost predicate IsRun(s: State, steps: seq<Step>, end: State)
    decreases |steps|
  {
    if steps == [] then s == end else Enabled(s, steps[0]) && IsRun(Do(s, steps[0]), steps[1..], end)
  }

  // ---------- every function is in one place ----------

  function Occurs(l: seq<nat>, id: nat): nat {
    multiset(l)[id]
  }

  function PendingCount(calls: seq<Call>, id: nat): nat {
    if calls == [] then 0 else Occurs(calls[0].Pending(), id) + PendingCount(calls[1..], id)
  }

  function Ids(executed: seq<Done>): (ids: seq<nat>)
    ensures |ids| == |executed| && forall i :: 0 <= i < |ids| ==> ids[i] == executed[i].id
  {
    if executed == [] then [] else [executed[0].id] + Ids(executed[1..])
  }

  /** How often a function is queued, waits in a call of Execute, was run or was dropped. */
  function Places(s: State, id: nat): nat {
    Occurs(s.messages, id) + PendingCount(s.calls, id) + Occurs(Ids(s.executed), id) + Occurs(s.dropped, id)
  }

  ghost predicate OnePlaceEach(s: State) {
    forall id: nat :: Places(s, id) == if id < s.next then 1 else 0
  }

  lemma OccursAppend(a: seq<nat>, b: seq<nat>, id: nat)
    ensures Occurs(a + b, id) == Occurs(a, id) + Occurs(b, id)
  {
  }

  lemma {:induction false} PendingAppend(calls: seq<Call>, c: Call, id: nat)
    ensures PendingCount(calls + [c], id) == PendingCount(calls, id) + Occurs(c.Pending(), id)
  {
    if calls == [] {
      assert calls + [c] == [c] && [c][1..] == [];
    } else {
      assert (calls + [c])[1..] == calls[1..] + [c];
      PendingAppend(calls[1..], c, id);
    }
  }

  lemma {:induction false} PendingSet(calls: seq<Call>, e: nat, c: Call, id: nat)
    requires e < |calls|
    ensures PendingCount(calls[e := c], id) + Occurs(calls[e].Pending(), id)
            == PendingCount(calls, id) + Occurs(c.Pending(), id)
  {
    if e == 0 {
      assert calls[e := c][1..] == calls[1..];
    } else {
      var rest := calls[1..];
      assert rest[e - 1] == calls[e];
      PendingSet(rest, e - 1, c, id);
      assert calls[e := c][1..] == rest[e - 1 := c] && calls[e := c][0] == calls[0];
    }
  }

  lemma {:induction false} IdsAppend(executed: seq<Done>, d: Done)
    ensures Ids(executed + [d]) == Ids(executed) + [d.id]
  {
  }

  lemma BeginMoves(s: State, e: nat, id: nat)
    requires Enabled(s, Begin(e))
    ensures Places(Do(s, Begin(e)), id) == Places(s, id)
  {
    var c := s.calls[e];
    var d := Done(e, c.local[0]);
    PendingSet(s.calls, e, c.(running := true), id);
    IdsAppend(s.executed, d);
    OccursAppend(Ids(s.executed), [d.id], id);
    assert c.local == [c.local[0]] + c.local[1..];
    OccursAppend([c.local[0]], c.local[1..], id);
  }

  lemma StepMoves(s: State, step: Step, id: nat)
    requires Enabled(s, step)
    ensures Places(Do(s, step), id) == Places(s, id) + (if step.Push? && id == s.next then 1 else 0)
  {
    var after := Do(s, step);
    match step
    case Check =>
    case Push => OccursAppend(s.messages, [s.next], id);
    case Swap => PendingAppend(s.calls, Call(s.messages, s.messages, false), id);
    case Begin(e) => BeginMoves(s, e, id);
    case End(e) => PendingSet(s.calls, e, after.calls[e], id);
    case Clear => OccursAppend(s.dropped, s.messages, id);
    case SetActive(_) => OccursAppend(s.dropped, s.messages, id);
  }

  lemma StepKeepsPlaces(s: State, step: Step)
    requires OnePlaceEach(s) && Enabled(s, step)
    ensures OnePlaceEach(Do(s, step))
  {
    forall id: nat
      ensures Places(Do(s, step), id) == if id < Do(s, step).next then 1 else 0
    {
      StepMoves(s, step, id);
    }
  }

  // ---------- order ----------

  predicate Increasing(l: seq<nat>) {
    forall i, j :: 0 <= i < j < |l| ==> l[i] < l[j]
  }

  function Swapped(calls: seq<Call>): seq<nat> {
    if calls == [] then [] else calls[0].swapped + Swapped(calls[1..])
  }

  /** Everything that reached a call of Execute, call by call, and then the queue. */
  function Line(s: State): seq<nat> {
    Swapped(s.calls) + s.messages
  }

  function Ran(executed: seq<Done>, e: nat): seq<nat>
    decreases |executed|
  {
    if executed == [] then []
    else
      var last := |executed| - 1;
      Ran(executed[..last], e) + (if executed[last].call == e then [executed[last].id] else [])
  }

  /** A call has run the beginning of what it swapped out, in order. */
  predicate CallOk(s: State, e: nat)
    requires e < |s.calls|
  {
    && Ran(s.executed, e) + s.calls[e].Pending() == s.calls[e].swapped
    && (s.calls[e].running ==> s.calls[e].local != [])
  }

  ghost predicate Inv(s: State) {
    && OnePlaceEach(s)
    && Increasing(Line(s)) && (forall i :: 0 <= i < |Line(s)| ==> Line(s)[i] < s.next)
    && (forall e :: 0 <= e < |s.calls| ==> CallOk(s, e))
    && forall i :: 0 <= i < |s.executed| ==> s.executed[i].call < |s.calls|
  }

  lemma {:induction false} SwappedAppend(calls: seq<Call>, c: Call)
    ensures Swapped(calls + [c]) == Swapped(calls) + c.swapped
  {
    if calls == [] {
      assert calls + [c] == [c] && [c][1..] == [];
      assert Swapped([c]) == c.swapped + [];
    } else {
      assert (calls + [c])[1..] == calls[1..] + [c];
      SwappedAppend(calls[1..], c);
      Assoc(calls[0].swapped, Swapped(calls[1..]), c.swapped);
    }
  }

  lemma {:induction false} SwappedSame(calls: seq<Call>, e: nat, c: Call)
    requires e < |calls| && c.swapped == calls[e].swapped
    ensures Swapped(calls[e := c]) == Swapped(calls)
  {
    if e == 0 {
      assert calls[e := c][1..] == calls[1..];
    } else {
      assert calls[e := c][1..] == calls[1..][e - 1 := c];
      SwappedSame(calls[1..], e - 1, c);
    }
  }

  lemma StepKeepsLine(s: State, step: Step)
    requires Increasing(Line(s)) && (forall i :: 0 <= i < |Line(s)| ==> Line(s)[i] < s.next) && Enabled(s, step)
    ensures var after := Do(s, step);
            Increasing(Line(after)) && forall i :: 0 <= i < |Line(after)| ==> Line(after)[i] < after.next
  {
    var after := Do(s, step);
    match step
    case Check =>
    case Push => Assoc(Swapped(s.calls), s.messages, [s.next]);
    case Swap =>
      SwappedAppend(s.calls, Call(s.messages, s.messages, false));
      assert Line(after) == Line(s);
    case Begin(e) => SwappedSame(s.calls, e, after.calls[e]);
    case End(e) => SwappedSame(s.calls, e, after.calls[e]);
    case Clear => assert Line(after) == Line(s)[..|Swapped(s.calls)|];
    case SetActive(b) => assert !b ==> Line(after) == Line(s)[..|Swapped(s.calls)|];
  }

  lemma RanAppend(executed: seq<Done>, d: Done, e: nat)
    ensures Ran(executed + [d], e) == Ran(executed, e) + (if d.call == e then [d.id] else [])
  {
    assert (executed + [d])[..|executed|] == executed;
  }

  lemma {:induction false} RanNothing(executed: seq<Done>, e: nat)
    requires forall i :: 0 <= i < |executed| ==> executed[i].call != e
    ensures Ran(executed, e) == []
    decreases |executed|
  {
    if executed != [] {
      RanNothing(executed[..|executed| - 1], e);
    }
  }

  lemma BeginKeepsCalls(s: State, b: nat, e: nat)
    requires Enabled(s, Begin(b)) && e < |s.calls| && CallOk(s, e)
    ensures CallOk(Do(s, Begin(b)), e)
  {
    var c := s.calls[b];
    RanAppend(s.executed, Done(b, c.local[0]), e);
    if b == e {
      assert c.local == [c.local[0]] + c.local[1..];
      Assoc(Ran(s.executed, e), [c.local[0]], c.local[1..]);
    } else {
      assert Ran(s.executed, e) + [] == Ran(s.executed, e);
    }
  }

  lemma StepKeepsCalls(s: State, step: Step)
    requires (forall e :: 0 <= e < |s.calls| ==> CallOk(s, e)) && Enabled(s, step)
    requires forall i :: 0 <= i < |s.executed| ==> s.executed[i].call < |s.calls|
    ensures var after := Do(s, step);
            && (forall e :: 0 <= e < |after.calls| ==> CallOk(after, e))
            && forall i :: 0 <= i < |after.executed| ==> after.executed[i].call < |after.calls|
  {
    var after := Do(s, step);
    forall e | 0 <= e < |after.calls|
      ensures CallOk(after, e)
    {
      if e == |s.calls| {
        RanNothing(s.executed, e);
      } else {
        assert CallOk(s, e);
        if step.Begin? {
          BeginKeepsCalls(s, step.e, e);
        }
      }
    }
  }

  lemma StepKeeps(s: State, step: Step)
    requires Inv(s) && Enabled(s, step)
    ensures Inv(Do(s, step))
  {
    StepKeepsPlaces(s, step);
    StepKeepsLine(s, step);
    StepKeepsCalls(s, step);
  }

  lemma {:induction false} RunKeeps(s: State, steps: seq<Step>, end: State)
    requires Inv(s) && IsRun(s, steps, end)
    ensures Inv(end)
    decreases |steps|
  {
    if steps != [] {
      StepKeeps(s, steps[0]);
      RunKeeps(Do(s, steps[0]), steps[1..], end);
    }
  }

  lemma ReachableInv(init: State, steps: seq<Step>, s: State)
    requires Init(init) && IsRun(init, steps, s)
    ensures Inv(s)
  {
    assert forall id: nat :: Places(init, id) == 0;
    RunKeeps(init, steps, s);
  }
}
