/** The event mutex of EventBusSharedDispatchTraits: any number of threads that dispatch and connect. */
module SharedDispatch {

  // ---------- shared_mutex: a counter whose top bit is the exclusive lock ----------

  const WIDTH := 0x1_0000_0000
  const EXCLUSIVE_LOCK_BIT := 0x8000_0000

  function FetchAdd(value: nat, n: nat): nat {
    (value + n) % WIDTH
  }

  function FetchSub(value: nat, n: nat): nat {
    (value - n) % WIDTH
  }

  predicate ExclusiveBit(value: nat) {
    value / EXCLUSIVE_LOCK_BIT % 2 == 1
  }

  // ---------- threads ----------

  datatype Wait = NotWaiting | ForShared | ForExclusive

  /** The dispatch guards alive on a thread, outermost first, each with its m_ownSharedLockOnThread;
      whether a connect guard of the thread has the lock; and the lock call the thread is inside. */
  datatype Thread = Thread(guards: seq<bool>, exclusive: bool, wait: Wait) {
    predicate InDispatch() {
      guards != []
    }
  }

  datatype State = State(value: nat, threads: seq<Thread>)

  /** The steps of a thread: each does one atomic operation on the counter at most. */
  datatype Step =
    | EnterDispatch(t: nat) | SpinShared(t: nat) | LeaveDispatch(t: nat)
    | EnterConnect(t: nat) | TryExclusive(t: nat) | LeaveConnect(t: nat)

  predicate Enabled(s: State, step: Step) {
    step.t < |s.threads| &&
    var th := s.threads[step.t];
    match step
    case EnterDispatch(_) => th.wait == NotWaiting
    case SpinShared(_) => th.wait == ForShared
    case LeaveDispatch(_) => th.wait == NotWaiting && th.InDispatch()
    case EnterConnect(_) => th.wait == NotWaiting
    case TryExclusive(_) => th.wait == ForExclusive
    case LeaveConnect(_) => th.wait == NotWaiting && th.exclusive
  }

  /** Only the outermost guard of a thread takes the lock; a lock call that has to wait looks again and
      again, and so may do nothing. */
  function Do(s: State, step: Step): State
    requires Enabled(s, step)
  {
    var th := s.threads[step.t];
    match step
    case EnterDispatch(t) =>
      if th.InDispatch() then Set(s, t, s.value, th.(guards := th.guards + [false]))
      else if ExclusiveBit(s.value) then Set(s, t, FetchAdd(s.value, 1), th.(wait := ForShared))
      else Set(s, t, FetchAdd(s.value, 1), th.(guards := [true]))
    case SpinShared(t) =>
      if ExclusiveBit(s.value) then s else Set(s, t, s.value, th.(guards := th.guards + [true], wait := NotWaiting))
    case LeaveDispatch(t) =>
      var last := |th.guards| - 1;
      Set(s, t, if th.guards[last] then FetchSub(s.value, 1) else s.value, th.(guards := th.guards[..last]))
    case EnterConnect(t) => Set(s, t, s.value, th.(wait := ForExclusive))
    case TryExclusive(t) =>
      if s.value != 0 then s else Set(s, t, EXCLUSIVE_LOCK_BIT, th.(exclusive := true, wait := NotWaiting))
    case LeaveConnect(t) => Set(s, t, FetchSub(s.value, EXCLUSIVE_LOCK_BIT), th.(exclusive := false))
  }

  function Set(s: State, t: nat, value: nat, th: Thread): State
    requires t < |s.threads|
  {
    State(value, s.threads[t := th])
  }

  predicate Init(s: State) {
    && s.value == 0 && |s.threads| < EXCLUSIVE_LOCK_BIT
    && forall t :: 0 <= t < |s.threads| ==> s.threads[t] == Thread([], false, NotWaiting)
  }

  ghost predicate IsRun(s: State, steps: seq<Step>, end: State)
    decreases |steps|
  {
    if steps == [] then s == end else Enabled(s, steps[0]) && IsRun(Do(s, steps[0]), steps[1..], end)
  }

  // ---------- counting threads ----------

  function Sum(threads: seq<Thread>, weight: Thread -> nat): nat {
    if threads == [] then 0 else weight(threads[0]) + Sum(threads[1..], weight)
  }

  lemma {:induction false} SumSet(threads: seq<Thread>, t: nat, th: Thread, weight: Thread -> nat)
    requires t < |threads|
    ensures Sum(threads[t := th], weight) + weight(threads[t]) == Sum(threads, weight) + weight(th)
    ensures weight(threads[t]) <= Sum(threads, weight)
  {
    if t == 0 {
      assert threads[t := th][1..] == threads[1..];
    } else {
      assert threads[t := th][1..] == threads[1..][t - 1 := th];
      SumSet(threads[1..], t - 1, th, weight);
    }
  }

  lemma {:induction false} SumIsZero(threads: seq<Thread>, weight: Thread -> nat)
    ensures Sum(threads, weight) == 0 <==> forall t :: 0 <= t < |threads| ==> weight(threads[t]) == 0
  {
    if threads != [] {
      SumIsZero(threads[1..], weight);
      assert forall t :: 0 < t < |threads| ==> threads[t] == threads[1..][t - 1];
      assert forall t :: 0 <= t < |threads[1..]| ==> threads[1..][t] == threads[t + 1];
    }
  }

  lemma {:induction false} SumIsSmall(threads: seq<Thread>, weight: Thread -> nat)
    requires forall th :: weight(th) <= 1
    ensures Sum(threads, weight) <= |threads|
  {
    if threads != [] {
      SumIsSmall(threads[1..], weight);
    }
  }

  /** Threads counted by the mutex: they are inside a dispatch, or in lock_shared after its fetch_add. */
  function Counted(): Thread -> nat {
    (th: Thread) => if th.InDispatch() || th.wait == ForShared then 1 else 0
  }

  function Dispatching(): Thread -> nat {
    (th: Thread) => if th.InDispatch() then 1 else 0
  }

  function Connecting(): Thread -> nat {
    (th: Thread) => if th.exclusive then 1 else 0
  }

  /** The guards of a thread that own the shared lock. */
  function Owning(): Thread -> nat {
    (th: Thread) => Owners(th.guards)
  }

  function Owners(guards: seq<bool>): nat {
    if guards == [] then 0 else (if guards[0] then 1 else 0) + Owners(guards[1..])
  }

  // ---------- the invariant ----------

  predicate ThreadOk(th: Thread) {
    && (th.wait == ForShared ==> th.guards == [])
    && forall i :: 0 <= i < |th.guards| ==> th.guards[i] == (i == 0)
  }

  ghost predicate Inv(s: State) {
    && |s.threads| < EXCLUSIVE_LOCK_BIT
    && (forall t :: 0 <= t < |s.threads| ==> ThreadOk(s.threads[t]))
    && Sum(s.threads, Connecting()) <= 1
    && s.value == Sum(s.threads, Counted()) + EXCLUSIVE_LOCK_BIT * Sum(s.threads, Connecting())
    && (Sum(s.threads, Connecting()) == 0 || Sum(s.threads, Dispatching()) == 0)
  }

  /** The counter never spills into the lock bit. */
  lemma BitMeansConnecting(s: State)
    requires Inv(s)
    ensures ExclusiveBit(s.value) <==> Sum(s.threads, Connecting()) == 1
    ensures s.value == 0 <==> Sum(s.threads, Counted()) == 0 && Sum(s.threads, Connecting()) == 0
    ensures Sum(s.threads, Counted()) < EXCLUSIVE_LOCK_BIT
  {
    SumIsSmall(s.threads, Counted());
  }

  lemma InitHolds(s: State)
    requires Init(s)
    ensures Inv(s)
  {
    SumIsZero(s.threads, Connecting());
    SumIsZero(s.threads, Counted());
    SumIsZero(s.threads, Dispatching());
  }

  lemma SetCounts(s: State, t: nat, value: nat, th: Thread)
    requires t < |s.threads|
    ensures var threads, was := Set(s, t, value, th).threads, s.threads[t];
            && Sum(threads, Connecting()) == Sum(s.threads, Connecting()) - Connecting()(was) + Connecting()(th)
            && Sum(threads, Counted()) == Sum(s.threads, Counted()) - Counted()(was) + Counted()(th)
            && Sum(threads, Dispatching()) == Sum(s.threads, Dispatching()) - Dispatching()(was) + Dispatching()(th)
            && Counted()(was) <= Sum(s.threads, Counted()) && Connecting()(was) <= Sum(s.threads, Connecting())
            && Dispatching()(was) <= Sum(s.threads, Dispatching())
  {
    SumSet(s.threads, t, th, Connecting());
    SumSet(s.threads, t, th, Counted());
    SumSet(s.threads, t, th, Dispatching());
  }

  lemma {:induction false} DispatchIsCounted(threads: seq<Thread>)
    ensures Sum(threads, Dispatching()) <= Sum(threads, Counted())
  {
    if threads != [] {
      DispatchIsCounted(threads[1..]);
    }
  }

  lemma EnterKeeps(s: State, t: nat)
    requires Inv(s) && Enabled(s, EnterDispatch(t))
    ensures Inv(Do(s, EnterDispatch(t)))
  {
    BitMeansConnecting(s);
    var after := Do(s, EnterDispatch(t));
    SetCounts(s, t, after.value, after.threads[t]);
    SumIsSmall(after.threads, Counted());
  }

  lemma SpinKeeps(s: State, t: nat)
    requires Inv(s) && Enabled(s, SpinShared(t))
    ensures Inv(Do(s, SpinShared(t)))
  {
    BitMeansConnecting(s);
    var after := Do(s, SpinShared(t));
    SetCounts(s, t, after.value, after.threads[t]);
    assert s.threads[t := s.threads[t]] == s.threads;
  }

  lemma LeaveKeeps(s: State, t: nat)
    requires Inv(s) && Enabled(s, LeaveDispatch(t))
    ensures Inv(Do(s, LeaveDispatch(t)))
  {
    BitMeansConnecting(s);
    var after := Do(s, LeaveDispatch(t));
    SetCounts(s, t, after.value, after.threads[t]);
  }

  lemma ConnectStepsKeep(s: State, step: Step)
    requires Inv(s) && Enabled(s, step) && (step.EnterConnect? || step.TryExclusive? || step.LeaveConnect?)
    ensures Inv(Do(s, step))
  {
    BitMeansConnecting(s);
    DispatchIsCounted(s.threads);
    var after := Do(s, step);
    if after != s {
      SetCounts(s, step.t, after.value, after.threads[step.t]);
    }
  }

  lemma StepKeeps(s: State, step: Step)
    requires Inv(s) && Enabled(s, step)
    ensures Inv(Do(s, step))
  {
    match step
    case EnterDispatch(t) => EnterKeeps(s, t);
    case SpinShared(t) => SpinKeeps(s, t);
    case LeaveDispatch(t) => LeaveKeeps(s, t);
    case _ => ConnectStepsKeep(s, step);
  }

  lemma {:induction false} RunKeeps(s: State, steps: seq<Step>, end: State)
    requires Inv(s) && IsRun(s, steps, end)
    ensures Inv(end)
    decreases |steps|
  {
    if steps != [] {
      StepKeeps(s, steps[0]);
      RunKeeps(Do(s, steps[0]), steps[1..], end);
    }
  }
}
