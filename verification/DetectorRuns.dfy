/** Whole runs of a session: what it writes, and when that is the sending of a tree. */
module DetectorRuns {
  import opened Bytes
  import opened Wrappers
  import opened DetectorStreamFormat
  import opened DetectorOutputStream
  import opened DetectorTree
  import opened DetectorManager
  import opened DetectorReports
  import opened DetectorSession
  import opened DetectorSessions
  import opened DetectorManagerImpl

  // ---------- what the frames hold ----------

  /** What frame k holds: in the first the detectors' Start calls, then what they write on their own
      account, and the calls that finish it; the first calls are number `at`. */
  function FrameReports(ds: seq<Detector>, at: seq<nat>, extra: Script, k: nat): seq<Item<Op>>
    requires |at| == |ds|
  {
    FirstReports(ds, at, k) + Said(extra, k) + Reports(ds, Plus(at, k + 1))
  }

  /** What is in frame k from the start. */
  function FirstReports(ds: seq<Detector>, at: seq<nat>, k: nat): seq<Item<Op>>
    requires |at| == |ds|
  {
    if k == 0 then Reports(ds, at) else []
  }

  function SessionFrames(ds: seq<Detector>, at: seq<nat>, extra: Script, n: nat): (frames: seq<seq<Item<Op>>>)
    requires |at| == |ds|
    ensures |frames| == n
  {
    if n == 0 then [] else SessionFrames(ds, at, extra, n - 1) + [FrameReports(ds, at, extra, n - 1)]
  }

  lemma {:induction false} FrameAt(ds: seq<Detector>, at: seq<nat>, extra: Script, n: nat, k: nat)
    requires |at| == |ds| && k < n
    ensures SessionFrames(ds, at, extra, n)[k] == FrameReports(ds, at, extra, k)
    decreases n
  {
    if k < n - 1 {
      FrameAt(ds, at, extra, n - 1, k);
    }
  }

  /** FrameUpdate is to end a session at its m-th frame, and there are n updates. */
  predicate EndsByItself(m: int, n: nat) {
    1 <= m <= n
  }

  /** All that a session writes between the header and its end. */
  function SessionOps(platform: byte, infos: seq<DetectorInfo>, ds: seq<Detector>, at: seq<nat>,
                      extra: Script, m: int, n: nat): seq<Op>
    requires |at| == |ds|
  {
    if EndsByItself(m, n)
    then StoppedByItself(platform, infos, SessionFrames(ds, at, extra, m), Reports(ds, Plus(at, m + 1)))
    else Ops(SessionItems(platform, infos, SessionFrames(ds, at, extra, n + 1)))
  }

  /** Detectors close every tag they open, in their calls and on their own account. */
  ghost predicate Behaved(ds: seq<Detector>, extra: Script) {
    (forall d :: d in ds ==> d.Balanced()) && AlwaysWrites(extra)
  }

  lemma FramesBalance(ds: seq<Detector>, at: seq<nat>, extra: Script, n: nat)
    requires |at| == |ds| && Behaved(ds, extra)
    ensures forall k :: 0 <= k < n ==> LeavesWrite(SessionFrames(ds, at, extra, n)[k])
  {
    forall k | 0 <= k < n
      ensures LeavesWrite(SessionFrames(ds, at, extra, n)[k])
    {
      FrameAt(ds, at, extra, n, k);
      ReportsWrite(ds, at);
      ReportsWrite(ds, Plus(at, k + 1));
      assert WritesAt(extra, k);
    }
  }

  /** What a session writes is the sending of some tree exactly if it is not ended by FrameUpdate. */
  lemma SendsATree(platform: byte, infos: seq<DetectorInfo>, ds: seq<Detector>, at: seq<nat>,
                   extra: Script, m: int, n: nat)
    requires |at| == |ds| && Behaved(ds, extra)
    ensures IsSending(SessionOps(platform, infos, ds, at, extra, m, n)) <==> !(1 <= m <= n)
  {
    if EndsByItself(m, n) {
      FramesBalance(ds, at, extra, m);
      ReportsWrite(ds, Plus(at, m + 1));
      StoppedIsUnbalanced(platform, infos, SessionFrames(ds, at, extra, m), Reports(ds, Plus(at, m + 1)));
    } else {
      FramesBalance(ds, at, extra, n + 1);
      SessionWrites(platform, infos, SessionFrames(ds, at, extra, n + 1));
    }
  }

  /** The shortest such run: one frame asked for, no detectors, one update. */
  lemma OneFrameEndsTwice(platform: byte, infos: seq<DetectorInfo>)
    ensures SessionOps(platform, infos, [], [], [], 1, 1)
         == Ops([StartItem(platform, infos), FrameItem(0, [])]) + [EndTag(FRAME)]
    ensures !IsSending(SessionOps(platform, infos, [], [], [], 1, 1))
  {
    SendsATree(platform, infos, [], [], [], 1, 1);
    assert SessionFrames([], [], [], 1) == [[]] by {
      FrameAt([], [], [], 1, 0);
    }
    assert SessionItems(platform, infos, [[]]) == [StartItem(platform, infos), FrameItem(0, [])] by {
      assert FrameItems([[]]) == FrameItems([]) + [FrameItem(0, [])];
    }
    assert Ops([]) == [];
  }

  /** The number of updates the session lives through. */
  function Updates(m: int, n: nat): nat {
    if EndsByItself(m, n) then m else n
  }

  // ---------- a run in memory ----------

  /** The detectors of a run, their number of calls before it, and the stream before its writes. */
  datatype RawOrigin = Origin(detectors: seq<Detector>, at: seq<nat>, base: seq<byte>, basePool: Option<Pool>)

  type Origin = o: RawOrigin | |o.at| == |o.detectors| witness Origin([], [], [], None)

  /** What the session shows after n frames. */
  function ViewAfter(o: Origin, extra: Script, n: nat): View {
    View(Book(SessionFrames(o.detectors, o.at, extra, n), FirstReports(o.detectors, o.at, n), Plus(o.at, n + 1)),
         o.detectors, o.base, o.basePool)
  }

  function Recorded(v: View, items: seq<Item<Op>>): View {
    v.(book := v.book.(reports := v.book.reports + items))
  }

  lemma PlusPlus(at: seq<nat>, a: nat, b: nat)
    ensures Plus(Plus(at, a), b) == Plus(at, a + b)
  {
    var once, twice := Plus(at, a), Plus(Plus(at, a), b);
    forall i | 0 <= i < |at|
      ensures twice[i] == Plus(at, a + b)[i]
    {
      assert twice[i] == once[i] + b;
    }
  }

  /** One more frame, as the manager does it and as the frames are given. */
  lemma OneMoreFrame(o: Origin, extra: Script, n: nat)
    ensures NextView(Recorded(ViewAfter(o, extra, n), Said(extra, n))) == ViewAfter(o, extra, n + 1)
  {
    NextFrames(o.detectors, o.at, extra, n, FirstReports(o.detectors, o.at, n) + Said(extra, n));
  }

  lemma FramesAfter(o: Origin, extra: Script, n: nat)
    ensures NextView(Recorded(ViewAfter(o, extra, n), Said(extra, n))).book.frames
         == SessionFrames(o.detectors, o.at, extra, n + 1)
  {
    NextFrames(o.detectors, o.at, extra, n, FirstReports(o.detectors, o.at, n) + Said(extra, n));
  }

  lemma NextFrames(ds: seq<Detector>, at: seq<nat>, extra: Script, n: nat, reports: seq<Item<Op>>)
    requires |at| == |ds| && reports == FirstReports(ds, at, n) + Said(extra, n)
    ensures SessionFrames(ds, at, extra, n) + [reports + Reports(ds, Plus(at, n + 1))]
            == SessionFrames(ds, at, extra, n + 1)
    ensures Plus(Plus(at, n + 1), 1) == Plus(at, n + 2)
  {
    PlusPlus(at, n + 1, 1);
  }

  ghost function Objects(detectors: seq<Detector>): (r: set<object>)
    ensures forall d :: d in detectors ==> d in r
    ensures forall o :: o in r ==> exists i :: 0 <= i < |detectors| && detectors[i] == o
  {
    if detectors == [] then {} else {detectors[0]} + Objects(detectors[1..])
  }

  ghost function Footprint(s: Session, ds: seq<Detector>): set<object> {
    {s, s.output} + (if s.output.stringPool == null then {} else {s.output.stringPool}) + Objects(ds)
  }

  /** The manager runs just this session, which shows this. */
  ghost predicate Running(manager: Manager, s: Session, v: View)
    reads manager, s, s.output, s.output.stringPool, s.detectors`output, s.detectors`calls
  {
    manager.sessions == [s] && Shows(s, v)
  }

  lemma ReadyAlone(s: Session, v: View, repr: set<object>)
    requires Shows(s, v) && repr == Footprint(s, s.detectors)
    ensures Ready([s], [v], repr)
  {
    assert WithinAt([s], 0, repr) && ShowsAt([s], [v], 0, repr);
  }

  /** A frame of a session that is alone: what is written during it, and the manager's update. */
  method RunFrame(manager: Manager, s: Session, items: seq<Item<Op>>, ghost v: View) returns (isEnded: bool)
    requires Running(manager, s, v) && Writes(items) && |v.book.frames| + 1 < FRAME_LIMIT
    modifies manager`sessions, s, s.output, s.output.stringPool, s.detectors
    ensures isEnded == Due(s, v)
    ensures !isEnded ==> Running(manager, s, NextView(Recorded(v, items)))
    ensures isEnded ==> EndedByItself(s, Recorded(v, items))
  {
    s.Record(items);
    ghost var repr, now := Footprint(s, s.detectors), Recorded(v, items);
    ReadyAlone(s, now, repr);
    ghost var views, turns := manager.FrameUpdate([now], repr);
    assert TurnDone([s], [now], views, turns, 0);
    isEnded := manager.sessions == [];
    if !isEnded {
      assert views == [NextView(now)] && ShowsAt([s], views, 0, repr);
    }
  }

  /** The session has been stopped, n updates having been planned: its stream holds what such a session
      writes, behind what was there before, and the detectors are let go. */
  ghost predicate Stopped(output: OutputStream, platform: byte, infos: seq<DetectorInfo>, o: Origin, extra: Script,
                          m: int, n: nat)
    reads output, output.stringPool, o.detectors`output, o.detectors`calls
  {
    && output.Valid() && output.base == o.base && output.basePool == o.basePool
    && output.ops == SessionOps(platform, infos, o.detectors, o.at, extra, m, n)
    && Released(o.detectors, Plus(o.at, Updates(m, n) + 1))
  }

  ghost predicate HasStopped(s: Session, o: Origin, extra: Script, n: nat)
    reads s, s.output, s.output.stringPool, o.detectors`output, o.detectors`calls
  {
    Stopped(s.output, s.platform, s.infos, o, extra, s.numFrames, n)
  }

  lemma EndedIsStopped(s: Session, o: Origin, extra: Script, v: View, n: nat)
    requires v.detectors == o.detectors && v.base == o.base && v.basePool == o.basePool && EndsByItself(s.numFrames, n)
    requires EndedWith(s, SessionFrames(o.detectors, o.at, extra, s.numFrames), Plus(o.at, s.numFrames + 1), v)
    ensures HasStopped(s, o, extra, n)
  {
  }

  lemma ClosedBook(o: Origin, extra: Script, i: nat)
    ensures var v := Recorded(ViewAfter(o, extra, i), Said(extra, i));
            NextBook(v.book, v.detectors) == Book(SessionFrames(o.detectors, o.at, extra, i + 1), [], Plus(o.at, i + 2))
  {
    NextFrames(o.detectors, o.at, extra, i, FirstReports(o.detectors, o.at, i) + Said(extra, i));
  }

  lemma EndedAtFrame(s: Session, o: Origin, extra: Script, i: nat, n: nat)
    requires s.numFrames == i + 1 <= n && EndedByItself(s, Recorded(ViewAfter(o, extra, i), Said(extra, i)))
    ensures HasStopped(s, o, extra, n)
  {
    ClosedBook(o, extra, i);
    EndedIsStopped(s, o, extra, Recorded(ViewAfter(o, extra, i), Said(extra, i)), n);
  }

  /** The run has come to its frame number i. */
  ghost predicate Ongoing(manager: Manager, s: Session, o: Origin, extra: Script, i: nat)
    reads manager, s, s.output, s.output.stringPool, s.detectors`output, s.detectors`calls
  {
    !EndsByItself(s.numFrames, i) && Running(manager, s, ViewAfter(o, extra, i))
  }

  /** Frame number i of the run. */
  method RunNext(manager: Manager, s: Session, extra: Script, i: nat, ghost n: nat, ghost o: Origin)
    returns (isEnded: bool)
    requires Ongoing(manager, s, o, extra, i) && AlwaysWrites(extra) && i < n < FRAME_LIMIT - 1
    modifies manager`sessions, s, s.output, s.output.stringPool, s.detectors
    ensures if isEnded then EndsByItself(s.numFrames, n) && HasStopped(s, o, extra, n)
            else Ongoing(manager, s, o, extra, i + 1)
  {
    OneMoreFrame(o, extra, i);
    assert WritesAt(extra, i);
    isEnded := RunFrame(manager, s, Said(extra, i), ViewAfter(o, extra, i));
    if isEnded {
      EndedAtFrame(s, o, extra, i, n);
    }
  }

  /** The frame updates of a session that is alone, as long as there is a session. */
  method RunFrames(manager: Manager, s: Session, extra: Script, n: nat, ghost o: Origin)
    returns (isEnded: bool)
    requires Ongoing(manager, s, o, extra, 0) && AlwaysWrites(extra) && n < FRAME_LIMIT - 1
    modifies manager`sessions, s, s.output, s.output.stringPool, s.detectors
    ensures if isEnded then EndsByItself(s.numFrames, n) && HasStopped(s, o, extra, n)
            else Ongoing(manager, s, o, extra, n)
  {
    isEnded := false;
    var i := 0;
    while i < n
      invariant 0 <= i <= n && Ongoing(manager, s, o, extra, i)
    {
      isEnded := RunNext(manager, s, extra, i, n, o);
      i := i + 1;
      if isEnded {
        return;
      }
    }
  }

  /** What Stop has done at the end of the last of these frames, the detectors' calls before it being
      known and where the stream began. */
  ghost predicate StoppedWith(s: Session, frames: seq<seq<Item<Op>>>, o: Origin)
    reads s, s.output, s.output.stringPool, s.detectors`output, s.detectors`calls
  {
    && s.output.Valid() && s.output.base == o.base && s.output.basePool == o.basePool
    && s.detectors == o.detectors && Released(s.detectors, o.at)
    && s.output.ops == Ops(SessionItems(s.platform, s.infos, frames))
  }

  /** The last frame, which Stop closes. */
  method LastFrame(manager: Manager, s: Session, items: seq<Item<Op>>, ghost v: View)
    requires Running(manager, s, v) && Writes(items)
    modifies manager`sessions, s, s.output, s.output.stringPool, s.detectors
    ensures StoppedWith(s, NextView(Recorded(v, items)).book.frames, Origin(v.detectors, v.book.at, v.base, v.basePool))
  {
    s.Record(items);
    TurnCloses(s.platform, s.infos, s.book, s.detectors);
    assert manager.sessions[0] == s;
    manager.Stop(s);
  }

  lemma LastIsStopped(s: Session, o: Origin, extra: Script, n: nat)
    requires !EndsByItself(s.numFrames, n)
    requires StoppedWith(s, SessionFrames(o.detectors, o.at, extra, n + 1), o.(at := Plus(o.at, n + 1)))
    ensures HasStopped(s, o, extra, n)
  {
  }

  /** The session is ended by FrameUpdate or, after n updates, by Stop. */
  method RunToEnd(manager: Manager, s: Session, extra: Script, n: nat, ghost o: Origin) returns (isEnded: bool)
    requires Ongoing(manager, s, o, extra, 0) && AlwaysWrites(extra) && n < FRAME_LIMIT - 1
    modifies manager`sessions, s, s.output, s.output.stringPool, s.detectors
    ensures isEnded == EndsByItself(s.numFrames, n)
    ensures HasStopped(s, o, extra, n)
  {
    isEnded := RunFrames(manager, s, extra, n, o);
    if !isEnded {
      assert WritesAt(extra, n);
      FramesAfter(o, extra, n);
      LastFrame(manager, s, Said(extra, n), ViewAfter(o, extra, n));
      LastIsStopped(s, o, extra, n);
    }
  }

  /** A manager with these detectors and no session. */
  method ManagerOf(platform: byte, registered: seq<Detector>) returns (manager: Manager)
    ensures fresh(manager) && manager.platform == platform && manager.sessions == [] && manager.detectors == registered
  {
    manager := new Manager(platform);
    manager.detectors := registered;
  }

  /** The Start of a session of a manager that has no other. */
  method StartAlone(platform: byte, registered: seq<Detector>, output: OutputStream, drillerList: seq<DetectorInfo>,
                    numFrames: int, ghost at: seq<nat>, ghost extra: Script)
    returns (manager: Manager, s: Session, ghost o: Origin)
    requires output.Valid() && drillerList != []
    requires UniqueIds(registered) && NamesOnce(registered, drillerList) && Describable(drillerList)
    requires Idle(Named(registered, drillerList), at)
    modifies output, output.stringPool, Named(registered, drillerList)
    ensures fresh(manager) && fresh(s) && Ongoing(manager, s, o, extra, 0)
    ensures s.platform == platform && s.output == output && s.numFrames == numFrames && s.infos == drillerList
    ensures o == Origin(Named(registered, drillerList), at, old(output.data) + [platform], old(output.PoolContents()))
  {
    manager := ManagerOf(platform, registered);
    ghost var all := Named(registered, drillerList);
    forall i | 0 <= i < |all|
      ensures IdleAt(all, i, at)
    {
      assert old(IdleAt(all, i, at));
    }
    s := manager.Start(output, drillerList, numFrames, at);
    o := Origin(all, at, old(output.data) + [platform], old(output.PoolContents()));
    StartedBookIs(o, extra);
  }

  lemma StartedBookIs(o: Origin, extra: Script)
    ensures ViewAfter(o, extra, 0).book == StartedBook(o.detectors, o.at, |o.at|)
  {
    assert o.detectors[..|o.at|] == o.detectors && o.at[..|o.at|] == o.at;
  }

  /** A whole session: Start, up to n frame updates, and Stop unless FrameUpdate has ended it at its
      frame number `numFrames`.  What is written after the header is known to the last write. */
  method RunSession(platform: byte, registered: seq<Detector>, output: OutputStream, drillerList: seq<DetectorInfo>,
                    numFrames: int, n: nat, extra: Script, ghost at: seq<nat>)
    returns (isEnded: bool)
    requires output.Valid() && drillerList != [] && n < FRAME_LIMIT - 1
    requires UniqueIds(registered) && NamesOnce(registered, drillerList) && Describable(drillerList)
    requires Idle(Named(registered, drillerList), at) && AlwaysWrites(extra)
    modifies output, output.stringPool, Named(registered, drillerList)
    ensures isEnded <==> 1 <= numFrames <= n
    ensures Stopped(output, platform, drillerList,
                    Origin(Named(registered, drillerList), at, old(output.data) + [platform],
                           old(output.PoolContents())),
                    extra, numFrames, n)
  {
    var manager, s;
    ghost var o;
    manager, s, o := StartAlone(platform, registered, output, drillerList, numFrames, at, extra);
    isEnded := RunToEnd(manager, s, extra, n, o);
  }
}
