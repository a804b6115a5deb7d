/** Sessions of a manager: how they start, and their turns side by side. */
module DetectorSessions {
  import opened Bytes
  import opened Wrappers
  import opened DetectorStreamFormat
  import opened DetectorOutputStream
  import opened DetectorManager
  import opened DetectorReports
  import opened DetectorSession

  // ---------- registered detectors ----------

  predicate UniqueIds(detectors: seq<Detector>) {
    forall i, j :: 0 <= i < j < |detectors| ==> DifferentIds(detectors, i, j)
  }

  predicate DifferentIds(detectors: seq<Detector>, i: nat, j: nat)
    requires i < |detectors| && j < |detectors|
  {
    detectors[i].id != detectors[j].id
  }

  lemma UniqueAfterAdding(detectors: seq<Detector>, detector: Detector)
    requires UniqueIds(detectors) && forall i :: 0 <= i < |detectors| ==> detectors[i].id != detector.id
    ensures UniqueIds(detectors + [detector])
  {
    var more := detectors + [detector];
    forall i, j | 0 <= i < j < |more|
      ensures DifferentIds(more, i, j)
    {
      assert j < |detectors| ==> DifferentIds(detectors, i, j);
    }
  }

  lemma UniqueAfterErasing(detectors: seq<Detector>, k: nat)
    requires UniqueIds(detectors) && k < |detectors|
    ensures var less := detectors[..k] + detectors[k + 1..];
            UniqueIds(less) && forall d :: d in less ==> d.id != detectors[k].id
  {
    var less := detectors[..k] + detectors[k + 1..];
    forall i, j | 0 <= i < j < |less|
      ensures DifferentIds(less, i, j)
    {
      assert DifferentIds(detectors, if i < k then i else i + 1, if j < k then j else j + 1);
    }
    forall i | 0 <= i < |less|
      ensures less[i].id != detectors[k].id
    {
      assert if i < k then DifferentIds(detectors, i, k) else DifferentIds(detectors, k, i + 1);
    }
  }

  function IndexOf(detectors: seq<Detector>, id: u32): (k: nat)
    ensures k <= |detectors| && (k < |detectors| ==> detectors[k].id == id)
    ensures forall j :: 0 <= j < k ==> detectors[j].id != id
  {
    if detectors == [] || detectors[0].id == id then 0 else 1 + IndexOf(detectors[1..], id)
  }

  lemma IndexIs(detectors: seq<Detector>, id: u32, i: nat)
    requires i < |detectors| && detectors[i].id == id && forall j :: 0 <= j < i ==> detectors[j].id != id
    ensures IndexOf(detectors, id) == i
  {
    if IndexOf(detectors, id) < i {
      assert false;
    }
  }

  /** The detector the list asks for at one place, if it is registered. */
  function NamedOne(detectors: seq<Detector>, id: u32): seq<Detector> {
    var k := IndexOf(detectors, id);
    if k < |detectors| then [detectors[k]] else []
  }

  /** The registered detectors the list names, in the order of the list. */
  function Named(detectors: seq<Detector>, infos: seq<DetectorInfo>): seq<Detector>
    decreases |infos|
  {
    if infos == [] then []
    else Named(detectors, infos[..|infos| - 1]) + NamedOne(detectors, infos[|infos| - 1].id)
  }

  /** No registered detector is named twice: Start asserts that none of them has a stream. */
  predicate NamesOnce(detectors: seq<Detector>, infos: seq<DetectorInfo>) {
    forall i, j :: 0 <= i < j < |infos| ==> NotTwice(detectors, infos[i].id, infos[j].id)
  }

  predicate NotTwice(detectors: seq<Detector>, a: u32, b: u32) {
    a == b ==> NamedOne(detectors, a) == []
  }

  lemma {:induction false} NamedFrom(detectors: seq<Detector>, infos: seq<DetectorInfo>)
    ensures forall d :: d in Named(detectors, infos) ==>
              d in detectors && exists i :: 0 <= i < |infos| && infos[i].id == d.id && NamedOne(detectors, d.id) == [d]
    decreases |infos|
  {
    if infos != [] {
      var last := |infos| - 1;
      NamedFrom(detectors, infos[..last]);
      forall d | d in Named(detectors, infos)
        ensures d in detectors
        ensures exists i :: 0 <= i < |infos| && infos[i].id == d.id && NamedOne(detectors, d.id) == [d]
      {
        if d in Named(detectors, infos[..last]) {
          var i :| 0 <= i < last && infos[..last][i].id == d.id && NamedOne(detectors, d.id) == [d];
          assert infos[i].id == d.id;
        } else {
          assert infos[last].id == d.id;
        }
      }
    }
  }

  lemma NotNamedYet(detectors: seq<Detector>, infos: seq<DetectorInfo>, i: nat)
    requires i < |infos| && NamesOnce(detectors, infos)
    ensures forall d :: d in NamedOne(detectors, infos[i].id) ==> d !in Named(detectors, infos[..i])
  {
    NamedFrom(detectors, infos[..i]);
    if NamedOne(detectors, infos[i].id) != [] {
      forall j | 0 <= j < i
        ensures infos[..i][j].id != infos[i].id
      {
        assert NotTwice(detectors, infos[j].id, infos[i].id);
      }
    }
  }

  lemma {:induction false} NamedPrefix(detectors: seq<Detector>, infos: seq<DetectorInfo>, i: nat)
    requires i < |infos|
    ensures Named(detectors, infos[..i + 1]) == Named(detectors, infos[..i]) + NamedOne(detectors, infos[i].id)
    ensures Named(detectors, infos[..i + 1]) <= Named(detectors, infos)
    decreases |infos| - i
  {
    assert infos[..i + 1][..i] == infos[..i];
    if i + 1 == |infos| {
      assert infos[..i + 1] == infos;
    } else {
      NamedPrefix(detectors, infos, i + 1);
    }
  }

  // ---------- Start ----------

  ghost predicate IdleAt(detectors: seq<Detector>, i: nat, at: seq<nat>)
    requires i < |detectors| == |at|
    reads detectors[i]
  {
    detectors[i].output == null && detectors[i].calls == at[i] && detectors[i].Balanced()
  }

  /** The detectors have no stream, as Start asserts, and have been called so many times. */
  ghost predicate Idle(detectors: seq<Detector>, at: seq<nat>)
    reads detectors
  {
    |at| == |detectors| && forall i :: 0 <= i < |detectors| ==> IdleAt(detectors, i, at)
  }

  /** What the session has to show while the first `named` of all named detectors have started. */
  function StartedBook(all: seq<Detector>, at: seq<nat>, named: nat): Book
    requires named <= |all| == |at|
  {
    Book([], Reports(all[..named], at[..named]), Plus(at[..named], 1))
  }

  lemma OneMoreStarted(all: seq<Detector>, at: seq<nat>, named: nat)
    requires named < |all| == |at|
    ensures var b := StartedBook(all, at, named);
            StartedBook(all, at, named + 1) == Book([], b.reports + all[named].Says(at[named]), b.at + [at[named] + 1])
  {
    ReportsMore(all, at, named);
    var more, less := Plus(at[..named + 1], 1), Plus(at[..named], 1);
    assert more[..named] == less && more[named] == at[named] + 1;
    assert more == more[..named] + [more[named]];
  }

  /** What one place of the list adds to the named detectors. */
  lemma NamesStep(registered: seq<Detector>, drillerList: seq<DetectorInfo>, i: nat)
    requires i < |drillerList| && NamesOnce(registered, drillerList)
    ensures var all, so := Named(registered, drillerList), Named(registered, drillerList[..i]);
            var one := NamedOne(registered, drillerList[i].id);
            && Named(registered, drillerList[..i + 1]) == so + one && |so| + |one| <= |all|
            && (one != [] ==> one[0] == all[|so|] && one[0] !in so && one[0] in registered)
  {
    var so, one := Named(registered, drillerList[..i]), NamedOne(registered, drillerList[i].id);
    NamedPrefix(registered, drillerList, i);
    NotNamedYet(registered, drillerList, i);
    if one != [] {
      assert one[0] in one && one[0] == (so + one)[|so|];
    }
  }

  /** And to what the session has to show. */
  lemma StartStep(all: seq<Detector>, at: seq<nat>, so: nat, one: seq<Detector>)
    requires |one| <= 1 && so + |one| <= |all| == |at| && (one != [] ==> one[0] == all[so])
    ensures StartedBook(all, at, so + |one|) == Joined(StartedBook(all, at, so), one, if one == [] then 0 else at[so])
  {
    if one != [] {
      OneMoreStarted(all, at, so);
    }
  }

  /** Of `all` the first ones, `named`, have started. */
  ghost predicate Starting(all: seq<Detector>, at: seq<nat>, s: Session, named: seq<Detector>)
    requires |at| == |all|
    reads s, s.output, s.output.stringPool, s.detectors`output, s.detectors`calls
  {
    s.Valid() && s.detectors == named && |named| <= |all| && s.book == StartedBook(all, at, |named|)
  }

  /** All but these have not started yet. */
  ghost predicate IdleBut(all: seq<Detector>, at: seq<nat>, named: seq<Detector>)
    requires |at| == |all|
    reads all
  {
    forall i :: 0 <= i < |all| && all[i] !in named ==> IdleAt(all, i, at)
  }

  lemma NoneStarted(all: seq<Detector>, at: seq<nat>)
    requires |all| == |at|
    ensures StartedBook(all, at, 0) == Book([], [], [])
  {
    assert all[..0] == [] && at[..0] == [];
  }

  /** The second loop of Start: finds each detector of the list and lets it join. */
  method StartDetectors(registered: seq<Detector>, s: Session, drillerList: seq<DetectorInfo>, ghost at: seq<nat>)
    requires s.Valid() && s.detectors == [] && s.book == Book([], [], []) && NamesOnce(registered, drillerList)
    requires Idle(Named(registered, drillerList), at)
    modifies s`detectors, s`book, s.output`data, s.output`ops, s.output.stringPool, Named(registered, drillerList)
    ensures Starting(Named(registered, drillerList), at, s, Named(registered, drillerList))
  {
    ghost var all := Named(registered, drillerList);
    NoneStarted(all, at);
    var i := 0;
    while i < |drillerList|
      invariant 0 <= i <= |drillerList| && Starting(all, at, s, Named(registered, drillerList[..i]))
      invariant IdleBut(all, at, Named(registered, drillerList[..i]))
    {
      NamesStep(registered, drillerList, i);
      StartOne(registered, s, drillerList[i].id, all, at, Named(registered, drillerList[..i]));
      i := i + 1;
    }
    assert drillerList[..i] == drillerList;
  }

  /** A detector that joins, if there is one, adds its first reports. */
  function Joined(b: Book, one: seq<Detector>, calls: nat): Book {
    if one == [] then b else Book(b.frames, b.reports + one[0].Says(calls), b.at + [calls + 1])
  }

  /** The search of Start for one detector of the list, which joins the session if it is registered. */
  method JoinNamed(registered: seq<Detector>, s: Session, id: u32)
    requires s.Valid()
    requires var one := NamedOne(registered, id);
             one != [] ==> one[0].output == null && one[0].Balanced() && one[0] !in s.detectors
    modifies s`detectors, s`book, s.output`data, s.output`ops, s.output.stringPool, NamedOne(registered, id)
    ensures var one := NamedOne(registered, id);
            && s.Valid() && s.detectors == old(s.detectors) + one
            && s.book == Joined(old(s.book), one, old(if one == [] then 0 else one[0].calls))
  {
    var k := Search(registered, id);
    if k < |registered| {
      var driller := registered[k];
      assert NamedOne(registered, id) == [driller];
      s.Join(driller);
    } else {
      assert s.detectors + [] == s.detectors;
    }
  }

  /** One round of that loop. */
  method StartOne(registered: seq<Detector>, s: Session, id: u32, ghost all: seq<Detector>, ghost at: seq<nat>,
                  ghost named: seq<Detector>)
    requires |at| == |all| && Starting(all, at, s, named) && IdleBut(all, at, named)
    requires var one := NamedOne(registered, id);
             one != [] ==> |named| < |all| && one[0] == all[|named|] && one[0] !in named
    modifies s`detectors, s`book, s.output`data, s.output`ops, s.output.stringPool, NamedOne(registered, id)
    ensures Starting(all, at, s, named + NamedOne(registered, id)) && IdleBut(all, at, named + NamedOne(registered, id))
  {
    ghost var one := NamedOne(registered, id);
    StartStep(all, at, |named|, one);
    assert one != [] ==> IdleAt(all, |named|, at);
    JoinBeside(registered, s, id, all, at, named);
  }

  /** Those that have not started are as they were. */
  method JoinBeside(registered: seq<Detector>, s: Session, id: u32, ghost all: seq<Detector>, ghost at: seq<nat>,
                    ghost named: seq<Detector>)
    requires |at| == |all| && s.Valid() && IdleBut(all, at, named)
    requires var one := NamedOne(registered, id);
             one != [] ==> one[0].output == null && one[0].Balanced() && one[0] !in s.detectors
    modifies s`detectors, s`book, s.output`data, s.output`ops, s.output.stringPool, NamedOne(registered, id)
    ensures var one := NamedOne(registered, id);
            && s.Valid() && s.detectors == old(s.detectors) + one && IdleBut(all, at, named + one)
            && s.book == Joined(old(s.book), one, old(if one == [] then 0 else one[0].calls))
  {
    ghost var one := NamedOne(registered, id);
    JoinNamed(registered, s, id);
    forall i | 0 <= i < |all| && all[i] !in named + one
      ensures IdleAt(all, i, at)
    {
      assert all[i] !in named && all[i] !in one && old(IdleAt(all, i, at));
    }
  }

  method Search(registered: seq<Detector>, id: u32) returns (k: nat)
    ensures k == IndexOf(registered, id)
  {
    k := 0;
    while k < |registered| && registered[k].id != id
      invariant 0 <= k <= |registered| && forall j :: 0 <= j < k ==> registered[j].id != id
    {
      k := k + 1;
    }
    if k < |registered| {
      IndexIs(registered, id, k);
    } else {
      assert IndexOf(registered, id) == |registered|;
    }
  }

  // ---------- sessions side by side ----------

  /** Different sessions with streams and detectors of their own. */
  ghost predicate Apart(a: Session, b: Session)
    reads a`detectors, b`detectors
  {
    && a != b && a.output != b.output
    && (a.output.stringPool == null || a.output.stringPool != b.output.stringPool)
    && forall d :: d in a.detectors ==> d !in b.detectors
  }

  ghost predicate AllApart(sessions: seq<Session>)
    reads sessions`detectors
  {
    forall i, j :: 0 <= i < |sessions| && 0 <= j < |sessions| && i != j ==> ApartAt(sessions, i, j)
  }

  ghost predicate ApartAt(sessions: seq<Session>, i: nat, j: nat)
    requires i < |sessions| && j < |sessions|
    reads sessions`detectors
  {
    Apart(sessions[i], sessions[j])
  }

  /** The session, its stream and its detectors are among these objects. */
  ghost predicate Within(s: Session, objects: set<object>)
    reads s`detectors
  {
    && s in objects && s.output in objects && (s.output.stringPool != null ==> s.output.stringPool in objects)
    && forall d :: d in s.detectors ==> d in objects
  }

  /** What there is to see of a session with an open frame, and where its stream began. */
  datatype RawView = View(book: Book, detectors: seq<Detector>, base: seq<byte>, basePool: Option<Pool>)

  type View = v: RawView | |v.book.at| == |v.detectors| witness View(Book([], [], []), [], [], None)

  ghost predicate Shows(s: Session, v: View)
    reads s, s.output, s.output.stringPool, s.detectors`output, s.detectors`calls
  {
    s.Valid() && s.book == v.book && s.detectors == v.detectors && BeganAt(s.output, v)
  }

  ghost predicate BeganAt(output: OutputStream, v: View)
    reads output`base, output`basePool
  {
    output.base == v.base && output.basePool == v.basePool
  }

  /** The open frame is finished, with the detectors' reports at its end, and the next is open. */
  function NextView(v: View): View {
    v.(book := NextBook(v.book, v.detectors))
  }

  /** FrameUpdate is to end this session at the end of its open frame. */
  predicate Due(s: Session, v: View) {
    s.numFrames != -1 && |v.book.frames| + 1 == s.numFrames
  }

  ghost predicate ShowsAt(sessions: seq<Session>, views: seq<View>, i: nat, repr: set<object>)
    requires i < |sessions| == |views| && sessions[i] in repr && WithinAt(sessions, i, repr)
    reads repr
  {
    Shows(sessions[i], views[i])
  }

  ghost predicate WithinAt(sessions: seq<Session>, i: nat, repr: set<object>)
    requires i < |sessions|
    reads {sessions[i]}`detectors
  {
    Within(sessions[i], repr)
  }

  /** Sessions that share nothing, with their views, all among the objects of `repr`; but session
      `except` is in the middle of its turn. */
  ghost predicate ReadyBut(sessions: seq<Session>, views: seq<View>, repr: set<object>, except: int)
    reads repr
  {
    && |views| == |sessions|
    && (forall i :: 0 <= i < |sessions| ==> sessions[i] in repr) && AllApart(sessions)
    && (forall i :: 0 <= i < |sessions| ==> WithinAt(sessions, i, repr))
    && forall i :: 0 <= i < |sessions| && i != except ==> ShowsAt(sessions, views, i, repr)
  }

  ghost predicate Ready(sessions: seq<Session>, views: seq<View>, repr: set<object>)
    reads repr
  {
    ReadyBut(sessions, views, repr, -1)
  }

  /** The first half of a session's turn, which leaves the others as they are. */
  method CloseTurn(sessions: seq<Session>, i: nat, ghost views: seq<View>, ghost repr: set<object>)
    requires i < |sessions| && Ready(sessions, views, repr)
    modifies repr
    ensures ReadyBut(sessions, views, repr, i)
    ensures sessions[i].Between() && sessions[i].book == NextView(views[i]).book
            && BeganAt(sessions[i].output, views[i])
    ensures sessions[i].detectors == views[i].detectors && sessions[i].curFrame == |views[i].book.frames| + 1
  {
    assert ShowsAt(sessions, views, i, repr) && WithinAt(sessions, i, repr);
    CloseAmong(sessions[i], sessions, i, views, repr);
    forall j, k | 0 <= j < |sessions| && 0 <= k < |sessions| && j != k
      ensures ApartAt(sessions, j, k)
    {
      assert old(ApartAt(sessions, j, k));
    }
  }

  method CloseAmong(session: Session, ghost sessions: seq<Session>, ghost i: nat, ghost views: seq<View>,
                    ghost repr: set<object>)
    requires i < |sessions| && Ready(sessions, views, repr) && session == sessions[i] && session.Valid()
    requires WithinAt(sessions, i, repr)
    modifies session`book, session`curFrame, session.output`data, session.output`ops, session.output.stringPool
    modifies session.detectors`calls
    ensures session.Between() && session.book == NextBook(old(session.book), session.detectors)
    ensures session.curFrame == old(session.curFrame) + 1
    ensures forall j :: 0 <= j < |sessions| ==>
              WithinAt(sessions, j, repr) && (j != i ==> ShowsAt(sessions, views, j, repr))
  {
    session.CloseFrame();
    forall j | 0 <= j < |sessions|
      ensures WithinAt(sessions, j, repr) && (j != i ==> ShowsAt(sessions, views, j, repr))
    {
      assert old(WithinAt(sessions, j, repr));
      if j != i {
        ghost var t := sessions[j];
        assert old(ShowsAt(sessions, views, j, repr)) && old(ApartAt(sessions, i, j));
        forall k | 0 <= k < |t.detectors|
          ensures MemberAt(t.detectors, k, t.output, t.book.at)
        {
          assert t.detectors[k] !in session.detectors && old(MemberAt(t.detectors, k, t.output, t.book.at));
        }
        assert t.output.Valid() && t.Valid();
      }
    }
  }

  /** The second half, unless the session ends. */
  method OpenTurn(sessions: seq<Session>, i: nat, ghost views: seq<View>, ghost repr: set<object>)
    returns (ghost after: seq<View>)
    requires i < |sessions| && ReadyBut(sessions, views, repr, i) && sessions[i].Between()
    requires sessions[i].detectors == views[i].detectors && BeganAt(sessions[i].output, views[i])
    requires sessions[i].book == NextView(views[i]).book
    requires sessions[i].curFrame < FRAME_LIMIT
    modifies repr
    ensures Ready(sessions, after, repr) && after == views[i := NextView(views[i])]
  {
    after := views[i := NextView(views[i])];
    assert WithinAt(sessions, i, repr);
    sessions[i].OpenFrame();
    forall j | 0 <= j < |sessions|
      ensures ShowsAt(sessions, after, j, repr)
    {
      assert WithinAt(sessions, j, repr);
      if j != i {
        ghost var t := sessions[j];
        assert old(ShowsAt(sessions, views, j, repr)) && old(ApartAt(sessions, i, j));
        assert t.detectors == old(t.detectors);
      }
    }
  }
}
