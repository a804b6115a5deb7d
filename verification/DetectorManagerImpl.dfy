/** DetectorManagerImpl in memory: registered detectors and the list of sessions. */
module DetectorManagerImpl {
  import opened Bytes
  import opened DetectorOutputStream
  import opened DetectorTree
  import opened DetectorManager
  import opened DetectorReports
  import opened DetectorSession
  import opened DetectorSessions

  /** What is left of a session that ended by itself: its stream has the detectors' last reports behind
      the last frame that was closed, and one closing tag more; the detectors are let go. */
  ghost predicate EndedWith(s: Session, frames: seq<seq<Item<Op>>>, at: seq<nat>, before: View)
    reads s, s.output, s.output.stringPool, s.detectors`output, s.detectors`calls
  {
    && s.output.Valid() && BeganAt(s.output, before)
    && s.detectors == before.detectors && Released(s.detectors, at)
    && s.output.ops == StoppedByItself(s.platform, s.infos, frames, Reports(s.detectors, at))
  }

  ghost predicate EndedByItself(s: Session, before: View)
    reads s, s.output, s.output.stringPool, s.detectors`output, s.detectors`calls
  {
    var closed := NextBook(before.book, before.detectors);
    EndedWith(s, closed.frames, closed.at, before)
  }

  /** After `turns` turns, one place of the list. */
  predicate TurnDone(sessions: seq<Session>, before: seq<View>, after: seq<View>, turns: nat, i: nat)
    requires i < |sessions| == |before| == |after|
  {
    if i < turns then !Due(sessions[i], before[i]) && after[i] == NextView(before[i]) else after[i] == before[i]
  }

  class Manager {
    const platform: byte
    var sessions: seq<Session>
    var detectors: seq<Detector>

    constructor (platform: byte)
      ensures sessions == [] && detectors == [] && this.platform == platform
    {
      this.platform, sessions, detectors := platform, [], [];
    }

    method Register(detector: Detector)
      requires UniqueIds(detectors)
      modifies this`detectors
      ensures UniqueIds(detectors)
      ensures detectors == if exists d :: d in old(detectors) && d.id == detector.id then old(detectors)
                           else old(detectors) + [detector]
    {
      var i := 0;
      while i < |detectors|
        invariant 0 <= i <= |detectors|
        invariant forall j :: 0 <= j < i ==> detectors[j].id != detector.id
      {
        if detectors[i].id == detector.id {
          assert detectors[i] in detectors;
          return;
        }
        i := i + 1;
      }
      UniqueAfterAdding(detectors, detector);
      detectors := detectors + [detector];
    }

    method Unregister(detector: Detector)
      requires UniqueIds(detectors)
      modifies this`detectors
      ensures UniqueIds(detectors)
      ensures var k, before := IndexOf(old(detectors), detector.id), old(detectors);
              detectors == if k < |before| then before[..k] + before[k + 1..] else before
      ensures forall d :: d in detectors ==> d.id != detector.id
    {
      var i := 0;
      while i < |detectors|
        invariant 0 <= i <= |detectors|
        invariant forall j :: 0 <= j < i ==> detectors[j].id != detector.id
      {
        if detectors[i].id == detector.id {
          IndexIs(detectors, detector.id, i);
          UniqueAfterErasing(detectors, i);
          detectors := detectors[..i] + detectors[i + 1..];
          return;
        }
        i := i + 1;
      }
      assert IndexOf(detectors, detector.id) == |detectors|;
    }

    /** Starts a session with those registered detectors the list names; each of them starts and
        reports into the first frame.  Nothing happens for an empty list. */
    method Start(output: OutputStream, drillerList: seq<DetectorInfo>, numFrames: int, ghost at: seq<nat>)
      returns (session: Session?)
      requires output.Valid() && UniqueIds(detectors) && NamesOnce(detectors, drillerList) && Describable(drillerList)
      requires Idle(Named(detectors, drillerList), at)
      modifies this`sessions, output, output.stringPool, Named(detectors, drillerList)
      ensures drillerList == [] ==> session == null && sessions == old(sessions)
      ensures drillerList != [] ==>
                && session != null && fresh(session) && sessions == old(sessions) + [session]
                && session.platform == platform && session.output == output
                && session.numFrames == numFrames && session.infos == drillerList
                && Starting(Named(detectors, drillerList), at, session, Named(detectors, drillerList))
                && output.base == old(output.data) + [platform] && output.basePool == old(output.PoolContents())
    {
      if drillerList == [] {
        return null;
      }
      var s := new Session(platform, drillerList, numFrames, output);
      sessions := sessions + [s];
      s.Begin(drillerList);
      ghost var all := Named(detectors, drillerList);
      forall i | 0 <= i < |all|
        ensures IdleAt(all, i, at)
      {
        assert old(IdleAt(all, i, at));
      }
      StartDetectors(detectors, s, drillerList, at);
      session := s;
    }

    /** Ends a session of this manager: its detectors have their last call and have no stream any more,
        a frame is closed, and it is no longer listed. */
    method Stop(session: Session)
      requires session in sessions ==> session.Attached()
      modifies this`sessions
      modifies session.output`data, session.output`ops, session.output.stringPool
      modifies session.detectors`calls, session.detectors`output
      ensures session !in old(sessions) ==> sessions == old(sessions) && unchanged(session.output)
      ensures session in old(sessions) ==>
                && session.output.Valid() && Released(session.detectors, session.book.at)
                && session.output.ops
                     == old(session.output.ops) + Ops(Reports(session.detectors, session.book.at)) + [EndTag(FRAME)]
                && Unlisted(old(sessions), session, sessions)
    {
      var k := 0;
      while k < |sessions| && sessions[k] != session
        invariant 0 <= k <= |sessions| && session !in sessions[..k]
      {
        k := k + 1;
      }
      if k < |sessions| {
        assert session in sessions && ListedAt(sessions, session, k);
        session.Finish();
        sessions := sessions[..k] + sessions[k + 1..];
      }
    }

    /** Stop among other sessions, which are left as they are. */
    method StopTurn(i: nat, ghost views: seq<View>, ghost repr: set<object>)
      requires i < |sessions| && ReadyBut(sessions, views, repr, i) && sessions[i].Attached() && this !in repr
      modifies repr, this`sessions
      ensures ReadyBut(old(sessions), views, repr, i) && sessions == old(sessions)[..i] + old(sessions)[i + 1..]
      ensures var s := old(sessions)[i];
              && unchanged(s) && unchanged(s.output`base) && unchanged(s.output`basePool)
              && s.output.Valid() && Released(s.detectors, s.book.at)
              && s.output.ops == old(s.output.ops) + Ops(Reports(s.detectors, s.book.at)) + [EndTag(FRAME)]
    {
      ghost var all := sessions;
      assert WithinAt(all, i, repr);
      StopAmong(sessions[i], i, views, repr);
      UnlistedAt(all, i, sessions);
      forall j, k | 0 <= j < |all| && 0 <= k < |all| && j != k
        ensures ApartAt(all, j, k)
      {
        assert old(ApartAt(all, j, k));
      }
    }

    method StopAmong(session: Session, ghost i: nat, ghost views: seq<View>, ghost repr: set<object>)
      requires i < |sessions| && ReadyBut(sessions, views, repr, i) && session == sessions[i] && session.Attached()
      requires WithinAt(sessions, i, repr) && this !in repr
      modifies this`sessions
      modifies session.output`data, session.output`ops, session.output.stringPool
      modifies session.detectors`calls, session.detectors`output
      ensures session.output.Valid() && Released(session.detectors, session.book.at)
      ensures session.output.ops
           == old(session.output.ops) + Ops(Reports(session.detectors, session.book.at)) + [EndTag(FRAME)]
      ensures Unlisted(old(sessions), session, sessions)
      ensures forall j :: 0 <= j < |old(sessions)| ==>
                WithinAt(old(sessions), j, repr) && (j != i ==> ShowsAt(old(sessions), views, j, repr))
    {
      ghost var all := sessions;
      Stop(session);
      forall j | 0 <= j < |all|
        ensures WithinAt(all, j, repr) && (j != i ==> ShowsAt(all, views, j, repr))
      {
        assert old(WithinAt(all, j, repr));
        if j != i {
          ghost var t := all[j];
          assert old(ShowsAt(all, views, j, repr)) && old(ApartAt(all, i, j));
          forall k | 0 <= k < |t.detectors|
            ensures MemberAt(t.detectors, k, t.output, t.book.at)
          {
            assert t.detectors[k] !in session.detectors && old(MemberAt(t.detectors, k, t.output, t.book.at));
          }
          assert t.output.Valid() && t.Valid();
        }
      }
    }

    /** One session's turn: its frame is closed, and the next is opened unless the session ends. */
    method TakeTurn(i: nat, ghost views: seq<View>, ghost repr: set<object>)
      returns (isEnded: bool, ghost after: seq<View>)
      requires i < |sessions| && Ready(sessions, views, repr) && this !in repr
      requires |views[i].book.frames| + 1 < FRAME_LIMIT
      modifies repr, this`sessions
      ensures isEnded == Due(old(sessions)[i], views[i])
      ensures !isEnded ==> && sessions == old(sessions) && Ready(sessions, after, repr)
                           && after == views[i := NextView(views[i])]
      ensures isEnded ==> && ReadyBut(old(sessions), after, repr, i) && after == views
                          && sessions == old(sessions)[..i] + old(sessions)[i + 1..]
                          && EndedByItself(old(sessions)[i], views[i])
    {
      var s := sessions[i];
      CloseTurn(sessions, i, views, repr);
      if s.numFrames != -1 && s.curFrame == s.numFrames {
        StopTurn(i, views, repr);
        isEnded, after := true, views;
      } else {
        after := OpenTurn(sessions, i, views, repr);
        isEnded := false;
      }
    }

    /** The turns of the sessions, in order, up to and with the first that ends a session: Stop takes
        the place away that the loop would go on from. */
    method FrameUpdate(ghost before: seq<View>, ghost repr: set<object>)
      returns (ghost after: seq<View>, ghost turns: nat)
      requires Ready(sessions, before, repr) && this !in repr
      requires forall v :: v in before ==> |v.book.frames| + 1 < FRAME_LIMIT
      modifies repr, this`sessions
      ensures turns <= |old(sessions)| && ReadyBut(old(sessions), after, repr, turns)
      ensures forall i :: 0 <= i < |old(sessions)| ==> TurnDone(old(sessions), before, after, turns, i)
      ensures turns == |old(sessions)| ==> sessions == old(sessions)
      ensures turns < |old(sessions)| ==>
                && Due(old(sessions)[turns], before[turns]) && EndedByItself(old(sessions)[turns], before[turns])
                && sessions == old(sessions)[..turns] + old(sessions)[turns + 1..]
    {
      after, turns := before, 0;
      if |sessions| == 0 {
        return;
      }
      var i := 0;
      while i < |sessions|
        invariant 0 <= i <= |sessions| && sessions == old(sessions) && Ready(sessions, after, repr)
        invariant forall j :: 0 <= j < |sessions| ==> TurnDone(sessions, before, after, i, j)
      {
        assert TurnDone(sessions, before, after, i, i) && before[i] in before;
        ghost var so := after;
        var isEnded;
        isEnded, after := TakeTurn(i, after, repr);
        turns := i;
        if isEnded {
          return;
        }
        i := i + 1;
        forall j | 0 <= j < |sessions|
          ensures TurnDone(sessions, before, after, i, j)
        {
          assert TurnDone(sessions, before, so, i - 1, j);
        }
      }
      turns := i;
    }
  }

  lemma UnlistedAt(sessions: seq<Session>, i: nat, after: seq<Session>)
    requires i < |sessions| && AllApart(sessions) && Unlisted(sessions, sessions[i], after)
    ensures after == sessions[..i] + sessions[i + 1..]
  {
    var k: nat :| ListedAt(sessions, sessions[i], k) && after == sessions[..k] + sessions[k + 1..];
    assert k != i ==> ApartAt(sessions, k, i);
  }

  predicate ListedAt(sessions: seq<Session>, s: Session, k: nat) {
    k < |sessions| && sessions[k] == s && s !in sessions[..k]
  }

  /** The list without the session. */
  ghost predicate Unlisted(before: seq<Session>, s: Session, after: seq<Session>) {
    exists k: nat :: ListedAt(before, s, k) && after == before[..k] + before[k + 1..]
  }
}
