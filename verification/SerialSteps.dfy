/** Every step of a run with one command in flight keeps the invariant of module Serial. */
module SerialSteps {
  import opened Wrappers
  import opened Text
  import opened Store
  import opened Protocol
  import opened History
  import opened Serial
  import M = Master
  import S = Slave

  type Net = seq<seq<Reply>>

  ghost predicate Goes(m: M.Master, past: set<Act>, m': M.Master, replies': Net, acts: seq<Act>, past': set<Act>) {
    && Base(m', replies', past') && |m'.peers| == |m.peers|
    && Extends(|m.peers|, past, acts, past')
  }

  ghost function Dequeued(m: M.Master): M.Master
    requires m.queue != []
  {
    m.(queue := m.queue[1..])
  }

  // ---------- a command starts a round ----------

  /** What every WRITE and REPLACE leaves at the master. */
  lemma BeginEffect(m: M.Master, u: nat, c: Command, m': M.Master)
    requires m.Valid() && u < |m.users|
    requires m' == M.Broadcast(M.InitConnection(M.SaveClientCmd(m, u, c)), Precommit, MPrecommitMulticasted)
    ensures m'.Valid() && |m'.peers| == |m.peers| && m'.queue == m.queue && m'.hung == m.hung
    ensures m'.started == m.started + 1 && m'.acts == m.acts + [Started(m.started + 1, c)]
    ensures m'.timer && m'.masterState == MPrecommitMulticasted
    ensures m'.peers == M.AllIn(|m.peers|, MPrecommitMulticasted) && m'.out == M.Sent(m.out, Precommit)
    ensures m'.users == m.users[u := m.users[u].(cmd := c.cmd, msg := c.body, msgNumber := NumberOf(c.body),
                                                 state := UWaitingCommit, ticket := m.started + 1)]
    ensures m'.file == m.file && m'.counter == m.counter
  {
  }

  lemma StartKeeps(m: M.Master, replies: Net, past: set<Act>, u: nat, c: Command, m': M.Master, past': set<Act>)
    requires Base(m, replies, past) && !m.hung && m.acts == [] && NoUser(m.users) && m.queue == []
    requires HasSlash(c.body)
    requires forall i :: 0 <= i < |replies| ==> m.out[i] == [] && replies[i] == []
    requires u < |m.users|
    requires m' == M.Broadcast(M.InitConnection(M.SaveClientCmd(m, u, c)), Precommit, MPrecommitMulticasted)
    requires past' == With(past, Started(m.started + 1, c))
    ensures Goes(m, past, m', replies, m'.acts, past') && PhaseOne(m', replies, past', u)
  {
    BeginEffect(m, u, c, m');
    assert M.CommandOf(m'.users[u]) == c;
    assert m'.peers[0] == MPrecommitMulticasted;
    forall i | 0 <= i < |replies|
      ensures LinkOne(m'.out[i], replies[i], m'.peers[i], i, m'.started, past')
    {
      assert m'.out[i] == [Precommit];
    }
  }

  // ---------- phase one ----------

  /** The master after the first line of connection i has been taken off it. */
  ghost function Taken(m: M.Master, i: nat): M.Master
    requires i < |m.out| && m.out[i] != []
  {
    m.(out := m.out[i := m.out[i][1..]])
  }

  ghost function Added(replies: Net, i: nat, r: Reply): Net
    requires i < |replies|
  {
    replies[i := replies[i] + [r]]
  }

  ghost function Dropped(replies: Net, i: nat): Net
    requires i < |replies| && replies[i] != []
  {
    replies[i := replies[i][1..]]
  }

  lemma PhaseOneToSlave(m: M.Master, replies: Net, past: set<Act>, u: nat, i: nat, past': set<Act>)
    requires Base(m, replies, past) && PhaseOne(m, replies, past, u) && i < |replies| && m.out[i] != []
    requires past' == With(past, Voted(i, m.started))
    ensures m.out[i] == [Precommit]
    ensures Goes(m, past, Taken(m, i), Added(replies, i, PrecommitAck), [Voted(i, m.started)], past')
    ensures PhaseOne(Taken(m, i), Added(replies, i, PrecommitAck), past', u)
  {
  }

  lemma PhaseOneToMaster(m: M.Master, replies: Net, past: set<Act>, u: nat, i: nat, m': M.Master)
    requires Base(m, replies, past) && PhaseOne(m, replies, past, u) && i < |replies| && replies[i] != []
    requires m' == M.CollectAll(m, i, MPrecommited, EvPrecommitAck, "", PrecommitAck)
    ensures replies[i] == [PrecommitAck]
    ensures Goes(m, past, m', Dropped(replies, i), [], past) && PhaseOne(m', Dropped(replies, i), past, u)
    ensures m'.acts == m.acts
  {
    assert LinkOne(m.out[i], replies[i], m.peers[i], i, m.started, past);
    var replies' := Dropped(replies, i);
    forall j | 0 <= j < |replies|
      ensures LinkOne(m'.out[j], replies'[j], m'.peers[j], j, m.started, past)
    {
      assert LinkOne(m.out[j], replies[j], m.peers[j], j, m.started, past);
    }
    assert !M.AllPeers(m.peers, MPrecommited);
  }

  lemma CommitUserEffect(m: M.Master, u: nat, m': M.Master)
    requires m.Valid() && u < |m.users| && m' == M.CommitUser(m, u)
    ensures m'.Valid() && |m'.peers| == |m.peers| && m'.queue == m.queue && m'.hung == m.hung && m'.started == m.started
    ensures m'.timer && m'.masterState == MCommited
    ensures m'.acts == m.acts + [CommitSent(m.users[u].ticket, M.CommandOf(m.users[u]))]
    ensures m'.peers == M.AllIn(|m.peers|, MCommited)
    ensures m'.out == M.Sent(m.out, Commit(M.CommandOf(m.users[u]), m.users[u].ticket))
    ensures m'.users == m.users[u := m.users[u].(state := UWaitingSave)]
    ensures m'.file == m.file && m'.counter == m.counter
  {
  }

  /** When every vote is counted, the COMMIT may go out. */
  lemma AllVoted(m: M.Master, replies: Net, past: set<Act>, u: nat)
    requires Base(m, replies, past) && PhaseOne(m, replies, past, u) && M.AllPeers(m.peers, MPrecommited)
    ensures forall i :: 0 <= i < |replies| ==> m.out[i] == [] && replies[i] == []
    ensures OkAt(|m.peers|, past, CommitSent(m.started, M.CommandOf(m.users[u])))
  {
    forall i | 0 <= i < |replies| ensures Voted(i, m.started) in past && m.out[i] == [] && replies[i] == [] {
      assert LinkOne(m.out[i], replies[i], m.peers[i], i, m.started, past);
    }
  }

  /** The state COMMIT leaves when all connections were empty. */
  ghost predicate CommitGone(m: M.Master, u: nat, m': M.Master)
    requires m.Valid() && u < |m.users|
  {
    && m'.Valid() && |m'.peers| == |m.peers| && m'.queue == [] && !m'.hung && m'.started == m.started
    && m'.timer && m'.masterState == MCommited && m'.peers == M.AllIn(|m.peers|, MCommited)
    && (forall i :: 0 <= i < |m'.out| ==> m'.out[i] == [Commit(M.CommandOf(m.users[u]), m.started)])
    && m'.users == m.users[u := m.users[u].(state := UWaitingSave)]
  }

  lemma EnterPhaseTwo(m: M.Master, replies: Net, past: set<Act>, u: nat, m': M.Master, past': set<Act>)
    requires Base(m, replies, past) && PhaseOne(m, replies, past, u)
    requires forall i :: 0 <= i < |replies| ==> replies[i] == []
    requires CommitGone(m, u, m') && past' == With(past, CommitSent(m.started, M.CommandOf(m.users[u])))
    ensures Base(m', replies, past') && PhaseTwo(m', replies, past', u)
  {
    var t, c := m.started, M.CommandOf(m.users[u]);
    assert M.CommandOf(m'.users[u]) == c;
    assert m'.peers[0] == MCommited;
    forall i | 0 <= i < |replies|
      ensures LinkTwo(m'.out[i], replies[i], m'.peers[i], i, t, c, past')
    {
      assert !TriedBy(past', i, t);
    }
  }

  lemma PhaseOneAck(m: M.Master, replies: Net, past: set<Act>, u: nat, m': M.Master, past': set<Act>)
    requires Base(m, replies, past) && PhaseOne(m, replies, past, u) && m.acts == []
    requires m.queue != [] && m.queue[0].kind == EvPrecommitAck
    requires m' == M.PrecommitAcked(Dequeued(m))
    requires past' == With(past, CommitSent(m.started, M.CommandOf(m.users[u])))
    ensures Goes(m, past, m', replies, m'.acts, past') && PhaseTwo(m', replies, past', u)
  {
    AllVoted(m, replies, past, u);
    AckOnly(Dequeued(m), u);
    CommitUserEffect(Dequeued(m), u, m');
    assert CommitGone(m, u, m');
    EnterPhaseTwo(m, replies, past, u, m', past');
  }

  lemma PhaseOneAborts(m: M.Master, replies: Net, past: set<Act>, u: nat)
    requires Base(m, replies, past) && PhaseOne(m, replies, past, u)
    ensures OkAt(|m.peers|, past, AbortSent(m.started))
    ensures OkAt(|m.peers|, With(past, AbortSent(m.started)), Rejected(m.started))
    ensures forall i :: 0 <= i < |replies| ==> LinkAbort(m.out[i] + [Abort], replies[i])
  {
  }

  lemma RejectEffect(m: M.Master, u: nat, m': M.Master)
    requires m.Valid() && OnlyUser(m.users, u, UWaitingCommit) && m' == M.PrecommitFailed(m)
    ensures m'.Valid() && |m'.peers| == |m.peers| && m'.queue == m.queue && m'.hung == m.hung && m'.started == m.started
    ensures m'.timer == m.timer && m'.file == m.file && m'.counter == m.counter
    ensures m'.acts == m.acts + [AbortSent(m.started)] + [Rejected(m.users[u].ticket)]
    ensures m'.out == M.Sent(m.out, Abort) && m'.users == m.users[u := M.Cleared(m.users[u])]
  {
    RejectOnly(M.Record(M.Broadcast(m, Abort, Idle), AbortSent(m.started)), u);
  }

  lemma PhaseOneErr(m: M.Master, replies: Net, past: set<Act>, u: nat, m': M.Master, past': set<Act>)
    requires Base(m, replies, past) && PhaseOne(m, replies, past, u) && m.acts == []
    requires m.queue != [] && m.queue[0].kind == EvPrecommitErr
    requires m' == M.PrecommitFailed(Dequeued(m))
    requires past' == With(With(past, AbortSent(m.started)), Rejected(m.started))
    ensures Goes(m, past, m', replies, m'.acts, past') && Aborting(m', replies, past')
  {
    PhaseOneAborts(m, replies, past, u);
    RejectEffect(Dequeued(m), u, m');
    assert m'.acts == [AbortSent(m.started), Rejected(m.started)];
  }

  lemma PhaseOneTimeout(m: M.Master, replies: Net, past: set<Act>, u: nat, m': M.Master)
    requires Base(m, replies, past) && PhaseOne(m, replies, past, u) && m.acts == []
    requires m.queue != [] && m.queue[0].kind == EvMasterTimeout
    requires m' == M.TimedOut(Dequeued(m))
    ensures Goes(m, past, m', replies, m'.acts, past) && PhaseOne(m', replies, past, u)
  {
  }

  lemma PhaseOneTimer(m: M.Master, replies: Net, past: set<Act>, u: nat, m': M.Master)
    requires Base(m, replies, past) && PhaseOne(m, replies, past, u) && m.acts == [] && m.timer
    requires m' == M.Expire(m)
    ensures Goes(m, past, m', replies, m'.acts, past) && PhaseOne(m', replies, past, u)
  {
  }

  // ---------- after an abort ----------

  lemma AbortingToSlave(m: M.Master, replies: Net, past: set<Act>, i: nat)
    requires Base(m, replies, past) && Aborting(m, replies, past) && i < |replies| && m.out[i] != []
    ensures m.out[i][0] == Precommit || m.out[i][0] == Abort
    ensures m.out[i][0] == Precommit ==>
              var past', replies' := With(past, Voted(i, m.started)), Added(replies, i, PrecommitAck);
              Goes(m, past, Taken(m, i), replies', [Voted(i, m.started)], past')
                  && Aborting(Taken(m, i), replies', past')
    ensures m.out[i][0] == Abort ==>
              Goes(m, past, Taken(m, i), replies, [], past) && Aborting(Taken(m, i), replies, past)
  {
  }

  lemma AbortingToMaster(m: M.Master, replies: Net, past: set<Act>, i: nat, m': M.Master)
    requires Base(m, replies, past) && Aborting(m, replies, past) && i < |replies| && replies[i] != []
    requires m' == M.CollectAll(m, i, MPrecommited, EvPrecommitAck, "", PrecommitAck)
    ensures replies[i] == [PrecommitAck]
    ensures Goes(m, past, m', Dropped(replies, i), [], past) && Aborting(m', Dropped(replies, i), past)
    ensures m'.acts == m.acts
  {
  }

  lemma AbortingHandle(m: M.Master, replies: Net, past: set<Act>, m': M.Master)
    requires Base(m, replies, past) && Aborting(m, replies, past) && m.acts == [] && m.queue != []
    requires m' == M.PrecommitAcked(Dequeued(m))
    ensures m.queue[0].kind == EvPrecommitAck
    ensures Goes(m, past, m', replies, m'.acts, past) && Aborting(m', replies, past)
  {
  }

  // ---------- phase two ----------

  lemma PhaseTwoToSlave(m: M.Master, replies: Net, past: set<Act>, u: nat, i: nat, r: SaveResult, past': set<Act>)
    requires Base(m, replies, past) && PhaseTwo(m, replies, past, u) && i < |replies| && m.out[i] != []
    requires past' == With(past, SlaveSaved(i, m.started, Heard(M.CommandOf(m.users[u])), r))
    ensures var t, c := m.started, M.CommandOf(m.users[u]);
            var replies' := Added(replies, i, S.ReplyFor(Heard(c), r));
            && m.out[i] == [Commit(c, t)]
            && Goes(m, past, Taken(m, i), replies', [SlaveSaved(i, t, Heard(c), r)], past')
            && PhaseTwo(Taken(m, i), replies', past', u)
  {
    var t, c := m.started, M.CommandOf(m.users[u]);
    assert LinkTwo(m.out[i], replies[i], m.peers[i], i, t, c, past);
    assert OkAt(|m.peers|, past, SlaveSaved(i, t, Heard(c), r));
    var m', replies' := Taken(m, i), Added(replies, i, S.ReplyFor(Heard(c), r));
    forall j | 0 <= j < |replies|
      ensures LinkTwo(m'.out[j], replies'[j], m'.peers[j], j, t, c, past')
    {
      assert LinkTwo(m.out[j], replies[j], m.peers[j], j, t, c, past);
    }
  }

  lemma PhaseTwoDropped(m: M.Master, replies: Net, past: set<Act>, u: nat, i: nat)
    requires Base(m, replies, past) && PhaseTwo(m, replies, past, u) && i < |replies| && m.out[i] != []
    ensures m.out[i] == [Commit(M.CommandOf(m.users[u]), m.started)]
    ensures Goes(m, past, Taken(m, i), replies, [], past) && PhaseTwo(Taken(m, i), replies, past, u)
  {
  }

  lemma PhaseTwoReply(m: M.Master, replies: Net, past: set<Act>, u: nat, i: nat) returns (r: SaveResult)
    requires Base(m, replies, past) && PhaseTwo(m, replies, past, u) && i < |replies| && replies[i] != []
    ensures var c := M.CommandOf(m.users[u]);
            && replies[i] == [S.ReplyFor(Heard(c), r)] && SlaveSaved(i, m.started, Heard(c), r) in past
            && m.out[i] == [] && m.peers[i] == MCommited
  {
    var t, c := m.started, M.CommandOf(m.users[u]);
    assert LinkTwo(m.out[i], replies[i], m.peers[i], i, t, c, past);
    r :| replies[i] == [S.ReplyFor(Heard(c), r)] && SlaveSaved(i, t, Heard(c), r) in past;
  }

  /** A peer record that leaves COMMITED changes what the queue must hold. */
  lemma PhaseTwoPerformed(m: M.Master, past: set<Act>, i: nat, number: string, reply: Reply, timedOut: bool)
    requires m.Valid() && i < |m.peers| && m.peers[i] == MCommited
    requires QueueTwo(m, timedOut) && NumbersTwo(m.queue, number)
    ensures var m' := M.CollectAll(m, i, MOperationPerformed, EvCommitSuccess, number, reply);
            QueueTwo(m', timedOut) && NumbersTwo(m'.queue, number)
  {
    var m' := M.CollectAll(m, i, MOperationPerformed, EvCommitSuccess, number, reply);
    assert !M.AllPeers(m.peers, MOperationPerformed);
    if M.AllPeers(m'.peers, MOperationPerformed) {
      forall k | 0 <= k < |m.peers| ensures m.peers[k] != MOperationUnsuccess {
        assert m'.peers[k] == MOperationPerformed;
      }
    } else if SomePeer(m.peers, MOperationUnsuccess) {
      var k :| 0 <= k < |m.peers| && m.peers[k] == MOperationUnsuccess;
      assert m'.peers[k] == MOperationUnsuccess;
    }
  }

  lemma PhaseTwoUnsuccess(m: M.Master, past: set<Act>, i: nat, number: string, reply: Reply, timedOut: bool)
    requires m.Valid() && i < |m.peers| && m.peers[i] == MCommited
    requires QueueTwo(m, timedOut) && NumbersTwo(m.queue, number)
    ensures var m' := M.ReportOnce(m, i, MOperationUnsuccess, EvCommitUnsuccess, number, reply);
            QueueTwo(m', timedOut) && NumbersTwo(m'.queue, number)
  {
    var m' := M.ReportOnce(m, i, MOperationUnsuccess, EvCommitUnsuccess, number, reply);
    assert !M.AllPeers(m.peers, MOperationPerformed);
    assert m'.peers[i] == MOperationUnsuccess;
  }

  /** What the master does with a reply to COMMIT. */
  ghost function Counted(m: M.Master, i: nat, c: Command, r: SaveResult): M.Master
    requires i < |m.peers|
  {
    if r == Saved then
      M.CollectAll(m, i, MOperationPerformed, EvCommitSuccess, Back(c), HeardReply(S.ReplyFor(Heard(c), r)))
    else
      M.ReportOnce(m, i, MOperationUnsuccess, EvCommitUnsuccess, Back(c), HeardReply(S.ReplyFor(Heard(c), r)))
  }

  lemma CountedIsReceive(m: M.Master, i: nat, c: Command, r: SaveResult)
    requires i < |m.peers|
    ensures M.Receive(m, i, HeardReply(S.ReplyFor(Heard(c), r))) == Counted(m, i, c, r)
  {
  }

  lemma PhaseTwoToMaster(m: M.Master, replies: Net, past: set<Act>, u: nat, i: nat, r: SaveResult, m': M.Master)
    requires Base(m, replies, past) && PhaseTwo(m, replies, past, u) && i < |replies|
    requires replies[i] == [S.ReplyFor(Heard(M.CommandOf(m.users[u])), r)] && m.out[i] == [] && m.peers[i] == MCommited
    requires SlaveSaved(i, m.started, Heard(M.CommandOf(m.users[u])), r) in past
    requires m' == Counted(m, i, M.CommandOf(m.users[u]), r)
    ensures Goes(m, past, m', Dropped(replies, i), [], past) && PhaseTwo(m', Dropped(replies, i), past, u)
    ensures m'.acts == m.acts
  {
    var t, c := m.started, M.CommandOf(m.users[u]);
    CountedTwo(m, past, i, t, c, r, PhaseTwoTimeout(t) in past);
    CountedLinks(m, replies, past, c, i, r, m');
  }

  /** What a counted reply adds to the queue. */
  lemma CountedTwo(m: M.Master, past: set<Act>, i: nat, t: nat, c: Command, r: SaveResult, timedOut: bool)
    requires m.Valid() && i < |m.peers| && m.peers[i] == MCommited && SlaveSaved(i, t, Heard(c), r) in past
    requires QueueTwo(m, timedOut) && NumbersTwo(m.queue, Back(c)) && Causes(m.queue, past, t, c)
    ensures var m' := Counted(m, i, c, r);
            QueueTwo(m', timedOut) && NumbersTwo(m'.queue, Back(c)) && Causes(m'.queue, past, t, c)
  {
    var reply := HeardReply(S.ReplyFor(Heard(c), r));
    if r == Saved {
      PhaseTwoPerformed(m, past, i, Back(c), reply, timedOut);
    } else {
      PhaseTwoUnsuccess(m, past, i, Back(c), reply, timedOut);
      assert FailedReply(reply, past, t, c);
    }
  }

  lemma CountedLinks(m: M.Master, replies: Net, past: set<Act>, c: Command, i: nat, r: SaveResult, m': M.Master)
    requires Base(m, replies, past) && LinksTwo(m, replies, past, c) && i < |replies|
    requires replies[i] == [S.ReplyFor(Heard(c), r)] && m.out[i] == [] && SlaveSaved(i, m.started, Heard(c), r) in past
    requires m' == Counted(m, i, c, r)
    ensures m'.users == m.users && m'.out == m.out && m'.started == m.started && m'.hung == m.hung && m'.acts == m.acts
    ensures Base(m', Dropped(replies, i), past) && LinksTwo(m', Dropped(replies, i), past, c)
  {
    var replies' := Dropped(replies, i);
    forall j | 0 <= j < |replies|
      ensures LinkTwo(m'.out[j], replies'[j], m'.peers[j], j, m.started, c, past)
    {
      assert LinkTwo(m.out[j], replies[j], m.peers[j], j, m.started, c, past);
    }
  }

  lemma TimesOutQueue(m: M.Master, timedOut: bool, m': M.Master, late: bool, number: string)
    requires QueueTwo(m, timedOut) && NumbersTwo(m.queue, number) && m.queue != [] && m.queue[0].kind == EvMasterTimeout
    requires m' == M.TimedOut(Dequeued(m)) && late == (timedOut || m.masterState == MCommited)
    ensures QueueTwo(m', late) && NumbersTwo(m'.queue, number)
    ensures m'.acts == m.acts + if m.masterState == MCommited then [PhaseTwoTimeout(m.started)] else []
  {
  }

  lemma TimesOutCauses(m: M.Master, past: set<Act>, t: nat, c: Command, m': M.Master, past': set<Act>)
    requires Causes(m.queue, past, t, c) && past <= past' && m.queue != [] && m' == M.TimedOut(Dequeued(m))
    ensures Causes(m'.queue, past', t, c)
  {
    forall k | 0 <= k < |m'.queue| && m'.queue[k].kind == EvCommitUnsuccess
      ensures m'.queue[k].response == None || FailedReply(m'.queue[k].response.value, past', t, c)
    {
      if k < |m.queue| - 1 {
        assert m'.queue[k] == m.queue[k + 1];
      }
    }
  }

  lemma LinksWithTimeout(m: M.Master, replies: Net, past: set<Act>, c: Command, past': set<Act>)
    requires Base(m, replies, past) && LinksTwo(m, replies, past, c) && past' == With(past, PhaseTwoTimeout(m.started))
    ensures forall j :: 0 <= j < |replies| ==> LinkTwo(m.out[j], replies[j], m.peers[j], j, m.started, c, past')
  {
    forall j | 0 <= j < |replies|
      ensures LinkTwo(m.out[j], replies[j], m.peers[j], j, m.started, c, past')
    {
      assert LinkTwo(m.out[j], replies[j], m.peers[j], j, m.started, c, past);
    }
  }

  lemma PhaseTwoTimesOut(m: M.Master, replies: Net, past: set<Act>, u: nat, m': M.Master, past': set<Act>)
    requires Base(m, replies, past) && PhaseTwo(m, replies, past, u) && m.acts == []
    requires m.queue != [] && m.queue[0].kind == EvMasterTimeout
    requires m' == M.TimedOut(Dequeued(m))
    requires past' == if m.masterState == MCommited then With(past, PhaseTwoTimeout(m.started)) else past
    ensures Goes(m, past, m', replies, m'.acts, past') && PhaseTwo(m', replies, past', u)
  {
    var t, c := m.started, M.CommandOf(m.users[u]);
    TimesOutQueue(m, PhaseTwoTimeout(t) in past, m', PhaseTwoTimeout(t) in past', Back(c));
    TimesOutCauses(m, past, t, c, m', past');
    if m.masterState == MCommited {
      assert OkAt(|m.peers|, past, PhaseTwoTimeout(t));
      LinksWithTimeout(m, replies, past, c, past');
    }
  }

  lemma PhaseTwoTimer(m: M.Master, replies: Net, past: set<Act>, u: nat, m': M.Master)
    requires Base(m, replies, past) && PhaseTwo(m, replies, past, u) && m.acts == [] && m.timer
    requires m' == M.Expire(m)
    ensures Goes(m, past, m', replies, m'.acts, past) && PhaseTwo(m', replies, past, u)
  {
  }

  lemma FinishUserEffect(m: M.Master, u: nat, number: string, failing: set<nat>, m': M.Master)
    requires m.Valid() && u < |m.users| && m' == M.FinishUser(m, u, number, failing)
    ensures var t, c := m.users[u].ticket, M.CommandOf(m.users[u]);
            var saved := Save(m.file, c, t !in failing);
            && m'.Valid() && |m'.peers| == |m.peers| && m'.queue == m.queue && m'.hung == m.hung
                    && m'.started == m.started
            && m'.timer == m.timer && m'.counter == m.counter && m'.file == saved.file
            && m'.acts == m.acts + [MasterSaved(t, c, saved.result)] + [Answered(t, c, M.SaveAnswer(c, saved.result))]
            && m'.out == M.Sent(m.out, End(saved.result == Saved, number))
            && m'.users == m.users[u := M.Cleared(m.users[u])]
  {
  }

  /** The state an answer leaves: one line more on every connection, the user cleared. */
  ghost predicate AnswerGone(m: M.Master, u: nat, line: Line, m': M.Master)
    requires m.Valid() && u < |m.users|
  {
    && m'.Valid() && |m'.peers| == |m.peers| && !m'.hung && m'.started == m.started && !m'.timer
    && m'.out == M.Sent(m.out, line) && m'.users == m.users[u := M.Cleared(m.users[u])]
    && (forall e :: e in m'.queue ==> e.kind == EvCommitSuccess || e.kind == EvCommitUnsuccess)
  }

  lemma EnterEnding(m: M.Master, replies: Net, past': set<Act>, u: nat, c: Command, line: Line, m': M.Master)
    requires m.Valid() && |replies| == |m.peers| && OnlyUser(m.users, u, UWaitingSave)
    requires AnswerGone(m, u, line, m')
    requires forall i :: 0 <= i < |replies| ==> LinkEnd(m.out[i] + [line], replies[i], i, m.started, c, past')
    requires CommitSent(m.started, c) in past' && forall a :: a in past' ==> a.ticket <= m.started
    ensures Base(m', replies, past') && Ending(m', replies, past', c)
  {
  }

  /** When every success is counted, the master may store and answer. */
  lemma AllPerformed(m: M.Master, replies: Net, past: set<Act>, u: nat, result: SaveResult)
    requires Base(m, replies, past) && PhaseTwo(m, replies, past, u) && M.AllPeers(m.peers, MOperationPerformed)
    requires result == NotFound ==> m.users[u].cmd == CmdReplace
    ensures forall i :: 0 <= i < |replies| ==> m.out[i] == [] && replies[i] == []
    ensures var t, c := m.started, M.CommandOf(m.users[u]);
            && OkAt(|m.peers|, past, MasterSaved(t, c, result))
            && OkAt(|m.peers|, With(past, MasterSaved(t, c, result)), Answered(t, c, M.SaveAnswer(c, result)))
  {
    var t, c := m.started, M.CommandOf(m.users[u]);
    forall i | 0 <= i < |replies|
      ensures SlaveSaved(i, t, Heard(c), Saved) in past && m.out[i] == [] && replies[i] == []
    {
      assert LinkTwo(m.out[i], replies[i], m.peers[i], i, t, c, past);
    }
  }

  lemma FinishGone(m: M.Master, u: nat, failing: set<nat>, canOpen: bool, result: SaveResult, timedOut: bool,
      m': M.Master)
    requires m.Valid() && !m.hung && OnlyUser(m.users, u, UWaitingSave) && m.users[u].ticket == m.started
    requires QueueTwo(m, timedOut)
    requires m.queue != [] && m.queue[0].kind == EvCommitSuccess && Concerns(m.queue[0], m.users[u].msgNumber)
    requires m' == M.CommitSucceeded(Dequeued(m), m.queue[0].number, failing)
    requires canOpen == (m.started !in failing) && result == Save(m.file, M.CommandOf(m.users[u]), canOpen).result
    ensures M.AllPeers(m.peers, MOperationPerformed)
    ensures AnswerGone(m, u, End(if result == Saved then true else false, m.queue[0].number), m')
    ensures m'.file == Save(m.file, M.CommandOf(m.users[u]), canOpen).file
    ensures m'.acts == m.acts + [MasterSaved(m.started, M.CommandOf(m.users[u]), result)]
                       + [Answered(m.started, M.CommandOf(m.users[u]), M.SaveAnswer(M.CommandOf(m.users[u]), result))]
  {
    FinishOnly(Dequeued(m), u, m.queue[0].number, failing);
    FinishUserEffect(Dequeued(m), u, m.queue[0].number, failing, m');
  }

  lemma PhaseTwoSuccess(m: M.Master, replies: Net, past: set<Act>, u: nat, line: Line, result: SaveResult,
                        m': M.Master, past': set<Act>)
    requires Base(m, replies, past) && PhaseTwo(m, replies, past, u)
    requires M.AllPeers(m.peers, MOperationPerformed) && line.End? && AnswerGone(m, u, line, m')
    requires result == NotFound ==> m.users[u].cmd == CmdReplace
    requires past' == With(With(past, MasterSaved(m.started, M.CommandOf(m.users[u]), result)),
                           Answered(m.started, M.CommandOf(m.users[u]), M.SaveAnswer(M.CommandOf(m.users[u]), result)))
    ensures var t, c := m.started, M.CommandOf(m.users[u]);
            && Goes(m, past, m', replies, [MasterSaved(t, c, result), Answered(t, c, M.SaveAnswer(c, result))], past')
            && Ending(m', replies, past', c)
  {
    var t, c := m.started, M.CommandOf(m.users[u]);
    AllPerformed(m, replies, past, u, result);
    forall i | 0 <= i < |replies| ensures LinkEnd(m.out[i] + [line], replies[i], i, t, c, past') {
      assert m.out[i] + [line] == [line];
    }
    EnterEnding(m, replies, past', u, c, line, m');
  }

  lemma FailUserEffect(m: M.Master, u: nat, number: string, response: Option<Reply>, m': M.Master)
    requires m.Valid() && u < |m.users| && m' == M.FailUser(m, u, number, response)
    ensures m'.Valid() && |m'.peers| == |m.peers| && m'.queue == m.queue && m'.hung == m.hung && m'.started == m.started
    ensures m'.timer == m.timer && m'.counter == m.counter && m'.file == m.file
    ensures m'.acts == m.acts + [Answered(m.users[u].ticket, M.CommandOf(m.users[u]), M.FailureAnswer(m.users[u],
            response))]
    ensures m'.out == M.Sent(m.out, End(false, number))
    ensures m'.users == m.users[u := M.Cleared(m.users[u])]
  {
  }

  lemma PhaseTwoFails(m: M.Master, replies: Net, past: set<Act>, u: nat, answer: Answer, number: string,
      past': set<Act>)
    requires Base(m, replies, past) && PhaseTwo(m, replies, past, u)
    requires FailsWith(past, m.started, M.CommandOf(m.users[u]), answer)
    requires past' == With(past, Answered(m.started, M.CommandOf(m.users[u]), answer))
    ensures OkAt(|m.peers|, past, Answered(m.started, M.CommandOf(m.users[u]), answer))
    ensures forall i :: 0 <= i < |replies| ==>
              LinkEnd(m.out[i] + [End(false, number)], replies[i], i, m.started, M.CommandOf(m.users[u]), past')
  {
    var t, c := m.started, M.CommandOf(m.users[u]);
    forall i | 0 <= i < |replies|
      ensures LinkEnd(m.out[i] + [End(false, number)], replies[i], i, t, c, past')
    {
      assert LinkTwo(m.out[i], replies[i], m.peers[i], i, t, c, past);
    }
  }

  lemma FailGone(m: M.Master, u: nat, timedOut: bool, m': M.Master)
    requires m.Valid() && !m.hung && OnlyUser(m.users, u, UWaitingSave)
    requires QueueTwo(m, timedOut)
    requires m.queue != [] && m.queue[0].kind == EvCommitUnsuccess && Concerns(m.queue[0], m.users[u].msgNumber)
    requires m' == M.CommitFailedAll(Dequeued(m), m.queue[0].number, m.queue[0].response)
    ensures AnswerGone(m, u, End(false, m.queue[0].number), m') && m'.file == m.file
    ensures m'.acts == m.acts + [Answered(m.users[u].ticket, M.CommandOf(m.users[u]),
                                          M.FailureAnswer(m.users[u], m.queue[0].response))]
  {
    var ev := m.queue[0];
    FailOnly(Dequeued(m), u, ev.number, ev.response);
    FailUserEffect(Dequeued(m), u, ev.number, ev.response, m');
    PhaseTwoRest(m, timedOut);
  }

  lemma PhaseTwoFailure(m: M.Master, replies: Net, past: set<Act>, u: nat, number: string, answer: Answer,
                        m': M.Master, past': set<Act>)
    requires Base(m, replies, past) && PhaseTwo(m, replies, past, u)
    requires FailsWith(past, m.started, M.CommandOf(m.users[u]), answer)
    requires AnswerGone(m, u, End(false, number), m')
    requires past' == With(past, Answered(m.started, M.CommandOf(m.users[u]), answer))
    ensures Goes(m, past, m', replies, [Answered(m.started, M.CommandOf(m.users[u]), answer)], past')
    ensures Ending(m', replies, past', M.CommandOf(m.users[u]))
  {
    PhaseTwoFails(m, replies, past, u, answer, number, past');
    EnterEnding(m, replies, past', u, M.CommandOf(m.users[u]), End(false, number), m');
  }

  lemma PhaseTwoRest(m: M.Master, timedOut: bool)
    requires QueueTwo(m, timedOut) && m.queue != [] && m.queue[0].kind == EvCommitUnsuccess
    ensures forall e :: e in Dequeued(m).queue ==> e.kind == EvCommitSuccess || e.kind == EvCommitUnsuccess
    ensures !m.timer
  {
  }

  // ---------- after the answer ----------

  lemma EndingToSlave(m: M.Master, replies: Net, past: set<Act>, c: Command, i: nat)
    requires Base(m, replies, past) && Ending(m, replies, past, c) && i < |replies| && m.out[i] != []
    ensures m.out[i][0] == Commit(c, m.started) || m.out[i][0].End?
    ensures Goes(m, past, Taken(m, i), replies, [], past) && Ending(Taken(m, i), replies, past, c)
  {
  }

  lemma EndingStore(m: M.Master, replies: Net, past: set<Act>, c: Command, i: nat, r: SaveResult, past': set<Act>)
    requires Base(m, replies, past) && Ending(m, replies, past, c) && i < |replies| && m.out[i] != []
    requires m.out[i][0] == Commit(c, m.started) && past' == With(past, SlaveSaved(i, m.started, Heard(c), r))
    ensures var replies' := Added(replies, i, S.ReplyFor(Heard(c), r));
            && Goes(m, past, Taken(m, i), replies', [SlaveSaved(i, m.started, Heard(c), r)], past')
            && Ending(Taken(m, i), replies', past', c)
  {
  }

  lemma EndingToMaster(m: M.Master, replies: Net, past: set<Act>, c: Command, i: nat) returns (r: SaveResult)
    requires Base(m, replies, past) && Ending(m, replies, past, c) && i < |replies| && replies[i] != []
    ensures replies[i] == [S.ReplyFor(Heard(c), r)]
    ensures var m', replies' := Counted(m, i, c, r), Dropped(replies, i);
            Goes(m, past, m', replies', [], past) && Ending(m', replies', past, c) && m'.acts == m.acts
  {
    assert LinkEnd(m.out[i], replies[i], i, m.started, c, past);
    r :| replies[i] == [S.ReplyFor(Heard(c), r)];
    var m', replies' := Counted(m, i, c, r), Dropped(replies, i);
    forall j | 0 <= j < |replies| ensures LinkEnd(m'.out[j], replies'[j], j, m.started, c, past) {
      assert LinkEnd(m.out[j], replies[j], j, m.started, c, past);
    }
  }

  lemma EndingSuccess(m: M.Master, replies: Net, past: set<Act>, c: Command, failing: set<nat>, m': M.Master)
    requires Base(m, replies, past) && Ending(m, replies, past, c) && m.acts == [] && m.queue != []
    requires m' == M.CommitSucceeded(Dequeued(m), m.queue[0].number, failing)
    ensures Goes(m, past, m', replies, m'.acts, past) && Ending(m', replies, past, c)
  {
  }

  lemma EndingFailure(m: M.Master, replies: Net, past: set<Act>, c: Command, m': M.Master)
    requires Base(m, replies, past) && Ending(m, replies, past, c) && m.acts == [] && m.queue != []
    requires m' == M.CommitFailedAll(Dequeued(m), m.queue[0].number, m.queue[0].response)
    ensures Goes(m, past, m', replies, m'.acts, past) && Ending(m', replies, past, c)
  {
  }

  // ---------- a handler that never ends ----------

  /** The number that came back is another one: the handler of the event never leaves its loop. */
  lemma HangEffect(m: M.Master, u: nat, failing: set<nat>, m': M.Master)
    requires OnlyUser(m.users, u, UWaitingSave) && m.queue != [] && m' == M.Handle(m, failing)
    requires m.queue[0].kind == EvCommitSuccess || m.queue[0].kind == EvCommitUnsuccess
    requires !Concerns(m.queue[0], m.users[u].msgNumber)
    ensures m' == Dequeued(m).(hung := true)
  {
    var ev := m.queue[0];
    if ev.kind == EvCommitSuccess {
      FinishHangs(Dequeued(m), u, ev.number, failing);
    } else {
      FailHangs(Dequeued(m), u, ev.number, ev.response);
    }
  }

  lemma EnterHanging(m: M.Master, replies: Net, past: set<Act>, u: nat, m': M.Master)
    requires Base(m, replies, past) && PhaseTwo(m, replies, past, u) && m.queue != []
    requires m.queue[0].kind == EvCommitSuccess || m.queue[0].kind == EvCommitUnsuccess
    requires !Concerns(m.queue[0], m.users[u].msgNumber) && m' == Dequeued(m).(hung := true)
    ensures Goes(m, past, m', replies, [], past) && Hanging(m', replies, past, u)
  {
    var t, c := m.started, M.CommandOf(m.users[u]);
    BackIff(c);
    forall i | 0 <= i < |replies| ensures LinkHanging(m'.out[i], i, t, c, past) {
      assert LinkTwo(m.out[i], replies[i], m.peers[i], i, t, c, past);
    }
  }

  lemma HangingToSlave(m: M.Master, replies: Net, past: set<Act>, u: nat, i: nat)
    requires Base(m, replies, past) && Hanging(m, replies, past, u) && i < |replies| && m.out[i] != []
    ensures m.out[i][0] == Commit(M.CommandOf(m.users[u]), m.started)
    ensures Goes(m, past, Taken(m, i), replies, [], past) && Hanging(Taken(m, i), replies, past, u)
  {
    var t, c, m' := m.started, M.CommandOf(m.users[u]), Taken(m, i);
    forall j | 0 <= j < |replies| ensures LinkHanging(m'.out[j], j, t, c, past) {
      assert LinkHanging(m.out[j], j, t, c, past);
    }
    assert LinkHanging(m.out[i], i, t, c, past);
  }

  lemma HangingStore(m: M.Master, replies: Net, past: set<Act>, u: nat, i: nat, r: SaveResult, past': set<Act>)
    requires Base(m, replies, past) && Hanging(m, replies, past, u) && i < |replies| && m.out[i] != []
    requires past' == With(past, SlaveSaved(i, m.started, Heard(M.CommandOf(m.users[u])), r))
    ensures var c := M.CommandOf(m.users[u]);
            var replies' := Added(replies, i, S.ReplyFor(Heard(c), r));
            && Goes(m, past, Taken(m, i), replies', [SlaveSaved(i, m.started, Heard(c), r)], past')
            && Hanging(Taken(m, i), replies', past', u)
  {
    var t, c, m' := m.started, M.CommandOf(m.users[u]), Taken(m, i);
    assert LinkHanging(m.out[i], i, t, c, past);
    assert OkAt(|m.peers|, past, SlaveSaved(i, t, Heard(c), r));
    forall j | 0 <= j < |replies| ensures LinkHanging(m'.out[j], j, t, c, past') {
      assert LinkHanging(m.out[j], j, t, c, past);
    }
  }

  lemma HangingTimer(m: M.Master, replies: Net, past: set<Act>, u: nat, m': M.Master)
    requires Base(m, replies, past) && Hanging(m, replies, past, u) && m.acts == [] && m' == M.Expire(m)
    ensures Goes(m, past, m', replies, m'.acts, past) && Hanging(m', replies, past, u)
  {
  }
}
