/**
 A refused command at work, with one slave and two users: the first user's WRITE is refused because the
 slave cannot be reached, the second user's WRITE is accepted, and the votes of the second send COMMIT for
 both. The slave stores the refused message and drops the accepted one, and the master's success handler
 never gets past the user whose number did not come back.
 */
module RefusedRound {
  import opened Wrappers
  import opened Text
  import opened Store
  import opened Numbers
  import opened Protocol
  import opened Cluster
  import opened SerialSteps
  import opened OneSlave
  import opened Refusals
  import M = Master
  import S = Slave

  /** The two commands, the master's counter after each, and what the first COMMIT does at the slave. */
  datatype Both = Both(first: Command, second: Command, one: int, two: int, slave: S.Slave)

  ghost predicate Fits(x: Both) {
    && S.Apply(VOTED, Heard(x.first), true)
       == S.Effect(x.slave, Some(CommitOk(NumberOf(Heard(x.first).body))), Some(Saved))
    && x.first.cmd == CmdWrite && x.second.cmd == CmdWrite
  }

  function Block(c: Command, state: SyncState, t: nat): M.User {
    M.User("", state, c.cmd, c.body, NumberOf(c.body), t)
  }

  ghost function Site(peer: SyncState, timer: bool, users: seq<M.User>, queue: seq<Event>, out: seq<Line>, counter: int,
                      slave: S.Slave, replies: seq<Reply>, started: nat, trace: seq<Act>): Cluster {
    Cluster(M.Master([peer], peer, timer, users, queue, [out], "", counter, false, started, []),
            [slave], [replies], trace, S.DEBUG_LEVEL_D)
  }

  ghost function With(s: Cluster): System {
    System(s, {1})
  }

  // ---------- the states of the run ----------

  ghost function W0(): System {
    System(Site(Disconnect, false, [NEWCOMER, NEWCOMER], [], [], 0, FRESH, [], 0, []), {})
  }

  ghost function W1(x: Both, trace: seq<Act>): System {
    With(Site(Disconnect, false, [Block(x.first, UWaitingCommit, 1), NEWCOMER], [], [], x.one, FRESH, [], 1, trace))
  }

  function Waiters(x: Both, state: SyncState): seq<M.User> {
    [Block(x.first, state, 1), Block(x.second, state, 2)]
  }

  ghost function W2(x: Both, trace: seq<Act>): System {
    With(Site(MPrecommitMulticasted, true, Waiters(x, UWaitingCommit), [], [Precommit], x.two, FRESH, [], 2, trace))
  }

  ghost function W3(x: Both, trace: seq<Act>): System {
    With(Site(MPrecommitMulticasted, true, Waiters(x, UWaitingCommit), [], [], x.two, VOTED, [PrecommitAck], 2, trace))
  }

  ghost function W4(x: Both, trace: seq<Act>): System {
    var ack := Event(EvPrecommitAck, "", Some(PrecommitAck));
    With(Site(MPrecommited, false, Waiters(x, UWaitingCommit), [ack], [], x.two, VOTED, [], 2, trace))
  }

  ghost function W5(x: Both, trace: seq<Act>): System {
    var commits := [Commit(x.first, 1), Commit(x.second, 2)];
    With(Site(MCommited, true, Waiters(x, UWaitingSave), [], commits, x.two, VOTED, [], 2, trace))
  }

  ghost function W6(x: Both, trace: seq<Act>): System {
    With(Site(MCommited, true, Waiters(x, UWaitingSave), [], [Commit(x.second, 2)], x.two, x.slave,
              [CommitOk(NumberOf(Heard(x.first).body))], 2, trace))
  }

  ghost function W7(x: Both, trace: seq<Act>): System {
    With(Site(MCommited, true, Waiters(x, UWaitingSave), [], [], x.two, x.slave,
              [CommitOk(NumberOf(Heard(x.first).body))], 2, trace))
  }

  ghost function W8(x: Both, trace: seq<Act>): System {
    var success := Event(EvCommitSuccess, Back(x.first), Some(CommitOk(Back(x.first))));
    With(Site(MOperationPerformed, false, Waiters(x, UWaitingSave), [success], [], x.two, x.slave, [], 2, trace))
  }

  // ---------- the moves of the run ----------

  ghost predicate Makes(s: System, move: Move, s': System) {
    CanMove(s, move) && s' == After(s, move)
  }

  lemma IsRefused(x: Both, s: System, text: string)
    requires s == W0() && x.one == Allocate(0)
    requires x.first == Command(CmdWrite, M.MessageOf(PrintInt(x.one), NEWCOMER, text))
    ensures Makes(s, TryWrite(0, text, [false]), W1(x, [Started(1, x.first)]))
    ensures Refuses(s, TryWrite(0, text, [false]))
  {
    var m := s.cluster.master.(counter := x.one);
    var m' := M.TryBegin(m, 0, x.first, [false]);
    assert m.peers[0] == Disconnect && ![false][0];
    assert M.Connect(m.peers, [false]) == [Disconnect];
    assert m'.users == [Block(x.first, UWaitingCommit, 1), NEWCOMER];
    assert [] + [Started(1, x.first)] == [Started(1, x.first)];
  }

  lemma IsAccepted(x: Both, s: System, text: string, t: seq<Act>)
    requires s == W1(x, t) && x.two == Allocate(x.one)
    requires x.second == Command(CmdWrite, M.MessageOf(PrintInt(x.two), NEWCOMER, text))
    ensures Makes(s, TryWrite(1, text, [true]), W2(x, t + [Started(2, x.second)]))
  {
    var m := s.cluster.master.(counter := x.two);
    M.ReachedBegins(m, 1, x.second, [true]);
    var m' := M.TryBegin(m, 1, x.second, [true]);
    BeginEffect(m, 1, x.second, m');
    SentToOne(Precommit, MPrecommitMulticasted);
    assert m'.users == Waiters(x, UWaitingCommit);
  }

  lemma IsVoted(x: Both, t: seq<Act>)
    ensures Makes(W2(x, t), Other(ToSlave(0, true)), W3(x, t + [Voted(0, 2)]))
  {
    TakenFromOne(Precommit);
    TakenFromOne(PrecommitAck);
  }

  lemma IsCounted(x: Both, t: seq<Act>)
    ensures Makes(W3(x, t), Other(ToMaster(0)), W4(x, t))
  {
    TakenFromOne(PrecommitAck);
    Same(t);
  }

  /** The ACK loop sends COMMIT for both users. */
  lemma AckIs(x: Both, m: M.Master)
    requires m == W4(x, []).cluster.master.(queue := [])
    ensures M.PrecommitAcked(m) == W5(x, []).cluster.master.(acts := [CommitSent(1, x.first), CommitSent(2, x.second)])
  {
    var m1 := M.CommitUser(m, 0);
    CommitUserEffect(m, 0, m1);
    assert m1.users == [Block(x.first, UWaitingSave, 1), Block(x.second, UWaitingCommit, 2)];
    var m2 := M.CommitUser(m1, 1);
    CommitUserEffect(m1, 1, m2);
    assert m2.users == Waiters(x, UWaitingSave);
    assert m1.out[0] == [] + [Commit(x.first, 1)];
    assert m2.out[0] == [Commit(x.first, 1), Commit(x.second, 2)] && m2.out == [m2.out[0]];
    assert m2.acts == [CommitSent(1, x.first), CommitSent(2, x.second)];
    assert M.PrecommitAcked(m2) == m2 && M.PrecommitAcked(m1) == m2 && M.PrecommitAcked(m) == m2;
  }

  lemma IsCommitted(x: Both, t: seq<Act>)
    ensures Makes(W4(x, t), Other(HandleEvent({})), W5(x, t + [CommitSent(1, x.first), CommitSent(2, x.second)]))
  {
    var m := W4(x, t).cluster.master;
    TakenFromOne(m.queue[0]);
    AckIs(x, m.(queue := []));
    EventMakes(W4(x, t), {}, M.PrecommitAcked(m.(queue := [])));
  }

  lemma EventMakes(s: System, failing: set<nat>, m': M.Master)
    requires Shape(s.cluster) && Enabled(s.cluster, HandleEvent(failing)) && m' == M.Handle(s.cluster.master, failing)
    ensures Makes(s, Other(HandleEvent(failing)), s.(cluster := Absorb(s.cluster, m')))
  {
  }

  lemma IsStored(x: Both, t: seq<Act>)
    requires Fits(x)
    ensures Makes(W5(x, t), Other(ToSlave(0, true)), W6(x, t + [SlaveSaved(0, 1, Heard(x.first), Saved)]))
  {
    TakenFromOne(CommitOk(NumberOf(Heard(x.first).body)));
  }

  /** The slave is no longer in PRECOMMIT_ACK. */
  lemma IsDropped(x: Both, t: seq<Act>)
    requires Fits(x)
    ensures Makes(W6(x, t), Other(ToSlave(0, true)), W7(x, t))
  {
    TakenFromOne(Commit(x.second, 2));
    Same(t);
  }

  lemma IsReported(x: Both, t: seq<Act>)
    ensures Makes(W7(x, t), Other(ToMaster(0)), W8(x, t))
  {
    TakenFromOne(CommitOk(NumberOf(Heard(x.first).body)));
    Same(t);
  }

  /** Two users wait with different numbers, so the loop never ends, whichever number came back. */
  lemma Hangs(x: Both, t: seq<Act>) returns (e: System)
    requires NumberOf(x.first.body) != NumberOf(x.second.body)
    ensures Makes(W8(x, t), Other(HandleEvent({})), e) && e.cluster.master.hung && e.cluster.slaves == [x.slave]
    ensures t <= e.cluster.trace
  {
    var s := W8(x, t);
    e := After(s, Other(HandleEvent({})));
    var m := s.cluster.master.(queue := []);
    assert m.users[0].msgNumber != m.users[1].msgNumber;
    M.SuccessLoopEndsIff(m, Back(x.first), {});
  }

  // ---------- the run ----------

  ghost predicate Path(s: System, moves: seq<Move>, e: System) {
    CanRun(s, moves) && RunTo(s, moves) == e
  }

  lemma Onward(s: System, move: Move, s': System, rest: seq<Move>, e: System)
    requires Makes(s, move, s') && Path(s', rest, e)
    ensures Path(s, [move] + rest, e)
  {
    assert ([move] + rest)[1..] == rest;
  }

  lemma Arrived(s: System)
    requires Shape(s.cluster)
    ensures Path(s, [], s)
  {
  }

  /** From both COMMITs to the handler that never ends. */
  lemma AfterCommits(x: Both, t: seq<Act>) returns (moves: seq<Move>, e: System)
    requires Fits(x) && NumberOf(x.first.body) != NumberOf(x.second.body)
    ensures Path(W5(x, t), moves, e) && t + [SlaveSaved(0, 1, Heard(x.first), Saved)] <= e.cluster.trace
    ensures moves == [Other(ToSlave(0, true)), Other(ToSlave(0, true)), Other(ToMaster(0)), Other(HandleEvent({}))]
    ensures e.cluster.master.hung && e.cluster.slaves == [x.slave]
  {
    var t1 := t + [SlaveSaved(0, 1, Heard(x.first), Saved)];
    e := Hangs(x, t1);
    AfterKeepsShape(W8(x, t1), Other(HandleEvent({})));
    Arrived(e);
    Onward(W8(x, t1), Other(HandleEvent({})), e, [], e);
    moves := [Other(HandleEvent({}))] + [];
    IsReported(x, t1);
    Onward(W7(x, t1), Other(ToMaster(0)), W8(x, t1), moves, e);
    moves := [Other(ToMaster(0))] + moves;
    IsDropped(x, t1);
    Onward(W6(x, t1), Other(ToSlave(0, true)), W7(x, t1), moves, e);
    moves := [Other(ToSlave(0, true))] + moves;
    IsStored(x, t);
    Onward(W5(x, t), Other(ToSlave(0, true)), W6(x, t1), moves, e);
    moves := [Other(ToSlave(0, true))] + moves;
  }

  /** The vote is given, counted and acted upon. */
  lemma FromThePrecommit(x: Both, t1: seq<Act>, rest: seq<Move>, e: System) returns (moves: seq<Move>)
    requires Path(W5(x, t1 + [Voted(0, 2)] + [CommitSent(1, x.first), CommitSent(2, x.second)]), rest, e)
    ensures Path(W2(x, t1), moves, e)
    ensures moves == [Other(ToSlave(0, true)), Other(ToMaster(0)), Other(HandleEvent({}))] + rest
  {
    var t2 := t1 + [Voted(0, 2)];
    IsCommitted(x, t2);
    Onward(W4(x, t2), Other(HandleEvent({})), W5(x, t2 + [CommitSent(1, x.first), CommitSent(2, x.second)]), rest, e);
    moves := [Other(HandleEvent({}))] + rest;
    IsCounted(x, t2);
    Onward(W3(x, t2), Other(ToMaster(0)), W4(x, t2), moves, e);
    moves := [Other(ToMaster(0))] + moves;
    IsVoted(x, t1);
    Onward(W2(x, t1), Other(ToSlave(0, true)), W3(x, t2), moves, e);
    moves := [Other(ToSlave(0, true))] + moves;
  }

  /** The second user's round until both COMMITs are out. */
  lemma UntilCommits(x: Both, t: seq<Act>, text: string, rest: seq<Move>, e: System) returns (moves: seq<Move>)
    requires x.two == Allocate(x.one) && x.second == Command(CmdWrite, M.MessageOf(PrintInt(x.two), NEWCOMER, text))
    requires Path(W5(x, t + Acts(x)), rest, e)
    ensures Path(W1(x, t), moves, e)
    ensures moves == [TryWrite(1, text, [true])]
                     + ([Other(ToSlave(0, true)), Other(ToMaster(0)), Other(HandleEvent({}))] + rest)
  {
    var t1 := t + [Started(2, x.second)];
    assert t + Acts(x) == t1 + [Voted(0, 2)] + [CommitSent(1, x.first), CommitSent(2, x.second)];
    moves := FromThePrecommit(x, t1, rest, e);
    IsAccepted(x, W1(x, t), text, t);
    Onward(W1(x, t), TryWrite(1, text, [true]), W2(x, t1), moves, e);
    moves := [TryWrite(1, text, [true])] + moves;
  }

  function Acts(x: Both): seq<Act> {
    [Started(2, x.second), Voted(0, 2), CommitSent(1, x.first), CommitSent(2, x.second)]
  }

  lemma WriteFits(x: Both)
    requires x.first.cmd == CmdWrite && x.second.cmd == CmdWrite
    requires x.slave == S.Apply(VOTED, Heard(x.first), true).slave
    ensures Fits(x) && x.slave.file == Appended("", Heard(x.first).body)
  {
  }

  lemma OtherNumber(m: int, n: int, text: string, other: string)
    requires 0 < m < n
    ensures NumberOf(M.MessageOf(PrintInt(m), NEWCOMER, text)) != NumberOf(M.MessageOf(PrintInt(n), NEWCOMER, other))
  {
    forall k: nat, t ensures NumberOf(M.MessageOf(PrintInt(k), NEWCOMER, t)) == PrintNat(k) {
      M.MessageNumber(PrintInt(k), NEWCOMER, t);
      PrintNatHasNo(k, '/');
      FindIs(PrintInt(k), '/', 0, |PrintInt(k)|);
    }
    assert NatOf(PrintNat(m)) != NatOf(PrintNat(n));
  }

  lemma InTrace(x: Both, t: seq<Act>, trace: seq<Act>)
    requires t + Acts(x) <= trace
    ensures CommitSent(1, x.first) in trace && CommitSent(2, x.second) in trace
  {
    assert trace[|t| + 2] == CommitSent(1, x.first) && trace[|t| + 3] == CommitSent(2, x.second);
  }

  lemma BothOf(refused: string, accepted: string) returns (x: Both)
    ensures x.one == Allocate(0) && x.two == Allocate(x.one)
    ensures x.first == Command(CmdWrite, M.MessageOf(PrintInt(x.one), NEWCOMER, refused))
    ensures x.second == Command(CmdWrite, M.MessageOf(PrintInt(x.two), NEWCOMER, accepted))
    ensures Fits(x) && x.slave.file == Appended("", Heard(x.first).body)
    ensures NumberOf(x.first.body) != NumberOf(x.second.body)
  {
    var one := Allocate(0);
    var two := Allocate(one);
    var c := Command(CmdWrite, M.MessageOf(PrintInt(one), NEWCOMER, refused));
    x := Both(c, Command(CmdWrite, M.MessageOf(PrintInt(two), NEWCOMER, accepted)), one, two,
              S.Apply(VOTED, Heard(c), true).slave);
    WriteFits(x);
    OtherNumber(one, two, refused, accepted);
  }

  lemma StartIs(s: System)
    requires s == W0()
    ensures Starts(s) && Shape(s.cluster)
  {
  }

  lemma WholeRun(x: Both, s: System, refused: string, accepted: string) returns (moves: seq<Move>, e: System)
    requires s == W0() && Fits(x) && NumberOf(x.first.body) != NumberOf(x.second.body)
    requires x.one == Allocate(0) && x.two == Allocate(x.one)
    requires x.first == Command(CmdWrite, M.MessageOf(PrintInt(x.one), NEWCOMER, refused))
    requires x.second == Command(CmdWrite, M.MessageOf(PrintInt(x.two), NEWCOMER, accepted))
    ensures Path(s, moves, e) && |moves| == 9 && Refuses(s, moves[0])
    ensures moves[0] == TryWrite(0, refused, [false]) && moves[1] == TryWrite(1, accepted, [true])
    ensures CommitSent(1, x.first) in e.cluster.trace && CommitSent(2, x.second) in e.cluster.trace
    ensures e.cluster.master.hung && e.cluster.slaves == [x.slave] && 1 in e.refused
  {
    var t := [Started(1, x.first)];
    moves, e := AfterCommits(x, t + Acts(x));
    moves := UntilCommits(x, t, accepted, moves, e);
    IsRefused(x, s, refused);
    RefusedStays(W1(x, t), moves);
    Onward(s, TryWrite(0, refused, [false]), W1(x, t), moves, e);
    moves := [TryWrite(0, refused, [false])] + moves;
    InTrace(x, t, e.cluster.trace);
  }

  /** For all texts: the first user's WRITE is refused, and the very next round, which is the second user's,
      sends COMMIT for both. The slave stores the refused message only, and the master's handler never
      ends. */
  lemma RefusedIsCommitted(refused: string, accepted: string) returns (s: System, moves: seq<Move>, x: Both)
    ensures x.first == Command(CmdWrite, M.MessageOf(PrintInt(x.one), NEWCOMER, refused))
    ensures x.second == Command(CmdWrite, M.MessageOf(PrintInt(x.two), NEWCOMER, accepted))
    ensures Starts(s) && CanRun(s, moves) && |moves| == 9
    ensures moves[0] == TryWrite(0, refused, [false]) && Refuses(s, moves[0])
    ensures moves[1] == TryWrite(1, accepted, [true])
    ensures var e := RunTo(s, moves);
            && 1 in e.refused && CommitSent(1, x.first) in e.cluster.trace && CommitSent(2, x.second) in e.cluster.trace
            && |e.cluster.slaves| == 1 && e.cluster.slaves[0].file == Appended("", Heard(x.first).body)
            && e.cluster.master.hung
  {
    x := BothOf(refused, accepted);
    s := W0();
    StartIs(s);
    var e;
    moves, e := WholeRun(x, s, refused, accepted);
  }
}
