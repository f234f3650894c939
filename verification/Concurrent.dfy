/**
 Any number of users with commands at the same time, in any order of lines, events and timers. The
 rounds then share peer states and the event queue and may confuse each other's replies, so less is
 promised than in module History; what is left is that every command has one outcome, that a rejected
 command is never committed or stored anywhere, and that no node stores a command twice.
 */
module Concurrent {
  import opened Wrappers
  import opened Text
  import opened Store
  import opened Numbers
  import opened Protocol
  import opened History
  import opened Cluster
  import opened SerialSteps
  import SerialRuns
  import M = Master
  import S = Slave

  // ---------- the history ----------

  /** Act e may take place after the acts of the past, whatever other commands are under way. */
  ghost predicate Allowed(past: set<Act>, e: Act) {
    match e
    case Started(t, _) => forall a :: a in past ==> a.ticket < t
    case CommitSent(t, c) => Started(t, c) in past && !Committed(past, t) && !Closed(past, t)
    case SlaveSaved(i, t, c, _) => CommittedAs(past, t, c) && !TriedBy(past, i, t)
    case MasterSaved(t, c, _) => CommitSent(t, c) in past && !TriedByMaster(past, t) && !Closed(past, t)
    case Rejected(t) => !Committed(past, t) && !Closed(past, t)
    case Answered(t, c, answer) =>
      && CommitSent(t, c) in past && !Closed(past, t)
      && answer in {Wrote(NumberOf(c.body)), Unknown(NumberOf(c.body)), ErrorWrite}
      && (answer.Unknown? ==> c.cmd == CmdReplace)
      && (if TriedByMaster(past, t) then Reports(past, t, c, answer) else !answer.Wrote?)
    case _ => true
  }

  ghost predicate Lawful(trace: seq<Act>) {
    trace == [] ||
    (Lawful(trace[..|trace| - 1]) && Allowed(Past(trace[..|trace| - 1]), trace[|trace| - 1]))
  }

  lemma LawfulAppend(trace: seq<Act>, e: Act)
    requires Lawful(trace) && Allowed(Past(trace), e)
    ensures Lawful(trace + [e])
  {
  }

  lemma {:induction false} LawfulEverywhere(trace: seq<Act>, k: nat)
    requires Lawful(trace) && k < |trace|
    ensures Allowed(Past(trace[..k]), trace[k])
  {
    if k < |trace| - 1 {
      LawfulEverywhere(trace[..|trace| - 1], k);
      assert trace[..|trace| - 1][..k] == trace[..k];
    }
  }

  // ---------- the invariant ----------

  ghost predicate UserOk(u: M.User, past: set<Act>) {
    && (M.Waiting(u) ==> u.msgNumber == NumberOf(u.msg))
    && (u.state == UWaitingCommit ==>
          Started(u.ticket, M.CommandOf(u)) in past && !Committed(past, u.ticket) && !Closed(past, u.ticket))
    && (u.state == UWaitingSave ==>
          && CommitSent(u.ticket, M.CommandOf(u)) in past && !Closed(past, u.ticket)
          && !TriedByMaster(past, u.ticket))
  }

  /** Users who wait have different tickets. */
  ghost predicate Distinct(users: seq<M.User>) {
    forall j, k :: 0 <= j < k < |users| && M.Waiting(users[j]) && M.Waiting(users[k]) ==>
      users[j].ticket != users[k].ticket
  }

  /** Every COMMIT on a connection was sent, and is still to be stored there. */
  ghost predicate LinkOk(out: seq<Line>, i: nat, past: set<Act>) {
    && (forall k :: 0 <= k < |out| && out[k].Commit? ==>
          CommitSent(out[k].ticket, out[k].command) in past && !TriedBy(past, i, out[k].ticket))
    && (forall j, k :: 0 <= j < k < |out| && out[j].Commit? && out[k].Commit? ==> out[j].ticket != out[k].ticket)
  }

  /** Nothing is stored that was not committed, and no ticket is from the future. */
  ghost predicate Rooted(past: set<Act>, started: nat) {
    forall a :: a in past ==>
      && a.ticket <= started
      && (a.SlaveSaved? ==> CommittedAs(past, a.ticket, a.command))
      && (a.MasterSaved? ==> CommitSent(a.ticket, a.command) in past)
  }

  ghost predicate Sound(m: M.Master, past: set<Act>) {
    && m.Valid() && Rooted(past, m.started)
    && (forall k :: 0 <= k < |m.users| ==> UserOk(m.users[k], past))
    && Distinct(m.users)
    && (forall i :: 0 <= i < |m.out| ==> LinkOk(m.out[i], i, past))
  }

  /** A master in the middle of a step, with the history of the steps before it. */
  ghost predicate Going(m: M.Master, base: seq<Act>) {
    Lawful(base + m.acts) && Sound(m, Past(base + m.acts))
  }

  ghost predicate Inv(s: Cluster) {
    Shape(s) && Lawful(s.trace) && Sound(s.master, Past(s.trace))
  }

  lemma Grows(base: seq<Act>, acts: seq<Act>, acts': seq<Act>, e: Act)
    requires acts' == acts + [e] && Lawful(base + acts) && Allowed(Past(base + acts), e)
    ensures Lawful(base + acts') && Past(base + acts') == With(Past(base + acts), e)
  {
    assert base + acts' == (base + acts) + [e];
    LawfulAppend(base + acts, e);
    PastAppend(base + acts, e);
  }

  // ---------- one turn of each loop ----------

  lemma CommitIsAllowed(m: M.Master, past: set<Act>, k: nat)
    requires Sound(m, past) && k < |m.users| && m.users[k].state == UWaitingCommit
    ensures Allowed(past, CommitSent(m.users[k].ticket, M.CommandOf(m.users[k])))
    ensures forall i: nat :: !TriedBy(past, i, m.users[k].ticket)
    ensures !TriedByMaster(past, m.users[k].ticket)
  {
  }

  lemma UsersAfterCommit(users: seq<M.User>, past: set<Act>, k: nat, past': set<Act>)
    requires forall j :: 0 <= j < |users| ==> UserOk(users[j], past)
    requires Distinct(users) && k < |users| && users[k].state == UWaitingCommit
    requires past' == With(past, CommitSent(users[k].ticket, M.CommandOf(users[k])))
    requires !TriedByMaster(past, users[k].ticket)
    ensures var users' := users[k := users[k].(state := UWaitingSave)];
            Distinct(users') && forall j :: 0 <= j < |users'| ==> UserOk(users'[j], past')
  {
  }

  lemma LinkAfterCommit(out: seq<Line>, i: nat, past: set<Act>, t: nat, c: Command, past': set<Act>)
    requires LinkOk(out, i, past) && past' == With(past, CommitSent(t, c))
    requires !Committed(past, t) && !TriedBy(past, i, t)
    ensures LinkOk(out + [Commit(c, t)], i, past')
  {
  }

  lemma CommitTurn(m: M.Master, base: seq<Act>, k: nat)
    requires Going(m, base) && k < |m.users| && m.users[k].state == UWaitingCommit
    ensures Going(M.CommitUser(m, k), base)
  {
    var t, c, m' := m.users[k].ticket, M.CommandOf(m.users[k]), M.CommitUser(m, k);
    var past, past' := Past(base + m.acts), With(Past(base + m.acts), CommitSent(t, c));
    CommitUserEffect(m, k, m');
    CommitIsAllowed(m, past, k);
    Grows(base, m.acts, m'.acts, CommitSent(t, c));
    UsersAfterCommit(m.users, past, k, past');
    forall i | 0 <= i < |m'.out| ensures LinkOk(m'.out[i], i, past') {
      LinkAfterCommit(m.out[i], i, past, t, c, past');
    }
  }

  /** An act that closes a ticket leaves the other users and all connections alone. */
  lemma UsersAfterClose(users: seq<M.User>, past: set<Act>, k: nat, e: Act, past': set<Act>)
    requires forall j :: 0 <= j < |users| ==> UserOk(users[j], past)
    requires Distinct(users) && k < |users| && M.Waiting(users[k]) && e.ticket == users[k].ticket
    requires e.Rejected? || e.Answered? || e.MasterSaved?
    requires past' == With(past, e)
    ensures var users' := users[k := M.Cleared(users[k])];
            Distinct(users') && forall j :: 0 <= j < |users'| ==> UserOk(users'[j], past')
  {
  }

  lemma LinkAfterClose(out: seq<Line>, i: nat, past: set<Act>, e: Act, past': set<Act>)
    requires LinkOk(out, i, past) && past' == With(past, e) && !e.SlaveSaved?
    ensures LinkOk(out, i, past')
  {
  }

  lemma LinkAddsLine(out: seq<Line>, i: nat, past: set<Act>, line: Line)
    requires LinkOk(out, i, past) && !line.Commit?
    ensures LinkOk(out + [line], i, past)
  {
  }

  lemma RejectTurn(m: M.Master, base: seq<Act>, k: nat)
    requires Going(m, base) && k < |m.users| && m.users[k].state == UWaitingCommit
    ensures Going(M.RejectUser(m, k), base)
  {
    var e, m' := Rejected(m.users[k].ticket), M.RejectUser(m, k);
    var past, past' := Past(base + m.acts), With(Past(base + m.acts), e);
    assert UserOk(m.users[k], past);
    Grows(base, m.acts, m'.acts, e);
    UsersAfterClose(m.users, past, k, e, past');
    forall i | 0 <= i < |m'.out| ensures LinkOk(m'.out[i], i, past') {
      LinkAfterClose(m.out[i], i, past, e, past');
    }
  }

  lemma FailTurn(m: M.Master, base: seq<Act>, k: nat, number: string, response: Option<Reply>)
    requires Going(m, base) && k < |m.users| && m.users[k].state == UWaitingSave
    ensures Going(M.FailUser(m, k, number, response), base)
  {
    var u, m' := m.users[k], M.FailUser(m, k, number, response);
    var e := Answered(u.ticket, M.CommandOf(u), M.FailureAnswer(u, response));
    var past, past' := Past(base + m.acts), With(Past(base + m.acts), e);
    FailUserEffect(m, k, number, response, m');
    assert UserOk(u, past);
    assert u.ticket <= m.started by {
      assert CommitSent(u.ticket, M.CommandOf(u)) in past;
    }
    Grows(base, m.acts, m'.acts, e);
    UsersAfterClose(m.users, past, k, e, past');
    forall i | 0 <= i < |m'.out| ensures LinkOk(m'.out[i], i, past') {
      LinkAfterClose(m.out[i], i, past, e, past');
      LinkAddsLine(m.out[i], i, past', End(false, number));
    }
  }

  /** The saved and the answered act of one user, one after the other. */
  lemma FinishIsAllowed(m: M.Master, base: seq<Act>, k: nat, result: SaveResult, acts': seq<Act>)
    requires Going(m, base) && k < |m.users| && m.users[k].state == UWaitingSave
    requires result == NotFound ==> m.users[k].cmd == CmdReplace
    requires var t, c := m.users[k].ticket, M.CommandOf(m.users[k]);
             acts' == m.acts + [MasterSaved(t, c, result)] + [Answered(t, c, M.SaveAnswer(c, result))]
    ensures Lawful(base + acts')
    ensures var t, c := m.users[k].ticket, M.CommandOf(m.users[k]);
            Past(base + acts') == With(With(Past(base + m.acts), MasterSaved(t, c, result)),
                                       Answered(t, c, M.SaveAnswer(c, result)))
    ensures CommitSent(m.users[k].ticket, M.CommandOf(m.users[k])) in Past(base + m.acts)
  {
    var t, c, past := m.users[k].ticket, M.CommandOf(m.users[k]), Past(base + m.acts);
    assert UserOk(m.users[k], past);
    var acts1, past1 := m.acts + [MasterSaved(t, c, result)], With(past, MasterSaved(t, c, result));
    Grows(base, m.acts, acts1, MasterSaved(t, c, result));
    assert CommitSent(t, c) in past1 && MasterSaved(t, c, result) in past1 && !Closed(past1, t);
    Grows(base, acts1, acts', Answered(t, c, M.SaveAnswer(c, result)));
  }

  lemma UsersAfterFinish(users: seq<M.User>, past: set<Act>, k: nat, e: Act, e': Act, past': set<Act>)
    requires forall j :: 0 <= j < |users| ==> UserOk(users[j], past)
    requires Distinct(users) && k < |users| && M.Waiting(users[k])
    requires e.MasterSaved? && e'.Answered? && e.ticket == e'.ticket == users[k].ticket
    requires past' == With(With(past, e), e')
    ensures var users' := users[k := M.Cleared(users[k])];
            Distinct(users') && forall j :: 0 <= j < |users'| ==> UserOk(users'[j], past')
  {
  }

  lemma FinishTurn(m: M.Master, base: seq<Act>, k: nat, number: string, failing: set<nat>)
    requires Going(m, base) && k < |m.users| && m.users[k].state == UWaitingSave
    ensures Going(M.FinishUser(m, k, number, failing), base)
  {
    var t, c, m' := m.users[k].ticket, M.CommandOf(m.users[k]), M.FinishUser(m, k, number, failing);
    FinishUserEffect(m, k, number, failing, m');
    var result := Save(m.file, c, t !in failing).result;
    var e, e' := MasterSaved(t, c, result), Answered(t, c, M.SaveAnswer(c, result));
    var past := Past(base + m.acts);
    var past1 := With(past, e);
    var past' := With(past1, e');
    FinishIsAllowed(m, base, k, result, m'.acts);
    UsersAfterFinish(m.users, past, k, e, e', past');
    forall i | 0 <= i < |m'.out| ensures LinkOk(m'.out[i], i, past') {
      LinkAfterClose(m.out[i], i, past, e, past1);
      LinkAfterClose(m.out[i], i, past1, e', past');
      LinkAddsLine(m.out[i], i, past', End(result == Saved, number));
    }
  }

  // ---------- the loops ----------

  lemma {:induction false} AckLoop(m: M.Master, base: seq<Act>)
    requires Going(m, base)
    ensures Going(M.PrecommitAcked(m), base)
    decreases M.CountUsers(m.users, UWaitingCommit)
  {
    var k := M.FindUser(m.users, UWaitingCommit);
    if k < |m.users| {
      CommitTurn(m, base, k);
      CommitUserEffect(m, k, M.CommitUser(m, k));
      M.CountAfterMove(m.users, k, m.users[k].(state := UWaitingSave), UWaitingCommit);
      AckLoop(M.CommitUser(m, k), base);
    }
  }

  lemma {:induction false} ErrLoop(m: M.Master, base: seq<Act>)
    requires Going(m, base)
    ensures Going(M.RejectAll(m), base)
    decreases M.CountUsers(m.users, UWaitingCommit)
  {
    var k := M.FindUser(m.users, UWaitingCommit);
    if k < |m.users| {
      RejectTurn(m, base, k);
      M.CountAfterMove(m.users, k, M.Cleared(m.users[k]), UWaitingCommit);
      ErrLoop(M.RejectUser(m, k), base);
    }
  }

  lemma {:induction false} SuccessLoop(m: M.Master, base: seq<Act>, number: string, failing: set<nat>)
    requires Going(m, base)
    ensures Going(M.CommitSucceeded(m, number, failing), base)
    decreases M.CountUsers(m.users, UWaitingSave)
  {
    var k := M.FindUser(m.users, UWaitingSave);
    if k < |m.users| && number == m.users[k].msgNumber {
      FinishTurn(m, base, k, number, failing);
      FinishUserEffect(m, k, number, failing, M.FinishUser(m, k, number, failing));
      M.CountAfterMove(m.users, k, M.Cleared(m.users[k]), UWaitingSave);
      SuccessLoop(M.FinishUser(m, k, number, failing), base, number, failing);
    }
  }

  lemma {:induction false} FailureLoop(m: M.Master, base: seq<Act>, number: string, response: Option<Reply>)
    requires Going(m, base)
    ensures Going(M.CommitFailedAll(m, number, response), base)
    decreases M.CountUsers(m.users, UWaitingSave)
  {
    var k := M.FindUser(m.users, UWaitingSave);
    if k < |m.users| && (number == "" || number == m.users[k].msgNumber) {
      FailTurn(m, base, k, number, response);
      FailUserEffect(m, k, number, response, M.FailUser(m, k, number, response));
      M.CountAfterMove(m.users, k, M.Cleared(m.users[k]), UWaitingSave);
      FailureLoop(M.FailUser(m, k, number, response), base, number, response);
    }
  }

  // ---------- the steps ----------

  /** Same users and connections, at most queue, timers and peer states changed. */
  ghost predicate SameCommands(m: M.Master, m': M.Master) {
    m'.Valid() && m'.users == m.users && m'.out == m.out && m'.started == m.started
  }

  /** Acts that concern no command in particular. */
  lemma SoundWith(m: M.Master, past: set<Act>, e: Act)
    requires Sound(m, past) && e.ticket <= m.started && (e.AbortSent? || e.PhaseTwoTimeout? || e.Voted?)
    ensures Allowed(past, e) && Sound(m, With(past, e))
  {
  }

  lemma AbortGoing(m: M.Master, base: seq<Act>, m': M.Master)
    requires Going(m, base) && m' == M.Record(M.Broadcast(m, Abort, Idle), AbortSent(m.started))
    ensures Going(m', base)
  {
    var past, e := Past(base + m.acts), AbortSent(m.started);
    SoundWith(m, past, e);
    Grows(base, m.acts, m'.acts, e);
    forall i | 0 <= i < |m'.out| ensures LinkOk(m'.out[i], i, With(past, e)) {
      LinkAddsLine(m.out[i], i, With(past, e), Abort);
    }
  }

  lemma TimeoutGoing(m: M.Master, base: seq<Act>, m': M.Master)
    requires Going(m, base) && m' == M.TimedOut(m)
    ensures Going(m', base)
  {
    if m.masterState == MCommited {
      SoundWith(m, Past(base + m.acts), PhaseTwoTimeout(m.started));
      Grows(base, m.acts, m'.acts, PhaseTwoTimeout(m.started));
    }
  }

  lemma HandleGoing(m: M.Master, base: seq<Act>, failing: set<nat>)
    requires Going(m, base) && m.queue != []
    ensures Going(M.Handle(m, failing), base)
  {
    var ev, m1 := m.queue[0], Dequeued(m);
    match ev.kind {
      case EvPrecommitAck => AckLoop(m1, base);
      case EvPrecommitErr =>
        var m2 := M.Record(M.Broadcast(m1, Abort, Idle), AbortSent(m1.started));
        AbortGoing(m1, base, m2);
        ErrLoop(m2, base);
      case EvCommitSuccess => SuccessLoop(m1, base, ev.number, failing);
      case EvCommitUnsuccess => FailureLoop(m1, base, ev.number, ev.response);
      case EvMasterTimeout => TimeoutGoing(m1, base, M.TimedOut(m1));
    }
  }

  lemma UsersAfterStart(users: seq<M.User>, past: set<Act>, u: nat, user': M.User, e: Act, past': set<Act>)
    requires forall j :: 0 <= j < |users| ==> UserOk(users[j], past)
    requires Distinct(users) && u < |users| && !M.Waiting(users[u]) && e.Started? && past' == With(past, e)
    requires forall a :: a in past ==> a.ticket < e.ticket
    requires user'.state == UWaitingCommit && user'.ticket == e.ticket && M.CommandOf(user') == e.command
    requires user'.msgNumber == NumberOf(user'.msg)
    ensures var users' := users[u := user'];
            Distinct(users') && forall j :: 0 <= j < |users'| ==> UserOk(users'[j], past')
  {
  }

  /** A user's new command. */
  lemma SubmitGoing(m: M.Master, base: seq<Act>, u: nat, c: Command, m': M.Master)
    requires Going(m, base) && u < |m.users| && !M.Waiting(m.users[u])
    requires m' == M.Broadcast(M.InitConnection(M.SaveClientCmd(m, u, c)), Precommit, MPrecommitMulticasted)
    ensures Going(m', base)
  {
    BeginEffect(m, u, c, m');
    var e, past := Started(m.started + 1, c), Past(base + m.acts);
    var past' := With(past, e);
    Grows(base, m.acts, m'.acts, e);
    UsersAfterStart(m.users, past, u, m'.users[u], e, past');
    forall i | 0 <= i < |m'.out| ensures LinkOk(m'.out[i], i, past') {
      LinkAfterClose(m.out[i], i, past, e, past');
      LinkAddsLine(m.out[i], i, past', Precommit);
    }
  }

  /** Master steps lead from Going to Inv. */
  lemma Absorbed(s: Cluster, m': M.Master, s': Cluster)
    requires Going(m', s.trace) && Shape(s') && s'.master == m'.(acts := []) && s'.trace == s.trace + m'.acts
    ensures Inv(s')
  {
  }

  lemma Idles(s: Cluster)
    requires Inv(s)
    ensures Going(s.master, s.trace)
  {
    assert s.trace + s.master.acts == s.trace;
  }

  lemma GoingSame(m: M.Master, base: seq<Act>, m': M.Master)
    requires Going(m, base) && SameCommands(m, m') && m'.acts == m.acts
    ensures Going(m', base)
  {
  }

  lemma LinkTail(out: seq<Line>, i: nat, past: set<Act>)
    requires LinkOk(out, i, past) && out != []
    ensures LinkOk(out[1..], i, past)
    ensures out[0].Commit? ==> forall k :: 0 <= k < |out| - 1 && out[1..][k].Commit? ==>
            out[1..][k].ticket != out[0].ticket
  {
  }

  lemma LinkAfterStore(out: seq<Line>, i: nat, j: nat, past: set<Act>, e: Act, past': set<Act>)
    requires LinkOk(out, j, past) && past' == With(past, e) && e.SlaveSaved? && e.slave == i
    requires i == j ==> forall k :: 0 <= k < |out| && out[k].Commit? ==> out[k].ticket != e.ticket
    ensures LinkOk(out, j, past')
  {
  }

  lemma SoundTaken(m: M.Master, past: set<Act>, i: nat)
    requires Sound(m, past) && i < |m.out| && m.out[i] != []
    ensures Sound(Taken(m, i), past)
  {
  }

  lemma SoundStored(m: M.Master, past: set<Act>, i: nat, e: Act)
    requires Sound(m, past) && i < |m.out| && m.out[i] != [] && m.out[i][0].Commit?
    requires e.SlaveSaved? && e.slave == i && e.ticket == m.out[i][0].ticket && e.command == Heard(m.out[i][0].command)
    ensures Allowed(past, e) && Sound(Taken(m, i), With(past, e))
  {
    var m', past' := Taken(m, i), With(past, e);
    assert LinkOk(m.out[i], i, past);
    LinkTail(m.out[i], i, past);
    forall j | 0 <= j < |m'.out| ensures LinkOk(m'.out[j], j, past') {
      LinkAfterStore(m'.out[j], i, j, past, e, past');
    }
    forall k | 0 <= k < |m.users| ensures UserOk(m.users[k], past') {
      assert UserOk(m.users[k], past);
    }
  }

  lemma DeliverKeeps(s: Cluster, i: nat, canOpen: bool, s': Cluster)
    requires Inv(s) && i < |s.slaves| && s.master.out[i] != [] && s' == Deliver(s, i, canOpen) && Shape(s')
    ensures Inv(s')
  {
    var m, line, past := s.master, HeardLine(s.master.out[i][0]), Past(s.trace);
    var acts := ActsOf(i, m.started, line, S.Receive(s.slaves[i], line, s.debugLevel, canOpen));
    assert s'.master == Taken(m, i) && s'.trace == s.trace + acts;
    if acts == [] {
      SoundTaken(m, past, i);
      assert s'.trace == s.trace;
    } else {
      if line.Commit? {
        SoundStored(m, past, i, acts[0]);
      } else {
        SoundTaken(m, past, i);
        SoundWith(Taken(m, i), past, acts[0]);
      }
      LawfulAppend(s.trace, acts[0]);
      PastAppend(s.trace, acts[0]);
    }
  }

  lemma MasterStepKeeps(s: Cluster, step: Step, s': Cluster)
    requires Inv(s) && Enabled(s, step) && s' == Do(s, step) && Shape(s')
    requires step.SubmitWrite? || step.SubmitReplace? || step.HandleEvent?
    ensures Inv(s')
  {
    var m := s.master;
    Idles(s);
    match step {
      case SubmitWrite(u, text) =>
        var m1 := m.(counter := Allocate(m.counter));
        GoingSame(m, s.trace, m1);
        SubmitGoing(m1, s.trace, u, Command(CmdWrite, M.MessageOf(PrintInt(m1.counter), m.users[u], text)),
                    M.SubmitWrite(m, u, text));
        Absorbed(s, M.SubmitWrite(m, u, text), s');
      case SubmitReplace(u, number, text) =>
        SubmitGoing(m, s.trace, u, Command(CmdReplace, M.MessageOf(number, m.users[u], text)),
                    M.SubmitReplace(m, u, number, text));
        Absorbed(s, M.SubmitReplace(m, u, number, text), s');
      case HandleEvent(failing) =>
        HandleGoing(m, s.trace, failing);
        Absorbed(s, M.Handle(m, failing), s');
    }
  }

  lemma ReplyKeeps(s: Cluster, i: nat, m': M.Master, s': Cluster)
    requires Inv(s) && i < |s.slaves| && s.replies[i] != [] && m' == M.Receive(s.master, i, HeardReply(s.replies[i][0]))
    requires s' == Absorb(DropReply(s, i), m') && Shape(s')
    ensures Inv(s')
  {
    Idles(s);
    SerialRuns.ReceiveActs(s.master, i, HeardReply(s.replies[i][0]));
    SerialRuns.ReceiveKeepsFiles(s.master, i, HeardReply(s.replies[i][0]));
    GoingSame(s.master, s.trace, m');
    Absorbed(s, m', s');
  }

  lemma TimerKeeps(s: Cluster, m': M.Master, s': Cluster)
    requires Inv(s) && SameCommands(s.master, m') && m'.acts == []
    requires s'.master == m' && s'.trace == s.trace && Shape(s')
    ensures Inv(s')
  {
  }

  lemma StepKeeps(s: Cluster, step: Step)
    requires Inv(s) && Enabled(s, step)
    ensures Inv(Do(s, step))
  {
    DoKeepsShape(s, step);
    match step {
      case ToSlave(i, canOpen) => DeliverKeeps(s, i, canOpen, Do(s, step));
      case SubmitWrite(_, _) => MasterStepKeeps(s, step, Do(s, step));
      case SubmitReplace(_, _, _) => MasterStepKeeps(s, step, Do(s, step));
      case HandleEvent(_) => MasterStepKeeps(s, step, Do(s, step));
      case ToMaster(i) => ReplyKeeps(s, i, M.Receive(s.master, i, HeardReply(s.replies[i][0])), Do(s, step));
      case MasterTimer => TimerKeeps(s, M.Expire(s.master), Do(s, step));
      case _ => TimerKeeps(s, s.master, Do(s, step));
    }
  }

  lemma {:induction false} RunKeeps(s: Cluster, steps: seq<Step>)
    requires Inv(s) && IsRun(s, steps)
    ensures Inv(Final(s, steps))
    decreases |steps|
  {
    if steps != [] {
      StepKeeps(s, steps[0]);
      RunKeeps(Do(s, steps[0]), steps[1..]);
    }
  }

  // ---------- what any run guarantees ----------

  lemma AnyHistoryLawful(s: Cluster, steps: seq<Step>)
    requires Shape(s) && Initial(s) && IsRun(s, steps)
    ensures Lawful(Final(s, steps).trace)
  {
    assert Inv(s);
    RunKeeps(s, steps);
  }
}
