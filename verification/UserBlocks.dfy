/** What any step, with any number of users, may do to a user's control block. */
module UserBlocks {
  import opened Wrappers
  import opened Text
  import opened Numbers
  import opened Protocol
  import opened Cluster
  import opened SerialSteps
  import M = Master

  /** IDLE to WAITING_COMMIT with a new command, WAITING_COMMIT to WAITING_SAVE with the same command or
      back to IDLE, WAITING_SAVE to IDLE; or nothing. */
  ghost predicate Moves(u: M.User, u': M.User) {
    || u' == u
    || (!M.Waiting(u) && u'.state == UWaitingCommit)
    || (u.state == UWaitingCommit && u' == u.(state := UWaitingSave))
    || (M.Waiting(u) && u' == u.(msg := "", msgNumber := "", state := Idle))
  }

  /** A handler starts nothing. */
  ghost predicate AllMove(users: seq<M.User>, users': seq<M.User>) {
    && |users'| == |users|
    && forall k :: 0 <= k < |users| ==>
         Moves(users[k], users'[k]) && (!M.Waiting(users[k]) ==> users'[k] == users[k])
  }

  /** The loops of the commit handlers touch only users who wait for the save, each once. */
  ghost predicate OnlySavesEnd(users: seq<M.User>, users': seq<M.User>) {
    && |users'| == |users|
    && forall k :: 0 <= k < |users| ==>
         users'[k] == users[k] || (users[k].state == UWaitingSave && users'[k] == M.Cleared(users[k]))
  }

  lemma {:induction false} SuccessMoves(m: M.Master, number: string, failing: set<nat>)
    requires m.Valid()
    ensures OnlySavesEnd(m.users, M.CommitSucceeded(m, number, failing).users)
    decreases M.CountUsers(m.users, UWaitingSave)
  {
    var k := M.FindUser(m.users, UWaitingSave);
    if k < |m.users| && number == m.users[k].msgNumber {
      var m1 := M.FinishUser(m, k, number, failing);
      FinishUserEffect(m, k, number, failing, m1);
      M.CountAfterMove(m.users, k, M.Cleared(m.users[k]), UWaitingSave);
      SuccessMoves(m1, number, failing);
    }
  }

  lemma {:induction false} FailureMoves(m: M.Master, number: string, response: Option<Reply>)
    requires m.Valid()
    ensures OnlySavesEnd(m.users, M.CommitFailedAll(m, number, response).users)
    decreases M.CountUsers(m.users, UWaitingSave)
  {
    var k := M.FindUser(m.users, UWaitingSave);
    if k < |m.users| && (number == "" || number == m.users[k].msgNumber) {
      var m1 := M.FailUser(m, k, number, response);
      FailUserEffect(m, k, number, response, m1);
      M.CountAfterMove(m.users, k, M.Cleared(m.users[k]), UWaitingSave);
      FailureMoves(m1, number, response);
    }
  }

  lemma HandleMoves(m: M.Master, failing: set<nat>)
    requires m.Valid() && m.queue != []
    ensures AllMove(m.users, M.Handle(m, failing).users)
  {
    var ev, m1 := m.queue[0], Dequeued(m);
    match ev.kind {
      case EvPrecommitAck => M.AckLoopEmpties(m1);
      case EvPrecommitErr => M.ErrLoopEmpties(M.Record(M.Broadcast(m1, Abort, Idle), AbortSent(m1.started)));
      case EvCommitSuccess => SuccessMoves(m1, ev.number, failing);
      case EvCommitUnsuccess => FailureMoves(m1, ev.number, ev.response);
      case EvMasterTimeout =>
    }
  }

  /** No step moves a user block in any other way, and only the user's own command starts one. */
  lemma UserBlockMoves(s: Cluster, step: Step, k: nat)
    requires Shape(s) && Enabled(s, step) && k < |s.master.users|
    ensures |Do(s, step).master.users| == |s.master.users|
    ensures var u, u' := s.master.users[k], Do(s, step).master.users[k];
            && Moves(u, u')
            && (!M.Waiting(u) && M.Waiting(u') ==> (step.SubmitWrite? || step.SubmitReplace?) && step.user == k)
  {
    var m := s.master;
    match step {
      case SubmitWrite(u, text) =>
        var m1 := m.(counter := Allocate(m.counter));
        BeginEffect(m1, u, Command(CmdWrite, M.MessageOf(PrintInt(m1.counter), m.users[u], text)), M.SubmitWrite(m,
            u, text));
      case SubmitReplace(u, number, text) =>
        BeginEffect(m, u, Command(CmdReplace, M.MessageOf(number, m.users[u], text)), M.SubmitReplace(m, u, number,
            text));
      case HandleEvent(failing) =>
        HandleMoves(m, failing);
        assert Moves(m.users[k], M.Handle(m, failing).users[k]);
      case _ =>
    }
  }
}
