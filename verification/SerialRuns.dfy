/** The invariant of module Serial over whole runs, and what follows from it. */
module SerialRuns {
  import opened Wrappers
  import opened Text
  import opened Store
  import opened Numbers
  import opened Protocol
  import opened History
  import opened Cluster
  import opened Serial
  import opened SerialSteps
  import M = Master
  import S = Slave

  // ---------- what the steps do to the parts the stages speak of ----------

  lemma ActsAside(m: M.Master, replies: Net, past: set<Act>, stage: Stage)
    requires Base(m, replies, past) && At(m, replies, past, stage)
    ensures Base(m.(acts := []), replies, past) && At(m.(acts := []), replies, past, stage)
  {
  }

  /** A step that leaves master m', replies and history in stage keeps the invariant. */
  lemma Lands(s: Cluster, s': Cluster, m': M.Master, acts: seq<Act>, past': set<Act>, stage: Stage)
    requires Shape(s) && Ok(|s.slaves|, s.trace) && |s'.slaves| == |s.slaves|
    requires s'.master == m'.(acts := []) && s'.trace == s.trace + acts
    requires Goes(s.master, Past(s.trace), m', s'.replies, acts, past') && At(m', s'.replies, past', stage)
    ensures Inv(s', stage)
  {
    ExtendsKeepsOk(|s.slaves|, s.trace, acts, past');
    ActsAside(m', s'.replies, past', stage);
  }

  lemma DeliverPrecommit(s: Cluster, i: nat, canOpen: bool)
    requires Shape(s) && i < |s.slaves| && s.master.out[i] != [] && s.master.out[i][0] == Precommit
    ensures var s' := Deliver(s, i, canOpen);
            && s'.master == Taken(s.master, i) && |s'.slaves| == |s.slaves|
            && s'.replies == Added(s.replies, i, PrecommitAck) && s'.trace == s.trace + [Voted(i, s.master.started)]
  {
  }

  lemma DeliverQuiet(s: Cluster, i: nat, canOpen: bool)
    requires Shape(s) && i < |s.slaves| && s.master.out[i] != []
    requires s.master.out[i][0].Abort? || s.master.out[i][0].End?
    ensures var s' := Deliver(s, i, canOpen);
            && s'.master == Taken(s.master, i) && |s'.slaves| == |s.slaves|
            && s'.replies == s.replies && s'.trace == s.trace + []
  {
  }

  /** A COMMIT is either dropped or stored and answered. */
  lemma DeliverCommit(s: Cluster, i: nat, canOpen: bool, c: Command, t: nat) returns (stored: bool, r: SaveResult)
    requires Shape(s) && i < |s.slaves| && s.master.out[i] != [] && s.master.out[i][0] == Commit(c, t)
    ensures var s' := Deliver(s, i, canOpen);
            && s'.master == Taken(s.master, i) && |s'.slaves| == |s.slaves|
            && (stored ==>
                  && s'.replies == Added(s.replies, i, S.ReplyFor(Heard(c), r))
                  && s'.trace == s.trace + [SlaveSaved(i, t, Heard(c), r)])
            && (!stored ==> s'.replies == s.replies && s'.trace == s.trace + [])
  {
    var e := S.Receive(s.slaves[i], Commit(Heard(c), t), s.debugLevel, canOpen);
    stored := !S.Drops(s.slaves[i], s.debugLevel);
    r := if stored then e.stored.value else Saved;
  }

  // ---------- each kind of step ----------

  lemma SubmitKeeps(s: Cluster, stage: Stage, u: nat, m: M.Master, c: Command, m': M.Master, s': Cluster)
    requires Inv(s, stage) && Quiet(s) && !s.master.hung && u < |s.master.users| && HasSlash(c.body)
    requires m == s.master.(counter := m.counter)
    requires m' == M.Broadcast(M.InitConnection(M.SaveClientCmd(m, u, c)), Precommit, MPrecommitMulticasted)
    requires s' == Absorb(s, m')
    ensures Inv(s', InPhaseOne(u))
  {
    var past := Past(s.trace);
    var past' := With(past, Started(m.started + 1, c));
    StartKeeps(m, s.replies, past, u, c, m', past');
    BeginEffect(m, u, c, m');
    Lands(s, s', m', m'.acts, past', InPhaseOne(u));
  }

  lemma ToSlaveKeeps(s: Cluster, stage: Stage, i: nat, canOpen: bool)
    requires Inv(s, stage) && i < |s.slaves| && s.master.out[i] != []
    ensures Inv(Deliver(s, i, canOpen), stage)
  {
    var m, past, s' := s.master, Past(s.trace), Deliver(s, i, canOpen);
    match stage {
      case InPhaseOne(u) =>
        var past' := With(past, Voted(i, m.started));
        PhaseOneToSlave(m, s.replies, past, u, i, past');
        DeliverPrecommit(s, i, canOpen);
        Lands(s, s', Taken(m, i), [Voted(i, m.started)], past', stage);
      case InAborting =>
        AbortingToSlave(m, s.replies, past, i);
        if m.out[i][0] == Precommit {
          DeliverPrecommit(s, i, canOpen);
          Lands(s, s', Taken(m, i), [Voted(i, m.started)], With(past, Voted(i, m.started)), stage);
        } else {
          DeliverQuiet(s, i, canOpen);
          Lands(s, s', Taken(m, i), [], past, stage);
        }
      case InPhaseTwo(u) =>
        PhaseTwoToSlaveKeeps(s, u, i, canOpen);
      case InEnding(c) =>
        EndingToSlaveKeeps(s, c, i, canOpen);
      case InHanging(u) =>
        HangingToSlaveKeeps(s, u, i, canOpen);
    }
  }

  lemma HangingToSlaveKeeps(s: Cluster, u: nat, i: nat, canOpen: bool)
    requires Inv(s, InHanging(u)) && i < |s.slaves| && s.master.out[i] != []
    ensures Inv(Deliver(s, i, canOpen), InHanging(u))
  {
    var m, past, s' := s.master, Past(s.trace), Deliver(s, i, canOpen);
    var c := M.CommandOf(m.users[u]);
    HangingToSlave(m, s.replies, past, u, i);
    var stored, r := DeliverCommit(s, i, canOpen, c, m.started);
    if stored {
      var past' := With(past, SlaveSaved(i, m.started, Heard(c), r));
      HangingStore(m, s.replies, past, u, i, r, past');
      Lands(s, s', Taken(m, i), [SlaveSaved(i, m.started, Heard(c), r)], past', InHanging(u));
    } else {
      Lands(s, s', Taken(m, i), [], past, InHanging(u));
    }
  }

  lemma PhaseTwoToSlaveKeeps(s: Cluster, u: nat, i: nat, canOpen: bool)
    requires Inv(s, InPhaseTwo(u)) && i < |s.slaves| && s.master.out[i] != []
    ensures Inv(Deliver(s, i, canOpen), InPhaseTwo(u))
  {
    var m, past, s' := s.master, Past(s.trace), Deliver(s, i, canOpen);
    var c := M.CommandOf(m.users[u]);
    PhaseTwoDropped(m, s.replies, past, u, i);
    var stored, r := DeliverCommit(s, i, canOpen, c, m.started);
    if stored {
      var past' := With(past, SlaveSaved(i, m.started, Heard(c), r));
      PhaseTwoToSlave(m, s.replies, past, u, i, r, past');
      Lands(s, s', Taken(m, i), [SlaveSaved(i, m.started, Heard(c), r)], past', InPhaseTwo(u));
    } else {
      Lands(s, s', Taken(m, i), [], past, InPhaseTwo(u));
    }
  }

  lemma EndingToSlaveKeeps(s: Cluster, c: Command, i: nat, canOpen: bool)
    requires Inv(s, InEnding(c)) && i < |s.slaves| && s.master.out[i] != []
    ensures Inv(Deliver(s, i, canOpen), InEnding(c))
  {
    var m, past, s' := s.master, Past(s.trace), Deliver(s, i, canOpen);
    EndingToSlave(m, s.replies, past, c, i);
    if m.out[i][0].End? {
      DeliverQuiet(s, i, canOpen);
      Lands(s, s', Taken(m, i), [], past, InEnding(c));
    } else {
      var stored, r := DeliverCommit(s, i, canOpen, c, m.started);
      if stored {
        var past' := With(past, SlaveSaved(i, m.started, Heard(c), r));
        EndingStore(m, s.replies, past, c, i, r, past');
        Lands(s, s', Taken(m, i), [SlaveSaved(i, m.started, Heard(c), r)], past', InEnding(c));
      } else {
        Lands(s, s', Taken(m, i), [], past, InEnding(c));
      }
    }
  }

  lemma ToMasterKeeps(s: Cluster, stage: Stage, i: nat, m': M.Master, s': Cluster)
    requires Inv(s, stage) && !s.master.hung && i < |s.slaves| && s.replies[i] != []
    requires m' == M.Receive(s.master, i, HeardReply(s.replies[i][0])) && s' == Absorb(DropReply(s, i), m')
    ensures Inv(s', stage)
  {
    var m, past := s.master, Past(s.trace);
    assert m'.acts == [] by {
      ReceiveActs(m, i, HeardReply(s.replies[i][0]));
    }
    match stage {
      case InPhaseOne(u) =>
        PhaseOneToMaster(m, s.replies, past, u, i, M.CollectAll(m, i, MPrecommited, EvPrecommitAck, "", PrecommitAck));
        Lands(s, s', m', [], past, stage);
      case InAborting =>
        AbortingToMaster(m, s.replies, past, i, M.CollectAll(m, i, MPrecommited, EvPrecommitAck, "", PrecommitAck));
        Lands(s, s', m', [], past, stage);
      case InPhaseTwo(u) =>
        var r := PhaseTwoReply(m, s.replies, past, u, i);
        CountedIsReceive(m, i, M.CommandOf(m.users[u]), r);
        PhaseTwoToMaster(m, s.replies, past, u, i, r, m');
        Lands(s, s', m', [], past, stage);
      case InEnding(c) =>
        var r := EndingToMaster(m, s.replies, past, c, i);
        CountedIsReceive(m, i, c, r);
        Lands(s, s', m', [], past, stage);
    }
  }

  lemma ReceiveActs(m: M.Master, i: nat, reply: Reply)
    requires i < |m.peers|
    ensures M.Receive(m, i, reply).acts == m.acts
  {
  }

  lemma TimerKeeps(s: Cluster, stage: Stage, m': M.Master, s': Cluster)
    requires Inv(s, stage) && s.master.timer && m' == M.Expire(s.master) && s' == Absorb(s, m')
    ensures Inv(s', stage)
  {
    var m, past := s.master, Past(s.trace);
    match stage {
      case InPhaseOne(u) =>
        PhaseOneTimer(m, s.replies, past, u, m');
      case InPhaseTwo(u) =>
        PhaseTwoTimer(m, s.replies, past, u, m');
      case InHanging(u) =>
        HangingTimer(m, s.replies, past, u, m');
      case InAborting =>
      case InEnding(_) =>
    }
    Lands(s, s', m', m'.acts, past, stage);
  }

  /** A round goes through its stages by commands and by events of the master. */
  ghost function NextStage(m: M.Master, stage: Stage, step: Step): Stage {
    match step
    case SubmitWrite(u, _) => InPhaseOne(u)
    case SubmitReplace(u, _, _) => InPhaseOne(u)
    case HandleEvent(_) => if m.queue == [] then stage else AfterEvent(m, stage, m.queue[0])
    case _ => stage
  }

  ghost function AfterEvent(m: M.Master, stage: Stage, ev: Event): Stage {
    match stage
    case InPhaseOne(u) =>
      if ev.kind == EvPrecommitAck then InPhaseTwo(u) else if ev.kind == EvPrecommitErr then InAborting else stage
    case InPhaseTwo(u) =>
      if |m.users| <= u || ev.kind == EvMasterTimeout then stage
      else if Concerns(ev, m.users[u].msgNumber) then InEnding(M.CommandOf(m.users[u]))
      else InHanging(u)
    case _ => stage
  }

  lemma HandlePhaseOne(s: Cluster, u: nat, failing: set<nat>, m': M.Master, s': Cluster) returns (stage': Stage)
    requires Inv(s, InPhaseOne(u)) && s.master.queue != []
    requires m' == M.Handle(s.master, failing) && s' == Absorb(s, m')
    ensures Inv(s', stage') && stage' == AfterEvent(s.master, InPhaseOne(u), s.master.queue[0])
  {
    var m, past := s.master, Past(s.trace);
    var past' := past;
    match m.queue[0].kind {
      case EvPrecommitAck =>
        stage', past' := InPhaseTwo(u), With(past, CommitSent(m.started, M.CommandOf(m.users[u])));
        PhaseOneAck(m, s.replies, past, u, m', past');
      case EvPrecommitErr =>
        stage', past' := InAborting, With(With(past, AbortSent(m.started)), Rejected(m.started));
        PhaseOneErr(m, s.replies, past, u, m', past');
      case EvMasterTimeout =>
        stage' := InPhaseOne(u);
        PhaseOneTimeout(m, s.replies, past, u, m');
    }
    Lands(s, s', m', m'.acts, past', stage');
  }

  /** The answer the success handler gives, and what it leaves. */
  lemma SuccessParts(m: M.Master, u: nat, failing: set<nat>, canOpen: bool, timedOut: bool, result: SaveResult,
                     m': M.Master)
    requires m.Valid() && !m.hung && OnlyUser(m.users, u, UWaitingSave) && m.users[u].ticket == m.started
    requires QueueTwo(m, timedOut) && m.acts == [] && canOpen == (m.started !in failing)
    requires m.queue != [] && m.queue[0].kind == EvCommitSuccess && Concerns(m.queue[0], m.users[u].msgNumber)
    requires m' == M.CommitSucceeded(Dequeued(m), m.queue[0].number, failing)
    requires result == Save(m.file, M.CommandOf(m.users[u]), canOpen).result
    ensures var t, c := m.started, M.CommandOf(m.users[u]);
            && M.AllPeers(m.peers, MOperationPerformed)
            && AnswerGone(m, u, End(if result == Saved then true else false, m.queue[0].number), m')
            && m'.file == Save(m.file, c, canOpen).file
            && m'.acts == [MasterSaved(t, c, result), Answered(t, c, M.SaveAnswer(c, result))]
  {
    FinishGone(m, u, failing, canOpen, result, timedOut, m');
  }

  lemma SuccessStep(m: M.Master, replies: Net, past: set<Act>, u: nat, failing: set<nat>, m': M.Master)
    returns (past': set<Act>)
    requires Base(m, replies, past) && PhaseTwo(m, replies, past, u) && m.acts == []
    requires m.queue != [] && m.queue[0].kind == EvCommitSuccess && Concerns(m.queue[0], m.users[u].msgNumber)
    requires m' == M.CommitSucceeded(Dequeued(m), m.queue[0].number, failing)
    ensures Goes(m, past, m', replies, m'.acts, past') && Ending(m', replies, past', M.CommandOf(m.users[u]))
  {
    var t, c := m.started, M.CommandOf(m.users[u]);
    var canOpen := t !in failing;
    var result := Save(m.file, c, canOpen).result;
    var ok := if result == Saved then true else false;
    past' := With(With(past, MasterSaved(t, c, result)), Answered(t, c, M.SaveAnswer(c, result)));
    SuccessParts(m, u, failing, canOpen, PhaseTwoTimeout(t) in past, result, m');
    PhaseTwoSuccess(m, replies, past, u, End(ok, m.queue[0].number), result, m', past');
  }

  lemma FailureLands(m: M.Master, replies: Net, past: set<Act>, u: nat, number: string, answer: Answer,
                     m': M.Master, past': set<Act>)
    requires Base(m, replies, past) && PhaseTwo(m, replies, past, u)
    requires FailsWith(past, m.started, M.CommandOf(m.users[u]), answer)
    requires AnswerGone(m, u, End(false, number), m')
    requires m'.acts == [Answered(m.started, M.CommandOf(m.users[u]), answer)]
    requires past' == With(past, Answered(m.started, M.CommandOf(m.users[u]), answer))
    ensures Goes(m, past, m', replies, m'.acts, past') && Ending(m', replies, past', M.CommandOf(m.users[u]))
  {
    PhaseTwoFailure(m, replies, past, u, number, answer, m', past');
  }

  lemma FailureParts(m: M.Master, u: nat, timedOut: bool, answer: Answer, m': M.Master)
    requires m.Valid() && !m.hung && OnlyUser(m.users, u, UWaitingSave) && m.users[u].ticket == m.started
    requires QueueTwo(m, timedOut) && m.acts == []
    requires m.queue != [] && m.queue[0].kind == EvCommitUnsuccess && Concerns(m.queue[0], m.users[u].msgNumber)
    requires answer == M.FailureAnswer(m.users[u], m.queue[0].response)
    requires m' == M.CommitFailedAll(Dequeued(m), m.queue[0].number, m.queue[0].response)
    ensures AnswerGone(m, u, End(false, m.queue[0].number), m')
    ensures m'.acts == [Answered(m.started, M.CommandOf(m.users[u]), answer)]
  {
    FailGone(m, u, timedOut, m');
  }

  /** UNKNOWN is answered to a REPLACE whose failure a slave reported as 6.2, and to nothing else. */
  lemma FailureIsCaused(m: M.Master, past: set<Act>, u: nat, answer: Answer)
    requires u < |m.users| && m.users[u].msgNumber == NumberOf(m.users[u].msg)
    requires m.queue != [] && m.queue[0].kind == EvCommitUnsuccess
    requires Causes(m.queue, past, m.started, M.CommandOf(m.users[u]))
    requires answer == M.FailureAnswer(m.users[u], m.queue[0].response)
    ensures FailsWith(past, m.started, M.CommandOf(m.users[u]), answer)
    ensures answer == Unknown(NumberOf(m.users[u].msg)) <==> Says62(m.users[u], m.queue[0].response)
    ensures answer == ErrorWrite <==> !Says62(m.users[u], m.queue[0].response)
  {
    var c, response := M.CommandOf(m.users[u]), m.queue[0].response;
    if Says62(m.users[u], response) {
      assert FailedReply(response.value, past, m.started, c);
      var i: nat, r: SaveResult :| r != Saved && SlaveSaved(i, m.started, Heard(c), r) in past
                                   && response.value == HeardReply(S.ReplyFor(Heard(c), r));
      assert r == NotFound;
    }
  }

  predicate Says62(u: M.User, response: Option<Reply>) {
    u.cmd == CmdReplace && response.Some? && response.value.CommitUnknown?
  }

  lemma FailureStep(m: M.Master, replies: Net, past: set<Act>, u: nat, m': M.Master) returns (past': set<Act>)
    requires Base(m, replies, past) && PhaseTwo(m, replies, past, u) && m.acts == []
    requires m.queue != [] && m.queue[0].kind == EvCommitUnsuccess && Concerns(m.queue[0], m.users[u].msgNumber)
    requires m' == M.CommitFailedAll(Dequeued(m), m.queue[0].number, m.queue[0].response)
    ensures Goes(m, past, m', replies, m'.acts, past') && Ending(m', replies, past', M.CommandOf(m.users[u]))
  {
    var t, c := m.started, M.CommandOf(m.users[u]);
    var answer := M.FailureAnswer(m.users[u], m.queue[0].response);
    past' := With(past, Answered(t, c, answer));
    FailureParts(m, u, PhaseTwoTimeout(t) in past, answer, m');
    FailureIsCaused(m, past, u, answer);
    FailureLands(m, replies, past, u, m.queue[0].number, answer, m', past');
  }

  lemma HandleSuccess(s: Cluster, u: nat, failing: set<nat>, m': M.Master, s': Cluster)
    requires Inv(s, InPhaseTwo(u)) && s.master.queue != [] && s.master.queue[0].kind == EvCommitSuccess
    requires Concerns(s.master.queue[0], s.master.users[u].msgNumber)
    requires m' == M.CommitSucceeded(Dequeued(s.master), s.master.queue[0].number, failing) && s' == Absorb(s, m')
    ensures Inv(s', InEnding(M.CommandOf(s.master.users[u])))
  {
    var past' := SuccessStep(s.master, s.replies, Past(s.trace), u, failing, m');
    Lands(s, s', m', m'.acts, past', InEnding(M.CommandOf(s.master.users[u])));
  }

  lemma HandleFailure(s: Cluster, u: nat, m': M.Master, s': Cluster)
    requires Inv(s, InPhaseTwo(u)) && s.master.queue != [] && s.master.queue[0].kind == EvCommitUnsuccess
    requires Concerns(s.master.queue[0], s.master.users[u].msgNumber)
    requires m' == M.CommitFailedAll(Dequeued(s.master), s.master.queue[0].number, s.master.queue[0].response)
    requires s' == Absorb(s, m')
    ensures Inv(s', InEnding(M.CommandOf(s.master.users[u])))
  {
    var past' := FailureStep(s.master, s.replies, Past(s.trace), u, m');
    Lands(s, s', m', m'.acts, past', InEnding(M.CommandOf(s.master.users[u])));
  }

  lemma HandleTimeoutTwo(s: Cluster, u: nat, m': M.Master, s': Cluster)
    requires Inv(s, InPhaseTwo(u)) && s.master.queue != [] && s.master.queue[0].kind == EvMasterTimeout
    requires m' == M.TimedOut(Dequeued(s.master)) && s' == Absorb(s, m')
    ensures Inv(s', InPhaseTwo(u))
  {
    var m, past := s.master, Past(s.trace);
    var past' := if m.masterState == MCommited then With(past, PhaseTwoTimeout(m.started)) else past;
    PhaseTwoTimesOut(m, s.replies, past, u, m', past');
    Lands(s, s', m', m'.acts, past', InPhaseTwo(u));
  }

  lemma KindsTwo(m: M.Master, timedOut: bool)
    requires QueueTwo(m, timedOut) && m.queue != []
    ensures m.queue[0].kind in {EvCommitSuccess, EvCommitUnsuccess, EvMasterTimeout}
  {
  }

  lemma HandlePhaseTwo(s: Cluster, u: nat, failing: set<nat>, m': M.Master, s': Cluster) returns (stage': Stage)
    requires Inv(s, InPhaseTwo(u)) && s.master.queue != []
    requires m' == M.Handle(s.master, failing) && s' == Absorb(s, m')
    ensures Inv(s', stage') && stage' == AfterEvent(s.master, InPhaseTwo(u), s.master.queue[0])
  {
    KindsTwo(s.master, PhaseTwoTimeout(s.master.started) in Past(s.trace));
    stage' := AfterEvent(s.master, InPhaseTwo(u), s.master.queue[0]);
    if s.master.queue[0].kind == EvMasterTimeout {
      HandleTimeoutTwo(s, u, m', s');
    } else if !Concerns(s.master.queue[0], s.master.users[u].msgNumber) {
      HandleHangs(s, u, failing, m', s');
    } else if s.master.queue[0].kind == EvCommitSuccess {
      HandleSuccess(s, u, failing, m', s');
    } else {
      HandleFailure(s, u, m', s');
    }
  }

  lemma HandleHangs(s: Cluster, u: nat, failing: set<nat>, m': M.Master, s': Cluster)
    requires Inv(s, InPhaseTwo(u)) && s.master.queue != []
    requires s.master.queue[0].kind == EvCommitSuccess || s.master.queue[0].kind == EvCommitUnsuccess
    requires !Concerns(s.master.queue[0], s.master.users[u].msgNumber)
    requires m' == M.Handle(s.master, failing) && s' == Absorb(s, m')
    ensures Inv(s', InHanging(u))
  {
    HangEffect(s.master, u, failing, m');
    EnterHanging(s.master, s.replies, Past(s.trace), u, m');
    Lands(s, s', m', [], Past(s.trace), InHanging(u));
  }

  lemma HandleIdle(s: Cluster, stage: Stage, failing: set<nat>, m': M.Master, s': Cluster)
    requires Inv(s, stage) && (stage.InAborting? || stage.InEnding?) && s.master.queue != []
    requires m' == M.Handle(s.master, failing) && s' == Absorb(s, m')
    ensures Inv(s', stage)
  {
    var m, past := s.master, Past(s.trace);
    assert m.queue[0] in m.queue;
    if stage.InAborting? {
      AbortingHandle(m, s.replies, past, m');
    } else if m.queue[0].kind == EvCommitSuccess {
      EndingSuccess(m, s.replies, past, stage.command, failing, m');
    } else {
      EndingFailure(m, s.replies, past, stage.command, m');
    }
    Lands(s, s', m', m'.acts, past, stage);
  }

  lemma CommandKeeps(s: Cluster, stage: Stage, step: Step, s': Cluster)
    requires Inv(s, stage) && OneAtATime(s, step) && IsCommand(step) && s' == Do(s, step)
    ensures Inv(s', InPhaseOne(step.user))
  {
    var m := s.master;
    match step {
      case SubmitWrite(u, text) =>
        var m1 := m.(counter := Allocate(m.counter));
        M.MessageNumber(PrintInt(m1.counter), m.users[u], text);
        SubmitKeeps(s, stage, u, m1, NewCommand(m, step), M.SubmitWrite(m, u, text), s');
      case SubmitReplace(u, number, text) =>
        M.MessageNumber(number, m.users[u], text);
        SubmitKeeps(s, stage, u, m, NewCommand(m, step), M.SubmitReplace(m, u, number, text), s');
    }
  }

  lemma HandleKeeps(s: Cluster, stage: Stage, failing: set<nat>, m': M.Master, s': Cluster) returns (stage': Stage)
    requires Inv(s, stage) && !s.master.hung && s.master.queue != []
    requires m' == M.Handle(s.master, failing) && s' == Absorb(s, m')
    ensures Inv(s', stage') && stage' == AfterEvent(s.master, stage, s.master.queue[0])
  {
    stage' := stage;
    match stage {
      case InPhaseOne(u) => stage' := HandlePhaseOne(s, u, failing, m', s');
      case InPhaseTwo(u) => stage' := HandlePhaseTwo(s, u, failing, m', s');
      case InAborting => HandleIdle(s, stage, failing, m', s');
      case InEnding(_) => HandleIdle(s, stage, failing, m', s');
      case InHanging(_) =>
    }
  }

  /** Every step with one command in flight keeps the invariant. */
  lemma StepKeeps(s: Cluster, stage: Stage, step: Step) returns (stage': Stage)
    requires Inv(s, stage) && OneAtATime(s, step)
    ensures Inv(Do(s, step), stage') && stage' == NextStage(s.master, stage, step)
  {
    stage' := NextStage(s.master, stage, step);
    var m, s' := s.master, Do(s, step);
    if IsCommand(step) {
      CommandKeeps(s, stage, step, s');
    } else {
      match step {
        case ToSlave(i, canOpen) => ToSlaveKeeps(s, stage, i, canOpen);
        case ToMaster(i) => ToMasterKeeps(s, stage, i, M.Receive(m, i, HeardReply(s.replies[i][0])), s');
        case HandleEvent(failing) => stage' := HandleKeeps(s, stage, failing, M.Handle(m, failing), s');
        case MasterTimer => TimerKeeps(s, stage, M.Expire(m), s');
        case _ =>
      }
    }
  }

  lemma InitialInv(s: Cluster)
    requires Shape(s) && Initial(s)
    ensures Inv(s, InAborting)
  {
  }

  /** The invariant holds at the end of every run with one command in flight, and with it at every
      state on the way. */
  lemma {:induction false} RunKeeps(s: Cluster, stage: Stage, steps: seq<Step>) returns (stage': Stage)
    requires Inv(s, stage) && IsSerialRun(s, steps)
    ensures IsRun(s, steps) && Inv(Final(s, steps), stage') && |Final(s, steps).slaves| == |s.slaves|
    decreases |steps|
  {
    SerialIsRun(s, steps);
    stage' := stage;
    if steps != [] {
      var stage1 := StepKeeps(s, stage, steps[0]);
      DoKeepsShape(s, steps[0]);
      stage' := RunKeeps(Do(s, steps[0]), stage1, steps[1..]);
    }
  }

  // ---------- the command in flight ----------

  ghost predicate IsCommand(step: Step) {
    step.SubmitWrite? || step.SubmitReplace?
  }

  /** The command a user's step starts. */
  ghost function NewCommand(m: M.Master, step: Step): Command
    requires IsCommand(step) && step.user < |m.users|
  {
    match step
    case SubmitWrite(u, text) => Command(CmdWrite, M.MessageOf(PrintInt(Allocate(m.counter)), m.users[u], text))
    case SubmitReplace(u, number, text) => Command(CmdReplace, M.MessageOf(number, m.users[u], text))
  }

  /** The command in flight, if there is one, has property p. */
  ghost predicate InFlight(m: M.Master, stage: Stage, p: Command -> bool) {
    stage.InPhaseOne? || stage.InPhaseTwo? || stage.InHanging? ==>
      stage.user < |m.users| && p(M.CommandOf(m.users[stage.user]))
  }

  /** The property of being that very command. */
  ghost function Is(c: Command): Command -> bool {
    x => x == c
  }

  lemma InFlightSubmit(m: M.Master, u: nat, c: Command, m': M.Master, p: Command -> bool)
    requires m.Valid() && u < |m.users| && p(c)
    requires m' == M.Broadcast(M.InitConnection(M.SaveClientCmd(m, u, c)), Precommit, MPrecommitMulticasted)
    ensures InFlight(m'.(acts := []), InPhaseOne(u), p)
  {
    BeginEffect(m, u, c, m');
    assert M.CommandOf(m'.users[u]) == c;
  }

  lemma InFlightHandle(m: M.Master, replies: Net, past: set<Act>, stage: Stage, failing: set<nat>, m': M.Master,
                       p: Command -> bool)
    requires Base(m, replies, past) && At(m, replies, past, stage) && InFlight(m, stage, p) && m.queue != []
    requires m' == M.Handle(m, failing) && !m.hung
    ensures InFlight(m', AfterEvent(m, stage, m.queue[0]), p)
  {
    match stage {
      case InPhaseOne(u) =>
        if m.queue[0].kind == EvPrecommitAck {
          AckOnly(Dequeued(m), u);
          CommitUserEffect(Dequeued(m), u, m');
          assert M.CommandOf(m'.users[u]) == M.CommandOf(m.users[u]);
        }
      case InPhaseTwo(u) =>
        KindsTwo(m, PhaseTwoTimeout(m.started) in past);
        InFlightTwo(m, u, failing, m', p);
      case _ =>
    }
  }

  lemma InFlightTwo(m: M.Master, u: nat, failing: set<nat>, m': M.Master, p: Command -> bool)
    requires OnlyUser(m.users, u, UWaitingSave) && InFlight(m, InPhaseTwo(u), p) && m.queue != []
    requires m.queue[0].kind in {EvCommitSuccess, EvCommitUnsuccess, EvMasterTimeout} && m' == M.Handle(m, failing)
    ensures InFlight(m', AfterEvent(m, InPhaseTwo(u), m.queue[0]), p)
  {
    if m.queue[0].kind != EvMasterTimeout && !Concerns(m.queue[0], m.users[u].msgNumber) {
      HangEffect(m, u, failing, m');
    }
  }

  lemma ReceiveUsers(m: M.Master, i: nat, reply: Reply)
    requires i < |m.peers|
    ensures M.Receive(m, i, reply).users == m.users
  {
  }

  /** A step keeps the property of the command in flight, and a new command brings its own. */
  lemma InFlightStep(s: Cluster, stage: Stage, step: Step, p: Command -> bool)
    requires Inv(s, stage) && OneAtATime(s, step) && InFlight(s.master, stage, p)
    requires IsCommand(step) ==> p(NewCommand(s.master, step))
    ensures InFlight(Do(s, step).master, NextStage(s.master, stage, step), p)
  {
    var m := s.master;
    match step {
      case SubmitWrite(u, text) =>
        InFlightSubmit(m.(counter := Allocate(m.counter)), u, NewCommand(m, step), M.SubmitWrite(m, u, text), p);
      case SubmitReplace(u, number, text) =>
        InFlightSubmit(m, u, NewCommand(m, step), M.SubmitReplace(m, u, number, text), p);
      case HandleEvent(failing) =>
        InFlightHandle(m, s.replies, Past(s.trace), stage, failing, M.Handle(m, failing), p);
      case ToMaster(i) =>
        ReceiveUsers(m, i, HeardReply(s.replies[i][0]));
      case _ =>
    }
  }

  // ---------- what runs with one command in flight guarantee ----------

  /** The history of every such run keeps all the rules of module History: commit safety, unanimity, a
      single decision, one outcome, and no trace of a rejected command. */
  lemma SerialHistoryOk(s: Cluster, steps: seq<Step>)
    requires Shape(s) && Initial(s) && IsSerialRun(s, steps)
    ensures IsRun(s, steps)
    ensures Ok(|s.slaves|, Final(s, steps).trace)
  {
    InitialInv(s);
    var _ := RunKeeps(s, InAborting, steps);
  }

  /** Commit safety, for every run with one command in flight: when a user is told WROTE n, every slave
      and the master have already stored that command successfully, and no node stores a command twice
      in the whole run. */
  lemma CommitSafety(s: Cluster, steps: seq<Step>, k: nat)
    requires Shape(s) && Initial(s) && IsSerialRun(s, steps) && IsRun(s, steps)
    requires var trace := Final(s, steps).trace; k < |trace| && trace[k].Answered? && trace[k].answer.Wrote?
    ensures var trace := Final(s, steps).trace;
            && trace[k].answer.number == NumberOf(trace[k].command.body)
            && StoredEverywhere(|s.slaves|, trace, k, trace[k].ticket, trace[k].command)
            && StoredOnce(trace)
  {
    SerialHistoryOk(s, steps);
    WroteMeansStoredEverywhere(|s.slaves|, Final(s, steps).trace, k);
    NobodyStoresTwice(|s.slaves|, Final(s, steps).trace);
  }

  /** Unanimity and single decision, for every run with one command in flight: a round decides once, for
      COMMIT or for ABORT, and for COMMIT only after every slave has voted in that round. */
  lemma UnanimousSingleDecision(s: Cluster, steps: seq<Step>, k: nat)
    requires Shape(s) && Initial(s) && IsSerialRun(s, steps) && IsRun(s, steps)
    requires k < |Final(s, steps).trace| && Decides(Final(s, steps).trace[k])
    ensures OnlyDecision(Final(s, steps).trace, k)
    ensures Final(s, steps).trace[k].CommitSent? ==> AllVotedBefore(|s.slaves|, Final(s, steps).trace, k)
  {
    SerialHistoryOk(s, steps);
    RoundDecidesOnce(|s.slaves|, Final(s, steps).trace, k);
  }

  /** True answers, for every run with one command in flight, clean or not: see History.AnswersSayWhy. */
  lemma AnswersAreTrue(s: Cluster, steps: seq<Step>, k: nat)
    requires Shape(s) && Initial(s) && IsSerialRun(s, steps) && IsRun(s, steps)
    requires k < |Final(s, steps).trace| && Final(s, steps).trace[k].Answered?
    ensures SaysWhy(Final(s, steps).trace, k)
  {
    SerialHistoryOk(s, steps);
    AnswersSayWhy(|s.slaves|, Final(s, steps).trace, k);
  }

  // ---------- parts other modules build on ----------

  /** The invariant without the history's rules. */
  ghost predicate Now(s: Cluster, stage: Stage) {
    Shape(s) && Base(s.master, s.replies, Past(s.trace)) && At(s.master, s.replies, Past(s.trace), stage)
  }

  lemma ReceiveKeepsFiles(m: M.Master, i: nat, reply: Reply)
    requires m.Valid() && i < |m.peers|
    ensures var m' := M.Receive(m, i, reply);
            && m'.file == m.file && m'.users == m.users && m'.out == m.out && m'.started == m.started
            && m'.Valid() && |m'.peers| == |m.peers|
  {
  }

  /** Nobody is served by an event that comes late. */
  lemma IdleHandle(m: M.Master, replies: Net, past: set<Act>, stage: Stage, failing: set<nat>)
    requires Base(m, replies, past) && At(m, replies, past, stage) && (stage.InAborting? || stage.InEnding?)
    requires m.queue != []
    ensures M.Handle(m, failing) == Dequeued(m)
  {
    assert m.queue[0] in m.queue;
    FindNone(m.users, UWaitingCommit);
    FindNone(m.users, UWaitingSave);
  }

  lemma KindsOne(m: M.Master)
    requires QueueOne(m) && m.queue != []
    ensures m.queue[0].kind in {EvPrecommitAck, EvPrecommitErr, EvMasterTimeout}
  {
  }

  /** The command whose COMMIT may be under way. */
  ghost predicate Commits(m: M.Master, stage: Stage, c: Command) {
    match stage
    case InPhaseTwo(u) => u < |m.users| && c == M.CommandOf(m.users[u])
    case InHanging(u) => u < |m.users| && c == M.CommandOf(m.users[u])
    case InEnding(c') => c' == c
    case _ => false
  }

  /** A COMMIT under way is the one of this round. */
  lemma CommitLine(m: M.Master, replies: Net, past: set<Act>, stage: Stage, i: nat)
    requires Base(m, replies, past) && At(m, replies, past, stage) && i < |replies| && m.out[i] != []
    ensures m.out[i][0].Commit? ==> m.out[i][0].ticket == m.started && Commits(m, stage, m.out[i][0].command)
  {
  }

  /** When nothing is under way, no round is. */
  lemma QuietWaits(s: Cluster, stage: Stage)
    requires Now(s, stage) && Quiet(s)
    ensures stage.InAborting? || stage.InEnding?
  {
  }

  /** Histories only grow. */
  lemma {:induction false} TraceGrows(s: Cluster, steps: seq<Step>)
    requires Shape(s) && IsRun(s, steps)
    ensures s.trace <= Final(s, steps).trace
    decreases |steps|
  {
    if steps != [] {
      DoKeepsShape(s, steps[0]);
      TraceGrows(Do(s, steps[0]), steps[1..]);
    }
  }
}
