/**
 Does a failed phase two write anything? The README promises that it does not. Once the failure of a WRITE
 is the master's next event, the promise is kept in every continuation of the round exactly when no slave
 has stored yet and every COMMIT still on a connection is one its slave drops.
 */
module Traces {
  import opened Wrappers
  import opened Store
  import opened Numbers
  import opened Protocol
  import opened History
  import opened Cluster
  import opened Serial
  import opened SerialSteps
  import opened SerialRuns
  import opened Handlers
  import opened Agreement
  import opened Replays
  import opened Progress
  import M = Master
  import S = Slave

  // ---------- the round of a WRITE ----------

  ghost predicate PlainWrite(c: Command) {
    c.cmd == CmdWrite && ComesBack(c)
  }

  ghost predicate WriteRound(s: Cluster, stage: Stage, t: nat) {
    && s.master.started == t && InFlight(s.master, stage, PlainWrite) && !stage.InHanging?
    && (stage.InEnding? ==> stage.command.cmd == CmdWrite)
  }

  /** What a store recorded in this round can look like. */
  ghost predicate OfRound(a: Act, t: nat, n: nat) {
    a.SlaveSaved? || a.MasterSaved? ==>
      a.ticket == t && a.command.cmd == CmdWrite && a.result != NotFound && (a.SlaveSaved? ==> a.slave < n)
  }

  ghost predicate AllOfRound(acts: seq<Act>, t: nat, n: nat) {
    forall k :: 0 <= k < |acts| ==> OfRound(acts[k], t, n)
  }

  /** A commit handler finds the author of a WRITE. */
  lemma FindsAuthor(m: M.Master, replies: Net, past: set<Act>, u: nat)
    requires Base(m, replies, past) && PhaseTwo(m, replies, past, u) && InFlight(m, InPhaseTwo(u), PlainWrite)
    requires m.queue != [] && m.queue[0].kind != EvMasterTimeout
    ensures Concerns(m.queue[0], m.users[u].msgNumber)
  {
    KindsTwo(m, PhaseTwoTimeout(m.started) in past);
    BackIff(M.CommandOf(m.users[u]));
  }

  lemma StaysBusy(s: Cluster, stage: Stage, ev: Event)
    requires Inv(s, stage) && InFlight(s.master, stage, PlainWrite) && !stage.InHanging?
    requires s.master.queue != [] && ev == s.master.queue[0] && (stage.InEnding? ==> stage.command.cmd == CmdWrite)
    ensures var stage' := AfterEvent(s.master, stage, ev);
            !stage'.InHanging? && (stage'.InEnding? ==> stage'.command.cmd == CmdWrite)
  {
    if stage.InPhaseTwo? && ev.kind != EvMasterTimeout {
      FindsAuthor(s.master, s.replies, Past(s.trace), stage.user);
    }
  }

  /** Handlers of phase one store nothing. */
  lemma HandleStoresOne(m: M.Master, u: nat, failing: set<nat>, m': M.Master, n: nat)
    requires m.Valid() && m.acts == [] && OnlyUser(m.users, u, UWaitingCommit)
    requires QueueOne(m) && m.queue != [] && m' == M.Handle(m, failing)
    ensures AllOfRound(m'.acts, m.started, n)
  {
    KindsOne(m);
    if m.queue[0].kind == EvPrecommitAck {
      AckActs(m, u, m');
    } else if m.queue[0].kind == EvPrecommitErr {
      RejectEffect(Dequeued(m), u, m');
    } else {
      assert m' == M.TimedOut(Dequeued(m));
    }
  }

  lemma AckActs(m: M.Master, u: nat, m': M.Master)
    requires m.Valid() && m.acts == [] && OnlyUser(m.users, u, UWaitingCommit) && m.queue != []
    requires m' == M.PrecommitAcked(Dequeued(m))
    ensures m'.acts == [CommitSent(m.users[u].ticket, M.CommandOf(m.users[u]))]
  {
    AckOnly(Dequeued(m), u);
    CommitUserEffect(Dequeued(m), u, m');
  }

  lemma SuccessStores(m: M.Master, u: nat, timedOut: bool, failing: set<nat>, m': M.Master, n: nat)
    requires m.Valid() && !m.hung && OnlyUser(m.users, u, UWaitingSave) && m.users[u].ticket == m.started
    requires QueueTwo(m, timedOut) && m.acts == [] && m.users[u].cmd == CmdWrite
    requires m.queue != [] && m.queue[0].kind == EvCommitSuccess && Concerns(m.queue[0], m.users[u].msgNumber)
    requires m' == M.CommitSucceeded(Dequeued(m), m.queue[0].number, failing)
    ensures AllOfRound(m'.acts, m.started, n)
  {
    var canOpen := m.started !in failing;
    var result := Save(m.file, M.CommandOf(m.users[u]), canOpen).result;
    SuccessParts(m, u, failing, canOpen, timedOut, result, m');
  }

  lemma FailureStores(m: M.Master, u: nat, timedOut: bool, m': M.Master, n: nat)
    requires m.Valid() && !m.hung && OnlyUser(m.users, u, UWaitingSave) && m.users[u].ticket == m.started
    requires QueueTwo(m, timedOut) && m.acts == []
    requires m.queue != [] && m.queue[0].kind == EvCommitUnsuccess && Concerns(m.queue[0], m.users[u].msgNumber)
    requires m' == M.CommitFailedAll(Dequeued(m), m.queue[0].number, m.queue[0].response)
    ensures AllOfRound(m'.acts, m.started, n)
  {
    FailureParts(m, u, timedOut, M.FailureAnswer(m.users[u], m.queue[0].response), m');
  }

  lemma HandleStoresTwo(m: M.Master, u: nat, timedOut: bool, failing: set<nat>, m': M.Master, n: nat)
    requires m.Valid() && !m.hung && OnlyUser(m.users, u, UWaitingSave) && m.users[u].ticket == m.started
    requires QueueTwo(m, timedOut) && m.acts == [] && m.users[u].cmd == CmdWrite && m.queue != []
    requires m.queue[0].kind != EvMasterTimeout ==> Concerns(m.queue[0], m.users[u].msgNumber)
    requires m' == M.Handle(m, failing)
    ensures AllOfRound(m'.acts, m.started, n)
  {
    KindsTwo(m, timedOut);
    if m.queue[0].kind == EvMasterTimeout {
      assert m' == M.TimedOut(Dequeued(m));
    } else if m.queue[0].kind == EvCommitSuccess {
      SuccessStores(m, u, timedOut, failing, m', n);
    } else {
      FailureStores(m, u, timedOut, m', n);
    }
  }

  lemma HandleStores(s: Cluster, stage: Stage, failing: set<nat>, m': M.Master)
    requires Inv(s, stage) && WriteRound(s, stage, s.master.started) && !s.master.hung && s.master.queue != []
    requires m' == M.Handle(s.master, failing)
    ensures AllOfRound(m'.acts, s.master.started, |s.slaves|)
  {
    match stage {
      case InPhaseOne(u) => HandleStoresOne(s.master, u, failing, m', |s.slaves|);
      case InPhaseTwo(u) =>
        if s.master.queue[0].kind != EvMasterTimeout {
          FindsAuthor(s.master, s.replies, Past(s.trace), u);
        }
        HandleStoresTwo(s.master, u, PhaseTwoTimeout(s.master.started) in Past(s.trace), failing, m', |s.slaves|);
      case _ => IdleHandle(s.master, s.replies, Past(s.trace), stage, failing);
    }
  }

  lemma CommitsWrite(s: Cluster, stage: Stage, i: nat)
    requires Inv(s, stage) && WriteRound(s, stage, s.master.started) && i < |s.slaves| && s.master.out[i] != []
    ensures var line := s.master.out[i][0];
            line.Commit? ==> line.ticket == s.master.started && line.command.cmd == CmdWrite
  {
    CommitLine(s.master, s.replies, Past(s.trace), stage, i);
  }

  lemma DeliverOfRound(s: Cluster, i: nat, canOpen: bool, s': Cluster) returns (acts: seq<Act>)
    requires Shape(s) && i < |s.slaves| && s.master.out[i] != [] && s' == Deliver(s, i, canOpen)
    requires var line := s.master.out[i][0];
             line.Commit? ==> line.ticket == s.master.started && line.command.cmd == CmdWrite
    ensures s'.trace == s.trace + acts && AllOfRound(acts, s.master.started, |s.slaves|)
    ensures s'.master == Taken(s.master, i)
  {
    var line := s.master.out[i][0];
    if line.Commit? && !S.Drops(s.slaves[i], s.debugLevel) {
      DeliverStores(s, i, canOpen, line.command, line.ticket, s');
      var c := Heard(line.command);
      acts := [SlaveSaved(i, line.ticket, c, Save(s.slaves[i].file, c, canOpen).result)];
    } else {
      DeliverDrops(s, i, canOpen, s');
      acts := if s'.trace == s.trace then [] else [Voted(i, s.master.started)];
    }
  }

  lemma HandleOfRound(s: Cluster, stage: Stage, failing: set<nat>, m': M.Master)
    requires Inv(s, stage) && WriteRound(s, stage, s.master.started) && !s.master.hung && s.master.queue != []
    requires m' == M.Handle(s.master, failing)
    ensures AllOfRound(m'.acts, s.master.started, |s.slaves|) && m'.started == s.master.started
  {
    HandleStores(s, stage, failing, m');
    HandleOutcome(s, stage, failing, m');
  }

  lemma RoundActs(s: Cluster, stage: Stage, step: Step, s': Cluster) returns (acts: seq<Act>)
    requires Inv(s, stage) && OneAtATime(s, step) && !IsCommand(step) && s' == Do(s, step)
    requires WriteRound(s, stage, s.master.started)
    ensures s'.trace == s.trace + acts && AllOfRound(acts, s.master.started, |s.slaves|)
    ensures s'.master.started == s.master.started
  {
    var m := s.master;
    acts := [];
    match step {
      case ToSlave(i, canOpen) =>
        CommitsWrite(s, stage, i);
        acts := DeliverOfRound(s, i, canOpen, s');
      case ToMaster(i) =>
        ReceiveActs(m, i, HeardReply(s.replies[i][0]));
        ReceiveKeepsFiles(m, i, HeardReply(s.replies[i][0]));
      case HandleEvent(failing) =>
        acts := M.Handle(m, failing).acts;
        HandleOfRound(s, stage, failing, M.Handle(m, failing));
      case _ =>
    }
  }

  lemma RoundStep(s: Cluster, stage: Stage, step: Step, s': Cluster) returns (acts: seq<Act>)
    requires Inv(s, stage) && OneAtATime(s, step) && !IsCommand(step) && s' == Do(s, step)
    requires WriteRound(s, stage, s.master.started)
    ensures WriteRound(s', NextStage(s.master, stage, step), s.master.started)
    ensures s'.trace == s.trace + acts && AllOfRound(acts, s.master.started, |s.slaves|)
  {
    InFlightStep(s, stage, step, PlainWrite);
    acts := RoundActs(s, stage, step, s');
    if step.HandleEvent? {
      StaysBusy(s, stage, s.master.queue[0]);
    }
  }

  // ---------- files ----------

  /** Node i, or the master when i is None, stored something in these acts. */
  ghost predicate Wrote(acts: seq<Act>, i: Option<nat>) {
    exists k :: 0 <= k < |acts| && IsSave(acts[k], i)
  }

  predicate IsSave(a: Act, i: Option<nat>) {
    && ((a.MasterSaved? && i.None?) || (a.SlaveSaved? && i == Some(a.slave)))
    && a.result == Saved
  }

  /** In a round of a WRITE a file is the one it was exactly when its node has stored nothing. */
  lemma {:induction false} SameFileIff(f: string, acts: seq<Act>, i: Option<nat>, t: nat, n: nat)
    requires AllOfRound(acts, t, n)
    ensures |Replay(f, acts, i)| >= |f|
    ensures if Wrote(acts, i) then |Replay(f, acts, i)| > |f| else Replay(f, acts, i) == f
  {
    if acts != [] {
      var front, a := acts[..|acts| - 1], acts[|acts| - 1];
      SameFileIff(f, front, i, t, n);
      assert acts == front + [a];
      ReplayAppend(f, front, a, i);
      assert OfRound(a, t, n);
      if Wrote(front, i) {
        var k :| 0 <= k < |front| && IsSave(front[k], i);
        assert acts[k] == front[k];
      } else if IsSave(a, i) {
        assert acts[|acts| - 1] == a;
      } else {
        assert forall k :: 0 <= k < |acts| && IsSave(acts[k], i) ==> k < |front| && front[k] == acts[k];
      }
    }
  }

  ghost predicate SameContents(s: Cluster, s0: Cluster) {
    && s.master.file == s0.master.file && |s.slaves| == |s0.slaves|
    && forall i :: 0 <= i < |s.slaves| ==> s.slaves[i].file == s0.slaves[i].file
  }

  ghost predicate NobodyWrote(acts: seq<Act>) {
    forall k :: 0 <= k < |acts| && (acts[k].SlaveSaved? || acts[k].MasterSaved?) ==> acts[k].result != Saved
  }

  lemma SameContentsIff(s: Cluster, s0: Cluster, t: nat)
    requires FilesFromHistory(s, s0) && AllOfRound(Since(s, s0), t, |s.slaves|)
    ensures SameContents(s, s0) <==> NobodyWrote(Since(s, s0))
  {
    var acts := Since(s, s0);
    SameFileIff(s0.master.file, acts, None, t, |s.slaves|);
    forall i | 0 <= i < |s.slaves| ensures s.slaves[i].file == s0.slaves[i].file <==> !Wrote(acts, Some(i)) {
      SameFileIff(s0.slaves[i].file, acts, Some(i), t, |s.slaves|);
    }
    forall k | 0 <= k < |acts| && SameContents(s, s0) && (acts[k].SlaveSaved? || acts[k].MasterSaved?)
      ensures acts[k].result != Saved
    {
      assert OfRound(acts[k], t, |s.slaves|);
      assert acts[k].result == Saved ==> IsSave(acts[k], if acts[k].MasterSaved? then None else Some(acts[k].slave));
    }
  }

  // ---------- whole rounds ----------

  /** In the round of a WRITE that began when s0 was quiet. */
  ghost predicate Within(s: Cluster, stage: Stage, s0: Cluster) {
    && Inv(s, stage) && WriteRound(s, stage, s.master.started)
    && FilesFromHistory(s, s0) && AllOfRound(Since(s, s0), s.master.started, |s.slaves|)
  }

  lemma WithinStep(s: Cluster, stage: Stage, s0: Cluster, step: Step, s': Cluster) returns (stage': Stage)
    requires Within(s, stage, s0) && OneAtATime(s, step) && !IsCommand(step) && s' == Do(s, step)
    ensures Within(s', stage', s0) && stage' == NextStage(s.master, stage, step)
    ensures s'.master.started == s.master.started
  {
    stage' := StepKeeps(s, stage, step);
    var acts := RoundStep(s, stage, step, s');
    StepFiles(s, s0, step, s');
    SinceGrows(s, s0, acts, s');
    DoKeepsShape(s, step);
  }

  /** A run that starts no further command. */
  ghost predicate Carries(s: Cluster, steps: seq<Step>) {
    && Shape(s) && IsSerialRun(s, steps) && IsRun(s, steps)
    && forall step :: step in steps ==> !IsCommand(step)
  }

  lemma CarriesRest(s: Cluster, steps: seq<Step>)
    requires Carries(s, steps) && steps != []
    ensures OneAtATime(s, steps[0]) && !IsCommand(steps[0]) && Carries(Do(s, steps[0]), steps[1..])
    ensures Final(Do(s, steps[0]), steps[1..]) == Final(s, steps)
  {
    DoKeepsShape(s, steps[0]);
    assert steps[0] in steps && forall step :: step in steps[1..] ==> step in steps;
  }

  lemma {:induction false} WithinRun(s: Cluster, stage: Stage, s0: Cluster, steps: seq<Step>) returns (stage': Stage)
    requires Within(s, stage, s0) && Carries(s, steps)
    ensures Within(Final(s, steps), stage', s0) && Final(s, steps).master.started == s.master.started
    ensures s.trace <= Final(s, steps).trace
    decreases |steps|
  {
    stage' := stage;
    if steps != [] {
      CarriesRest(s, steps);
      var stage1 := WithinStep(s, stage, s0, steps[0], Do(s, steps[0]));
      stage' := WithinRun(Do(s, steps[0]), stage1, s0, steps[1..]);
      TraceGrows(s, steps);
    }
  }

  /** The round can always be brought to its end. */
  lemma {:induction false} Drain(s: Cluster, stage: Stage, s0: Cluster) returns (steps: seq<Step>)
    requires Within(s, stage, s0)
    ensures Carries(s, steps) && Quiet(Final(s, steps))
    decreases Load(s)
  {
    steps := [];
    if step: Step :| !IsCommand(step) && Enabled(s, step) {
      var stage1 := WithinStep(s, stage, s0, step, Do(s, step));
      StepLoad(s, step);
      var rest := Drain(Do(s, step), stage1, s0);
      steps := [step] + rest;
      assert steps[1..] == rest;
    } else {
      StopsQuiet(s, stage);
    }
  }

  // ---------- no COMMIT is still to be stored ----------

  ghost predicate CommitUnderWay(out: seq<Line>) {
    exists k :: 0 <= k < |out| && out[k].Commit?
  }

  ghost predicate NoCommitLands(s: Cluster)
    requires Shape(s)
  {
    forall i :: 0 <= i < |s.slaves| && CommitUnderWay(s.master.out[i]) ==> S.Drops(s.slaves[i], s.debugLevel)
  }

  /** The failure is the next event, or has been answered. */
  ghost predicate Failing(m: M.Master, stage: Stage) {
    || (stage.InPhaseTwo? && m.queue != [] && m.queue[0].kind == EvCommitUnsuccess)
    || stage.InEnding?
  }

  ghost predicate Calmer(sl: S.Slave, sl': S.Slave) {
    sl'.state == sl.state || sl'.state == Idle
  }

  /** No COMMIT was added, and no slave began to wait for one. */
  lemma LandsKept(s: Cluster, s': Cluster)
    requires Shape(s) && Shape(s') && |s'.slaves| == |s.slaves| && s'.debugLevel == s.debugLevel && NoCommitLands(s)
    requires forall i :: 0 <= i < |s.slaves| ==> Calmer(s.slaves[i], s'.slaves[i])
    requires forall i :: 0 <= i < |s.slaves| && CommitUnderWay(s'.master.out[i]) ==> CommitUnderWay(s.master.out[i])
    ensures NoCommitLands(s')
  {
  }

  lemma CommitOrEnd(m: M.Master, replies: Net, past: set<Act>, stage: Stage, i: nat)
    requires Base(m, replies, past) && At(m, replies, past, stage) && Failing(m, stage)
    requires i < |replies| && m.out[i] != []
    ensures m.out[i][0].Commit? || m.out[i][0].End?
  {
  }

  lemma DeliverCalms(s: Cluster, i: nat, canOpen: bool, s': Cluster)
    requires Shape(s) && NoCommitLands(s) && i < |s.slaves| && s.master.out[i] != []
    requires s.master.out[i][0].Commit? || s.master.out[i][0].End?
    requires s' == Deliver(s, i, canOpen)
    ensures Shape(s') && NoCommitLands(s') && s'.trace == s.trace && s'.master == Taken(s.master, i)
  {
    var out := s.master.out[i];
    assert out[0].Commit? ==> CommitUnderWay(out);
    var e := S.Receive(s.slaves[i], HeardLine(out[0]), s.debugLevel, canOpen);
    assert Calmer(s.slaves[i], e.slave);
    forall j | 0 <= j < |s.slaves| && CommitUnderWay(s'.master.out[j]) ensures CommitUnderWay(s.master.out[j]) {
      if j == i {
        var k :| 0 <= k < |out[1..]| && out[1..][k].Commit?;
        assert out[k + 1].Commit?;
      }
    }
    LandsKept(s, s');
  }

  /** END is no COMMIT. */
  lemma SentNoCommit(out: seq<Line>, line: Line)
    requires !line.Commit? && CommitUnderWay(out + [line])
    ensures CommitUnderWay(out)
  {
    var k :| 0 <= k < |out + [line]| && (out + [line])[k].Commit?;
    assert out[k].Commit?;
  }

  lemma AnswersFailure(m: M.Master, u: nat, timedOut: bool, m': M.Master)
    requires m.Valid() && !m.hung && OnlyUser(m.users, u, UWaitingSave) && m.users[u].ticket == m.started
    requires QueueTwo(m, timedOut) && m.acts == []
    requires m.queue != [] && m.queue[0].kind == EvCommitUnsuccess && Concerns(m.queue[0], m.users[u].msgNumber)
    requires m' == M.CommitFailedAll(Dequeued(m), m.queue[0].number, m.queue[0].response)
    ensures m'.Valid() && |m'.peers| == |m.peers| && NobodyWrote(m'.acts)
    ensures forall i :: 0 <= i < |m.out| && CommitUnderWay(m'.out[i]) ==> CommitUnderWay(m.out[i])
  {
    FailureParts(m, u, timedOut, M.FailureAnswer(m.users[u], m.queue[0].response), m');
    forall i | 0 <= i < |m.out| && CommitUnderWay(m'.out[i]) ensures CommitUnderWay(m.out[i]) {
      SentNoCommit(m.out[i], End(false, m.queue[0].number));
    }
  }

  /** What every step of a failing round keeps. */
  ghost predicate StillFailing(s: Cluster, acts: seq<Act>, s': Cluster, stage': Stage) {
    && Shape(s') && Failing(s'.master, stage') && NoCommitLands(s')
    && s'.trace == s.trace + acts && NobodyWrote(acts)
  }

  lemma HandleFailing(s: Cluster, stage: Stage, m': M.Master, s': Cluster)
    requires Inv(s, stage) && stage.InPhaseTwo? && InFlight(s.master, stage, PlainWrite) && NoCommitLands(s)
    requires s.master.queue != [] && s.master.queue[0].kind == EvCommitUnsuccess
    requires m' == M.CommitFailedAll(Dequeued(s.master), s.master.queue[0].number, s.master.queue[0].response)
    requires s' == Absorb(s, m')
    ensures StillFailing(s, m'.acts, s', AfterEvent(s.master, stage, s.master.queue[0]))
  {
    var u := stage.user;
    FindsAuthor(s.master, s.replies, Past(s.trace), u);
    AnswersFailure(s.master, u, PhaseTwoTimeout(s.master.started) in Past(s.trace), m');
    LandsKept(s, s');
  }

  lemma HandleFailed(s: Cluster, stage: Stage, failing: set<nat>, m': M.Master, s': Cluster)
    requires Inv(s, stage) && stage.InEnding? && NoCommitLands(s)
    requires s.master.queue != [] && m' == M.Handle(s.master, failing) && s' == Absorb(s, m')
    ensures StillFailing(s, m'.acts, s', stage)
  {
    IdleHandle(s.master, s.replies, Past(s.trace), stage, failing);
    LandsKept(s, s');
  }

  /** Replies and timers: the failure stays at the head of the queue. */
  lemma FailingAside(s: Cluster, stage: Stage, step: Step, s': Cluster)
    requires Shape(s) && Failing(s.master, stage) && NoCommitLands(s) && Enabled(s, step) && s' == Do(s, step)
    requires step.ToMaster? || step.MasterTimer? || step.SlaveTimer? || step.SlaveTimeout?
    ensures StillFailing(s, [], s', stage)
  {
    if step.ToMaster? {
      var i := step.slave;
      ReceiveActs(s.master, i, HeardReply(s.replies[i][0]));
      ReceiveKeepsFiles(s.master, i, HeardReply(s.replies[i][0]));
      ReceiveQueue(s.master, i, HeardReply(s.replies[i][0]));
    }
    LandsKept(s, s');
  }

  lemma FailingDeliver(s: Cluster, stage: Stage, i: nat, canOpen: bool, s': Cluster)
    requires Inv(s, stage) && Failing(s.master, stage) && NoCommitLands(s) && i < |s.slaves| && s.master.out[i] != []
    requires s' == Deliver(s, i, canOpen)
    ensures StillFailing(s, [], s', stage)
  {
    CommitOrEnd(s.master, s.replies, Past(s.trace), stage, i);
    DeliverCalms(s, i, canOpen, s');
  }

  lemma FailingHandle(s: Cluster, stage: Stage, failing: set<nat>, m': M.Master, s': Cluster)
    requires Inv(s, stage) && InFlight(s.master, stage, PlainWrite) && Failing(s.master, stage) && NoCommitLands(s)
    requires s.master.queue != [] && m' == M.Handle(s.master, failing) && s' == Absorb(s, m')
    ensures StillFailing(s, m'.acts, s', AfterEvent(s.master, stage, s.master.queue[0]))
  {
    if stage.InEnding? {
      HandleFailed(s, stage, failing, m', s');
    } else {
      HandleIsCommit(s.master, failing);
      HandleFailing(s, stage, m', s');
    }
  }

  lemma FailingStep(s: Cluster, stage: Stage, step: Step, s': Cluster) returns (acts: seq<Act>)
    requires Inv(s, stage) && WriteRound(s, stage, s.master.started) && Failing(s.master, stage) && NoCommitLands(s)
    requires OneAtATime(s, step) && !IsCommand(step) && s' == Do(s, step)
    ensures StillFailing(s, acts, s', NextStage(s.master, stage, step))
  {
    acts := [];
    match step {
      case ToSlave(i, canOpen) => FailingDeliver(s, stage, i, canOpen, s');
      case HandleEvent(failing) =>
        acts := M.Handle(s.master, failing).acts;
        FailingHandle(s, stage, failing, M.Handle(s.master, failing), s');
      case _ => FailingAside(s, stage, step, s');
    }
  }

  lemma {:induction false} FailingRun(s: Cluster, stage: Stage, s0: Cluster, steps: seq<Step>)
    requires Within(s, stage, s0) && Failing(s.master, stage) && NoCommitLands(s) && NobodyWrote(Since(s, s0))
    requires Carries(s, steps)
    ensures s0.trace <= Final(s, steps).trace && NobodyWrote(Since(Final(s, steps), s0))
    decreases |steps|
  {
    if steps != [] {
      CarriesRest(s, steps);
      var s1 := Do(s, steps[0]);
      var acts := FailingStep(s, stage, steps[0], s1);
      var stage1 := WithinStep(s, stage, s0, steps[0], s1);
      SinceGrows(s, s0, acts, s1);
      FailingRun(s1, stage1, s0, steps[1..]);
    }
  }

  // ---------- exactly when nothing is written ----------

  /** No slave has stored successfully in this round, and none will store a COMMIT still under way. */
  ghost predicate Traceless(s: Cluster)
    requires Shape(s)
  {
    && (forall k :: 0 <= k < |s.trace| && s.trace[k].SlaveSaved? && s.trace[k].ticket == s.master.started ==>
          s.trace[k].result != Saved)
    && NoCommitLands(s)
  }

  ghost predicate Reachable(s: Cluster) {
    exists s0: Cluster, steps: seq<Step> ::
      Shape(s0) && Initial(s0) && IsSerialRun(s0, steps) && IsRun(s0, steps) && Final(s0, steps) == s
  }

  lemma ReachableInv(s: Cluster) returns (stage: Stage)
    requires Reachable(s)
    ensures Inv(s, stage)
  {
    var s0: Cluster, steps: seq<Step> :|
      Shape(s0) && Initial(s0) && IsSerialRun(s0, steps) && IsRun(s0, steps) && Final(s0, steps) == s;
    InitialInv(s0);
    stage := RunKeeps(s0, InAborting, steps);
  }

  /** The run from s0 ends with nothing under way and every file as it was in s0. */
  ghost predicate LeavesNoTrace(s: Cluster, steps: seq<Step>, s0: Cluster) {
    Carries(s, steps) && Quiet(Final(s, steps)) ==> SameContents(Final(s, steps), s0)
  }

  /** A store that was recorded stays recorded. */
  lemma SavedStays(s: Cluster, s0: Cluster, e: Cluster, k: nat)
    requires s0.trace <= s.trace <= e.trace && |s0.trace| <= k < |s.trace|
    requires s.trace[k].SlaveSaved? && s.trace[k].result == Saved
    ensures !NobodyWrote(Since(e, s0))
  {
    assert Since(e, s0)[k - |s0.trace|] == s.trace[k];
  }

  /** One store is enough: then no continuation takes it back. */
  lemma SavedLeavesTrace(s: Cluster, stage: Stage, s0: Cluster, k: nat) returns (steps: seq<Step>)
    requires Within(s, stage, s0) && |s0.trace| <= k < |s.trace|
    requires s.trace[k].SlaveSaved? && s.trace[k].result == Saved
    ensures !LeavesNoTrace(s, steps, s0)
  {
    steps := Drain(s, stage, s0);
    var e := Final(s, steps);
    var stage' := WithinRun(s, stage, s0, steps);
    SavedStays(s, s0, e, k);
    SameContentsIff(e, s0, s.master.started);
  }

  /** A COMMIT that is not dropped can still be stored. */
  lemma StoresOnArrival(s: Cluster, u: nat, i: nat, s1: Cluster)
    requires Inv(s, InPhaseTwo(u)) && WriteRound(s, InPhaseTwo(u), s.master.started)
    requires i < |s.slaves| && CommitUnderWay(s.master.out[i]) && !S.Drops(s.slaves[i], s.debugLevel)
    requires s1 == Deliver(s, i, true)
    ensures s.trace <= s1.trace && |s1.trace| == |s.trace| + 1
    ensures s1.trace[|s.trace|].SlaveSaved? && s1.trace[|s.trace|].result == Saved
  {
    CommitHead(s.master, s.replies, Past(s.trace), InPhaseTwo(u), i);
    DeliverStores(s, i, true, M.CommandOf(s.master.users[u]), s.master.started, s1);
  }

  lemma FirstThen(s: Cluster, step: Step, rest: seq<Step>, s0: Cluster)
    requires Shape(s) && OneAtATime(s, step) && !IsCommand(step) && !LeavesNoTrace(Do(s, step), rest, s0)
    ensures !LeavesNoTrace(s, [step] + rest, s0)
  {
    assert ([step] + rest)[1..] == rest;
  }

  lemma LandingLeavesTrace(s: Cluster, u: nat, s0: Cluster, i: nat) returns (steps: seq<Step>)
    requires Within(s, InPhaseTwo(u), s0) && i < |s.slaves| && CommitUnderWay(s.master.out[i])
    requires !S.Drops(s.slaves[i], s.debugLevel)
    ensures !LeavesNoTrace(s, steps, s0)
  {
    var step, s1 := ToSlave(i, true), Deliver(s, i, true);
    StoresOnArrival(s, u, i, s1);
    var stage1 := WithinStep(s, InPhaseTwo(u), s0, step, s1);
    var rest := SavedLeavesTrace(s1, stage1, s0, |s.trace|);
    FirstThen(s, step, rest, s0);
    steps := [step] + rest;
  }

  /** The state after the command is in the round it starts. */
  lemma RoundBegins(s0: Cluster, stage0: Stage, u: nat, text: string, s1: Cluster)
    requires Inv(s0, stage0) && OneAtATime(s0, SubmitWrite(u, text)) && s1 == Do(s0, SubmitWrite(u, text))
    ensures Within(s1, InPhaseOne(u), s0) && s1.master.started == s0.master.started + 1
  {
    var step := SubmitWrite(u, text);
    BeginsInFlight(s0, stage0, step, s1);
    RoundStarts(s0, step, s1);
    FilesBegin(s0, step, s1);
    WithinFrom(s0, s1, u, s0.master.started + 1, NewCommand(s0.master, step));
  }

  lemma WithinFrom(s0: Cluster, s1: Cluster, u: nat, t: nat, c: Command)
    requires Inv(s1, InPhaseOne(u)) && InFlight(s1.master, InPhaseOne(u), PlainWrite) && FilesFromHistory(s1, s0)
    requires s1.trace == s0.trace + [Started(t, c)] && s1.master.started == t
    ensures Within(s1, InPhaseOne(u), s0)
  {
    SinceGrows(s0, s0, [Started(t, c)], s1);
    assert Since(s0, s0) == [];
  }

  lemma BeginsInFlight(s0: Cluster, stage0: Stage, step: Step, s1: Cluster)
    requires Inv(s0, stage0) && OneAtATime(s0, step) && step.SubmitWrite? && s1 == Do(s0, step)
    ensures Inv(s1, InPhaseOne(step.user)) && InFlight(s1.master, InPhaseOne(step.user), PlainWrite)
  {
    var stage1 := StepKeeps(s0, stage0, step);
    QuietWaits(s0, stage0);
    KeptNumber(s0.master, step);
    InFlightStep(s0, stage0, step, PlainWrite);
  }

  lemma FilesBegin(s0: Cluster, step: Step, s1: Cluster)
    requires Shape(s0) && Enabled(s0, step) && s1 == Do(s0, step)
    ensures FilesFromHistory(s1, s0)
  {
    assert FilesFromHistory(s0, s0);
    StepFiles(s0, s0, step, s1);
  }

  lemma RoundStarts(s0: Cluster, step: Step, s1: Cluster)
    requires Shape(s0) && Enabled(s0, step) && step.SubmitWrite? && s1 == Do(s0, step)
    ensures s1.trace == s0.trace + [Started(s0.master.started + 1, NewCommand(s0.master, step))]
    ensures s1.master.started == s0.master.started + 1
  {
    var m := s0.master;
    BeginEffect(m.(counter := Allocate(m.counter)), step.user, NewCommand(m, step),
                M.SubmitWrite(m, step.user, step.text));
  }

  lemma WaitsInPhaseTwo(s: Cluster, stage: Stage, u: nat)
    requires Inv(s, stage) && !stage.InHanging? && u < |s.master.users| && s.master.users[u].state == UWaitingSave
    ensures stage == InPhaseTwo(u)
  {
  }

  lemma TracelessIff(s: Cluster, u: nat, s0: Cluster)
    requires Within(s, InPhaseTwo(u), s0) && s.master.queue != [] && s.master.queue[0].kind == EvCommitUnsuccess
    requires forall a :: a in s0.trace ==> a.ticket < s.master.started
    ensures (forall steps :: LeavesNoTrace(s, steps, s0)) <==> Traceless(s)
  {
    if Traceless(s) {
      NobodyYet(s, u, s0);
      forall steps ensures LeavesNoTrace(s, steps, s0) {
        if Carries(s, steps) && Quiet(Final(s, steps)) {
          var stage' := WithinRun(s, InPhaseTwo(u), s0, steps);
          FailingRun(s, InPhaseTwo(u), s0, steps);
          SameContentsIff(Final(s, steps), s0, s.master.started);
        }
      }
    } else if !NoCommitLands(s) {
      var i :| 0 <= i < |s.slaves| && CommitUnderWay(s.master.out[i]) && !S.Drops(s.slaves[i], s.debugLevel);
      var steps := LandingLeavesTrace(s, u, s0, i);
    } else {
      var k :| 0 <= k < |s.trace| && s.trace[k].SlaveSaved? && s.trace[k].ticket == s.master.started
               && s.trace[k].result == Saved;
      ComesLater(s.trace, s0.trace, k, s.master.started);
      var steps := SavedLeavesTrace(s, InPhaseTwo(u), s0, k);
    }
  }

  lemma ComesLater(trace: seq<Act>, before: seq<Act>, k: nat, t: nat)
    requires before <= trace && k < |trace| && trace[k].ticket == t && forall a :: a in before ==> a.ticket < t
    ensures |before| <= k
  {
    assert before == trace[..|before|];
  }

  /** Before the failure is answered only slaves can have stored. */
  lemma NobodyYet(s: Cluster, u: nat, s0: Cluster)
    requires Within(s, InPhaseTwo(u), s0) && Traceless(s)
    ensures NobodyWrote(Since(s, s0))
  {
    var acts := Since(s, s0);
    forall k | 0 <= k < |acts| && (acts[k].SlaveSaved? || acts[k].MasterSaved?) ensures acts[k].result != Saved {
      assert OfRound(acts[k], s.master.started, |s.slaves|);
      assert s.trace[|s0.trace| + k] == acts[k];
      InPast(s.trace, acts[k]);
    }
  }

  /** A WRITE started when nothing was under way, in any run with one command in flight, has come to the
      point where a failure is the next event and its author waits for the save. Every continuation
      leaves all files as they were before the round if and only if no slave has stored in the round and
      every COMMIT still on a connection is one its slave drops. */
  lemma FailureLeavesNoTraceIff(s0: Cluster, u: nat, text: string, mid: seq<Step>)
    requires Shape(s0) && Reachable(s0) && OneAtATime(s0, SubmitWrite(u, text))
    requires Carries(Do(s0, SubmitWrite(u, text)), mid)
    requires var m := Final(Do(s0, SubmitWrite(u, text)), mid).master;
             && m.queue != [] && m.queue[0].kind == EvCommitUnsuccess
             && u < |m.users| && m.users[u].state == UWaitingSave
    ensures var s := Final(Do(s0, SubmitWrite(u, text)), mid);
            (forall steps :: LeavesNoTrace(s, steps, s0)) <==> Traceless(s)
  {
    var s := Final(Do(s0, SubmitWrite(u, text)), mid);
    var stage0 := ReachableInv(s0);
    InRound(s0, stage0, u, text, mid, s);
    TracelessIff(s, u, s0);
  }

  // ---------- when only the master fails ----------

  lemma {:induction false} SameCommandRun(s: Cluster, stage: Stage, steps: seq<Step>, p: Command -> bool)
    returns (stage': Stage)
    requires Inv(s, stage) && Carries(s, steps) && InFlight(s.master, stage, p)
    ensures Inv(Final(s, steps), stage') && InFlight(Final(s, steps).master, stage', p)
    decreases |steps|
  {
    stage' := stage;
    if steps != [] {
      CarriesRest(s, steps);
      var stage1 := StepKeeps(s, stage, steps[0]);
      InFlightStep(s, stage, steps[0], p);
      stage' := SameCommandRun(Do(s, steps[0]), stage1, steps[1..], p);
    }
  }

  /** A file to which its node has applied exactly one store. */
  lemma {:induction false} OneStore(f: string, acts: seq<Act>, i: nat, j: nat)
    requires j < |acts| && acts[j].SlaveSaved? && acts[j].slave == i && acts[j].result == Saved
    requires forall k :: 0 <= k < |acts| && k != j ==> !(acts[k].SlaveSaved? && acts[k].slave == i)
    ensures Replay(f, acts, Some(i)) == Save(f, acts[j].command, true).file
    decreases |acts|
  {
    var front, a := acts[..|acts| - 1], acts[|acts| - 1];
    assert acts == front + [a];
    ReplayAppend(f, front, a, Some(i));
    if j == |acts| - 1 {
      assert [] + front == front;
      ReplayOther(f, [], front, i);
    } else {
      OneStore(f, front, i, j);
    }
  }

  /** When every success is counted, each slave has stored the command in this round, once. */
  lemma StoredFile(s: Cluster, u: nat, s0: Cluster, i: nat, c: Command)
    requires Within(s, InPhaseTwo(u), s0) && i < |s.slaves| && c == M.CommandOf(s.master.users[u]) && c.cmd == CmdWrite
    requires SlaveSaved(i, s.master.started, Heard(c), Saved) in Past(s.trace)
    requires forall a :: a in s0.trace ==> a.ticket < s.master.started
    ensures s.slaves[i].file == Appended(s0.slaves[i].file, Heard(c).body)
  {
    var t, acts := s.master.started, Since(s, s0);
    InPast(s.trace, SlaveSaved(i, t, Heard(c), Saved));
    var k :| 0 <= k < |s.trace| && s.trace[k] == SlaveSaved(i, t, Heard(c), Saved);
    ComesLater(s.trace, s0.trace, k, t);
    OnlyStore(s, s0, t, k);
    OneStore(s0.slaves[i].file, acts, i, k - |s0.trace|);
  }

  lemma OnlyStore(s: Cluster, s0: Cluster, t: nat, k: nat)
    requires Ok(|s.slaves|, s.trace) && s0.trace <= s.trace && |s0.trace| <= k < |s.trace|
    requires s.trace[k].SlaveSaved? && s.trace[k].ticket == t && AllOfRound(Since(s, s0), t, |s.slaves|)
    ensures var acts, j := Since(s, s0), k - |s0.trace|;
            && acts[j] == s.trace[k]
            && forall l :: 0 <= l < |acts| && l != j ==> !(acts[l].SlaveSaved? && acts[l].slave == acts[j].slave)
  {
    var acts, j := Since(s, s0), k - |s0.trace|;
    forall l | 0 <= l < |acts| && l != j ensures !(acts[l].SlaveSaved? && acts[l].slave == acts[j].slave) {
      assert OfRound(acts[l], t, |s.slaves|) && s.trace[|s0.trace| + l] == acts[l];
      if acts[l].SlaveSaved? {
        if l < j {
          SlaveStoresOnce(|s.slaves|, s.trace, |s0.trace| + l, k);
        } else {
          SlaveStoresOnce(|s.slaves|, s.trace, k, |s0.trace| + l);
        }
      }
    }
  }

  /** The master has stored nothing in this round yet. */
  lemma MasterUntouched(s: Cluster, u: nat, s0: Cluster)
    requires Within(s, InPhaseTwo(u), s0)
    ensures s.master.file == s0.master.file
  {
    var acts := Since(s, s0);
    forall k | 0 <= k < |acts| ensures !IsSave(acts[k], None) {
      assert OfRound(acts[k], s.master.started, |s.slaves|);
      assert s.trace[|s0.trace| + k] == acts[k];
      InPast(s.trace, acts[k]);
    }
    SameFileIff(s0.master.file, acts, None, s.master.started, |s.slaves|);
  }

  /** The message at every slave and not at the master. */
  ghost predicate OnlyAtSlaves(s: Cluster, s0: Cluster, c: Command) {
    && s.master.file == s0.master.file && |s.slaves| == |s0.slaves|
    && forall i :: 0 <= i < |s.slaves| ==> s.slaves[i].file == Appended(s0.slaves[i].file, Heard(c).body)
  }

  /** Every success is counted: all slaves have stored. */
  lemma AllHaveStored(s: Cluster, u: nat, s0: Cluster, c: Command)
    requires Within(s, InPhaseTwo(u), s0) && c == M.CommandOf(s.master.users[u]) && c.cmd == CmdWrite
    requires M.AllPeers(s.master.peers, MOperationPerformed)
    requires forall a :: a in s0.trace ==> a.ticket < s.master.started
    ensures OnlyAtSlaves(s, s0, c)
  {
    MasterUntouched(s, u, s0);
    AllPerformed(s.master, s.replies, Past(s.trace), u, Saved);
    forall i | 0 <= i < |s.slaves| ensures s.slaves[i].file == Appended(s0.slaves[i].file, Heard(c).body) {
      assert LinkTwo(s.master.out[i], s.replies[i], s.master.peers[i], i, s.master.started, c, Past(s.trace));
      StoredFile(s, u, s0, i, c);
    }
  }

  /** The success handler of a master that cannot open its file. */
  lemma MasterFails(m: M.Master, u: nat, failing: set<nat>, timedOut: bool, c: Command, m': M.Master)
    requires m.Valid() && !m.hung && OnlyUser(m.users, u, UWaitingSave) && m.users[u].ticket == m.started
    requires QueueTwo(m, timedOut) && m.acts == [] && m.started in failing
    requires m.queue != [] && m.queue[0].kind == EvCommitSuccess && Concerns(m.queue[0], m.users[u].msgNumber)
    requires m' == M.CommitSucceeded(Dequeued(m), m.queue[0].number, failing)
    requires c == M.CommandOf(m.users[u]) && c.cmd == CmdWrite
    ensures M.AllPeers(m.peers, MOperationPerformed) && m'.file == m.file
    ensures m'.acts == [MasterSaved(m.started, c, OpenFailed), Answered(m.started, c, ErrorWrite)]
    ensures m'.Valid() && m'.out == M.Sent(m.out, End(false, m.queue[0].number))
  {
    SuccessParts(m, u, failing, false, timedOut, OpenFailed, m');
  }

  /** END is all there is on the connections. */
  lemma OnlyEndLands(s: Cluster, line: Line, s1: Cluster)
    requires Shape(s) && Shape(s1) && |s1.slaves| == |s.slaves| && !line.Commit?
    requires forall i :: 0 <= i < |s.slaves| ==> s.master.out[i] == []
    requires s1.master.out == M.Sent(s.master.out, line)
    ensures NoCommitLands(s1)
  {
    forall i | 0 <= i < |s1.slaves| ensures !CommitUnderWay(s1.master.out[i]) {
      if CommitUnderWay(s1.master.out[i]) {
        SentNoCommit(s.master.out[i], line);
      }
    }
  }

  lemma MasterFailsHere(s: Cluster, u: nat, failing: set<nat>, c: Command, m': M.Master, s1: Cluster)
    requires Inv(s, InPhaseTwo(u)) && InFlight(s.master, InPhaseTwo(u), PlainWrite)
    requires c == M.CommandOf(s.master.users[u]) && s.master.started in failing
    requires s.master.queue != [] && s.master.queue[0].kind == EvCommitSuccess
    requires m' == M.CommitSucceeded(Dequeued(s.master), s.master.queue[0].number, failing) && s1 == Absorb(s, m')
    ensures M.AllPeers(s.master.peers, MOperationPerformed) && Shape(s1) && SameContents(s1, s)
    ensures s1.master.out == M.Sent(s.master.out, End(false, s.master.queue[0].number))
    ensures s1.trace == s.trace + [MasterSaved(s.master.started, c, OpenFailed),
                                   Answered(s.master.started, c, ErrorWrite)]
  {
    FindsAuthor(s.master, s.replies, Past(s.trace), u);
    MasterFails(s.master, u, failing, PhaseTwoTimeout(s.master.started) in Past(s.trace), c, m');
  }

  /** After the failure was answered no continuation changes a file. */
  lemma EndedStays(s1: Cluster, c: Command, rest: seq<Step>, e: Cluster)
    requires Inv(s1, InEnding(c)) && c.cmd == CmdWrite && NoCommitLands(s1) && Carries(s1, rest) && e == Final(s1, rest)
    ensures SameContents(e, s1) && s1.trace <= e.trace
  {
    assert Since(s1, s1) == [];
    assert Within(s1, InEnding(c), s1);
    FailingRun(s1, InEnding(c), s1, rest);
    var stage := WithinRun(s1, InEnding(c), s1, rest);
    SameContentsIff(e, s1, s1.master.started);
  }

  lemma NoLinesLeft(s: Cluster, u: nat)
    requires Inv(s, InPhaseTwo(u)) && M.AllPeers(s.master.peers, MOperationPerformed)
    ensures forall i :: 0 <= i < |s.slaves| ==> s.master.out[i] == []
  {
    AllPerformed(s.master, s.replies, Past(s.trace), u, Saved);
  }

  lemma MasterFailureStep(s: Cluster, u: nat, s0: Cluster, c: Command, failing: set<nat>, m': M.Master, s1: Cluster)
    requires Within(s, InPhaseTwo(u), s0) && c == M.CommandOf(s.master.users[u]) && s.master.started in failing
    requires forall a :: a in s0.trace ==> a.ticket < s.master.started
    requires s.master.queue != [] && s.master.queue[0].kind == EvCommitSuccess
    requires m' == M.CommitSucceeded(Dequeued(s.master), s.master.queue[0].number, failing) && s1 == Absorb(s, m')
    ensures Shape(s1) && OnlyAtSlaves(s1, s0, c) && NoCommitLands(s1)
    ensures Answered(s.master.started, c, ErrorWrite) in s1.trace
  {
    MasterFailsHere(s, u, failing, c, m', s1);
    NoLinesLeft(s, u);
    OnlyEndLands(s, End(false, s.master.queue[0].number), s1);
    AllHaveStored(s, u, s0, c);
    assert s1.trace[|s.trace| + 1] == Answered(s.master.started, c, ErrorWrite);
  }

  lemma InFlightSays(s: Cluster, stage: Stage, u: nat, c: Command)
    requires Inv(s, stage) && InFlight(s.master, stage, Is(c))
    requires u < |s.master.users| && s.master.users[u].state == UWaitingSave
    ensures M.CommandOf(s.master.users[u]) == c
  {
  }

  /** The command in flight is the one the round began with. */
  lemma CommandOfRound(s0: Cluster, stage0: Stage, step: Step, mid: seq<Step>, s: Cluster, u: nat)
    requires Inv(s0, stage0) && OneAtATime(s0, step) && step.SubmitWrite?
    requires Carries(Do(s0, step), mid) && s == Final(Do(s0, step), mid)
    requires u < |s.master.users| && s.master.users[u].state == UWaitingSave
    ensures M.CommandOf(s.master.users[u]) == NewCommand(s0.master, step)
  {
    var c := NewCommand(s0.master, step);
    QuietWaits(s0, stage0);
    InFlightStep(s0, stage0, step, Is(c));
    var stage1 := StepKeeps(s0, stage0, step);
    var stage := SameCommandRun(Do(s0, step), stage1, mid, Is(c));
    InFlightSays(s, stage, u, c);
  }

  /** The state reached is in phase two of the round that began in s0. */
  lemma InRound(s0: Cluster, stage0: Stage, u: nat, text: string, mid: seq<Step>, s: Cluster)
    requires Inv(s0, stage0) && OneAtATime(s0, SubmitWrite(u, text))
    requires Carries(Do(s0, SubmitWrite(u, text)), mid) && s == Final(Do(s0, SubmitWrite(u, text)), mid)
    requires u < |s.master.users| && s.master.users[u].state == UWaitingSave
    ensures Within(s, InPhaseTwo(u), s0)
    ensures forall a :: a in s0.trace ==> a.ticket < s.master.started
  {
    var s1 := Do(s0, SubmitWrite(u, text));
    RoundBegins(s0, stage0, u, text, s1);
    var stage := WithinRun(s1, InPhaseOne(u), s0, mid);
    WaitsInPhaseTwo(s, stage, u);
    forall a | a in s0.trace ensures a.ticket < s.master.started {
      InPast(s0.trace, a);
    }
  }

  lemma StaysAtSlaves(s1: Cluster, s0: Cluster, e: Cluster, c: Command)
    requires OnlyAtSlaves(s1, s0, c) && SameContents(e, s1)
    ensures OnlyAtSlaves(e, s0, c)
  {
  }

  lemma RoundOfStep(s0: Cluster, step: Step, mid: seq<Step>, s: Cluster)
    requires Shape(s0) && Reachable(s0) && step.SubmitWrite? && OneAtATime(s0, step)
    requires Carries(Do(s0, step), mid) && s == Final(Do(s0, step), mid)
    requires step.user < |s.master.users| && s.master.users[step.user].state == UWaitingSave
    ensures Within(s, InPhaseTwo(step.user), s0)
    ensures M.CommandOf(s.master.users[step.user]) == NewCommand(s0.master, step)
    ensures forall a :: a in s0.trace ==> a.ticket < s.master.started
  {
    var stage0 := ReachableInv(s0);
    assert step == SubmitWrite(step.user, step.text);
    InRound(s0, stage0, step.user, step.text, mid, s);
    CommandOfRound(s0, stage0, step, mid, s, step.user);
  }

  lemma EntersEnding(s: Cluster, u: nat, c: Command, failing: set<nat>, s1: Cluster)
    requires Inv(s, InPhaseTwo(u)) && InFlight(s.master, InPhaseTwo(u), PlainWrite)
    requires Enabled(s, HandleEvent(failing)) && s1 == Do(s, HandleEvent(failing))
    requires c == M.CommandOf(s.master.users[u]) && s.master.queue[0].kind == EvCommitSuccess
    ensures Inv(s1, InEnding(c))
  {
    FindsAuthor(s.master, s.replies, Past(s.trace), u);
    var stage1 := StepKeeps(s, InPhaseTwo(u), HandleEvent(failing));
  }

  lemma AfterMasterFails(s: Cluster, u: nat, s0: Cluster, c: Command, failing: set<nat>, s1: Cluster, rest: seq<Step>,
                         e: Cluster)
    requires Within(s, InPhaseTwo(u), s0) && c == M.CommandOf(s.master.users[u]) && s.master.started in failing
    requires forall a :: a in s0.trace ==> a.ticket < s.master.started
    requires Enabled(s, HandleEvent(failing)) && s1 == Do(s, HandleEvent(failing))
    requires s.master.queue[0].kind == EvCommitSuccess && Carries(s1, rest) && e == Final(s1, rest)
    ensures OnlyAtSlaves(e, s0, c) && Answered(s.master.started, c, ErrorWrite) in e.trace
  {
    EntersEnding(s, u, c, failing, s1);
    MasterFailureStep(s, u, s0, c, failing, M.Handle(s.master, failing), s1);
    EndedStays(s1, c, rest, e);
    StaysAtSlaves(s1, s0, e, c);
  }

  /** The other way to fail: the success of a WRITE is the next event, and the master cannot open its file.
      Then, for any number of slaves and in every continuation, at every point, the author has been told
      ERROR WRITE, the master's file is as it was before the round, and every slave holds the message. */
  lemma MasterFailureAlwaysLeavesTrace(s0: Cluster, step: Step, mid: seq<Step>, s: Cluster, failing: set<nat>,
                                       s1: Cluster, rest: seq<Step>, e: Cluster)
    requires Shape(s0) && Reachable(s0) && step.SubmitWrite? && OneAtATime(s0, step)
    requires Carries(Do(s0, step), mid) && s == Final(Do(s0, step), mid)
    requires step.user < |s.master.users| && s.master.users[step.user].state == UWaitingSave
    requires Enabled(s, HandleEvent(failing)) && s1 == Do(s, HandleEvent(failing))
    requires s.master.queue[0].kind == EvCommitSuccess && s.master.started in failing
    requires Carries(s1, rest) && e == Final(s1, rest)
    ensures OnlyAtSlaves(e, s0, NewCommand(s0.master, step))
    ensures Answered(s.master.started, NewCommand(s0.master, step), ErrorWrite) in e.trace
  {
    var c := NewCommand(s0.master, step);
    RoundOfStep(s0, step, mid, s);
    AfterMasterFails(s, step.user, s0, c, failing, s1, rest, e);
  }
}
