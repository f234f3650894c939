/**
 Message numbers in runs with one command in flight: committed numbers strictly increase, and a node
 that applies a COMMIT WRITE continues counting from its number.
 */
module Counters {
  import opened Wrappers
  import opened Text
  import opened Store
  import opened Numbers
  import opened Protocol
  import opened History
  import opened Cluster
  import opened Serial
  import opened SerialSteps
  import opened SerialRuns
  import M = Master
  import S = Slave

  // ---------- committed numbers ----------

  function Num(c: Command): int {
    match Stoi(NumberOf(c.body))
    case None => 0
    case Some(n) => n
  }

  predicate HasNumber(c: Command) {
    HasSlash(c.body) && Stoi(NumberOf(c.body)) == Some(Num(c)) && 0 < Num(c) < INT_MAX
  }

  predicate CommitsWrite(a: Act) {
    a.CommitSent? && a.command.cmd == CmdWrite
  }

  /** The numbers of the WRITE commands committed so far, in order. */
  function Nums(trace: seq<Act>): seq<int> {
    if trace == [] then []
    else
      var front, a := trace[..|trace| - 1], trace[|trace| - 1];
      if CommitsWrite(a) then Nums(front) + [Num(a.command)] else Nums(front)
  }

  /** The ticket of the last of them. */
  function LastTicket(trace: seq<Act>): nat {
    if trace == [] then 0
    else
      var a := trace[|trace| - 1];
      if CommitsWrite(a) then a.ticket else LastTicket(trace[..|trace| - 1])
  }

  /** The last committed number, or the bound the run started with. */
  function Top(trace: seq<Act>, low: int): int {
    var ns := Nums(trace);
    if ns == [] then low else ns[|ns| - 1]
  }

  ghost predicate IncreasingFrom(low: int, ns: seq<int>) {
    (forall k :: 0 <= k < |ns| ==> low < ns[k]) && forall j, k :: 0 <= j < k < |ns| ==> ns[j] < ns[k]
  }

  lemma {:induction false} NumsAppend(trace: seq<Act>, acts: seq<Act>)
    requires forall a: Act :: a in acts ==> !CommitsWrite(a)
    ensures Nums(trace + acts) == Nums(trace) && LastTicket(trace + acts) == LastTicket(trace)
  {
    if acts == [] {
      assert trace + acts == trace;
    } else {
      var front := acts[..|acts| - 1];
      assert (trace + acts)[..|trace + acts| - 1] == trace + front;
      assert forall a :: a in front ==> a in acts;
      assert acts[|acts| - 1] in acts;
      NumsAppend(trace, front);
    }
  }

  lemma NumsCommit(trace: seq<Act>, t: nat, c: Command)
    requires c.cmd == CmdWrite
    ensures Nums(trace + [CommitSent(t, c)]) == Nums(trace) + [Num(c)]
    ensures LastTicket(trace + [CommitSent(t, c)]) == t
  {
  }

  /** A WRITE command carries the number its master allocated. */
  lemma WriteNumber(n: nat, u: M.User, text: string)
    requires 0 < n < INT_MAX
    ensures var c := Command(CmdWrite, M.MessageOf(PrintInt(n), u, text));
            HasNumber(c) && Num(c) == n
  {
    PrintNatHasNo(n, '/');
    NumberOfPrefix(PrintInt(n), M.UserName(u) + "/" + text);
    assert M.MessageOf(PrintInt(n), u, text) == PrintInt(n) + "/" + (M.UserName(u) + "/" + text);
    StoiPrintNat(n);
  }

  // ---------- the invariant ----------

  /** c is the last committed WRITE and its number is where the master counts. */
  ghost predicate IsTop(s: Cluster, low: int, c: Command) {
    && Nums(s.trace) != [] && Num(c) == Top(s.trace, low) == s.master.counter
    && LastTicket(s.trace) == s.master.started
    && HasNumber(c)
  }

  ghost predicate CommandCounts(s: Cluster, low: int, stage: Stage) {
    match stage
    case InPhaseOne(u) =>
      && u < |s.master.users| && LastTicket(s.trace) < s.master.started
      && (s.master.users[u].cmd == CmdWrite ==>
            var c := M.CommandOf(s.master.users[u]);
            HasNumber(c) && Num(c) == s.master.counter > Top(s.trace, low))
    case InAborting => Nums(s.trace) == [] || LastTicket(s.trace) < s.master.started
    case InPhaseTwo(u) => u < |s.master.users| && LastCommand(s, low, M.CommandOf(s.master.users[u]))
    case InHanging(u) => u < |s.master.users| && LastCommand(s, low, M.CommandOf(s.master.users[u]))
    case InEnding(c) => LastCommand(s, low, c)
  }

  /** c is the last command that was committed. */
  ghost predicate LastCommand(s: Cluster, low: int, c: Command) {
    && (c.cmd == CmdWrite ==> IsTop(s, low, c))
    && (c.cmd == CmdReplace ==> LastTicket(s.trace) < s.master.started)
  }

  /** What a slave counts from: the bound while no WRITE was committed, the last committed number once
      it has applied it. */
  ghost predicate SlaveCounts(s: Cluster, low: int, i: nat)
    requires i < |s.slaves|
  {
    && (Nums(s.trace) == [] ==> s.slaves[i].counter >= low)
    && (Nums(s.trace) != [] && TriedBy(Past(s.trace), i, LastTicket(s.trace)) ==>
          s.slaves[i].counter == Top(s.trace, low))
  }

  ghost predicate Counts(s: Cluster, low: int, stage: Stage) {
    && IncreasingFrom(low, Nums(s.trace))
    && 0 <= low <= Top(s.trace, low) <= s.master.counter
    && LastTicket(s.trace) <= s.master.started
    && CommandCounts(s, low, stage)
    && forall i :: 0 <= i < |s.slaves| ==> SlaveCounts(s, low, i)
  }

  // ---------- steps ----------

  /** A step that commits no WRITE and lets no slave store keeps every number. */
  lemma SameCounts(s: Cluster, s': Cluster, low: int, acts: seq<Act>)
    requires |s'.slaves| == |s.slaves| && s'.trace == s.trace + acts
    requires forall a :: a in acts ==> !CommitsWrite(a) && !a.SlaveSaved?
    requires forall i :: 0 <= i < |s.slaves| ==> s'.slaves[i].counter == s.slaves[i].counter
    requires forall i :: 0 <= i < |s.slaves| ==> SlaveCounts(s, low, i)
    ensures Nums(s'.trace) == Nums(s.trace) && LastTicket(s'.trace) == LastTicket(s.trace)
    ensures forall i :: 0 <= i < |s.slaves| ==> SlaveCounts(s', low, i)
  {
    NumsAppend(s.trace, acts);
    forall i | 0 <= i < |s.slaves| ensures SlaveCounts(s', low, i) {
      assert SlaveCounts(s, low, i);
      SameTries(s.trace, acts, i, LastTicket(s.trace));
    }
  }

  lemma SameTries(trace: seq<Act>, acts: seq<Act>, i: nat, t: nat)
    requires forall a: Act :: a in acts ==> !(a.SlaveSaved? && a.slave == i && a.ticket == t)
    ensures TriedBy(Past(trace + acts), i, t) <==> TriedBy(Past(trace), i, t)
  {
    forall a: Act | a.SlaveSaved? && a.slave == i && a.ticket == t
      ensures a in Past(trace + acts) <==> a in Past(trace)
    {
      InPast(trace + acts, a);
      InPast(trace, a);
    }
  }

  /** A WRITE takes the next number, which is above every committed one. */
  lemma CountsSubmitWrite(s: Cluster, low: int, stage: Stage, u: nat, text: string, m1: M.Master, c: Command,
      s': Cluster)
    requires Shape(s) && Counts(s, low, stage) && u < |s.master.users| && s.master.counter + 1 < INT_MAX
    requires m1 == s.master.(counter := Allocate(s.master.counter))
    requires c == Command(CmdWrite, M.MessageOf(PrintInt(m1.counter), s.master.users[u], text))
    requires s' == Absorb(s, M.Broadcast(M.InitConnection(M.SaveClientCmd(m1, u, c)), Precommit, MPrecommitMulticasted))
    ensures s'.master.counter <= s.master.counter + 1
    ensures Counts(s', low, InPhaseOne(u))
  {
    var m' := M.Broadcast(M.InitConnection(M.SaveClientCmd(m1, u, c)), Precommit, MPrecommitMulticasted);
    BeginEffect(m1, u, c, m');
    WriteNumber(m1.counter, s.master.users[u], text);
    SameCounts(s, s', low, m'.acts);
    assert M.CommandOf(s'.master.users[u]) == c;
  }

  lemma CountsSubmitReplace(s: Cluster, low: int, stage: Stage, u: nat, c: Command, s': Cluster)
    requires Shape(s) && Counts(s, low, stage) && u < |s.master.users| && c.cmd == CmdReplace
    requires s' == Absorb(s, M.Broadcast(M.InitConnection(M.SaveClientCmd(s.master, u, c)), Precommit,
            MPrecommitMulticasted))
    ensures s'.master.counter == s.master.counter
    ensures Counts(s', low, InPhaseOne(u))
  {
    var m' := M.Broadcast(M.InitConnection(M.SaveClientCmd(s.master, u, c)), Precommit, MPrecommitMulticasted);
    BeginEffect(s.master, u, c, m');
    SameCounts(s, s', low, m'.acts);
  }

  /** COMMIT goes out: the number of a WRITE becomes the last committed one. */
  lemma CountsCommit(s: Cluster, low: int, u: nat, c: Command, s': Cluster)
    requires Counts(s, low, InPhaseOne(u)) && |s'.slaves| == |s.slaves|
    requires u < |s'.master.users| && M.CommandOf(s'.master.users[u]) == c == M.CommandOf(s.master.users[u])
    requires s'.master.counter == s.master.counter && s'.master.started == s.master.started
    requires s'.trace == s.trace + [CommitSent(s.master.started, c)]
    requires forall i :: 0 <= i < |s.slaves| ==> s'.slaves[i].counter == s.slaves[i].counter
    requires forall i :: 0 <= i < |s.slaves| ==> !TriedBy(Past(s.trace), i, s.master.started)
    ensures Counts(s', low, InPhaseTwo(u))
  {
    if c.cmd == CmdWrite {
      NumsCommit(s.trace, s.master.started, c);
      forall i | 0 <= i < |s.slaves| ensures SlaveCounts(s', low, i) {
        SameTries(s.trace, [CommitSent(s.master.started, c)], i, s.master.started);
      }
    } else {
      SameCounts(s, s', low, [CommitSent(s.master.started, c)]);
    }
  }

  lemma CountsAck(s: Cluster, low: int, u: nat, m': M.Master, s': Cluster)
    requires Now(s, InPhaseOne(u)) && Counts(s, low, InPhaseOne(u)) && s.master.queue != []
    requires m' == M.PrecommitAcked(Dequeued(s.master)) && s' == Absorb(s, m')
    ensures s'.master.counter == s.master.counter
    ensures Counts(s', low, InPhaseTwo(u))
  {
    var m, c := s.master, M.CommandOf(s.master.users[u]);
    AckOnly(Dequeued(m), u);
    CommitUserEffect(Dequeued(m), u, m');
    assert m'.acts == [CommitSent(m.started, c)];
    NoTriesYet(m, s.replies, Past(s.trace), u);
    CountsCommit(s, low, u, c, s');
  }

  lemma NoTriesYet(m: M.Master, replies: Net, past: set<Act>, u: nat)
    requires Base(m, replies, past) && PhaseOne(m, replies, past, u)
    ensures forall i: nat :: !TriedBy(past, i, m.started)
  {
  }

  /** A slave applies a COMMIT. */
  lemma CountsStore(s: Cluster, low: int, stage: Stage, i: nat, canOpen: bool, c: Command, s': Cluster)
    requires Shape(s) && Counts(s, low, stage) && i < |s.slaves| && s.master.out[i] != []
    requires s.master.out[i][0] == Commit(c, s.master.started) && !S.Drops(s.slaves[i], s.debugLevel)
    requires s' == Deliver(s, i, canOpen) && Commits(s.master, stage, c)
    ensures s'.master.counter == s.master.counter
    ensures Counts(s', low, stage)
  {
    var a := SlaveSaved(i, s.master.started, Heard(c), Save(s.slaves[i].file, Heard(c), canOpen).result);
    assert s'.trace == s.trace + [a];
    NumsAppend(s.trace, [a]);
    forall j | 0 <= j < |s.slaves| ensures SlaveCounts(s', low, j) {
      if j == i {
        CountsOfStore(s, low, i, c, a, s');
      } else {
        CountsOfOther(s, low, j, a, s');
      }
    }
  }

  /** The slave that stores: a WRITE sets its counter to the last committed number, a REPLACE leaves it. */
  lemma CountsOfStore(s: Cluster, low: int, i: nat, c: Command, a: Act, s': Cluster)
    requires i < |s.slaves| == |s'.slaves| && SlaveCounts(s, low, i) && LastCommand(s, low, c)
    requires a.SlaveSaved? && a.slave == i && a.ticket == s.master.started && s'.trace == s.trace + [a]
    requires s'.slaves[i].counter == if c.cmd == CmdWrite then Updated(s.slaves[i].counter, NumberOf(Heard(c).body))
                                     else s.slaves[i].counter
    ensures SlaveCounts(s', low, i)
  {
    NumsAppend(s.trace, [a]);
    if c.cmd == CmdWrite {
      UpdatedTo(s.slaves[i].counter, c);
    } else {
      SameTries(s.trace, [a], i, LastTicket(s.trace));
    }
  }

  lemma CountsOfOther(s: Cluster, low: int, j: nat, a: Act, s': Cluster)
    requires j < |s.slaves| == |s'.slaves| && SlaveCounts(s, low, j)
    requires a.SlaveSaved? && a.slave != j && s'.trace == s.trace + [a] && s'.slaves[j].counter == s.slaves[j].counter
    ensures SlaveCounts(s', low, j)
  {
    NumsAppend(s.trace, [a]);
    SameTries(s.trace, [a], j, LastTicket(s.trace));
  }

  lemma UpdatedTo(counter: int, c: Command)
    requires HasNumber(c)
    ensures Updated(counter, NumberOf(Heard(c).body)) == Num(c)
  {
    ChoppedNumber(c.body);
  }

  /** Any other step: no COMMIT goes out and no slave stores. */
  lemma QuietCounts(s: Cluster, s': Cluster, low: int, stage: Stage, stage': Stage, acts: seq<Act>)
    requires Counts(s, low, stage) && |s'.slaves| == |s.slaves| && s'.trace == s.trace + acts
    requires forall a: Act :: a in acts ==> !CommitsWrite(a) && !a.SlaveSaved?
    requires forall i :: 0 <= i < |s.slaves| ==> s'.slaves[i].counter == s.slaves[i].counter
    requires s'.master.counter == s.master.counter && s'.master.started == s.master.started
    requires || (stage' == stage && s'.master.users == s.master.users)
             || (stage.InPhaseOne? && stage' == InAborting)
             || (stage.InPhaseTwo? && stage' == InEnding(M.CommandOf(s.master.users[stage.user])))
             || (stage.InPhaseTwo? && stage' == InHanging(stage.user) && s'.master.users == s.master.users)
    ensures Counts(s', low, stage')
  {
    SameCounts(s, s', low, acts);
  }

  lemma CountsToSlave(s: Cluster, low: int, stage: Stage, i: nat, canOpen: bool, s': Cluster)
    requires Now(s, stage) && Counts(s, low, stage) && i < |s.slaves| && s.master.out[i] != []
    requires s' == Deliver(s, i, canOpen)
    ensures s'.master.counter == s.master.counter
    ensures Counts(s', low, stage)
  {
    var line := s.master.out[i][0];
    CommitLine(s.master, s.replies, Past(s.trace), stage, i);
    if line.Commit? && !S.Drops(s.slaves[i], s.debugLevel) {
      CountsStore(s, low, stage, i, canOpen, line.command, s');
    } else {
      CountsNoStore(s, low, stage, i, canOpen, s');
    }
  }

  lemma CountsNoStore(s: Cluster, low: int, stage: Stage, i: nat, canOpen: bool, s': Cluster)
    requires Shape(s) && Counts(s, low, stage) && i < |s.slaves| && s.master.out[i] != []
    requires !(s.master.out[i][0].Commit? && !S.Drops(s.slaves[i], s.debugLevel))
    requires s' == Deliver(s, i, canOpen)
    ensures s'.master.counter == s.master.counter
    ensures Counts(s', low, stage)
  {
    var line := HeardLine(s.master.out[i][0]);
    var acts := ActsOf(i, s.master.started, line, S.Receive(s.slaves[i], line, s.debugLevel, canOpen));
    QuietCounts(s, s', low, stage, stage, acts);
  }

  /** What a handler other than the first commit of a round does to counter, users and history. */
  ghost predicate Unnumbered(m: M.Master, m': M.Master) {
    && m'.counter == m.counter && m'.started == m.started
    && forall a: Act :: a in m'.acts ==> !CommitsWrite(a) && !a.SlaveSaved?
  }

  lemma SuccessEffects(m: M.Master, u: nat, failing: set<nat>, m': M.Master)
    requires m.Valid() && OnlyUser(m.users, u, UWaitingSave) && m.queue != [] && m.acts == []
    requires m.queue[0].number == m.users[u].msgNumber
    requires m' == M.CommitSucceeded(Dequeued(m), m.queue[0].number, failing)
    ensures Unnumbered(m, m')
  {
    FinishOnly(Dequeued(m), u, m.queue[0].number, failing);
    FinishUserEffect(Dequeued(m), u, m.queue[0].number, failing, m');
  }

  lemma FailureEffects(m: M.Master, u: nat, m': M.Master)
    requires m.Valid() && OnlyUser(m.users, u, UWaitingSave) && m.queue != [] && m.acts == []
    requires m.queue[0].number == "" || m.queue[0].number == m.users[u].msgNumber
    requires m' == M.CommitFailedAll(Dequeued(m), m.queue[0].number, m.queue[0].response)
    ensures Unnumbered(m, m')
  {
    FailOnly(Dequeued(m), u, m.queue[0].number, m.queue[0].response);
    FailUserEffect(Dequeued(m), u, m.queue[0].number, m.queue[0].response, m');
  }

  lemma AnswerEffects(m: M.Master, u: nat, failing: set<nat>, m': M.Master)
    requires m.Valid() && OnlyUser(m.users, u, UWaitingSave) && m.queue != [] && m.acts == []
    requires m.queue[0].kind == EvCommitSuccess || m.queue[0].kind == EvCommitUnsuccess
    requires m' == M.Handle(m, failing)
    ensures Unnumbered(m, m') && (!Concerns(m.queue[0], m.users[u].msgNumber) ==> m'.users == m.users)
  {
    if !Concerns(m.queue[0], m.users[u].msgNumber) {
      HangEffect(m, u, failing, m');
    } else if m.queue[0].kind == EvCommitSuccess {
      SuccessEffects(m, u, failing, m');
    } else {
      FailureEffects(m, u, m');
    }
  }

  lemma TimeoutEffects(m: M.Master, failing: set<nat>, m': M.Master)
    requires m.queue != [] && m.acts == [] && m.queue[0].kind == EvMasterTimeout && m' == M.Handle(m, failing)
    ensures Unnumbered(m, m') && m'.users == m.users
  {
  }

  lemma EventEffectsOne(m: M.Master, replies: Net, past: set<Act>, u: nat, failing: set<nat>, m': M.Master)
    requires Base(m, replies, past) && PhaseOne(m, replies, past, u) && m.queue != [] && m.acts == []
    requires m.queue[0].kind != EvPrecommitAck && m' == M.Handle(m, failing)
    ensures Unnumbered(m, m')
    ensures m.queue[0].kind != EvPrecommitErr ==> m'.users == m.users
  {
    KindsOne(m);
    if m.queue[0].kind == EvPrecommitErr {
      RejectEffect(Dequeued(m), u, m');
    } else {
      TimeoutEffects(m, failing, m');
    }
  }

  lemma EventEffectsTwo(m: M.Master, replies: Net, past: set<Act>, u: nat, failing: set<nat>, m': M.Master)
    requires Base(m, replies, past) && PhaseTwo(m, replies, past, u) && m.queue != [] && m.acts == []
    requires m' == M.Handle(m, failing)
    ensures Unnumbered(m, m')
    ensures m.queue[0].kind == EvMasterTimeout || !Concerns(m.queue[0], m.users[u].msgNumber) ==> m'.users == m.users
  {
    KindsTwo(m, PhaseTwoTimeout(m.started) in past);
    if m.queue[0].kind == EvMasterTimeout {
      TimeoutEffects(m, failing, m');
    } else {
      AnswerEffects(m, u, failing, m');
    }
  }

  lemma CountsHandle(s: Cluster, low: int, stage: Stage, failing: set<nat>, m': M.Master, s': Cluster)
    requires Now(s, stage) && !s.master.hung && Counts(s, low, stage) && s.master.queue != []
    requires m' == M.Handle(s.master, failing) && s' == Absorb(s, m')
    ensures s'.master.counter == s.master.counter
    ensures Counts(s', low, AfterEvent(s.master, stage, s.master.queue[0]))
  {
    var m, past, ev := s.master, Past(s.trace), s.master.queue[0];
    if stage.InPhaseOne? && ev.kind == EvPrecommitAck {
      CountsAck(s, low, stage.user, m', s');
    } else {
      match stage {
        case InPhaseOne(u) => EventEffectsOne(m, s.replies, past, u, failing, m');
        case InPhaseTwo(u) => EventEffectsTwo(m, s.replies, past, u, failing, m');
        case InAborting => IdleHandle(m, s.replies, past, stage, failing);
        case InEnding(_) => IdleHandle(m, s.replies, past, stage, failing);
        case InHanging(_) =>
      }
      QuietCounts(s, s', low, stage, AfterEvent(m, stage, ev), m'.acts);
    }
  }

  lemma CountsToMaster(s: Cluster, low: int, stage: Stage, i: nat, m': M.Master, s': Cluster)
    requires Shape(s) && Counts(s, low, stage) && i < |s.slaves| && s.replies[i] != []
    requires m' == M.Receive(s.master, i, HeardReply(s.replies[i][0])) && s' == Absorb(DropReply(s, i), m')
    ensures s'.master.counter == s.master.counter
    ensures Counts(s', low, stage)
  {
    ReceiveActs(s.master, i, HeardReply(s.replies[i][0]));
    ReceiveKeepsFiles(s.master, i, HeardReply(s.replies[i][0]));
    assert m'.counter == s.master.counter;
    QuietCounts(s, s', low, stage, stage, []);
  }

  /** How many WRITE commands the steps contain: nothing else allocates a number. */
  function Writes(steps: seq<Step>): nat {
    if steps == [] then 0 else (if steps[0].SubmitWrite? then 1 else 0) + Writes(steps[1..])
  }

  lemma CountsCommand(s: Cluster, low: int, stage: Stage, step: Step, s': Cluster)
    requires Shape(s) && Enabled(s, step) && IsCommand(step) && s' == Do(s, step)
    requires Counts(s, low, stage) && (step.SubmitWrite? ==> s.master.counter + 1 < INT_MAX)
    ensures s'.master.counter <= s.master.counter + if step.SubmitWrite? then 1 else 0
    ensures Counts(s', low, InPhaseOne(step.user))
  {
    var m := s.master;
    match step {
      case SubmitWrite(u, text) =>
        CountsSubmitWrite(s, low, stage, u, text, m.(counter := Allocate(m.counter)), NewCommand(m, step), s');
      case SubmitReplace(u, number, text) =>
        CountsSubmitReplace(s, low, stage, u, NewCommand(m, step), s');
    }
  }

  lemma CountsOther(s: Cluster, low: int, stage: Stage, step: Step, s': Cluster)
    requires Now(s, stage) && Enabled(s, step) && !IsCommand(step) && !step.HandleEvent? && s' == Do(s, step)
    requires Counts(s, low, stage)
    ensures s'.master.counter == s.master.counter && Counts(s', low, stage)
  {
    match step {
      case ToSlave(i, canOpen) => CountsToSlave(s, low, stage, i, canOpen, s');
      case ToMaster(i) =>
        CountsToMaster(s, low, stage, i, M.Receive(s.master, i, HeardReply(s.replies[i][0])), s');
      case _ => CountsTimer(s, low, stage, step, s');
    }
  }

  lemma CountsTimer(s: Cluster, low: int, stage: Stage, step: Step, s': Cluster)
    requires Shape(s) && Enabled(s, step) && (step.MasterTimer? || step.SlaveTimer? || step.SlaveTimeout?)
    requires s' == Do(s, step) && Counts(s, low, stage)
    ensures s'.master.counter == s.master.counter && Counts(s', low, stage)
  {
    assert s'.trace == s.trace + [];
    QuietCounts(s, s', low, stage, stage, []);
  }

  lemma CountsStep(s: Cluster, low: int, stage: Stage, step: Step, s': Cluster)
    requires Now(s, stage) && OneAtATime(s, step) && s' == Do(s, step)
    requires Counts(s, low, stage) && (step.SubmitWrite? ==> s.master.counter + 1 < INT_MAX)
    ensures s'.master.counter <= s.master.counter + if step.SubmitWrite? then 1 else 0
    ensures Counts(s', low, NextStage(s.master, stage, step))
  {
    if IsCommand(step) {
      CountsCommand(s, low, stage, step, s');
    } else if step.HandleEvent? {
      CountsHandle(s, low, stage, step.failing, M.Handle(s.master, step.failing), s');
    } else {
      CountsOther(s, low, stage, step, s');
    }
  }

  lemma {:induction false} CountsRun(s: Cluster, low: int, stage: Stage, steps: seq<Step>) returns (stage': Stage)
    requires Inv(s, stage) && IsSerialRun(s, steps) && IsRun(s, steps) && Counts(s, low, stage)
    requires s.master.counter + Writes(steps) < INT_MAX
    ensures Inv(Final(s, steps), stage') && Counts(Final(s, steps), low, stage')
    ensures |Final(s, steps).slaves| == |s.slaves|
    decreases |steps|
  {
    stage' := stage;
    if steps != [] {
      var s1 := Do(s, steps[0]);
      DoKeepsShape(s, steps[0]);
      var stage1 := StepKeeps(s, stage, steps[0]);
      CountsStep(s, low, stage, steps[0], s1);
      stage' := CountsRun(s1, low, stage1, steps[1..]);
    }
  }

  // ---------- one master ----------

  /** Every slave applied the last COMMIT WRITE. */
  ghost predicate LastDelivered(s: Cluster) {
    Nums(s.trace) != [] ==> forall i :: 0 <= i < |s.slaves| ==> TriedBy(Past(s.trace), i, LastTicket(s.trace))
  }

  /** A run with one command in flight, started where every counter is at least `low`, in which the WRITE
      commands do not make the counter wrap: the committed numbers are above `low` and strictly increase,
      aborted rounds included. When the last COMMIT WRITE reached every slave, every slave counts from the
      last committed number, whatever the master allocated and aborted after it, or from at least `low`
      when no WRITE was committed; and the master counts from it too while no command has come after it. */
  lemma CommittedNumbersIncrease(s: Cluster, low: nat, steps: seq<Step>)
    requires Shape(s) && Initial(s) && IsSerialRun(s, steps) && IsRun(s, steps)
    requires s.master.counter >= low && forall i :: 0 <= i < |s.slaves| ==> s.slaves[i].counter >= low
    requires s.master.counter + Writes(steps) < INT_MAX
    ensures var e := Final(s, steps);
            && |e.slaves| == |s.slaves|
            && IncreasingFrom(low, Nums(e.trace)) && low <= Top(e.trace, low) <= e.master.counter
            && (LastDelivered(e) ==> SlavesCountFrom(e, low))
            && (Quiet(e) && Nums(e.trace) != [] && LastTicket(e.trace) == e.master.started ==>
                  e.master.counter == Top(e.trace, low))
  {
    InitialInv(s);
    CountsInitially(s, low);
    var stage := CountsRun(s, low, InAborting, steps);
    if Quiet(Final(s, steps)) {
      QuietWaits(Final(s, steps), stage);
    }
    if LastDelivered(Final(s, steps)) {
      CountsSay(Final(s, steps), low, stage);
    }
  }

  /** Every slave counts from the last committed number exactly, or from at least the bound. */
  ghost predicate SlavesCountFrom(s: Cluster, low: int) {
    forall i :: 0 <= i < |s.slaves| ==>
      if Nums(s.trace) == [] then s.slaves[i].counter >= low else s.slaves[i].counter == Top(s.trace, low)
  }

  lemma CountsInitially(s: Cluster, low: nat)
    requires s.trace == [] && s.master.counter >= low
    requires forall i :: 0 <= i < |s.slaves| ==> s.slaves[i].counter >= low
    ensures Counts(s, low, InAborting)
  {
  }

  lemma CountsSay(s: Cluster, low: int, stage: Stage)
    requires Counts(s, low, stage) && LastDelivered(s)
    ensures SlavesCountFrom(s, low)
  {
    forall i | 0 <= i < |s.slaves|
      ensures if Nums(s.trace) == [] then s.slaves[i].counter >= low else s.slaves[i].counter == Top(s.trace, low)
    {
      assert SlaveCounts(s, low, i);
    }
  }
}
