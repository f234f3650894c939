/**
 The files in any run, with any number of users: from any point to any later one, each file is what the
 stores recorded in between make of it.
 */
module Replays {
  import opened Wrappers
  import opened Store
  import opened Numbers
  import opened Protocol
  import opened History
  import opened Cluster
  import opened SerialSteps
  import opened SerialRuns
  import opened Agreement
  import M = Master
  import S = Slave

  /** What one store does to the file it goes to. */
  ghost function Stored(f: string, a: Act): string
    requires a.SlaveSaved? || a.MasterSaved?
  {
    if a.result == OpenFailed then f else Save(f, a.command, true).file
  }

  /** The stores of slave i, or of the master when i is None, applied to a file in order. */
  ghost function Replay(f: string, acts: seq<Act>, i: Option<nat>): string {
    if acts == [] then f
    else
      var before, a := Replay(f, acts[..|acts| - 1], i), acts[|acts| - 1];
      if (i.Some? && a.SlaveSaved? && a.slave == i.value) || (i.None? && a.MasterSaved?) then Stored(before, a)
      else before
  }

  lemma ReplayAppend(f: string, acts: seq<Act>, a: Act, i: Option<nat>)
    ensures Replay(f, acts + [a], i) ==
            if (i.Some? && a.SlaveSaved? && a.slave == i.value) || (i.None? && a.MasterSaved?)
            then Stored(Replay(f, acts, i), a) else Replay(f, acts, i)
  {
  }

  lemma StoredIsSave(f: string, c: Command, canOpen: bool, a: Act)
    requires (a.SlaveSaved? || a.MasterSaved?) && a.command == c && a.result == Save(f, c, canOpen).result
    ensures Stored(f, a) == Save(f, c, canOpen).file
  {
    if a.result == OpenFailed {
      if c.cmd == CmdReplace {
        OpenReplace(f, 0, c.body);
      }
    } else {
      SaveWhenOpen(f, c, canOpen);
    }
  }

  /** The master's file is what its stores made of the file it started from. */
  ghost predicate MasterFile(m: M.Master, f: string, base: seq<Act>) {
    m.file == Replay(f, base + m.acts, None) && forall a :: a in m.acts ==> !a.SlaveSaved?
  }

  lemma MasterFileSame(m: M.Master, f: string, base: seq<Act>, m': M.Master, a: Act)
    requires MasterFile(m, f, base) && m'.file == m.file && m'.acts == m.acts + [a]
    requires !a.MasterSaved? && !a.SlaveSaved?
    ensures MasterFile(m', f, base)
  {
    assert base + m'.acts == base + m.acts + [a];
    ReplayAppend(f, base + m.acts, a, None);
  }

  lemma {:induction false} AckFile(m: M.Master, f: string, base: seq<Act>)
    requires m.Valid() && MasterFile(m, f, base)
    ensures MasterFile(M.PrecommitAcked(m), f, base)
    decreases M.CountUsers(m.users, UWaitingCommit)
  {
    var k := M.FindUser(m.users, UWaitingCommit);
    if k < |m.users| {
      var m1 := M.CommitUser(m, k);
      CommitUserEffect(m, k, m1);
      MasterFileSame(m, f, base, m1, CommitSent(m.users[k].ticket, M.CommandOf(m.users[k])));
      M.CountAfterMove(m.users, k, m.users[k].(state := UWaitingSave), UWaitingCommit);
      AckFile(m1, f, base);
    }
  }

  lemma {:induction false} ErrFile(m: M.Master, f: string, base: seq<Act>)
    requires MasterFile(m, f, base)
    ensures MasterFile(M.RejectAll(m), f, base)
    decreases M.CountUsers(m.users, UWaitingCommit)
  {
    var k := M.FindUser(m.users, UWaitingCommit);
    if k < |m.users| {
      MasterFileSame(m, f, base, M.RejectUser(m, k), Rejected(m.users[k].ticket));
      M.CountAfterMove(m.users, k, M.Cleared(m.users[k]), UWaitingCommit);
      ErrFile(M.RejectUser(m, k), f, base);
    }
  }

  lemma {:induction false} SuccessFile(m: M.Master, f: string, base: seq<Act>, number: string, failing: set<nat>)
    requires m.Valid() && MasterFile(m, f, base)
    ensures MasterFile(M.CommitSucceeded(m, number, failing), f, base)
    decreases M.CountUsers(m.users, UWaitingSave)
  {
    var k := M.FindUser(m.users, UWaitingSave);
    if k < |m.users| && number == m.users[k].msgNumber {
      var m1 := M.FinishUser(m, k, number, failing);
      FinishFile(m, f, base, k, number, failing, m1);
      M.CountAfterMove(m.users, k, M.Cleared(m.users[k]), UWaitingSave);
      SuccessFile(m1, f, base, number, failing);
    }
  }

  lemma MasterFileStored(m: M.Master, f: string, base: seq<Act>, m': M.Master, a: Act, a': Act)
    requires MasterFile(m, f, base) && a.MasterSaved? && a'.Answered?
    requires m'.acts == m.acts + [a] + [a'] && m'.file == Stored(m.file, a)
    ensures MasterFile(m', f, base)
  {
    assert base + m'.acts == base + m.acts + [a] + [a'];
    ReplayAppend(f, base + m.acts, a, None);
    ReplayAppend(f, base + m.acts + [a], a', None);
  }

  lemma FinishFile(m: M.Master, f: string, base: seq<Act>, k: nat, number: string, failing: set<nat>, m': M.Master)
    requires m.Valid() && MasterFile(m, f, base) && k < |m.users| && m' == M.FinishUser(m, k, number, failing)
    ensures m'.Valid() && MasterFile(m', f, base) && m'.users == m.users[k := M.Cleared(m.users[k])]
  {
    var t, c := m.users[k].ticket, M.CommandOf(m.users[k]);
    FinishUserEffect(m, k, number, failing, m');
    var canOpen := t !in failing;
    var result := Save(m.file, c, canOpen).result;
    StoredIsSave(m.file, c, canOpen, MasterSaved(t, c, result));
    MasterFileStored(m, f, base, m', MasterSaved(t, c, result), Answered(t, c, M.SaveAnswer(c, result)));
  }

  lemma {:induction false} FailureFile(m: M.Master, f: string, base: seq<Act>, number: string, response: Option<Reply>)
    requires m.Valid() && MasterFile(m, f, base)
    ensures MasterFile(M.CommitFailedAll(m, number, response), f, base)
    decreases M.CountUsers(m.users, UWaitingSave)
  {
    var k := M.FindUser(m.users, UWaitingSave);
    if k < |m.users| && (number == "" || number == m.users[k].msgNumber) {
      var m1 := M.FailUser(m, k, number, response);
      FailUserEffect(m, k, number, response, m1);
      MasterFileSame(m, f, base, m1,
                     Answered(m.users[k].ticket, M.CommandOf(m.users[k]), M.FailureAnswer(m.users[k], response)));
      M.CountAfterMove(m.users, k, M.Cleared(m.users[k]), UWaitingSave);
      FailureFile(m1, f, base, number, response);
    }
  }

  lemma HandleFile(m: M.Master, f: string, base: seq<Act>, failing: set<nat>)
    requires m.Valid() && MasterFile(m, f, base) && m.queue != []
    ensures MasterFile(M.Handle(m, failing), f, base)
  {
    var ev, m1 := m.queue[0], Dequeued(m);
    match ev.kind {
      case EvPrecommitAck => AckFile(m1, f, base);
      case EvPrecommitErr =>
        var m2 := M.Record(M.Broadcast(m1, Abort, Idle), AbortSent(m1.started));
        MasterFileSame(m1, f, base, m2, AbortSent(m1.started));
        ErrFile(m2, f, base);
      case EvCommitSuccess => SuccessFile(m1, f, base, ev.number, failing);
      case EvCommitUnsuccess => FailureFile(m1, f, base, ev.number, ev.response);
      case EvMasterTimeout =>
        if m1.masterState == MCommited {
          MasterFileSame(m1, f, base, M.TimedOut(m1), PhaseTwoTimeout(m1.started));
        }
    }
  }

  lemma {:induction false} ReplayOther(f: string, trace: seq<Act>, acts: seq<Act>, i: nat)
    requires forall a :: a in acts ==> !(a.SlaveSaved? && a.slave == i)
    ensures Replay(f, trace + acts, Some(i)) == Replay(f, trace, Some(i))
  {
    if acts == [] {
      assert trace + acts == trace;
    } else {
      var front, a := acts[..|acts| - 1], acts[|acts| - 1];
      assert a in acts && forall b :: b in front ==> b in acts;
      ReplayOther(f, trace, front, i);
      assert trace + acts == trace + front + [a];
      ReplayAppend(f, trace + front, a, Some(i));
    }
  }

  /** What has happened since s0. */
  ghost function Since(s: Cluster, s0: Cluster): seq<Act>
    requires s0.trace <= s.trace
  {
    s.trace[|s0.trace|..]
  }

  /** Every file is what the stores since s0 made of the file its node held then. */
  ghost predicate FilesFromHistory(s: Cluster, s0: Cluster) {
    && |s.slaves| == |s0.slaves| && s0.trace <= s.trace
    && s.master.file == Replay(s0.master.file, Since(s, s0), None)
    && forall i :: 0 <= i < |s.slaves| ==> s.slaves[i].file == Replay(s0.slaves[i].file, Since(s, s0), Some(i))
  }

  lemma SinceGrows(s: Cluster, s0: Cluster, acts: seq<Act>, s': Cluster)
    requires s0.trace <= s.trace && s'.trace == s.trace + acts
    ensures s0.trace <= s'.trace && Since(s', s0) == Since(s, s0) + acts
  {
  }

  /** Steps of the master leave the slaves' files alone. */
  lemma MasterFiles(s: Cluster, s0: Cluster, m': M.Master, s': Cluster)
    requires FilesFromHistory(s, s0) && MasterFile(m', s0.master.file, Since(s, s0))
    requires s'.master.file == m'.file && s'.trace == s.trace + m'.acts && SameFiles(s, s')
    ensures FilesFromHistory(s', s0)
  {
    SinceGrows(s, s0, m'.acts, s');
    forall i | 0 <= i < |s.slaves| ensures s'.slaves[i].file == Replay(s0.slaves[i].file, Since(s', s0), Some(i)) {
      ReplayOther(s0.slaves[i].file, Since(s, s0), m'.acts, i);
    }
  }

  /** A slave's store, and nothing else. */
  lemma StoreFiles(s: Cluster, s0: Cluster, i: nat, a: Act, s': Cluster)
    requires FilesFromHistory(s, s0) && i < |s.slaves| == |s'.slaves| && a.SlaveSaved? && a.slave == i
    requires s'.trace == s.trace + [a] && s'.master.file == s.master.file
    requires s'.slaves[i].file == Stored(s.slaves[i].file, a)
    requires forall j :: 0 <= j < |s.slaves| && j != i ==> s'.slaves[j].file == s.slaves[j].file
    ensures FilesFromHistory(s', s0)
  {
    SinceGrows(s, s0, [a], s');
    ReplayAppend(s0.master.file, Since(s, s0), a, None);
    forall j | 0 <= j < |s.slaves| ensures s'.slaves[j].file == Replay(s0.slaves[j].file, Since(s', s0), Some(j)) {
      ReplayAppend(s0.slaves[j].file, Since(s, s0), a, Some(j));
    }
  }

  lemma VoteFiles(s: Cluster, s0: Cluster, a: Act, s': Cluster)
    requires FilesFromHistory(s, s0) && SameFiles(s, s') && s'.master.file == s.master.file && a.Voted?
    requires s'.trace == s.trace + [a]
    ensures FilesFromHistory(s', s0)
  {
    SinceGrows(s, s0, [a], s');
    ReplayAppend(s0.master.file, Since(s, s0), a, None);
    forall j | 0 <= j < |s.slaves| ensures s'.slaves[j].file == Replay(s0.slaves[j].file, Since(s', s0), Some(j)) {
      ReplayAppend(s0.slaves[j].file, Since(s, s0), a, Some(j));
    }
  }

  lemma DeliverFiles(s: Cluster, s0: Cluster, i: nat, canOpen: bool, s': Cluster)
    requires Shape(s) && FilesFromHistory(s, s0) && i < |s.slaves| && s.master.out[i] != []
    requires s' == Deliver(s, i, canOpen)
    ensures FilesFromHistory(s', s0)
  {
    var line := s.master.out[i][0];
    if line.Commit? && !S.Drops(s.slaves[i], s.debugLevel) {
      var c, f := Heard(line.command), s.slaves[i].file;
      var a := SlaveSaved(i, line.ticket, c, Save(f, c, canOpen).result);
      DeliverStores(s, i, canOpen, line.command, line.ticket, s');
      StoredIsSave(f, c, canOpen, a);
      StoreFiles(s, s0, i, a, s');
    } else {
      DeliverDrops(s, i, canOpen, s');
      if s'.trace != s.trace {
        VoteFiles(s, s0, Voted(i, s.master.started), s');
      }
    }
  }

  lemma SubmitFiles(s: Cluster, s0: Cluster, m: M.Master, u: nat, c: Command, m': M.Master, s': Cluster)
    requires Shape(s) && FilesFromHistory(s, s0) && u < |m.users| && m == s.master.(counter := m.counter)
    requires m' == M.Broadcast(M.InitConnection(M.SaveClientCmd(m, u, c)), Precommit, MPrecommitMulticasted)
    requires s' == Absorb(s, m')
    ensures FilesFromHistory(s', s0)
  {
    NothingRecorded(m, s0.master.file, Since(s, s0));
    SubmitFile(m, s0.master.file, Since(s, s0), u, c, m');
    MasterFiles(s, s0, m', s');
  }

  lemma NothingRecorded(m: M.Master, f: string, base: seq<Act>)
    requires m.acts == [] && m.file == Replay(f, base, None)
    ensures MasterFile(m, f, base)
  {
    assert base + m.acts == base;
  }

  lemma HandleFiles(s: Cluster, s0: Cluster, failing: set<nat>, m': M.Master, s': Cluster)
    requires Shape(s) && FilesFromHistory(s, s0) && s.master.queue != []
    requires m' == M.Handle(s.master, failing) && s' == Absorb(s, m')
    ensures FilesFromHistory(s', s0)
  {
    NothingRecorded(s.master, s0.master.file, Since(s, s0));
    HandleFile(s.master, s0.master.file, Since(s, s0), failing);
    MasterFiles(s, s0, m', s');
  }

  /** Steps that store nothing and record nothing. */
  lemma QuietFiles(s: Cluster, s0: Cluster, m': M.Master, s': Cluster)
    requires FilesFromHistory(s, s0) && m'.file == s.master.file && m'.acts == []
    requires s'.master.file == m'.file && s'.trace == s.trace && SameFiles(s, s')
    ensures FilesFromHistory(s', s0)
  {
    assert s'.trace == s.trace + [];
    NothingRecorded(m', s0.master.file, Since(s, s0));
    MasterFiles(s, s0, m', s');
  }

  lemma StepFiles(s: Cluster, s0: Cluster, step: Step, s': Cluster)
    requires Shape(s) && Enabled(s, step) && FilesFromHistory(s, s0) && s' == Do(s, step)
    ensures FilesFromHistory(s', s0)
  {
    var m := s.master;
    match step {
      case ToSlave(i, canOpen) => DeliverFiles(s, s0, i, canOpen, s');
      case HandleEvent(failing) => HandleFiles(s, s0, failing, M.Handle(m, failing), s');
      case SubmitWrite(u, text) =>
        SubmitFiles(s, s0, m.(counter := Allocate(m.counter)), u, NewCommand(m, step), M.SubmitWrite(m, u, text), s');
      case SubmitReplace(u, number, text) =>
        SubmitFiles(s, s0, m, u, NewCommand(m, step), M.SubmitReplace(m, u, number, text), s');
      case ToMaster(i) =>
        ReceiveActs(m, i, HeardReply(s.replies[i][0]));
        ReceiveKeepsFiles(m, i, HeardReply(s.replies[i][0]));
        QuietFiles(s, s0, M.Receive(m, i, HeardReply(s.replies[i][0])), s');
      case _ => QuietFiles(s, s0, m, s');
    }
  }

  lemma SubmitFile(m: M.Master, f: string, base: seq<Act>, u: nat, c: Command, m': M.Master)
    requires m.Valid() && MasterFile(m, f, base) && u < |m.users|
    requires m' == M.Broadcast(M.InitConnection(M.SaveClientCmd(m, u, c)), Precommit, MPrecommitMulticasted)
    ensures MasterFile(m', f, base) && m'.file == m.file
  {
    BeginEffect(m, u, c, m');
    MasterFileSame(m, f, base, m', Started(m.started + 1, c));
  }

  /** In any run, from any point on, every file is the one its node held there with exactly the stores of
      the history since applied, in their order. With Outcomes.RejectedIsNowhere: no rejected command has
      ever touched a file. */
  lemma FilesComeFromHistory(s: Cluster, steps: seq<Step>)
    requires Shape(s) && IsRun(s, steps)
    ensures FilesFromHistory(Final(s, steps), s)
  {
    FilesAreReplays(s, s, steps);
  }

  lemma {:induction false} FilesAreReplays(s0: Cluster, s: Cluster, steps: seq<Step>)
    requires Shape(s) && IsRun(s, steps) && FilesFromHistory(s, s0)
    ensures FilesFromHistory(Final(s, steps), s0)
    decreases |steps|
  {
    if steps != [] {
      DoKeepsShape(s, steps[0]);
      StepFiles(s, s0, steps[0], Do(s, steps[0]));
      FilesAreReplays(s0, Do(s, steps[0]), steps[1..]);
    }
  }
}
