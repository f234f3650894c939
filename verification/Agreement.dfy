/**
 What the files hold in runs with one command in flight, with files that open and no timeout in phase
 two: the master's file is one board and all slaves' files are another, the answered commands are
 applied to both in order, and every answer is read off the two. The two boards differ in one thing
 only: the slaves apply a command as they hear it.
 */
module Agreement {
  import opened Wrappers
  import opened Text
  import opened Store
  import opened Numbers
  import opened Protocol
  import opened History
  import opened Cluster
  import opened Serial
  import opened SerialSteps
  import opened SerialRuns
  import M = Master
  import S = Slave

  /** No save failed to open the file, and no timeout was handled in phase two. */
  ghost predicate Clean(past: set<Act>) {
    forall a :: a in past ==>
      !a.PhaseTwoTimeout? && !((a.SlaveSaved? || a.MasterSaved?) && a.result == OpenFailed)
  }

  lemma CleanPrefix(trace: seq<Act>, longer: seq<Act>)
    requires trace <= longer && Clean(Past(longer))
    ensures Clean(Past(trace))
  {
    forall a | a in Past(trace) ensures a in Past(longer) {
      InPast(trace, a);
      InPast(longer, a);
    }
  }

  ghost predicate CleanActs(acts: seq<Act>) {
    forall k :: 0 <= k < |acts| ==>
      !acts[k].PhaseTwoTimeout? && !((acts[k].SlaveSaved? || acts[k].MasterSaved?) && acts[k].result == OpenFailed)
  }

  lemma CleanStep(trace: seq<Act>, acts: seq<Act>)
    requires Clean(Past(trace + acts))
    ensures CleanActs(acts)
  {
    forall k | 0 <= k < |acts|
      ensures !acts[k].PhaseTwoTimeout?
      ensures !((acts[k].SlaveSaved? || acts[k].MasterSaved?) && acts[k].result == OpenFailed)
    {
      InPast(trace + acts, acts[k]);
      assert (trace + acts)[|trace| + k] == acts[k];
    }
  }

  // ---------- saves ----------

  /** A replace that finds no line changes nothing. */
  lemma {:induction false} NotFoundChangesNothing(f: string, p: nat, msg: string)
    requires p <= |f| && ReplaceFrom(f, p, msg).result == NotFound
    ensures ReplaceFrom(f, p, msg).file == f
    decreases |f| - p
  {
    if p < |f| {
      NotFoundChangesNothing(f, NextLine(f, p), msg);
    }
  }

  lemma {:induction false} OpenReplace(f: string, p: nat, msg: string)
    requires p <= |f|
    ensures ReplaceFrom(f, p, msg).result != OpenFailed
    decreases |f| - p
  {
    if p < |f| {
      OpenReplace(f, NextLine(f, p), msg);
    }
  }

  /** A save that did not fail to open the file did what the command does to an open file. */
  lemma SaveWhenOpen(f: string, c: Command, canOpen: bool)
    requires Save(f, c, canOpen).result != OpenFailed
    ensures Save(f, c, canOpen) == Save(f, c, true)
  {
  }

  lemma OpenSave(f: string, c: Command)
    ensures Save(f, c, true).result != OpenFailed
  {
    if c.cmd == CmdReplace {
      OpenReplace(f, 0, c.body);
    }
  }

  /** Only a REPLACE finds no line, and then it leaves the file alone. */
  lemma NotFoundSave(f: string, c: Command)
    requires Save(f, c, true).result == NotFound
    ensures c.cmd == CmdReplace && Save(f, c, true).file == f
  {
    NotFoundChangesNothing(f, 0, c.body);
  }

  // ---------- two boards ----------

  datatype Boards = Boards(master: string, slaves: string)

  /** An answered command, applied to both boards: the slaves' first, the master's when they succeeded. */
  ghost function After(b: Boards, c: Command): Boards {
    var heard := Save(b.slaves, Heard(c), true);
    Boards(if heard.result == Saved then Save(b.master, c, true).file else b.master, heard.file)
  }

  /** 3.0 when both boards take the command, 3.1 when one of them has no line for it. */
  ghost function AnswerOf(b: Boards, c: Command): Answer {
    if Save(b.slaves, Heard(c), true).result == Saved && Save(b.master, c, true).result == Saved then
      Wrote(NumberOf(c.body))
    else
      Unknown(NumberOf(c.body))
  }

  /** The commands of a history that were answered by a handler of phase two, in order. */
  ghost function Done(trace: seq<Act>): seq<Command> {
    if trace == [] then []
    else
      var before, a := Done(trace[..|trace| - 1]), trace[|trace| - 1];
      if a.Answered? then before + [a.command] else before
  }

  ghost function Applied(b: Boards, cs: seq<Command>): Boards {
    if cs == [] then b else After(Applied(b, cs[..|cs| - 1]), cs[|cs| - 1])
  }

  /** The boards after the answers of a history. */
  ghost function Replayed(b: Boards, trace: seq<Act>): Boards {
    Applied(b, Done(trace))
  }

  /** Act k, if it is an answer, is the one read off the boards. */
  ghost predicate TrueAt(b: Boards, trace: seq<Act>, k: nat)
    requires k < |trace|
  {
    trace[k].Answered? ==> trace[k].answer == AnswerOf(Replayed(b, trace[..k]), trace[k].command)
  }

  ghost predicate Truthful(b: Boards, trace: seq<Act>) {
    forall k :: 0 <= k < |trace| ==> TrueAt(b, trace, k)
  }

  lemma DoneOne(trace: seq<Act>, a: Act)
    ensures Done(trace + [a]) == if a.Answered? then Done(trace) + [a.command] else Done(trace)
  {
    assert (trace + [a])[..|trace|] == trace;
  }

  lemma AppliedOne(b: Boards, cs: seq<Command>, c: Command)
    ensures Applied(b, cs + [c]) == After(Applied(b, cs), c)
  {
    assert (cs + [c])[..|cs|] == cs;
  }

  lemma ReplayOne(b: Boards, trace: seq<Act>, a: Act)
    requires Truthful(b, trace)
    requires a.Answered? ==> a.answer == AnswerOf(Replayed(b, trace), a.command)
    ensures Truthful(b, trace + [a])
    ensures Done(trace + [a]) == if a.Answered? then Done(trace) + [a.command] else Done(trace)
    ensures Replayed(b, trace + [a]) == if a.Answered? then After(Replayed(b, trace), a.command) else Replayed(b, trace)
  {
    var trace' := trace + [a];
    DoneOne(trace, a);
    if a.Answered? {
      AppliedOne(b, Done(trace), a.command);
    }
    forall k | 0 <= k < |trace'| ensures TrueAt(b, trace', k) {
      assert trace'[..k] == trace[..k];
      assert k < |trace| ==> TrueAt(b, trace, k);
      assert trace'[..|trace|] == trace;
    }
  }

  lemma {:induction false} ReplayQuiet(b: Boards, trace: seq<Act>, acts: seq<Act>)
    requires Truthful(b, trace) && forall a :: a in acts ==> !a.Answered?
    ensures Truthful(b, trace + acts) && Done(trace + acts) == Done(trace)
  {
    if acts == [] {
      assert trace + acts == trace;
    } else {
      var front, a := acts[..|acts| - 1], acts[|acts| - 1];
      assert a in acts && forall e :: e in front ==> e in acts;
      ReplayQuiet(b, trace, front);
      assert trace + acts == trace + front + [a];
      ReplayOne(b, trace + front, a);
    }
  }

  // ---------- the slaves' files ----------

  ghost predicate Harmless(f: string, c: Command) {
    Save(f, Heard(c), true).file == f
  }

  /** Nobody waits for the save: the slaves hold board f, and a COMMIT still under way does not change it. */
  ghost predicate SlavesIdle(s: Cluster, f: string)
    requires Shape(s)
  {
    && (forall i :: 0 <= i < |s.slaves| ==> s.slaves[i].file == f)
    && (forall i, l :: 0 <= i < |s.slaves| && l in s.master.out[i] && l.Commit? ==> Harmless(f, l.command))
  }

  /** Somebody waits for the save of c: a slave holds board f, with what it heard of c applied once it has
      tried; every slave that tried got the same result. */
  ghost predicate SlavesTwo(s: Cluster, past: set<Act>, f: string, c: Command)
    requires Shape(s)
  {
    var t, g := s.master.started, Save(f, Heard(c), true);
    && (forall i :: 0 <= i < |s.slaves| ==> s.slaves[i].file == if TriedBy(past, i, t) then g.file else f)
    && (forall a :: a in past && a.SlaveSaved? && a.ticket == t ==> a.result == g.result)
  }

  ghost predicate Waits(stage: Stage) {
    stage.InPhaseTwo? || stage.InHanging?
  }

  ghost predicate SlavesHold(s: Cluster, f: string, stage: Stage)
    requires Shape(s)
  {
    if Waits(stage) then
      stage.user < |s.master.users| && SlavesTwo(s, Past(s.trace), f, M.CommandOf(s.master.users[stage.user]))
    else
      SlavesIdle(s, f)
  }

  /** A failure under way says that the number is unknown. */
  ghost predicate OnlyUnknown(queue: seq<Event>) {
    forall e :: e in queue && e.kind == EvCommitUnsuccess ==> e.response.Some? && e.response.value.CommitUnknown?
  }

  ghost predicate Good(s: Cluster, b: Boards, stage: Stage)
    requires Shape(s)
  {
    && Truthful(b, s.trace) && s.master.file == Replayed(b, s.trace).master
    && SlavesHold(s, Replayed(b, s.trace).slaves, stage)
    && (stage.InPhaseTwo? ==> OnlyUnknown(s.master.queue))
  }

  // ---------- steps that store nothing ----------

  ghost predicate SameFiles(s: Cluster, s': Cluster) {
    && |s'.slaves| == |s.slaves|
    && forall i :: 0 <= i < |s.slaves| ==> s'.slaves[i].file == s.slaves[i].file
  }

  ghost predicate NoNewCommit(s: Cluster, s': Cluster)
    requires Shape(s) && Shape(s') && |s'.slaves| == |s.slaves|
  {
    forall i, l :: 0 <= i < |s.slaves| && l in s'.master.out[i] && l.Commit? ==> l in s.master.out[i]
  }

  ghost predicate NoStore(acts: seq<Act>) {
    forall a :: a in acts ==> !a.SlaveSaved? && !a.Answered?
  }

  lemma IdleStep(s: Cluster, b: Boards, stage: Stage, s': Cluster, acts: seq<Act>, stage': Stage)
    requires Shape(s) && Shape(s') && Good(s, b, stage) && !Waits(stage) && !Waits(stage')
    requires SameFiles(s, s') && NoNewCommit(s, s') && s'.master.file == s.master.file
    requires s'.trace == s.trace + acts && NoStore(acts)
    ensures Good(s', b, stage') && Done(s'.trace) == Done(s.trace)
  {
    ReplayQuiet(b, s.trace, acts);
    StillIdle(s, Replayed(b, s.trace).slaves, s');
  }

  lemma StillIdle(s: Cluster, f: string, s': Cluster)
    requires Shape(s) && Shape(s') && SlavesIdle(s, f) && SameFiles(s, s') && NoNewCommit(s, s')
    ensures SlavesIdle(s', f)
  {
  }

  lemma TriedSame(trace: seq<Act>, acts: seq<Act>, t: nat)
    requires NoStore(acts)
    ensures forall i: nat :: TriedBy(Past(trace + acts), i, t) <==> TriedBy(Past(trace), i, t)
    ensures forall a: Act :: a.SlaveSaved? ==> (a in Past(trace + acts) <==> a in Past(trace))
  {
    forall a: Act | a.SlaveSaved? ensures a in Past(trace + acts) <==> a in Past(trace) {
      InPast(trace, a);
      InPast(trace + acts, a);
    }
  }

  lemma WaitStep(s: Cluster, b: Boards, stage: Stage, s': Cluster, acts: seq<Act>, stage': Stage)
    requires Shape(s) && Shape(s') && Good(s, b, stage) && Waits(stage) && Waits(stage') && stage'.user == stage.user
    requires SameFiles(s, s') && s'.master.file == s.master.file && s'.master.started == s.master.started
    requires s'.master.users == s.master.users && s'.trace == s.trace + acts && NoStore(acts)
    requires stage'.InPhaseTwo? ==> OnlyUnknown(s'.master.queue)
    ensures Good(s', b, stage') && Done(s'.trace) == Done(s.trace)
  {
    ReplayQuiet(b, s.trace, acts);
    TriedSame(s.trace, acts, s.master.started);
  }

  // ---------- a slave stores ----------

  /** What a COMMIT that is not dropped does to the cluster. */
  lemma DeliverStores(s: Cluster, i: nat, canOpen: bool, c: Command, t: nat, s': Cluster)
    requires Shape(s) && i < |s.slaves| && s.master.out[i] != [] && s.master.out[i][0] == Commit(c, t)
    requires !S.Drops(s.slaves[i], s.debugLevel) && s' == Deliver(s, i, canOpen)
    ensures var saved := Save(s.slaves[i].file, Heard(c), canOpen);
            && Shape(s') && |s'.slaves| == |s.slaves| && s'.slaves[i].file == saved.file
            && (forall j :: 0 <= j < |s.slaves| && j != i ==> s'.slaves[j] == s.slaves[j])
            && s'.trace == s.trace + [SlaveSaved(i, t, Heard(c), saved.result)]
            && s'.master == Taken(s.master, i)
  {
    var e := S.Receive(s.slaves[i], Commit(Heard(c), t), s.debugLevel, canOpen);
    assert e == S.Apply(s.slaves[i], Heard(c), canOpen);
  }

  lemma DeliverDrops(s: Cluster, i: nat, canOpen: bool, s': Cluster)
    requires Shape(s) && i < |s.slaves| && s.master.out[i] != []
    requires s.master.out[i][0].Commit? ==> S.Drops(s.slaves[i], s.debugLevel)
    requires s' == Deliver(s, i, canOpen)
    ensures Shape(s') && SameFiles(s, s') && s'.master == Taken(s.master, i)
    ensures s'.trace == s.trace || (|s'.trace| == |s.trace| + 1 && s'.trace == s.trace + [Voted(i, s.master.started)])
  {
  }

  lemma TakenCommits(s: Cluster, i: nat, s': Cluster)
    requires Shape(s) && Shape(s') && i < |s.slaves| == |s'.slaves| && s.master.out[i] != []
    requires s'.master == Taken(s.master, i)
    ensures NoNewCommit(s, s')
  {
  }

  lemma TriedAfter(trace: seq<Act>, e: Act)
    requires e.SlaveSaved?
    ensures forall j: nat ::
              TriedBy(Past(trace + [e]), j, e.ticket) <==> TriedBy(Past(trace), j, e.ticket) || j == e.slave
  {
    PastAppend(trace, e);
    var past, past' := Past(trace), With(Past(trace), e);
    assert e in past';
    forall j: nat ensures TriedBy(past', j, e.ticket) <==> TriedBy(past, j, e.ticket) || j == e.slave {
      if TriedBy(past, j, e.ticket) {
        var a :| a in past && a.SlaveSaved? && a.slave == j && a.ticket == e.ticket;
        assert a in past';
      }
    }
  }

  /** The first try of a slave while somebody waits. */
  lemma TwoStores(s: Cluster, f: string, c: Command, i: nat, r: SaveResult, s': Cluster)
    requires Shape(s) && Shape(s') && SlavesTwo(s, Past(s.trace), f, c) && i < |s.slaves| == |s'.slaves|
    requires !TriedBy(Past(s.trace), i, s.master.started) && s'.master.started == s.master.started
    requires s'.slaves[i].file == Save(f, Heard(c), true).file && r == Save(f, Heard(c), true).result
    requires forall j :: 0 <= j < |s.slaves| && j != i ==> s'.slaves[j].file == s.slaves[j].file
    requires s'.trace == s.trace + [SlaveSaved(i, s.master.started, Heard(c), r)]
    ensures SlavesTwo(s', Past(s'.trace), f, c)
  {
    var e := SlaveSaved(i, s.master.started, Heard(c), r);
    TriedAfter(s.trace, e);
    PastAppend(s.trace, e);
  }

  /** Slave i has stored what it heard of c, as an open file takes it. */
  ghost predicate StoresAt(s: Cluster, i: nat, c: Command, t: nat, f: string, s': Cluster)
    requires Shape(s) && i < |s.slaves| == |s'.slaves| && s.master.out[i] != []
  {
    var saved := Save(f, Heard(c), true);
    && s.slaves[i].file == f && s'.slaves[i].file == saved.file
    && (forall j :: 0 <= j < |s.slaves| && j != i ==> s'.slaves[j].file == s.slaves[j].file)
    && s'.trace == s.trace + [SlaveSaved(i, t, Heard(c), saved.result)] && s'.master == Taken(s.master, i)
  }

  lemma WaitStores(s: Cluster, b: Boards, stage: Stage, c: Command, i: nat, s': Cluster)
    requires Shape(s) && Shape(s') && |s'.slaves| == |s.slaves| && Good(s, b, stage) && Waits(stage)
    requires c == M.CommandOf(s.master.users[stage.user]) && !TriedBy(Past(s.trace), i, s.master.started)
    requires i < |s.slaves| && s.master.out[i] != []
    requires StoresAt(s, i, c, s.master.started, Replayed(b, s.trace).slaves, s')
    ensures Good(s', b, stage) && Done(s'.trace) == Done(s.trace)
  {
    var f := Replayed(b, s.trace).slaves;
    var r := Save(f, Heard(c), true).result;
    ReplayQuiet(b, s.trace, [SlaveSaved(i, s.master.started, Heard(c), r)]);
    TwoStores(s, f, c, i, r, s');
  }

  /** A COMMIT that comes after the answer stores what changes nothing. */
  lemma LateStores(s: Cluster, b: Boards, stage: Stage, c: Command, t: nat, i: nat, s': Cluster)
    requires Shape(s) && Shape(s') && |s'.slaves| == |s.slaves| && Good(s, b, stage) && !Waits(stage)
    requires i < |s.slaves| && s.master.out[i] != [] && s.master.out[i][0] == Commit(c, t)
    requires StoresAt(s, i, c, t, Replayed(b, s.trace).slaves, s')
    ensures Good(s', b, stage) && Done(s'.trace) == Done(s.trace)
  {
    var f := Replayed(b, s.trace).slaves;
    ReplayQuiet(b, s.trace, [SlaveSaved(i, t, Heard(c), Save(f, Heard(c), true).result)]);
    assert Commit(c, t) in s.master.out[i];
    TakenCommits(s, i, s');
    forall j | 0 <= j < |s'.slaves| ensures s'.slaves[j].file == f {
    }
  }

  lemma GoodStores(s: Cluster, b: Boards, stage: Stage, i: nat, canOpen: bool, c: Command, t: nat, s': Cluster)
    requires Now(s, stage) && Good(s, b, stage) && i < |s.slaves| && s.master.out[i] != []
    requires s.master.out[i][0] == Commit(c, t) && !S.Drops(s.slaves[i], s.debugLevel)
    requires s' == Deliver(s, i, canOpen) && Clean(Past(s'.trace))
    ensures Shape(s') && Good(s', b, stage) && Done(s'.trace) == Done(s.trace)
  {
    if Waits(stage) {
      CommitHead(s.master, s.replies, Past(s.trace), stage, i);
    }
    var f := s.slaves[i].file;
    DeliverStores(s, i, canOpen, c, t, s');
    CleanStep(s.trace, [SlaveSaved(i, t, Heard(c), Save(f, Heard(c), canOpen).result)]);
    SaveWhenOpen(f, Heard(c), canOpen);
    if Waits(stage) {
      WaitStores(s, b, stage, c, i, s');
    } else {
      LateStores(s, b, stage, c, t, i, s');
    }
  }

  /** The COMMIT at the head of a connection while somebody waits has not been tried by its slave. */
  lemma CommitHead(m: M.Master, replies: Net, past: set<Act>, stage: Stage, i: nat)
    requires Base(m, replies, past) && At(m, replies, past, stage) && Waits(stage)
    requires i < |replies| && m.out[i] != []
    ensures m.out[i][0] == Commit(M.CommandOf(m.users[stage.user]), m.started) && !TriedBy(past, i, m.started)
  {
    var c := M.CommandOf(m.users[stage.user]);
    match stage {
      case InPhaseTwo(u) => assert LinkTwo(m.out[i], replies[i], m.peers[i], i, m.started, c, past);
      case InHanging(u) => assert LinkHanging(m.out[i], i, m.started, c, past);
    }
  }

  lemma GoodToSlave(s: Cluster, b: Boards, stage: Stage, i: nat, canOpen: bool, s': Cluster)
    requires Now(s, stage) && Good(s, b, stage) && i < |s.slaves| && s.master.out[i] != []
    requires s' == Deliver(s, i, canOpen) && Clean(Past(s'.trace))
    ensures Shape(s') && Good(s', b, stage) && Done(s'.trace) == Done(s.trace)
  {
    var line := s.master.out[i][0];
    if line.Commit? && !S.Drops(s.slaves[i], s.debugLevel) {
      GoodStores(s, b, stage, i, canOpen, line.command, line.ticket, s');
    } else {
      GoodDrops(s, b, stage, i, canOpen, s');
    }
  }

  lemma GoodDrops(s: Cluster, b: Boards, stage: Stage, i: nat, canOpen: bool, s': Cluster)
    requires Shape(s) && Good(s, b, stage) && i < |s.slaves| && s.master.out[i] != []
    requires s.master.out[i][0].Commit? ==> S.Drops(s.slaves[i], s.debugLevel)
    requires s' == Deliver(s, i, canOpen)
    ensures Shape(s') && Good(s', b, stage) && Done(s'.trace) == Done(s.trace)
  {
    DeliverDrops(s, i, canOpen, s');
    TakenCommits(s, i, s');
    var acts := if s'.trace == s.trace then [] else [Voted(i, s.master.started)];
    assert s'.trace == s.trace + acts;
    if Waits(stage) {
      WaitStep(s, b, stage, s', acts, stage);
    } else {
      IdleStep(s, b, stage, s', acts, stage);
    }
  }

  // ---------- replies ----------

  /** A slave that failed did not find the line, and says so. */
  lemma FailureIsUnknown(s: Cluster, f: string, c: Command, a: Act)
    requires Shape(s) && SlavesTwo(s, Past(s.trace), f, c) && Clean(Past(s.trace))
    requires a in Past(s.trace) && a.SlaveSaved? && a.ticket == s.master.started && a.result != Saved
    ensures c.cmd == CmdReplace && a.result == NotFound && HeardReply(S.ReplyFor(Heard(c), a.result)).CommitUnknown?
    ensures Save(f, Heard(c), true).result == NotFound && Save(f, Heard(c), true).file == f
  {
    assert Save(f, Heard(c), true).result == a.result;
    NotFoundSave(f, Heard(c));
  }

  lemma CountedQueue(m: M.Master, i: nat, c: Command, r: SaveResult)
    requires i < |m.peers| && OnlyUnknown(m.queue)
    requires r != Saved ==> HeardReply(S.ReplyFor(Heard(c), r)).CommitUnknown?
    ensures OnlyUnknown(Counted(m, i, c, r).queue)
  {
  }

  lemma UnknownReplies(s: Cluster, f: string, u: nat, i: nat, m': M.Master)
    requires Now(s, InPhaseTwo(u)) && SlavesTwo(s, Past(s.trace), f, M.CommandOf(s.master.users[u]))
    requires OnlyUnknown(s.master.queue) && Clean(Past(s.trace)) && i < |s.slaves| && s.replies[i] != []
    requires m' == M.Receive(s.master, i, HeardReply(s.replies[i][0]))
    ensures OnlyUnknown(m'.queue)
  {
    var c := M.CommandOf(s.master.users[u]);
    var r := PhaseTwoReply(s.master, s.replies, Past(s.trace), u, i);
    if r != Saved {
      FailureIsUnknown(s, f, c, SlaveSaved(i, s.master.started, Heard(c), r));
    }
    CountedIsReceive(s.master, i, c, r);
    CountedQueue(s.master, i, c, r);
  }

  lemma GoodToMaster(s: Cluster, b: Boards, stage: Stage, i: nat, m': M.Master, s': Cluster)
    requires Now(s, stage) && !s.master.hung && Good(s, b, stage) && Clean(Past(s.trace))
    requires i < |s.slaves| && s.replies[i] != []
    requires m' == M.Receive(s.master, i, HeardReply(s.replies[i][0])) && s' == Absorb(DropReply(s, i), m')
    ensures Shape(s') && Good(s', b, stage) && Done(s'.trace) == Done(s.trace)
  {
    if stage.InPhaseTwo? {
      UnknownReplies(s, Replayed(b, s.trace).slaves, stage.user, i, m');
    }
    ReceiveActs(s.master, i, HeardReply(s.replies[i][0]));
    ReceiveKeepsFiles(s.master, i, HeardReply(s.replies[i][0]));
    GoodAside(s, b, stage, m', s');
  }

  /** A master step that leaves users, connections and files alone and says nothing. */
  lemma GoodAside(s: Cluster, b: Boards, stage: Stage, m': M.Master, s': Cluster)
    requires Shape(s) && Good(s, b, stage) && m'.Valid() && |m'.peers| == |s.master.peers|
    requires m'.file == s.master.file && m'.users == s.master.users && m'.out == s.master.out
    requires m'.started == s.master.started && m'.acts == []
    requires stage.InPhaseTwo? ==> OnlyUnknown(m'.queue)
    requires s'.master == m' && s'.trace == s.trace && SameFiles(s, s') && |s'.replies| == |s.replies|
    ensures Shape(s') && Good(s', b, stage) && Done(s'.trace) == Done(s.trace)
  {
    assert s'.trace == s.trace + [];
    if Waits(stage) {
      WaitStep(s, b, stage, s', [], stage);
    } else {
      IdleStep(s, b, stage, s', [], stage);
    }
  }

  // ---------- events ----------

  lemma AckParts(m: M.Master, u: nat, m': M.Master)
    requires m.Valid() && OnlyUser(m.users, u, UWaitingCommit) && QueueOne(m) && m.acts == []
    requires m.queue != [] && m.queue[0].kind == EvPrecommitAck && m' == M.PrecommitAcked(Dequeued(m))
    ensures m'.Valid() && |m'.peers| == |m.peers| && m'.file == m.file && m'.queue == [] && m'.started == m.started
    ensures m'.acts == [CommitSent(m.users[u].ticket, M.CommandOf(m.users[u]))]
    ensures u < |m'.users| && M.CommandOf(m'.users[u]) == M.CommandOf(m.users[u])
  {
    AckOnly(Dequeued(m), u);
    CommitUserEffect(Dequeued(m), u, m');
  }

  lemma AckGood(s: Cluster, b: Boards, u: nat, c: Command, s': Cluster)
    requires Shape(s) && Shape(s') && Good(s, b, InPhaseOne(u)) && SameFiles(s, s')
    requires forall a :: a in Past(s.trace) && a.ticket == s.master.started ==> !a.SlaveSaved?
    requires s'.master.file == s.master.file && s'.master.started == s.master.started && s'.master.queue == []
    requires u < |s'.master.users| && M.CommandOf(s'.master.users[u]) == c
    requires s'.trace == s.trace + [CommitSent(s.master.started, c)]
    ensures Good(s', b, InPhaseTwo(u)) && Done(s'.trace) == Done(s.trace)
  {
    var acts := [CommitSent(s.master.started, c)];
    ReplayQuiet(b, s.trace, acts);
    TriedSame(s.trace, acts, s.master.started);
    forall a: Act | a in Past(s'.trace) && a.SlaveSaved? ensures a.ticket != s.master.started {
      assert a in Past(s.trace);
    }
  }

  /** COMMIT goes out: no slave has tried it yet. */
  lemma GoodAck(s: Cluster, b: Boards, u: nat, m': M.Master, s': Cluster)
    requires Now(s, InPhaseOne(u)) && Good(s, b, InPhaseOne(u)) && s.master.queue != []
    requires s.master.queue[0].kind == EvPrecommitAck
    requires m' == M.PrecommitAcked(Dequeued(s.master)) && s' == Absorb(s, m')
    ensures Shape(s') && Good(s', b, InPhaseTwo(u)) && Done(s'.trace) == Done(s.trace)
  {
    AckParts(s.master, u, m');
    AckGood(s, b, u, M.CommandOf(s.master.users[u]), s');
  }

  lemma GoodErr(s: Cluster, b: Boards, u: nat, m': M.Master, s': Cluster)
    requires Now(s, InPhaseOne(u)) && Good(s, b, InPhaseOne(u)) && s.master.queue != []
    requires m' == M.PrecommitFailed(Dequeued(s.master)) && s' == Absorb(s, m')
    ensures Shape(s') && Good(s', b, InAborting) && Done(s'.trace) == Done(s.trace)
  {
    RejectEffect(Dequeued(s.master), u, m');
    IdleStep(s, b, InPhaseOne(u), s', m'.acts, InAborting);
  }

  lemma NoTimeout(acts: seq<Act>)
    requires CleanActs(acts) && (acts == [] || acts[0].PhaseTwoTimeout?)
    ensures acts == []
  {
  }

  /** In a clean run a timeout that is handled comes too late to matter in phase two. */
  lemma GoodTimeout(s: Cluster, b: Boards, stage: Stage, m': M.Master, s': Cluster)
    requires Shape(s) && Good(s, b, stage) && s.master.queue != []
    requires m' == M.TimedOut(Dequeued(s.master)) && s' == Absorb(s, m') && Clean(Past(s'.trace))
    ensures Shape(s') && Good(s', b, stage) && Done(s'.trace) == Done(s.trace)
  {
    CleanStep(s.trace, m'.acts);
    NoTimeout(m'.acts);
    assert s'.trace == s.trace;
    GoodAside(s, b, stage, m', s');
  }

  ghost predicate AllTriedBy(n: nat, past: set<Act>, t: nat) {
    forall i :: 0 <= i < n ==> TriedBy(past, i, t)
  }

  ghost predicate NoCommits(out: seq<seq<Line>>) {
    forall i, l :: 0 <= i < |out| && l in out[i] ==> !l.Commit?
  }

  lemma AllTried(m: M.Master, replies: Net, past: set<Act>, u: nat)
    requires Base(m, replies, past) && PhaseTwo(m, replies, past, u) && M.AllPeers(m.peers, MOperationPerformed)
    ensures AllTriedBy(|replies|, past, m.started) && NoCommits(m.out)
    ensures SlaveSaved(0, m.started, Heard(M.CommandOf(m.users[u])), Saved) in past
  {
    forall i | 0 <= i < |replies|
      ensures TriedBy(past, i, m.started) && m.out[i] == []
      ensures SlaveSaved(i, m.started, Heard(M.CommandOf(m.users[u])), Saved) in past
    {
      assert LinkTwo(m.out[i], replies[i], m.peers[i], i, m.started, M.CommandOf(m.users[u]), past);
      assert SlaveSaved(i, m.started, Heard(M.CommandOf(m.users[u])), Saved) in past;
    }
  }

  /** When the slaves' board takes a command, what the master says of an open file is read off the boards. */
  lemma SaidOfOpen(b: Boards, c: Command)
    requires Save(b.slaves, Heard(c), true).result == Saved
    ensures M.SaveAnswer(c, Save(b.master, c, true).result) == AnswerOf(b, c)
  {
    OpenSave(b.master, c);
  }

  /** Both boards take the command, and the answer is theirs. */
  lemma SuccessBoards(s: Cluster, b: Boards, c: Command, t: nat, canOpen: bool, result: SaveResult, s': Cluster)
    requires Truthful(b, s.trace) && s.master.file == Replayed(b, s.trace).master
    requires Save(Replayed(b, s.trace).slaves, Heard(c), true).result == Saved
    requires result == Save(s.master.file, c, canOpen).result && result != OpenFailed
    requires s'.master.file == Save(s.master.file, c, canOpen).file
    requires s'.trace == s.trace + [MasterSaved(t, c, result), Answered(t, c, M.SaveAnswer(c, result))]
    ensures Truthful(b, s'.trace) && s'.master.file == Replayed(b, s'.trace).master
    ensures Done(s'.trace) == Done(s.trace) + [c] && Replayed(b, s'.trace) == After(Replayed(b, s.trace), c)
  {
    SaveWhenOpen(s.master.file, c, canOpen);
    SaidOfOpen(Replayed(b, s.trace), c);
    AnswerBoards(b, s.trace, c, MasterSaved(t, c, result), Answered(t, c, M.SaveAnswer(c, result)), s'.trace);
  }

  /** A store and its answer: the answer is read off the boards, and both boards take the command. */
  lemma AnswerBoards(b: Boards, trace: seq<Act>, c: Command, e: Act, e': Act, trace': seq<Act>)
    requires Truthful(b, trace) && e.MasterSaved? && e'.Answered? && e'.command == c
    requires e'.answer == AnswerOf(Replayed(b, trace), c) && trace' == trace + [e, e']
    ensures Truthful(b, trace') && Done(trace') == Done(trace) + [c]
    ensures Replayed(b, trace') == After(Replayed(b, trace), c)
  {
    ReplayOne(b, trace, e);
    ReplayOne(b, trace + [e], e');
    assert trace' == trace + [e] + [e'];
  }

  /** Every slave has stored, and no COMMIT is under way: the slaves hold the command. */
  lemma SuccessIdle(s: Cluster, f: string, c: Command, s': Cluster)
    requires Shape(s) && Shape(s') && SlavesTwo(s, Past(s.trace), f, c) && SameFiles(s, s')
    requires AllTriedBy(|s.slaves|, Past(s.trace), s.master.started)
    requires NoCommits(s'.master.out)
    ensures SlavesIdle(s', Save(f, Heard(c), true).file)
  {
  }

  lemma SuccessGood(s: Cluster, b: Boards, u: nat, c: Command, canOpen: bool, result: SaveResult, s': Cluster)
    requires Shape(s) && Shape(s') && SameFiles(s, s')
    requires Good(s, b, InPhaseTwo(u)) && c == M.CommandOf(s.master.users[u])
    requires AllTriedBy(|s.slaves|, Past(s.trace), s.master.started)
    requires SlaveSaved(0, s.master.started, Heard(c), Saved) in Past(s.trace)
    requires NoCommits(s'.master.out)
    requires result == Save(s.master.file, c, canOpen).result && result != OpenFailed
    requires s'.master.file == Save(s.master.file, c, canOpen).file
    requires s'.trace == s.trace + [MasterSaved(s.master.started, c, result),
                                    Answered(s.master.started, c, M.SaveAnswer(c, result))]
    ensures Good(s', b, InEnding(c))
    ensures Done(s'.trace) == Done(s.trace) + [c] && Replayed(b, s'.trace) == After(Replayed(b, s.trace), c)
  {
    SuccessBoards(s, b, c, s.master.started, canOpen, result, s');
    SuccessIdle(s, Replayed(b, s.trace).slaves, c, s');
  }

  lemma SuccessMaster(m: M.Master, replies: Net, past: set<Act>, u: nat, failing: set<nat>, m': M.Master)
    returns (canOpen: bool, result: SaveResult)
    requires Base(m, replies, past) && PhaseTwo(m, replies, past, u) && m.acts == [] && m.queue != []
    requires m.queue[0].kind == EvCommitSuccess && Concerns(m.queue[0], m.users[u].msgNumber)
    requires m' == M.CommitSucceeded(Dequeued(m), m.queue[0].number, failing)
    ensures var t, c := m.started, M.CommandOf(m.users[u]);
            && m'.Valid() && |m'.peers| == |m.peers|
            && result == Save(m.file, c, canOpen).result && m'.file == Save(m.file, c, canOpen).file
            && m'.acts == [MasterSaved(t, c, result), Answered(t, c, M.SaveAnswer(c, result))]
    ensures M.AllPeers(m.peers, MOperationPerformed)
    ensures NoCommits(m.out) ==> NoCommits(m'.out)
  {
    canOpen := m.started !in failing;
    result := Save(m.file, M.CommandOf(m.users[u]), canOpen).result;
    SuccessParts(m, u, failing, canOpen, PhaseTwoTimeout(m.started) in past, result, m');
  }

  lemma GoodSuccess(s: Cluster, b: Boards, u: nat, failing: set<nat>, m': M.Master, s': Cluster)
    requires Now(s, InPhaseTwo(u)) && Good(s, b, InPhaseTwo(u)) && s.master.queue != []
    requires s.master.queue[0].kind == EvCommitSuccess && Concerns(s.master.queue[0], s.master.users[u].msgNumber)
    requires m' == M.CommitSucceeded(Dequeued(s.master), s.master.queue[0].number, failing)
    requires s' == Absorb(s, m') && Clean(Past(s'.trace))
    ensures var c := M.CommandOf(s.master.users[u]);
            && Shape(s') && Good(s', b, InEnding(c))
            && Done(s'.trace) == Done(s.trace) + [c]
  {
    var canOpen, result := SuccessMaster(s.master, s.replies, Past(s.trace), u, failing, m');
    AllTried(s.master, s.replies, Past(s.trace), u);
    CleanStep(s.trace, m'.acts);
    assert m'.acts[0].MasterSaved?;
    SuccessGood(s, b, u, M.CommandOf(s.master.users[u]), canOpen, result, s');
  }

  /** Without a timeout a failure is a slave's. */
  lemma SomebodyFailed(m: M.Master, replies: Net, past: set<Act>, u: nat) returns (a: Act)
    requires Base(m, replies, past) && PhaseTwo(m, replies, past, u) && Clean(past)
    requires m.queue != [] && m.queue[0].kind == EvCommitUnsuccess
    ensures a in past && a.SlaveSaved? && a.ticket == m.started && a.result != Saved
  {
    var t, c := m.started, M.CommandOf(m.users[u]);
    assert PhaseTwoTimeout(t) !in past;
    assert SomePeer(m.peers, MOperationUnsuccess);
    var i :| 0 <= i < |m.peers| && m.peers[i] == MOperationUnsuccess;
    assert LinkTwo(m.out[i], replies[i], m.peers[i], i, t, c, past);
    var r :| r != Saved && SlaveSaved(i, t, Heard(c), r) in past;
    a := SlaveSaved(i, t, Heard(c), r);
  }

  lemma UnknownParts(m: M.Master, u: nat, timedOut: bool, m': M.Master)
    requires m.Valid() && !m.hung && OnlyUser(m.users, u, UWaitingSave) && m.users[u].ticket == m.started
    requires QueueTwo(m, timedOut) && OnlyUnknown(m.queue) && m.acts == [] && m.users[u].cmd == CmdReplace
    requires m.queue != [] && m.queue[0].kind == EvCommitUnsuccess && Concerns(m.queue[0], m.users[u].msgNumber)
    requires m' == M.CommitFailedAll(Dequeued(m), m.queue[0].number, m.queue[0].response)
    ensures m'.Valid() && |m'.peers| == |m.peers| && m'.file == m.file
    ensures m'.acts == [Answered(m.started, M.CommandOf(m.users[u]), Unknown(m.users[u].msgNumber))]
    ensures forall i :: 0 <= i < |m.out| ==> m'.out[i] == m.out[i] + [End(false, m.queue[0].number)]
  {
    assert m.queue[0] in m.queue;
    FailGone(m, u, timedOut, m');
  }

  lemma CommitsOf(m: M.Master, replies: Net, past: set<Act>, u: nat)
    requires Base(m, replies, past) && PhaseTwo(m, replies, past, u)
    ensures forall i, l :: 0 <= i < |m.out| && l in m.out[i] && l.Commit? ==> l.command == M.CommandOf(m.users[u])
  {
    forall i, l | 0 <= i < |m.out| && l in m.out[i] && l.Commit? ensures l.command == M.CommandOf(m.users[u]) {
      assert LinkTwo(m.out[i], replies[i], m.peers[i], i, m.started, M.CommandOf(m.users[u]), past);
    }
  }

  lemma FailureBoards(s: Cluster, b: Boards, c: Command, t: nat, s': Cluster)
    requires Truthful(b, s.trace) && s.master.file == Replayed(b, s.trace).master == s'.master.file
    requires Save(Replayed(b, s.trace).slaves, Heard(c), true).result == NotFound && c.cmd == CmdReplace
    requires s'.trace == s.trace + [Answered(t, c, Unknown(NumberOf(c.body)))]
    ensures Truthful(b, s'.trace) && s'.master.file == Replayed(b, s'.trace).master
    ensures Done(s'.trace) == Done(s.trace) + [c]
    ensures Replayed(b, s'.trace) == After(Replayed(b, s.trace), c) == Replayed(b, s.trace)
  {
    NotFoundSave(Replayed(b, s.trace).slaves, Heard(c));
    ReplayOne(b, s.trace, Answered(t, c, Unknown(NumberOf(c.body))));
  }

  /** The slaves' files after a failure: nobody found the line, so nothing changed. */
  lemma FailureIdle(s: Cluster, f: string, c: Command, s': Cluster, line: Line)
    requires Shape(s) && Shape(s') && SlavesTwo(s, Past(s.trace), f, c) && SameFiles(s, s') && !line.Commit?
    requires Save(f, Heard(c), true).file == f
    requires forall i :: 0 <= i < |s.slaves| ==> s'.master.out[i] == s.master.out[i] + [line]
    requires forall i, l :: 0 <= i < |s.slaves| && l in s.master.out[i] && l.Commit? ==> l.command == c
    ensures SlavesIdle(s', f)
  {
    forall i, l | 0 <= i < |s'.slaves| && l in s'.master.out[i] && l.Commit? ensures Harmless(f, l.command) {
      assert l in s.master.out[i];
    }
  }

  lemma FailureGood(s: Cluster, b: Boards, u: nat, c: Command, line: Line, s': Cluster)
    requires Shape(s) && Shape(s') && Good(s, b, InPhaseTwo(u)) && c == M.CommandOf(s.master.users[u])
    requires Save(Replayed(b, s.trace).slaves, Heard(c), true).result == NotFound && c.cmd == CmdReplace
    requires SameFiles(s, s') && s'.master.file == s.master.file && !line.Commit?
    requires forall i :: 0 <= i < |s.slaves| ==> s'.master.out[i] == s.master.out[i] + [line]
    requires forall i, l :: 0 <= i < |s.slaves| && l in s.master.out[i] && l.Commit? ==> l.command == c
    requires s'.trace == s.trace + [Answered(s.master.started, c, Unknown(NumberOf(c.body)))]
    ensures Good(s', b, InEnding(c))
    ensures Done(s'.trace) == Done(s.trace) + [c] && Replayed(b, s'.trace) == After(Replayed(b, s.trace), c)
  {
    var f := Replayed(b, s.trace).slaves;
    FailureBoards(s, b, c, s.master.started, s');
    NotFoundSave(f, Heard(c));
    FailureIdle(s, f, c, s', line);
  }

  lemma GoodFailure(s: Cluster, b: Boards, u: nat, m': M.Master, s': Cluster)
    requires Now(s, InPhaseTwo(u)) && Good(s, b, InPhaseTwo(u)) && s.master.queue != [] && Clean(Past(s.trace))
    requires s.master.queue[0].kind == EvCommitUnsuccess && Concerns(s.master.queue[0], s.master.users[u].msgNumber)
    requires m' == M.CommitFailedAll(Dequeued(s.master), s.master.queue[0].number, s.master.queue[0].response)
    requires s' == Absorb(s, m')
    ensures var c := M.CommandOf(s.master.users[u]);
            && Shape(s') && Good(s', b, InEnding(c))
            && Done(s'.trace) == Done(s.trace) + [c]
  {
    var m, c, f := s.master, M.CommandOf(s.master.users[u]), Replayed(b, s.trace).slaves;
    var a := SomebodyFailed(m, s.replies, Past(s.trace), u);
    FailureIsUnknown(s, f, c, a);
    UnknownParts(m, u, PhaseTwoTimeout(m.started) in Past(s.trace), m');
    CommitsOf(m, s.replies, Past(s.trace), u);
    FailureGood(s, b, u, c, End(false, m.queue[0].number), s');
  }

  // ---------- every step ----------

  /** An answer in phase two adds its command to those applied; nothing else does. */
  ghost predicate DoneMoves(s: Cluster, stage: Stage, s': Cluster, stage': Stage) {
    if stage.InPhaseTwo? && stage'.InEnding? then
      && stage.user < |s.master.users|
      && Done(s'.trace) == Done(s.trace) + [M.CommandOf(s.master.users[stage.user])]
    else
      Done(s'.trace) == Done(s.trace)
  }

  lemma HandleIsCommit(m: M.Master, failing: set<nat>)
    requires m.queue != []
    ensures m.queue[0].kind == EvCommitSuccess ==>
              M.Handle(m, failing) == M.CommitSucceeded(Dequeued(m), m.queue[0].number, failing)
    ensures m.queue[0].kind == EvCommitUnsuccess ==>
              M.Handle(m, failing) == M.CommitFailedAll(Dequeued(m), m.queue[0].number, m.queue[0].response)
  {
  }

  lemma GoodHang(s: Cluster, b: Boards, u: nat, failing: set<nat>, m': M.Master, s': Cluster)
    requires Now(s, InPhaseTwo(u)) && Good(s, b, InPhaseTwo(u)) && s.master.queue != []
    requires s.master.queue[0].kind == EvCommitSuccess || s.master.queue[0].kind == EvCommitUnsuccess
    requires !Concerns(s.master.queue[0], s.master.users[u].msgNumber)
    requires m' == M.Handle(s.master, failing) && s' == Absorb(s, m')
    ensures Shape(s') && Good(s', b, InHanging(u)) && Done(s'.trace) == Done(s.trace)
    ensures AfterEvent(s.master, InPhaseTwo(u), s.master.queue[0]) == InHanging(u)
  {
    HangEffect(s.master, u, failing, m');
    WaitStep(s, b, InPhaseTwo(u), s', [], InHanging(u));
  }

  /** A commit handler that finds its user. */
  lemma GoodAnswer(s: Cluster, b: Boards, u: nat, failing: set<nat>, m': M.Master, s': Cluster)
    requires Now(s, InPhaseTwo(u)) && Good(s, b, InPhaseTwo(u)) && s.master.queue != []
    requires s.master.queue[0].kind == EvCommitSuccess || s.master.queue[0].kind == EvCommitUnsuccess
    requires Concerns(s.master.queue[0], s.master.users[u].msgNumber)
    requires m' == M.Handle(s.master, failing) && s' == Absorb(s, m')
    requires Clean(Past(s.trace)) && Clean(Past(s'.trace))
    ensures var c := M.CommandOf(s.master.users[u]);
            && Shape(s') && Good(s', b, InEnding(c))
            && Done(s'.trace) == Done(s.trace) + [c]
    ensures AfterEvent(s.master, InPhaseTwo(u), s.master.queue[0]) == InEnding(M.CommandOf(s.master.users[u]))
  {
    HandleIsCommit(s.master, failing);
    if s.master.queue[0].kind == EvCommitSuccess {
      GoodSuccess(s, b, u, failing, m', s');
    } else {
      GoodFailure(s, b, u, m', s');
    }
  }

  lemma GoodCommit(s: Cluster, b: Boards, u: nat, failing: set<nat>, m': M.Master, s': Cluster)
    requires Now(s, InPhaseTwo(u)) && Good(s, b, InPhaseTwo(u)) && s.master.queue != []
    requires s.master.queue[0].kind == EvCommitSuccess || s.master.queue[0].kind == EvCommitUnsuccess
    requires m' == M.Handle(s.master, failing) && s' == Absorb(s, m')
    requires Clean(Past(s.trace)) && Clean(Past(s'.trace))
    ensures var stage' := AfterEvent(s.master, InPhaseTwo(u), s.master.queue[0]);
            Shape(s') && Good(s', b, stage') && DoneMoves(s, InPhaseTwo(u), s', stage')
  {
    if Concerns(s.master.queue[0], s.master.users[u].msgNumber) {
      GoodAnswer(s, b, u, failing, m', s');
    } else {
      GoodHang(s, b, u, failing, m', s');
    }
  }

  lemma HeadTwo(s: Cluster, u: nat, failing: set<nat>)
    requires Now(s, InPhaseTwo(u)) && s.master.queue != []
    ensures s.master.queue[0].kind in {EvCommitSuccess, EvCommitUnsuccess, EvMasterTimeout}
    ensures s.master.queue[0].kind == EvMasterTimeout ==>
              M.Handle(s.master, failing) == M.TimedOut(Dequeued(s.master))
  {
    KindsTwo(s.master, PhaseTwoTimeout(s.master.started) in Past(s.trace));
  }

  lemma GoodHandleTwo(s: Cluster, b: Boards, u: nat, failing: set<nat>, m': M.Master, s': Cluster)
    requires Now(s, InPhaseTwo(u)) && Good(s, b, InPhaseTwo(u)) && s.master.queue != []
    requires m' == M.Handle(s.master, failing) && s' == Absorb(s, m')
    requires Clean(Past(s.trace)) && Clean(Past(s'.trace))
    ensures var stage' := AfterEvent(s.master, InPhaseTwo(u), s.master.queue[0]);
            Shape(s') && Good(s', b, stage') && DoneMoves(s, InPhaseTwo(u), s', stage')
  {
    HeadTwo(s, u, failing);
    if s.master.queue[0].kind == EvMasterTimeout {
      GoodTimeout(s, b, InPhaseTwo(u), m', s');
    } else {
      GoodCommit(s, b, u, failing, m', s');
    }
  }

  lemma GoodHandle(s: Cluster, b: Boards, stage: Stage, failing: set<nat>, m': M.Master, s': Cluster)
    requires Now(s, stage) && !s.master.hung && Good(s, b, stage) && s.master.queue != []
    requires m' == M.Handle(s.master, failing) && s' == Absorb(s, m')
    requires Clean(Past(s.trace)) && Clean(Past(s'.trace))
    ensures var stage' := AfterEvent(s.master, stage, s.master.queue[0]);
            Shape(s') && Good(s', b, stage') && DoneMoves(s, stage, s', stage')
  {
    match stage {
      case InPhaseOne(u) =>
        KindsOne(s.master);
        if s.master.queue[0].kind == EvPrecommitAck {
          GoodAck(s, b, u, m', s');
        } else if s.master.queue[0].kind == EvPrecommitErr {
          GoodErr(s, b, u, m', s');
        } else {
          GoodTimeout(s, b, stage, m', s');
        }
      case InPhaseTwo(u) =>
        GoodHandleTwo(s, b, u, failing, m', s');
      case _ =>
        IdleHandle(s.master, s.replies, Past(s.trace), stage, failing);
        GoodAside(s, b, stage, m', s');
    }
  }

  lemma GoodSubmit(s: Cluster, b: Boards, stage: Stage, u: nat, m: M.Master, c: Command, m': M.Master, s': Cluster)
    requires Shape(s) && Good(s, b, stage) && !Waits(stage) && u < |s.master.users|
    requires m == s.master.(counter := m.counter)
    requires m' == M.Broadcast(M.InitConnection(M.SaveClientCmd(m, u, c)), Precommit, MPrecommitMulticasted)
    requires s' == Absorb(s, m')
    ensures Shape(s') && Good(s', b, InPhaseOne(u)) && Done(s'.trace) == Done(s.trace)
  {
    BeginEffect(m, u, c, m');
    IdleStep(s, b, stage, s', m'.acts, InPhaseOne(u));
  }

  lemma GoodTimer(s: Cluster, b: Boards, stage: Stage, step: Step, s': Cluster)
    requires Shape(s) && Enabled(s, step) && Good(s, b, stage) && s' == Do(s, step)
    requires step.MasterTimer? || step.SlaveTimer? || step.SlaveTimeout?
    ensures Shape(s') && Good(s', b, stage) && Done(s'.trace) == Done(s.trace)
  {
    assert s'.trace == s.trace;
    GoodAside(s, b, stage, s'.master, s');
  }

  lemma GoodCommand(s: Cluster, b: Boards, stage: Stage, step: Step, s': Cluster)
    requires Shape(s) && Enabled(s, step) && IsCommand(step) && s' == Do(s, step)
    requires Good(s, b, stage) && !Waits(stage)
    ensures Shape(s') && Good(s', b, InPhaseOne(step.user)) && Done(s'.trace) == Done(s.trace)
  {
    var m := s.master;
    match step {
      case SubmitWrite(u, text) =>
        GoodSubmit(s, b, stage, u, m.(counter := Allocate(m.counter)), NewCommand(m, step),
                   M.SubmitWrite(m, u, text), s');
      case SubmitReplace(u, number, text) =>
        GoodSubmit(s, b, stage, u, m, NewCommand(m, step), M.SubmitReplace(m, u, number, text), s');
    }
  }

  lemma GoodStep(s: Cluster, b: Boards, stage: Stage, step: Step, s': Cluster)
    requires Now(s, stage) && OneAtATime(s, step) && Good(s, b, stage) && s' == Do(s, step)
    requires Clean(Past(s.trace)) && Clean(Past(s'.trace))
    ensures var stage' := NextStage(s.master, stage, step);
            Shape(s') && Good(s', b, stage') && DoneMoves(s, stage, s', stage')
  {
    if IsCommand(step) {
      QuietWaits(s, stage);
      GoodCommand(s, b, stage, step, s');
    } else {
      match step {
        case ToSlave(i, canOpen) => GoodToSlave(s, b, stage, i, canOpen, s');
        case ToMaster(i) => GoodToMaster(s, b, stage, i, M.Receive(s.master, i, HeardReply(s.replies[i][0])), s');
        case HandleEvent(failing) => GoodHandle(s, b, stage, failing, M.Handle(s.master, failing), s');
        case _ => GoodTimer(s, b, stage, step, s');
      }
    }
  }
}
