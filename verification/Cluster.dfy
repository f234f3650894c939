/**
 The whole system as steps: one master with its users, N slaves, a FIFO connection each way, event
 queue and one-shot timers. Handlers are atomic and run in queue order; lines are delivered, timers
 expire and events are handled in any interleaving.
 */
module Cluster {
  import opened Wrappers
  import opened Protocol
  import M = Master
  import S = Slave

  /** master.out[i] leads to slave i, replies[i] back from it; both hold lines as they were sent. `trace`
      is history. */
  datatype Cluster = Cluster(
    master: M.Master, slaves: seq<S.Slave>, replies: seq<seq<Reply>>, trace: seq<Act>, debugLevel: nat)

  datatype Step =
    | SubmitWrite(user: nat, text: string)
    | SubmitReplace(user: nat, number: string, text: string)
    | ToSlave(slave: nat, canOpen: bool)
    | ToMaster(slave: nat)
    | HandleEvent(failing: set<nat>)
    | MasterTimer
    | SlaveTimer(slave: nat)
    | SlaveTimeout(slave: nat)

  ghost predicate Shape(s: Cluster) {
    && s.master.Valid() && |s.slaves| == |s.replies| == |s.master.peers|
    && s.master.acts == []
  }

  /** A user only sends a command when the last one has been answered. */
  ghost predicate Enabled(s: Cluster, step: Step)
    requires Shape(s)
  {
    match step
    case SubmitWrite(u, _) => !s.master.hung && u < |s.master.users| && !M.Waiting(s.master.users[u])
    case SubmitReplace(u, _, _) => !s.master.hung && u < |s.master.users| && !M.Waiting(s.master.users[u])
    case ToSlave(i, _) => i < |s.slaves| && s.master.out[i] != []
    case ToMaster(i) => !s.master.hung && i < |s.slaves| && s.replies[i] != []
    case HandleEvent(_) => !s.master.hung && s.master.queue != []
    case MasterTimer => s.master.timer
    case SlaveTimer(i) => i < |s.slaves| && s.slaves[i].timer
    case SlaveTimeout(i) => i < |s.slaves| && s.slaves[i].timeouts > 0
  }

  /** A handler's acts become part of the history. */
  ghost function Absorb(s: Cluster, m: M.Master): Cluster {
    s.(master := m.(acts := []), trace := s.trace + m.acts)
  }

  /** What a delivered line adds to the history. */
  ghost function ActsOf(i: nat, round: nat, line: Line, e: S.Effect): seq<Act> {
    if line.Commit? && e.stored.Some? then [SlaveSaved(i, line.ticket, line.command, e.stored.value)]
    else if e.reply == Some(PrecommitAck) then [Voted(i, round)]
    else []
  }

  ghost function Deliver(s: Cluster, i: nat, canOpen: bool): Cluster
    requires Shape(s) && i < |s.slaves| && s.master.out[i] != []
  {
    var line := HeardLine(s.master.out[i][0]);
    var e := S.Receive(s.slaves[i], line, s.debugLevel, canOpen);
    s.(master := s.master.(out := s.master.out[i := s.master.out[i][1..]]),
       slaves := s.slaves[i := e.slave],
       replies := if e.reply.Some? then s.replies[i := s.replies[i] + [e.reply.value]] else s.replies,
       trace := s.trace + ActsOf(i, s.master.started, line, e))
  }

  ghost function DropReply(s: Cluster, i: nat): Cluster
    requires i < |s.replies| && s.replies[i] != []
  {
    s.(replies := s.replies[i := s.replies[i][1..]])
  }

  ghost function Do(s: Cluster, step: Step): Cluster
    requires Shape(s) && Enabled(s, step)
  {
    match step
    case SubmitWrite(u, text) => Absorb(s, M.SubmitWrite(s.master, u, text))
    case SubmitReplace(u, number, text) => Absorb(s, M.SubmitReplace(s.master, u, number, text))
    case ToSlave(i, canOpen) => Deliver(s, i, canOpen)
    case ToMaster(i) => Absorb(DropReply(s, i), M.Receive(s.master, i, HeardReply(s.replies[i][0])))
    case HandleEvent(failing) => Absorb(s, M.Handle(s.master, failing))
    case MasterTimer => Absorb(s, M.Expire(s.master))
    case SlaveTimer(i) => s.(slaves := s.slaves[i := S.Expire(s.slaves[i])])
    case SlaveTimeout(i) => s.(slaves := s.slaves[i := S.TimedOut(s.slaves[i])])
  }

  // ---------- the loops keep the shape ----------

  lemma {:induction false} AckKeepsShape(m: M.Master)
    requires m.Valid()
    ensures var m' := M.PrecommitAcked(m); m'.Valid() && |m'.peers| == |m.peers|
    decreases M.CountUsers(m.users, UWaitingCommit)
  {
    var k := M.FindUser(m.users, UWaitingCommit);
    if k < |m.users| {
      M.CountAfterMove(m.users, k, m.users[k].(state := UWaitingSave), UWaitingCommit);
      AckKeepsShape(M.CommitUser(m, k));
    }
  }

  lemma {:induction false} ErrKeepsShape(m: M.Master)
    requires m.Valid()
    ensures var m' := M.RejectAll(m); m'.Valid() && |m'.peers| == |m.peers|
    decreases M.CountUsers(m.users, UWaitingCommit)
  {
    var k := M.FindUser(m.users, UWaitingCommit);
    if k < |m.users| {
      M.CountAfterMove(m.users, k, M.Cleared(m.users[k]), UWaitingCommit);
      ErrKeepsShape(M.RejectUser(m, k));
    }
  }

  lemma {:induction false} SuccessKeepsShape(m: M.Master, number: string, failing: set<nat>)
    requires m.Valid()
    ensures var m' := M.CommitSucceeded(m, number, failing); m'.Valid() && |m'.peers| == |m.peers|
    decreases M.CountUsers(m.users, UWaitingSave)
  {
    var k := M.FindUser(m.users, UWaitingSave);
    if k < |m.users| && number == m.users[k].msgNumber {
      M.CountAfterMove(m.users, k, M.Cleared(m.users[k]), UWaitingSave);
      SuccessKeepsShape(M.FinishUser(m, k, number, failing), number, failing);
    }
  }

  lemma {:induction false} FailureKeepsShape(m: M.Master, number: string, response: Option<Reply>)
    requires m.Valid()
    ensures var m' := M.CommitFailedAll(m, number, response); m'.Valid() && |m'.peers| == |m.peers|
    decreases M.CountUsers(m.users, UWaitingSave)
  {
    var k := M.FindUser(m.users, UWaitingSave);
    if k < |m.users| && (number == "" || number == m.users[k].msgNumber) {
      M.CountAfterMove(m.users, k, M.Cleared(m.users[k]), UWaitingSave);
      FailureKeepsShape(M.FailUser(m, k, number, response), number, response);
    }
  }

  lemma HandleKeepsShape(m: M.Master, failing: set<nat>)
    requires m.Valid() && m.queue != []
    ensures var m' := M.Handle(m, failing); m'.Valid() && |m'.peers| == |m.peers|
  {
    var ev, m1 := m.queue[0], m.(queue := m.queue[1..]);
    match ev.kind {
      case EvPrecommitAck => AckKeepsShape(m1);
      case EvPrecommitErr => ErrKeepsShape(M.Record(M.Broadcast(m1, Abort, Idle), AbortSent(m1.started)));
      case EvCommitSuccess => SuccessKeepsShape(m1, ev.number, failing);
      case EvCommitUnsuccess => FailureKeepsShape(m1, ev.number, ev.response);
      case EvMasterTimeout =>
    }
  }

  lemma DoKeepsShape(s: Cluster, step: Step)
    requires Shape(s) && Enabled(s, step)
    ensures Shape(Do(s, step)) && |Do(s, step).slaves| == |s.slaves|
  {
    if step.HandleEvent? {
      HandleKeepsShape(s.master, step.failing);
    }
  }

  // ---------- runs ----------

  ghost predicate IsRun(s: Cluster, steps: seq<Step>)
    requires Shape(s)
    decreases |steps|
  {
    steps == [] || (Enabled(s, steps[0]) && (DoKeepsShape(s, steps[0]); IsRun(Do(s, steps[0]), steps[1..])))
  }

  ghost function Final(s: Cluster, steps: seq<Step>): (e: Cluster)
    requires Shape(s) && IsRun(s, steps)
    ensures Shape(e)
    decreases |steps|
  {
    if steps == [] then s else DoKeepsShape(s, steps[0]); Final(Do(s, steps[0]), steps[1..])
  }

  /** Nothing under way: nobody waits, no event is queued and no line is on a connection. */
  ghost predicate Quiet(s: Cluster)
    requires Shape(s)
  {
    && (forall k :: 0 <= k < |s.master.users| ==> !M.Waiting(s.master.users[k]))
    && s.master.queue == []
    && (forall i :: 0 <= i < |s.slaves| ==> s.master.out[i] == [] && s.replies[i] == [])
  }

  /** A run may start from any quiet state: peer states, slave states, slave timers and queued slave
      timeouts may be left over from earlier rounds. */
  ghost predicate Initial(s: Cluster)
    requires Shape(s)
  {
    Quiet(s) && !s.master.timer && !s.master.hung && s.master.started == 0 && s.trace == []
  }

  /** One command in flight: the next one is taken when everything is quiet again. */
  ghost predicate OneAtATime(s: Cluster, step: Step)
    requires Shape(s)
  {
    Enabled(s, step) && (step.SubmitWrite? || step.SubmitReplace? ==> Quiet(s))
  }

  ghost predicate IsSerialRun(s: Cluster, steps: seq<Step>)
    requires Shape(s)
    decreases |steps|
  {
    steps == [] || (OneAtATime(s, steps[0]) && (DoKeepsShape(s, steps[0]); IsSerialRun(Do(s, steps[0]), steps[1..])))
  }

  lemma SerialIsRun(s: Cluster, steps: seq<Step>)
    requires Shape(s) && IsSerialRun(s, steps)
    ensures IsRun(s, steps)
    decreases |steps|
  {
    if steps != [] {
      DoKeepsShape(s, steps[0]);
      SerialIsRun(Do(s, steps[0]), steps[1..]);
    }
  }
}
