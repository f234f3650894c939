/**
 Every round comes to an end. A weight is put on every line, reply, event, timer and waiting user, such
 that each step other than a new command makes the total smaller; and with one command in flight no run
 can stop before the user has been answered.
 */
module Progress {
  import opened Wrappers
  import opened Text
  import opened Store
  import opened Numbers
  import opened Protocol
  import opened History
  import opened Cluster
  import opened SerialSteps
  import opened Serial
  import opened SerialRuns
  import opened Handlers
  import M = Master
  import S = Slave

  // ---------- weights, for n slaves ----------

  function Repeat(n: nat, w: nat): nat {
    if n == 0 then 0 else w + Repeat(n - 1, w)
  }

  /** An ERR event sends n ABORT lines. */
  function EventWeight(n: nat): nat {
    n + 1
  }

  function TimeoutWeight(n: nat): nat {
    EventWeight(n) + 1
  }

  function TimerWeight(n: nat): nat {
    TimeoutWeight(n) + 1
  }

  function ReplyWeight(n: nat): nat {
    EventWeight(n) + 1
  }

  /** PRECOMMIT is answered and arms a slave timer, COMMIT is answered, ABORT and END are not. */
  function LineWeight(n: nat, line: Line): nat {
    match line
    case Precommit => ReplyWeight(n) + 3
    case Commit(_, _) => ReplyWeight(n) + 1
    case _ => 1
  }

  /** Who waits for the save will cause n END lines, who waits for the commit also n COMMIT lines and a
      timer. */
  function SaveWeight(n: nat): nat {
    n
  }

  function CommitWeight(n: nat): nat {
    Repeat(n, ReplyWeight(n) + 1) + TimerWeight(n) + SaveWeight(n)
  }

  function UserWeight(n: nat, u: M.User): nat {
    if u.state == UWaitingCommit then CommitWeight(n) else if u.state == UWaitingSave then SaveWeight(n) else 0
  }

  // ---------- totals ----------

  function Lines(n: nat, out: seq<Line>): nat {
    if out == [] then 0 else LineWeight(n, out[0]) + Lines(n, out[1..])
  }

  function AllLines(n: nat, out: seq<seq<Line>>): nat {
    if out == [] then 0 else Lines(n, out[0]) + AllLines(n, out[1..])
  }

  function Replies(replies: seq<seq<Reply>>): nat {
    if replies == [] then 0 else |replies[0]| + Replies(replies[1..])
  }

  function Events(n: nat, queue: seq<Event>): nat {
    if queue == [] then 0
    else (if queue[0].kind == EvMasterTimeout then TimeoutWeight(n) else EventWeight(n)) + Events(n, queue[1..])
  }

  function Users(n: nat, users: seq<M.User>): nat {
    if users == [] then 0 else UserWeight(n, users[0]) + Users(n, users[1..])
  }

  function SlaveWeight(sl: S.Slave): nat {
    (if sl.timer then 2 else 0) + sl.timeouts
  }

  function Slaves(slaves: seq<S.Slave>): nat {
    if slaves == [] then 0 else SlaveWeight(slaves[0]) + Slaves(slaves[1..])
  }

  function Timer(n: nat, timer: bool): nat {
    if timer then TimerWeight(n) else 0
  }

  /** What the master and the lines it has sent still have to go through. */
  function MasterLoad(n: nat, m: M.Master): nat {
    AllLines(n, m.out) + Events(n, m.queue) + Users(n, m.users) + Timer(n, m.timer)
  }

  function ReplyLoad(n: nat, replies: seq<seq<Reply>>): nat {
    Repeat(Replies(replies), ReplyWeight(n))
  }

  ghost function Load(s: Cluster): nat {
    var n := |s.slaves|;
    MasterLoad(n, s.master) + ReplyLoad(n, s.replies) + Slaves(s.slaves)
  }

  // ---------- how totals change ----------

  lemma {:induction false} LinesAppend(n: nat, out: seq<Line>, line: Line)
    ensures Lines(n, out + [line]) == Lines(n, out) + LineWeight(n, line)
  {
    if out == [] {
      assert out + [line] == [line];
    } else {
      assert (out + [line])[1..] == out[1..] + [line];
      LinesAppend(n, out[1..], line);
    }
  }

  lemma {:induction false} AllLinesSent(n: nat, out: seq<seq<Line>>, line: Line)
    ensures AllLines(n, M.Sent(out, line)) == AllLines(n, out) + Repeat(|out|, LineWeight(n, line))
  {
    if out != [] {
      assert M.Sent(out, line)[1..] == M.Sent(out[1..], line);
      LinesAppend(n, out[0], line);
      AllLinesSent(n, out[1..], line);
    }
  }

  lemma {:induction false} AllLinesUpdate(n: nat, out: seq<seq<Line>>, i: nat, lines: seq<Line>)
    requires i < |out|
    ensures AllLines(n, out[i := lines]) == AllLines(n, out) - Lines(n, out[i]) + Lines(n, lines)
  {
    if i == 0 {
      assert out[i := lines][1..] == out[1..];
    } else {
      assert out[i := lines][1..] == out[1..][i - 1 := lines];
      AllLinesUpdate(n, out[1..], i - 1, lines);
    }
  }

  lemma {:induction false} RepliesUpdate(replies: seq<seq<Reply>>, i: nat, rs: seq<Reply>)
    requires i < |replies|
    ensures Replies(replies[i := rs]) == Replies(replies) - |replies[i]| + |rs|
  {
    if i == 0 {
      assert replies[i := rs][1..] == replies[1..];
    } else {
      assert replies[i := rs][1..] == replies[1..][i - 1 := rs];
      RepliesUpdate(replies[1..], i - 1, rs);
    }
  }

  lemma {:induction false} EventsAppend(n: nat, queue: seq<Event>, e: Event)
    ensures Events(n, queue + [e]) ==
            Events(n, queue) + if e.kind == EvMasterTimeout then TimeoutWeight(n) else EventWeight(n)
  {
    if queue == [] {
      assert queue + [e] == [e];
    } else {
      assert (queue + [e])[1..] == queue[1..] + [e];
      EventsAppend(n, queue[1..], e);
    }
  }

  lemma {:induction false} UsersUpdate(n: nat, users: seq<M.User>, k: nat, u: M.User)
    requires k < |users|
    ensures Users(n, users[k := u]) == Users(n, users) - UserWeight(n, users[k]) + UserWeight(n, u)
  {
    if k == 0 {
      assert users[k := u][1..] == users[1..];
    } else {
      assert users[k := u][1..] == users[1..][k - 1 := u];
      UsersUpdate(n, users[1..], k - 1, u);
    }
  }

  lemma {:induction false} SlavesUpdate(slaves: seq<S.Slave>, i: nat, sl: S.Slave)
    requires i < |slaves|
    ensures Slaves(slaves[i := sl]) == Slaves(slaves) - SlaveWeight(slaves[i]) + SlaveWeight(sl)
  {
    if i == 0 {
      assert slaves[i := sl][1..] == slaves[1..];
    } else {
      assert slaves[i := sl][1..] == slaves[1..][i - 1 := sl];
      SlavesUpdate(slaves[1..], i - 1, sl);
    }
  }

  lemma {:induction false} RepeatOne(n: nat)
    ensures Repeat(n, 1) == n
  {
    if n > 0 {
      RepeatOne(n - 1);
    }
  }

  // ---------- handlers ----------

  lemma CommitLoad(n: nat, m: M.Master, k: nat, m': M.Master)
    requires m.Valid() && |m.peers| == n && k < |m.users| && m.users[k].state == UWaitingCommit
    requires m' == M.CommitUser(m, k)
    ensures MasterLoad(n, m') <= MasterLoad(n, m)
  {
    var line := Commit(M.CommandOf(m.users[k]), m.users[k].ticket);
    CommitUserEffect(m, k, m');
    AllLinesSent(n, m.out, line);
    UsersUpdate(n, m.users, k, m.users[k].(state := UWaitingSave));
  }

  lemma {:induction false} AckLoad(n: nat, m: M.Master)
    requires m.Valid() && |m.peers| == n
    ensures MasterLoad(n, M.PrecommitAcked(m)) <= MasterLoad(n, m)
    decreases M.CountUsers(m.users, UWaitingCommit)
  {
    var k := M.FindUser(m.users, UWaitingCommit);
    if k < |m.users| {
      var m1 := M.CommitUser(m, k);
      CommitUserEffect(m, k, m1);
      CommitLoad(n, m, k, m1);
      M.CountAfterMove(m.users, k, m.users[k].(state := UWaitingSave), UWaitingCommit);
      AckLoad(n, m1);
    }
  }

  lemma {:induction false} RejectLoad(n: nat, m: M.Master)
    ensures MasterLoad(n, M.RejectAll(m)) <= MasterLoad(n, m)
    decreases M.CountUsers(m.users, UWaitingCommit)
  {
    var k := M.FindUser(m.users, UWaitingCommit);
    if k < |m.users| {
      UsersUpdate(n, m.users, k, M.Cleared(m.users[k]));
      M.CountAfterMove(m.users, k, M.Cleared(m.users[k]), UWaitingCommit);
      RejectLoad(n, M.RejectUser(m, k));
    }
  }

  lemma AbortLoad(n: nat, m: M.Master)
    requires m.Valid() && |m.peers| == n
    ensures MasterLoad(n, M.PrecommitFailed(m)) <= MasterLoad(n, m) + n
  {
    var m1 := M.Record(M.Broadcast(m, Abort, Idle), AbortSent(m.started));
    AllLinesSent(n, m.out, Abort);
    RepeatOne(n);
    RejectLoad(n, m1);
  }

  lemma AnswerLoad(n: nat, m: M.Master, k: nat, line: Line, m': M.Master)
    requires m.Valid() && |m.peers| == n && k < |m.users| && m.users[k].state == UWaitingSave && line.End?
    requires m'.out == M.Sent(m.out, line) && m'.users == m.users[k := M.Cleared(m.users[k])]
    requires m'.queue == m.queue && m'.timer == m.timer
    ensures MasterLoad(n, m') <= MasterLoad(n, m)
  {
    AllLinesSent(n, m.out, line);
    RepeatOne(n);
    UsersUpdate(n, m.users, k, M.Cleared(m.users[k]));
  }

  lemma {:induction false} SuccessLoad(n: nat, m: M.Master, number: string, failing: set<nat>)
    requires m.Valid() && |m.peers| == n
    ensures MasterLoad(n, M.CommitSucceeded(m, number, failing)) <= MasterLoad(n, m)
    decreases M.CountUsers(m.users, UWaitingSave)
  {
    var k := M.FindUser(m.users, UWaitingSave);
    if k < |m.users| && number == m.users[k].msgNumber {
      var m1 := M.FinishUser(m, k, number, failing);
      FinishUserEffect(m, k, number, failing, m1);
      var canOpen := m.users[k].ticket !in failing;
      AnswerLoad(n, m, k, End(Save(m.file, M.CommandOf(m.users[k]), canOpen).result == Saved, number), m1);
      M.CountAfterMove(m.users, k, M.Cleared(m.users[k]), UWaitingSave);
      SuccessLoad(n, m1, number, failing);
    }
  }

  lemma {:induction false} FailureLoad(n: nat, m: M.Master, number: string, response: Option<Reply>)
    requires m.Valid() && |m.peers| == n
    ensures MasterLoad(n, M.CommitFailedAll(m, number, response)) <= MasterLoad(n, m)
    decreases M.CountUsers(m.users, UWaitingSave)
  {
    var k := M.FindUser(m.users, UWaitingSave);
    if k < |m.users| && (number == "" || number == m.users[k].msgNumber) {
      var m1 := M.FailUser(m, k, number, response);
      FailUserEffect(m, k, number, response, m1);
      AnswerLoad(n, m, k, End(false, number), m1);
      M.CountAfterMove(m.users, k, M.Cleared(m.users[k]), UWaitingSave);
      FailureLoad(n, m1, number, response);
    }
  }

  lemma TimedOutLoad(n: nat, m: M.Master)
    ensures MasterLoad(n, M.TimedOut(m)) <= MasterLoad(n, m) + EventWeight(n)
  {
    EventsAppend(n, m.queue, Event(EvPrecommitErr, "", None));
    EventsAppend(n, m.queue, Event(EvCommitUnsuccess, "", None));
  }

  /** Handling an event makes the load smaller. */
  lemma HandleLoad(n: nat, m: M.Master, failing: set<nat>)
    requires m.Valid() && |m.peers| == n && m.queue != []
    ensures MasterLoad(n, M.Handle(m, failing)) < MasterLoad(n, m)
  {
    var ev, m1 := m.queue[0], Dequeued(m);
    match ev.kind {
      case EvPrecommitAck => AckLoad(n, m1);
      case EvPrecommitErr => AbortLoad(n, m1);
      case EvCommitSuccess => SuccessLoad(n, m1, ev.number, failing);
      case EvCommitUnsuccess => FailureLoad(n, m1, ev.number, ev.response);
      case EvMasterTimeout => TimedOutLoad(n, m1);
    }
  }

  /** A reply queues at most one event. */
  lemma ReceiveLoad(n: nat, m: M.Master, i: nat, reply: Reply)
    requires m.Valid() && i < |m.peers|
    ensures MasterLoad(n, M.Receive(m, i, reply)) <= MasterLoad(n, m) + EventWeight(n)
  {
    var m' := M.Receive(m, i, reply);
    ReceiveActs(m, i, reply);
    ReceiveKeepsFiles(m, i, reply);
    ReceiveQueue(m, i, reply);
    if m'.queue != m.queue {
      EventsAppend(n, m.queue, m'.queue[|m.queue|]);
    }
  }

  lemma ReceiveQueue(m: M.Master, i: nat, reply: Reply)
    requires m.Valid() && i < |m.peers|
    ensures var m' := M.Receive(m, i, reply);
            && (m'.timer ==> m.timer)
            && (m'.queue == m.queue
                || (|m'.queue| == |m.queue| + 1 && m'.queue == m.queue + [m'.queue[|m.queue|]]
                    && m'.queue[|m.queue|].kind != EvMasterTimeout))
  {
  }

  lemma ExpireLoad(n: nat, m: M.Master)
    requires m.timer
    ensures MasterLoad(n, M.Expire(m)) < MasterLoad(n, m)
  {
    EventsAppend(n, m.queue, Event(EvMasterTimeout, "", None));
  }

  /** What a command adds: n PRECOMMIT lines, a timer and a waiting user. */
  function CommandWeight(n: nat): nat {
    Repeat(n, ReplyWeight(n) + 3) + TimerWeight(n) + CommitWeight(n)
  }

  lemma SubmitLoad(n: nat, m: M.Master, u: nat, c: Command, m': M.Master)
    requires m.Valid() && |m.peers| == n && u < |m.users|
    requires m' == M.Broadcast(M.InitConnection(M.SaveClientCmd(m, u, c)), Precommit, MPrecommitMulticasted)
    ensures MasterLoad(n, m') <= MasterLoad(n, m) + CommandWeight(n)
  {
    BeginEffect(m, u, c, m');
    AllLinesSent(n, m.out, Precommit);
    UsersUpdate(n, m.users, u, m'.users[u]);
  }

  // ---------- steps ----------

  function ReplyWeightOf(n: nat, reply: Option<Reply>): nat {
    if reply.Some? then ReplyWeight(n) else 0
  }

  /** What a line causes at its slave is lighter than the line. */
  lemma LineCauses(n: nat, sl: S.Slave, line: Line, debugLevel: nat, canOpen: bool)
    ensures var e := S.Receive(sl, HeardLine(line), debugLevel, canOpen);
            SlaveWeight(e.slave) + ReplyWeightOf(n, e.reply) < SlaveWeight(sl) + LineWeight(n, line)
  {
  }

  lemma ReplyAdded(n: nat, replies: seq<seq<Reply>>, i: nat, reply: Option<Reply>, replies': seq<seq<Reply>>)
    requires i < |replies|
    requires replies' == if reply.Some? then replies[i := replies[i] + [reply.value]] else replies
    ensures ReplyLoad(n, replies') == ReplyLoad(n, replies) + ReplyWeightOf(n, reply)
  {
    if reply.Some? {
      RepliesUpdate(replies, i, replies[i] + [reply.value]);
    }
  }

  lemma LineTaken(n: nat, m: M.Master, i: nat)
    requires i < |m.out| && m.out[i] != []
    ensures MasterLoad(n, Taken(m, i)) + LineWeight(n, m.out[i][0]) == MasterLoad(n, m)
  {
    AllLinesUpdate(n, m.out, i, m.out[i][1..]);
  }

  /** A line is taken off its connection; what it causes is lighter. */
  lemma DeliverLoad(s: Cluster, i: nat, canOpen: bool, s': Cluster)
    requires Shape(s) && i < |s.slaves| && s.master.out[i] != [] && s' == Deliver(s, i, canOpen)
    ensures Load(s') < Load(s)
  {
    var n, line := |s.slaves|, s.master.out[i][0];
    var e := S.Receive(s.slaves[i], HeardLine(line), s.debugLevel, canOpen);
    LineCauses(n, s.slaves[i], line, s.debugLevel, canOpen);
    LineTaken(n, s.master, i);
    SlavesUpdate(s.slaves, i, e.slave);
    ReplyAdded(n, s.replies, i, e.reply, s'.replies);
  }

  lemma ReplyCounted(s: Cluster, i: nat, m': M.Master, s': Cluster)
    requires Shape(s) && i < |s.slaves| && s.replies[i] != []
    requires MasterLoad(|s.slaves|, m') <= MasterLoad(|s.slaves|, s.master) + EventWeight(|s.slaves|)
    requires s' == Absorb(DropReply(s, i), m')
    ensures Load(s') < Load(s)
  {
    RepliesUpdate(s.replies, i, s.replies[i][1..]);
  }

  lemma CommandLoad(s: Cluster, step: Step)
    requires Shape(s) && Enabled(s, step) && IsCommand(step)
    ensures Load(Do(s, step)) <= Load(s) + CommandWeight(|s.slaves|)
  {
    var n, m := |s.slaves|, s.master;
    match step {
      case SubmitWrite(u, text) =>
        var m1 := m.(counter := Allocate(m.counter));
        SubmitLoad(n, m1, u, Command(CmdWrite, M.MessageOf(PrintInt(m1.counter), m.users[u], text)),
            M.SubmitWrite(m, u, text));
      case SubmitReplace(u, number, text) =>
        SubmitLoad(n, m, u, Command(CmdReplace, M.MessageOf(number, m.users[u], text)), M.SubmitReplace(m, u,
            number, text));
    }
  }

  /** Every step that is not a new command makes the load smaller. */
  lemma StepLoad(s: Cluster, step: Step)
    requires Shape(s) && Enabled(s, step) && !IsCommand(step)
    ensures Load(Do(s, step)) < Load(s)
  {
    var n := |s.slaves|;
    match step {
      case ToSlave(i, canOpen) => DeliverLoad(s, i, canOpen, Do(s, step));
      case ToMaster(i) =>
        ReceiveLoad(n, s.master, i, HeardReply(s.replies[i][0]));
        ReplyCounted(s, i, M.Receive(s.master, i, HeardReply(s.replies[i][0])), Do(s, step));
      case HandleEvent(failing) => HandleLoad(n, s.master, failing);
      case MasterTimer => ExpireLoad(n, s.master);
      case SlaveTimer(i) => SlavesUpdate(s.slaves, i, S.Expire(s.slaves[i]));
      case SlaveTimeout(i) => SlavesUpdate(s.slaves, i, S.TimedOut(s.slaves[i]));
    }
  }

  ghost function Commands(steps: seq<Step>): nat {
    if steps == [] then 0 else (if IsCommand(steps[0]) then 1 else 0) + Commands(steps[1..])
  }

  lemma StepBound(s: Cluster, step: Step, s': Cluster)
    requires Shape(s) && Enabled(s, step) && s' == Do(s, step)
    ensures Shape(s') && |s'.slaves| == |s.slaves|
    ensures Load(s') + 1 <= Load(s) + if IsCommand(step) then CommandWeight(|s.slaves|) + 1 else 0
  {
    DoKeepsShape(s, step);
    if IsCommand(step) {
      CommandLoad(s, step);
    } else {
      StepLoad(s, step);
    }
  }

  /** The measure falls at every step with n slaves, and rises by at most `cost` at a command. */
  ghost predicate Falls(f: Cluster -> nat, cost: nat, n: nat) {
    forall c: Cluster, step: Step {:trigger f(Do(c, step))} :: Shape(c) && |c.slaves| == n && Enabled(c, step) ==>
      f(Do(c, step)) + 1 <= f(c) + if IsCommand(step) then cost + 1 else 0
  }

  /** Any such measure bounds runs. */
  lemma {:induction false} MeasureBoundsRuns(f: Cluster -> nat, cost: nat, s: Cluster, steps: seq<Step>)
    requires Shape(s) && IsRun(s, steps) && Falls(f, cost, |s.slaves|)
    ensures |steps| <= f(s) + Repeat(Commands(steps), cost + 1)
    decreases |steps|
  {
    if steps != [] {
      var s1 := Do(s, steps[0]);
      DoKeepsShape(s, steps[0]);
      MeasureFalls(f, cost, s, steps[0], s1);
      MeasureBoundsRuns(f, cost, s1, steps[1..]);
      CommandsFirst(steps, cost + 1);
    }
  }

  lemma MeasureFalls(f: Cluster -> nat, cost: nat, s: Cluster, step: Step, s': Cluster)
    requires Shape(s) && Enabled(s, step) && Falls(f, cost, |s.slaves|) && s' == Do(s, step)
    ensures f(s') + 1 <= f(s) + if IsCommand(step) then cost + 1 else 0
  {
  }

  lemma CommandsFirst(steps: seq<Step>, w: nat)
    requires steps != []
    ensures Repeat(Commands(steps), w) == (if IsCommand(steps[0]) then w else 0) + Repeat(Commands(steps[1..]), w)
  {
  }

  lemma LoadFalls(n: nat)
    ensures Falls(Load, CommandWeight(n), n)
  {
    forall c: Cluster, step: Step | Shape(c) && |c.slaves| == n && Enabled(c, step)
      ensures Load(Do(c, step)) + 1 <= Load(c) + if IsCommand(step) then CommandWeight(n) + 1 else 0
    {
      StepBound(c, step, Do(c, step));
    }
  }

  /** No run goes on forever without new commands: whatever the interleaving, and however many users are
      active, a run has at most Load(s) steps and a fixed number more for each command in it. */
  lemma RunsAreBounded(s: Cluster, steps: seq<Step>)
    requires Shape(s) && IsRun(s, steps)
    ensures |steps| <= Load(s) + Repeat(Commands(steps), CommandWeight(|s.slaves|) + 1)
  {
    LoadFalls(|s.slaves|);
    MeasureBoundsRuns(Load, CommandWeight(|s.slaves|), s, steps);
  }

  // ---------- a round does not stop half-way ----------

  lemma NothingLeft(s: Cluster)
    requires Shape(s) && !s.master.hung && forall step :: !IsCommand(step) ==> !Enabled(s, step)
    ensures s.master.queue == [] && !s.master.timer
    ensures forall i :: 0 <= i < |s.slaves| ==> s.master.out[i] == [] && s.replies[i] == []
  {
    assert !Enabled(s, HandleEvent({})) && !Enabled(s, MasterTimer);
    forall i: nat | i < |s.slaves| ensures s.master.out[i] == [] && s.replies[i] == [] {
      assert !Enabled(s, ToSlave(i, true)) && !Enabled(s, ToMaster(i));
    }
  }

  // ---------- every command is answered ----------

  ghost predicate Busy(stage: Stage) {
    stage.InPhaseOne? || stage.InPhaseTwo? || stage.InHanging?
  }

  /** Every command that was started is closed, except the one in flight. */
  ghost predicate Accounted(past: set<Act>, started: nat, stage: Stage) {
    forall a :: a in past && a.Started? ==> Closed(past, a.ticket) || (Busy(stage) && a.ticket == started)
  }

  ghost predicate Closes(acts: seq<Act>, t: nat) {
    exists k :: 0 <= k < |acts| && (acts[k].Answered? || acts[k].Rejected?) && acts[k].ticket == t
  }

  ghost predicate StartsNone(acts: seq<Act>) {
    forall k :: 0 <= k < |acts| ==> !acts[k].Started?
  }

  lemma ClosedGrows(trace: seq<Act>, acts: seq<Act>, t: nat)
    requires Closed(Past(trace), t) || Closes(acts, t)
    ensures Closed(Past(trace + acts), t)
  {
    var a: Act;
    if Closed(Past(trace), t) {
      a :| a in Past(trace) && (a.Answered? || a.Rejected?) && a.ticket == t;
    } else {
      var k :| 0 <= k < |acts| && (acts[k].Answered? || acts[k].Rejected?) && acts[k].ticket == t;
      a := acts[k];
    }
    InPast(trace, a);
    InPast(trace + acts, a);
  }

  /** A step that starts nothing accounts for the command it stops being busy with. */
  lemma AccountedGrows(trace: seq<Act>, acts: seq<Act>, started: nat, stage: Stage, stage': Stage)
    requires Accounted(Past(trace), started, stage) && StartsNone(acts)
    requires Busy(stage) && !Busy(stage') ==> Closes(acts, started)
    ensures Accounted(Past(trace + acts), started, stage')
  {
    forall a | a in Past(trace + acts) && a.Started?
      ensures Closed(Past(trace + acts), a.ticket) || (Busy(stage') && a.ticket == started)
    {
      InPast(trace, a);
      InPast(trace + acts, a);
      if Closed(Past(trace), a.ticket) || Closes(acts, a.ticket) {
        ClosedGrows(trace, acts, a.ticket);
      }
    }
  }

  /** What a handler leaves in the history. */
  ghost predicate Outcome(m: M.Master, stage: Stage, m': M.Master)
    requires m.queue != []
  {
    && m'.started == m.started && StartsNone(m'.acts)
    && (Busy(stage) && !Busy(AfterEvent(m, stage, m.queue[0])) ==> Closes(m'.acts, m.started))
  }

  lemma AckOutcome(m: M.Master, u: nat, m': M.Master)
    requires m.Valid() && m.acts == [] && OnlyUser(m.users, u, UWaitingCommit)
    requires m.queue != [] && m' == M.PrecommitAcked(Dequeued(m))
    ensures m'.started == m.started && StartsNone(m'.acts)
  {
    AckOnly(Dequeued(m), u);
    CommitUserEffect(Dequeued(m), u, m');
  }

  lemma RejectCloses(m: M.Master, u: nat, m': M.Master)
    requires m.Valid() && m.acts == [] && OnlyUser(m.users, u, UWaitingCommit) && m.users[u].ticket == m.started
    requires m.queue != [] && m' == M.PrecommitFailed(Dequeued(m))
    ensures m'.started == m.started && StartsNone(m'.acts) && Closes(m'.acts, m.started)
  {
    RejectEffect(Dequeued(m), u, m');
    assert m'.acts[1] == Rejected(m.started);
  }

  lemma OutcomeOne(m: M.Master, u: nat, failing: set<nat>, m': M.Master)
    requires m.Valid() && m.acts == [] && OnlyUser(m.users, u, UWaitingCommit) && m.users[u].ticket == m.started
    requires QueueOne(m) && m.queue != [] && m' == M.Handle(m, failing)
    ensures Outcome(m, InPhaseOne(u), m')
  {
    KindsOne(m);
    if m.queue[0].kind == EvPrecommitAck {
      AckOutcome(m, u, m');
    } else if m.queue[0].kind == EvPrecommitErr {
      RejectCloses(m, u, m');
    } else {
      assert m' == M.TimedOut(Dequeued(m));
    }
  }

  lemma SuccessCloses(m: M.Master, u: nat, failing: set<nat>, m': M.Master)
    requires m.Valid() && m.acts == [] && OnlyUser(m.users, u, UWaitingSave) && m.users[u].ticket == m.started
    requires m.queue != [] && m.queue[0].number == m.users[u].msgNumber
    requires m' == M.CommitSucceeded(Dequeued(m), m.queue[0].number, failing)
    ensures m'.started == m.started && StartsNone(m'.acts) && Closes(m'.acts, m.started)
  {
    FinishOnly(Dequeued(m), u, m.queue[0].number, failing);
    FinishUserEffect(Dequeued(m), u, m.queue[0].number, failing, m');
    assert m'.acts[1].Answered?;
  }

  lemma FailureCloses(m: M.Master, u: nat, m': M.Master)
    requires m.Valid() && m.acts == [] && OnlyUser(m.users, u, UWaitingSave) && m.users[u].ticket == m.started
    requires m.queue != [] && (m.queue[0].number == "" || m.queue[0].number == m.users[u].msgNumber)
    requires m' == M.CommitFailedAll(Dequeued(m), m.queue[0].number, m.queue[0].response)
    ensures m'.started == m.started && StartsNone(m'.acts) && Closes(m'.acts, m.started)
  {
    FailOnly(Dequeued(m), u, m.queue[0].number, m.queue[0].response);
    FailUserEffect(Dequeued(m), u, m.queue[0].number, m.queue[0].response, m');
    assert m'.acts[0].Answered?;
  }

  lemma OutcomeTwo(m: M.Master, u: nat, timedOut: bool, failing: set<nat>, m': M.Master)
    requires m.Valid() && m.acts == [] && OnlyUser(m.users, u, UWaitingSave) && m.users[u].ticket == m.started
    requires QueueTwo(m, timedOut) && m.queue != [] && m' == M.Handle(m, failing)
    ensures Outcome(m, InPhaseTwo(u), m')
  {
    var ev := m.queue[0];
    KindsTwo(m, timedOut);
    if ev.kind == EvMasterTimeout {
      assert m' == M.TimedOut(Dequeued(m));
    } else if !Concerns(ev, m.users[u].msgNumber) {
      HangEffect(m, u, failing, m');
    } else if ev.kind == EvCommitSuccess {
      SuccessCloses(m, u, failing, m');
    } else {
      FailureCloses(m, u, m');
    }
  }

  lemma HandleOutcome(s: Cluster, stage: Stage, failing: set<nat>, m': M.Master)
    requires Inv(s, stage) && !s.master.hung && s.master.queue != [] && m' == M.Handle(s.master, failing)
    ensures Outcome(s.master, stage, m')
  {
    match stage {
      case InPhaseOne(u) => OutcomeOne(s.master, u, failing, m');
      case InPhaseTwo(u) => OutcomeTwo(s.master, u, PhaseTwoTimeout(s.master.started) in Past(s.trace), failing, m');
      case InAborting => IdleHandle(s.master, s.replies, Past(s.trace), stage, failing);
      case InEnding(_) => IdleHandle(s.master, s.replies, Past(s.trace), stage, failing);
      case InHanging(_) =>
    }
  }

  lemma AccountedSubmit(trace: seq<Act>, t: nat, c: Command, u: nat, stage: Stage)
    requires Accounted(Past(trace), t, stage) && !Busy(stage)
    ensures Accounted(Past(trace + [Started(t + 1, c)]), t + 1, InPhaseOne(u))
  {
    var trace' := trace + [Started(t + 1, c)];
    forall a | a in Past(trace') && a.Started?
      ensures Closed(Past(trace'), a.ticket) || (Busy(InPhaseOne(u)) && a.ticket == t + 1)
    {
      PastAppend(trace, Started(t + 1, c));
      if a in Past(trace) {
        ClosedGrows(trace, [Started(t + 1, c)], a.ticket);
      }
    }
  }

  lemma AccountedNew(s: Cluster, stage: Stage, m: M.Master, u: nat, c: Command, m': M.Master, s': Cluster)
    requires Shape(s) && !Busy(stage) && u < |m.users| && m == s.master.(counter := m.counter)
    requires m' == M.Broadcast(M.InitConnection(M.SaveClientCmd(m, u, c)), Precommit, MPrecommitMulticasted)
    requires s' == Absorb(s, m') && Accounted(Past(s.trace), s.master.started, stage)
    ensures Accounted(Past(s'.trace), s'.master.started, InPhaseOne(u))
  {
    BeginEffect(m, u, c, m');
    AccountedSubmit(s.trace, s.master.started, c, u, stage);
  }

  lemma AccountedHandle(s: Cluster, stage: Stage, failing: set<nat>, m': M.Master, s': Cluster)
    requires Inv(s, stage) && !s.master.hung && s.master.queue != []
    requires m' == M.Handle(s.master, failing) && s' == Absorb(s, m')
    requires Accounted(Past(s.trace), s.master.started, stage)
    ensures Accounted(Past(s'.trace), s'.master.started, AfterEvent(s.master, stage, s.master.queue[0]))
  {
    HandleOutcome(s, stage, failing, m');
    AccountedGrows(s.trace, m'.acts, s.master.started, stage, AfterEvent(s.master, stage, s.master.queue[0]));
  }

  lemma AccountedDeliver(s: Cluster, stage: Stage, i: nat, canOpen: bool, s': Cluster)
    requires Shape(s) && i < |s.slaves| && s.master.out[i] != [] && s' == Deliver(s, i, canOpen)
    requires Accounted(Past(s.trace), s.master.started, stage)
    ensures Accounted(Past(s'.trace), s'.master.started, stage)
  {
    var line := HeardLine(s.master.out[i][0]);
    var acts := ActsOf(i, s.master.started, line, S.Receive(s.slaves[i], line, s.debugLevel, canOpen));
    AccountedGrows(s.trace, acts, s.master.started, stage, stage);
  }

  /** A step that leaves history and tickets alone. */
  lemma AccountedAside(s: Cluster, stage: Stage, s': Cluster)
    requires Accounted(Past(s.trace), s.master.started, stage)
    requires s'.trace == s.trace + [] && s'.master.started == s.master.started
    ensures Accounted(Past(s'.trace), s'.master.started, stage)
  {
    AccountedGrows(s.trace, [], s.master.started, stage, stage);
  }

  lemma AccountedCommand(s: Cluster, stage: Stage, step: Step, s': Cluster)
    requires Shape(s) && Enabled(s, step) && IsCommand(step) && s' == Do(s, step) && !Busy(stage)
    requires Accounted(Past(s.trace), s.master.started, stage)
    ensures Accounted(Past(s'.trace), s'.master.started, InPhaseOne(step.user))
  {
    var m := s.master;
    match step {
      case SubmitWrite(u, text) =>
        AccountedNew(s, stage, m.(counter := Allocate(m.counter)), u, NewCommand(m, step),
                     M.SubmitWrite(m, u, text), s');
      case SubmitReplace(u, number, text) =>
        AccountedNew(s, stage, m, u, NewCommand(m, step), M.SubmitReplace(m, u, number, text), s');
    }
  }

  lemma AccountedReply(s: Cluster, stage: Stage, i: nat, m': M.Master, s': Cluster)
    requires Shape(s) && i < |s.slaves| && s.replies[i] != []
    requires m' == M.Receive(s.master, i, HeardReply(s.replies[i][0])) && s' == Absorb(DropReply(s, i), m')
    requires Accounted(Past(s.trace), s.master.started, stage)
    ensures Accounted(Past(s'.trace), s'.master.started, stage)
  {
    ReceiveActs(s.master, i, HeardReply(s.replies[i][0]));
    ReceiveKeepsFiles(s.master, i, HeardReply(s.replies[i][0]));
    AccountedAside(s, stage, s');
  }

  lemma AccountedOther(s: Cluster, stage: Stage, step: Step, s': Cluster)
    requires Shape(s) && Enabled(s, step) && !IsCommand(step) && !step.HandleEvent? && s' == Do(s, step)
    requires Accounted(Past(s.trace), s.master.started, stage)
    ensures Accounted(Past(s'.trace), s'.master.started, stage)
  {
    match step {
      case ToSlave(i, canOpen) => AccountedDeliver(s, stage, i, canOpen, s');
      case ToMaster(i) => AccountedReply(s, stage, i, M.Receive(s.master, i, HeardReply(s.replies[i][0])), s');
      case _ => AccountedAside(s, stage, s');
    }
  }

  lemma AccountedStep(s: Cluster, stage: Stage, step: Step, s': Cluster)
    requires Inv(s, stage) && OneAtATime(s, step) && s' == Do(s, step)
    requires Accounted(Past(s.trace), s.master.started, stage)
    ensures Accounted(Past(s'.trace), s'.master.started, NextStage(s.master, stage, step))
  {
    if IsCommand(step) {
      QuietWaits(s, stage);
      AccountedCommand(s, stage, step, s');
    } else if step.HandleEvent? {
      AccountedHandle(s, stage, step.failing, M.Handle(s.master, step.failing), s');
    } else {
      AccountedOther(s, stage, step, s');
    }
  }

  lemma {:induction false} AccountedRun(s: Cluster, stage: Stage, steps: seq<Step>) returns (stage': Stage)
    requires Inv(s, stage) && IsSerialRun(s, steps) && IsRun(s, steps)
    requires Accounted(Past(s.trace), s.master.started, stage)
    ensures Inv(Final(s, steps), stage')
    ensures Accounted(Past(Final(s, steps).trace), Final(s, steps).master.started, stage')
    decreases |steps|
  {
    stage' := stage;
    if steps != [] {
      DoKeepsShape(s, steps[0]);
      var stage1 := StepKeeps(s, stage, steps[0]);
      AccountedStep(s, stage, steps[0], Do(s, steps[0]));
      stage' := AccountedRun(Do(s, steps[0]), stage1, steps[1..]);
    }
  }

  /** After its start the command of act j is answered or rejected, once. */
  ghost predicate OneOutcomeOf(trace: seq<Act>, j: nat)
    requires j < |trace|
  {
    exists k :: 0 <= k < |trace| && Ends(trace[k], trace[j].ticket)
                && forall l :: 0 <= l < |trace| && l != k ==> !Ends(trace[l], trace[j].ticket)
  }

  predicate Ends(a: Act, t: nat) {
    (a.Answered? || a.Rejected?) && a.ticket == t
  }

  /** Whenever nothing is under way, every command of the run so far has exactly one outcome. */
  lemma QuietMeansAnswered(s: Cluster, steps: seq<Step>, j: nat)
    requires Shape(s) && Initial(s) && IsSerialRun(s, steps) && IsRun(s, steps) && Quiet(Final(s, steps))
    requires j < |Final(s, steps).trace| && Final(s, steps).trace[j].Started?
    ensures OneOutcomeOf(Final(s, steps).trace, j)
  {
    InitialInv(s);
    var stage := AccountedRun(s, InAborting, steps);
    var e := Final(s, steps);
    var t := e.trace[j].ticket;
    InPast(e.trace, e.trace[j]);
    QuietWaits(e, stage);
    var k := ClosedAt(e.trace, t);
    NoOtherOutcome(|e.slaves|, e.trace, k, t);
  }

  lemma ClosedAt(trace: seq<Act>, t: nat) returns (k: nat)
    requires Closed(Past(trace), t)
    ensures k < |trace| && Ends(trace[k], t)
  {
    var a :| a in Past(trace) && (a.Answered? || a.Rejected?) && a.ticket == t;
    InPast(trace, a);
    k :| 0 <= k < |trace| && trace[k] == a;
  }

  lemma NoOtherOutcome(n: nat, trace: seq<Act>, k: nat, t: nat)
    requires Ok(n, trace) && k < |trace| && Ends(trace[k], t)
    ensures forall l :: 0 <= l < |trace| && l != k ==> !Ends(trace[l], t)
  {
    forall l | 0 <= l < |trace| && l != k && Ends(trace[l], t) ensures false {
      if l < k {
        OneOutcome(n, trace, l, k);
      } else {
        OneOutcome(n, trace, k, l);
      }
    }
  }

  // ---------- no run stops half-way ----------

  lemma StopsQuiet(s: Cluster, stage: Stage)
    requires Inv(s, stage) && forall step :: !IsCommand(step) && Shape(s) ==> !Enabled(s, step)
    ensures Quiet(s) <==> !s.master.hung
  {
    if !s.master.hung {
      NothingLeft(s);
      forall u | 0 <= u < |s.master.users| ensures !M.Waiting(s.master.users[u]) {
        if M.Waiting(s.master.users[u]) {
          NothingServes(s, stage, u);
        }
      }
    }
  }

  /** Whoever waits has something under way, with whatever number. */
  lemma NothingServes(s: Cluster, stage: Stage, u: nat)
    requires Inv(s, stage) && !s.master.hung && u < |s.master.users| && M.Waiting(s.master.users[u])
    ensures s.master.timer || s.master.queue != []
  {
  }

  /** With one command in flight, a run that no step but a new command could continue is one in which
      nothing is under way and everybody has been answered, unless a handler runs forever; and no handler
      does when the numbers of the REPLACE commands do not end in CR. With RunsAreBounded: every command
      is answered after boundedly many steps, in any order in which they are taken. */
  lemma RoundsEndAnswered(s: Cluster, steps: seq<Step>)
    requires Shape(s) && Initial(s) && IsSerialRun(s, steps) && IsRun(s, steps)
    requires forall step :: !IsCommand(step) ==> !Enabled(Final(s, steps), step)
    ensures Quiet(Final(s, steps)) <==> !Final(s, steps).master.hung
    ensures (forall step :: step in steps ==> KeepsNumber(step)) ==> Quiet(Final(s, steps))
  {
    InitialInv(s);
    var stage := RunKeeps(s, InAborting, steps);
    StopsQuiet(Final(s, steps), stage);
    if forall step :: step in steps ==> KeepsNumber(step) {
      HandlersEnd(s, steps);
    }
  }
}
