/**
 Commands that are refused because a peer cannot be reached. The user is told 3.2 ERROR WRITE at once, but
 the command has been saved before the connections were tried and its block keeps waiting. Here the steps of
 module Cluster are joined by commands that try the connections first, sent by any user at any moment.
 */
module Refusals {
  import opened Wrappers
  import opened Text
  import opened Numbers
  import opened Protocol
  import opened Cluster
  import opened SerialSteps
  import opened SerialRuns
  import opened UserBlocks
  import M = Master

  /** `refused` holds the tickets of the commands answered 3.2 because a peer could not be reached. */
  datatype System = System(cluster: Cluster, refused: set<nat>)

  datatype Move =
    | TryWrite(user: nat, text: string, reach: seq<bool>)
    | TryReplace(user: nat, number: string, text: string, reach: seq<bool>)
    | Other(step: Step)

  ghost predicate CanMove(s: System, move: Move) {
    var m := s.cluster.master;
    && Shape(s.cluster)
    && match move
       case Other(step) => !IsCommand(step) && Enabled(s.cluster, step)
       case _ => !m.hung && move.user < |m.users| && |move.reach| == |m.peers|
  }

  function TriedCommand(m: M.Master, move: Move): Command
    requires !move.Other? && move.user < |m.users|
  {
    match move
    case TryWrite(u, text, _) => Command(CmdWrite, M.MessageOf(PrintInt(Allocate(m.counter)), m.users[u], text))
    case TryReplace(u, number, text, _) => Command(CmdReplace, M.MessageOf(number, m.users[u], text))
  }

  function Tried(m: M.Master, move: Move): M.Master
    requires !move.Other? && move.user < |m.users| && |move.reach| == |m.peers|
  {
    match move
    case TryWrite(u, text, reach) => M.TryWrite(m, u, text, reach)
    case TryReplace(u, number, text, reach) => M.TryReplace(m, u, number, text, reach)
  }

  ghost predicate Refuses(s: System, move: Move) {
    CanMove(s, move) && !move.Other? && !M.AllReached(s.cluster.master.peers, move.reach)
  }

  ghost function After(s: System, move: Move): System
    requires CanMove(s, move)
  {
    var m := s.cluster.master;
    match move
    case Other(step) => s.(cluster := Do(s.cluster, step))
    case _ =>
      System(Absorb(s.cluster, Tried(m, move)), if Refuses(s, move) then s.refused + {m.started + 1} else s.refused)
  }

  ghost predicate CanRun(s: System, moves: seq<Move>)
    decreases |moves|
  {
    Shape(s.cluster) && (moves == [] || (CanMove(s, moves[0]) && CanRun(After(s, moves[0]), moves[1..])))
  }

  ghost function RunTo(s: System, moves: seq<Move>): (e: System)
    requires CanRun(s, moves)
    ensures Shape(e.cluster)
    decreases |moves|
  {
    if moves == [] then s else RunTo(After(s, moves[0]), moves[1..])
  }

  lemma TriedKeepsShape(s: Cluster, m': M.Master, u: nat, m: M.Master, c: Command, reach: seq<bool>)
    requires Shape(s) && m == s.master.(counter := m.counter) && u < |m.users| && |reach| == |m.peers|
    requires m' == M.TryBegin(m, u, c, reach)
    ensures Shape(Absorb(s, m')) && |m'.users| == |m.users|
    ensures m'.started == m.started + 1 && m'.acts == [Started(m.started + 1, c)] && m'.queue == m.queue
    ensures m'.users == m.users[u := m.users[u].(cmd := c.cmd, msg := c.body, msgNumber := M.SaveClientCmd(m, u,
                c).users[u].msgNumber, state := UWaitingCommit, ticket := m.started + 1)]
    ensures !M.AllReached(m.peers, reach) ==> m'.out == m.out && m'.timer == m.timer
    ensures M.AllReached(m.peers, reach) ==> m'.peers == M.AllIn(|m.peers|, MPrecommitMulticasted)
  {
  }

  lemma TriedBegins(s: System, move: Move) returns (m: M.Master, c: Command)
    requires CanMove(s, move) && !move.Other?
    ensures m == s.cluster.master.(counter := m.counter) && c == TriedCommand(s.cluster.master, move)
    ensures Tried(s.cluster.master, move) == M.TryBegin(m, move.user, c, move.reach)
  {
    m, c := s.cluster.master, TriedCommand(s.cluster.master, move);
    if move.TryWrite? {
      m := m.(counter := Allocate(m.counter));
    }
  }

  lemma AfterKeepsShape(s: System, move: Move)
    requires CanMove(s, move)
    ensures Shape(After(s, move).cluster)
  {
    if move.Other? {
      DoKeepsShape(s.cluster, move.step);
    } else {
      var m, c := TriedBegins(s, move);
      TriedKeepsShape(s.cluster, Tried(s.cluster.master, move), move.user, m, c, move.reach);
    }
  }

  // ---------- what the handlers decide ----------

  /** The acts that settle a command still waiting for its votes. */
  predicate Settles(a: Act) {
    a.CommitSent? || a.Rejected?
  }

  /** The act is the COMMIT, or the rejection, of a user who waits for the votes. */
  ghost predicate CommitOf(users: seq<M.User>, a: Act) {
    exists k :: 0 <= k < |users| && users[k].state == UWaitingCommit
                && a == CommitSent(users[k].ticket, M.CommandOf(users[k]))
  }

  ghost predicate RejectionOf(users: seq<M.User>, a: Act) {
    exists k :: 0 <= k < |users| && users[k].state == UWaitingCommit && a == Rejected(users[k].ticket)
  }

  lemma {:induction false} AckSettles(m: M.Master, a: Act)
    requires m.Valid()
    ensures a in M.PrecommitAcked(m).acts <==> a in m.acts || CommitOf(m.users, a)
    ensures M.PrecommitAcked(m).started == m.started
    decreases M.CountUsers(m.users, UWaitingCommit)
  {
    var k := M.FindUser(m.users, UWaitingCommit);
    if k < |m.users| {
      var m1 := M.CommitUser(m, k);
      CommitUserEffect(m, k, m1);
      M.CountAfterMove(m.users, k, m.users[k].(state := UWaitingSave), UWaitingCommit);
      AckSettles(m1, a);
      CommitOfRest(m.users, k, a);
    }
  }

  lemma CommitOfRest(users: seq<M.User>, k: nat, a: Act)
    requires k < |users| && users[k].state == UWaitingCommit
    ensures CommitOf(users, a) <==>
            a == CommitSent(users[k].ticket, M.CommandOf(users[k]))
            || CommitOf(users[k := users[k].(state := UWaitingSave)], a)
  {
    var users' := users[k := users[k].(state := UWaitingSave)];
    if CommitOf(users, a) {
      var j :| 0 <= j < |users| && users[j].state == UWaitingCommit
               && a == CommitSent(users[j].ticket, M.CommandOf(users[j]));
      assert j != k ==> users'[j] == users[j];
    }
    if CommitOf(users', a) {
      var j :| 0 <= j < |users'| && users'[j].state == UWaitingCommit
               && a == CommitSent(users'[j].ticket, M.CommandOf(users'[j]));
      assert j != k && users'[j] == users[j];
    }
  }

  lemma {:induction false} ErrSettles(m: M.Master, a: Act)
    ensures a in M.RejectAll(m).acts <==> a in m.acts || RejectionOf(m.users, a)
    ensures M.RejectAll(m).started == m.started
    decreases M.CountUsers(m.users, UWaitingCommit)
  {
    var k := M.FindUser(m.users, UWaitingCommit);
    if k < |m.users| {
      M.CountAfterMove(m.users, k, M.Cleared(m.users[k]), UWaitingCommit);
      ErrSettles(M.RejectUser(m, k), a);
      RejectionOfRest(m.users, k, a);
    }
  }

  lemma RejectionOfRest(users: seq<M.User>, k: nat, a: Act)
    requires k < |users| && users[k].state == UWaitingCommit
    ensures RejectionOf(users, a) <==>
            a == Rejected(users[k].ticket) || RejectionOf(users[k := M.Cleared(users[k])], a)
  {
    var users' := users[k := M.Cleared(users[k])];
    if RejectionOf(users, a) {
      var j :| 0 <= j < |users| && users[j].state == UWaitingCommit && a == Rejected(users[j].ticket);
      assert j != k ==> users'[j] == users[j];
    }
    if RejectionOf(users', a) {
      var j :| 0 <= j < |users'| && users'[j].state == UWaitingCommit && a == Rejected(users'[j].ticket);
      assert j != k && users'[j] == users[j];
    }
  }

  lemma {:induction false} SuccessSettlesNothing(m: M.Master, number: string, failing: set<nat>, a: Act)
    requires m.Valid() && Settles(a)
    ensures a in M.CommitSucceeded(m, number, failing).acts <==> a in m.acts
    ensures M.CommitSucceeded(m, number, failing).started == m.started
    decreases M.CountUsers(m.users, UWaitingSave)
  {
    var k := M.FindUser(m.users, UWaitingSave);
    if k < |m.users| && number == m.users[k].msgNumber {
      var m1 := M.FinishUser(m, k, number, failing);
      FinishUserEffect(m, k, number, failing, m1);
      M.CountAfterMove(m.users, k, M.Cleared(m.users[k]), UWaitingSave);
      SuccessSettlesNothing(m1, number, failing, a);
    }
  }

  lemma {:induction false} FailureSettlesNothing(m: M.Master, number: string, response: Option<Reply>, a: Act)
    requires m.Valid() && Settles(a)
    ensures a in M.CommitFailedAll(m, number, response).acts <==> a in m.acts
    ensures M.CommitFailedAll(m, number, response).started == m.started
    decreases M.CountUsers(m.users, UWaitingSave)
  {
    var k := M.FindUser(m.users, UWaitingSave);
    if k < |m.users| && (number == "" || number == m.users[k].msgNumber) {
      var m1 := M.FailUser(m, k, number, response);
      FailUserEffect(m, k, number, response, m1);
      M.CountAfterMove(m.users, k, M.Cleared(m.users[k]), UWaitingSave);
      FailureSettlesNothing(m1, number, response, a);
    }
  }

  // ---------- what a move does to the commands that wait for votes ----------

  datatype Kind = Saves(user: nat) | Acks | Errs | Neutral

  ghost function KindOf(s: System, move: Move): Kind
    requires CanMove(s, move)
  {
    if !move.Other? then Saves(move.user)
    else if move.step.HandleEvent? && s.cluster.master.queue[0].kind == EvPrecommitAck then Acks
    else if move.step.HandleEvent? && s.cluster.master.queue[0].kind == EvPrecommitErr then Errs
    else Neutral
  }

  /** Nothing starts or stops waiting for votes, and nothing is settled. */
  ghost predicate Leaves(users: seq<M.User>, users': seq<M.User>) {
    && |users'| == |users|
    && forall k :: 0 <= k < |users| && (users[k].state == UWaitingCommit || users'[k].state == UWaitingCommit) ==>
         users'[k] == users[k]
  }

  /** What a handler of kind Acks, Errs or Neutral leaves of users and history; `a` is any act that settles. */
  ghost predicate Handled(m: M.Master, kind: Kind, m': M.Master, a: Act) {
    && |m'.users| == |m.users| && m'.started == m.started
    && match kind
       case Acks => M.NoneIn(m'.users, UWaitingCommit) && (a in m'.acts <==> CommitOf(m.users, a))
       case Errs => M.NoneIn(m'.users, UWaitingCommit) && (a in m'.acts <==> RejectionOf(m.users, a))
       case _ => Leaves(m.users, m'.users) && a !in m'.acts
  }

  lemma AckHandled(m: M.Master, m': M.Master, a: Act)
    requires m.Valid() && m.acts == [] && m' == M.PrecommitAcked(m)
    ensures Handled(m, Acks, m', a)
  {
    M.AckLoopEmpties(m);
    AckSettles(m, a);
  }

  lemma ErrHandled(m: M.Master, m': M.Master, a: Act)
    requires m.acts == [] && m' == M.PrecommitFailed(m) && Settles(a)
    ensures Handled(m, Errs, m', a)
  {
    var m1 := M.Record(M.Broadcast(m, Abort, Idle), AbortSent(m.started));
    M.ErrLoopEmpties(m1);
    ErrSettles(m1, a);
  }

  lemma SuccessHandled(m: M.Master, number: string, failing: set<nat>, m': M.Master, a: Act)
    requires m.Valid() && m.acts == [] && m' == M.CommitSucceeded(m, number, failing) && Settles(a)
    ensures Handled(m, Neutral, m', a)
  {
    SuccessMoves(m, number, failing);
    SuccessSettlesNothing(m, number, failing, a);
  }

  lemma FailureHandled(m: M.Master, number: string, response: Option<Reply>, m': M.Master, a: Act)
    requires m.Valid() && m.acts == [] && m' == M.CommitFailedAll(m, number, response) && Settles(a)
    ensures Handled(m, Neutral, m', a)
  {
    FailureMoves(m, number, response);
    FailureSettlesNothing(m, number, response, a);
  }

  ghost function EventKindOf(ev: Event): Kind {
    if ev.kind == EvPrecommitAck then Acks else if ev.kind == EvPrecommitErr then Errs else Neutral
  }

  lemma EventHandled(m: M.Master, failing: set<nat>, m': M.Master, a: Act)
    requires m.Valid() && m.acts == [] && m.queue != [] && m' == M.Handle(m, failing) && Settles(a)
    ensures Handled(m, EventKindOf(m.queue[0]), m', a)
  {
    var ev, m1 := m.queue[0], Dequeued(m);
    match ev.kind {
      case EvPrecommitAck => AckHandled(m1, m', a);
      case EvPrecommitErr => ErrHandled(m1, m', a);
      case EvCommitSuccess => SuccessHandled(m1, ev.number, failing, m', a);
      case EvCommitUnsuccess => FailureHandled(m1, ev.number, ev.response, m', a);
      case EvMasterTimeout =>
    }
  }

  /** What a move of that kind does; `a` is any act that settles. */
  ghost predicate Effect(s: Cluster, kind: Kind, s': Cluster, a: Act) {
    var m, m' := s.master, s'.master;
    && |m'.users| == |m.users|
    && match kind
       case Saves(u) =>
         && u < |m.users| && m'.started == m.started + 1 && (a in s'.trace <==> a in s.trace)
         && m'.users[u].state == UWaitingCommit && m'.users[u].ticket == m.started + 1
         && forall k :: 0 <= k < |m.users| && k != u ==> m'.users[k] == m.users[k]
       case Acks =>
         && m'.started == m.started && M.NoneIn(m'.users, UWaitingCommit)
         && (a in s'.trace <==> a in s.trace || CommitOf(m.users, a))
       case Errs =>
         && m'.started == m.started && M.NoneIn(m'.users, UWaitingCommit)
         && (a in s'.trace <==> a in s.trace || RejectionOf(m.users, a))
       case Neutral =>
         m'.started == m.started && Leaves(m.users, m'.users) && (a in s'.trace <==> a in s.trace)
  }

  lemma TryEffect(s: System, move: Move, a: Act)
    requires CanMove(s, move) && !move.Other? && Settles(a)
    ensures Effect(s.cluster, Saves(move.user), After(s, move).cluster, a)
  {
    var m, c := TriedBegins(s, move);
    TriedKeepsShape(s.cluster, Tried(s.cluster.master, move), move.user, m, c, move.reach);
  }

  lemma EventEffect(s: Cluster, failing: set<nat>, m': M.Master, s': Cluster, a: Act)
    requires Shape(s) && s.master.queue != [] && m' == M.Handle(s.master, failing) && s' == Absorb(s, m') && Settles(a)
    ensures Effect(s, EventKindOf(s.master.queue[0]), s', a)
  {
    EventHandled(s.master, failing, m', a);
  }

  lemma DeliveryEffect(s: Cluster, i: nat, canOpen: bool, s': Cluster, a: Act)
    requires Shape(s) && i < |s.slaves| && s.master.out[i] != [] && s' == Deliver(s, i, canOpen) && Settles(a)
    ensures Effect(s, Neutral, s', a)
  {
  }

  lemma ReplyEffect(s: Cluster, i: nat, m': M.Master, s': Cluster, a: Act)
    requires Shape(s) && i < |s.slaves| && s.replies[i] != []
    requires m' == M.Receive(s.master, i, HeardReply(s.replies[i][0])) && s' == Absorb(DropReply(s, i), m')
    ensures Effect(s, Neutral, s', a)
  {
    ReceiveActs(s.master, i, HeardReply(s.replies[i][0]));
    ReceiveKeepsFiles(s.master, i, HeardReply(s.replies[i][0]));
  }

  lemma MoveEffect(s: System, move: Move, a: Act)
    requires CanMove(s, move) && Settles(a)
    ensures Effect(s.cluster, KindOf(s, move), After(s, move).cluster, a)
  {
    var c, s' := s.cluster, After(s, move).cluster;
    match move {
      case Other(HandleEvent(failing)) => EventEffect(c, failing, M.Handle(c.master, failing), s', a);
      case Other(ToSlave(i, canOpen)) => DeliveryEffect(c, i, canOpen, s', a);
      case Other(ToMaster(i)) => ReplyEffect(c, i, M.Receive(c.master, i, HeardReply(c.replies[i][0])), s', a);
      case Other(_) =>
      case _ => TryEffect(s, move, a);
    }
  }

  // ---------- what becomes of a refused command ----------

  /** User u waits for the votes on command c, and nobody else waits under its ticket. */
  ghost predicate Awaiting(s: Cluster, u: nat, t: nat, c: Command) {
    && u < |s.master.users| && t <= s.master.started
    && s.master.users[u].state == UWaitingCommit && s.master.users[u].ticket == t
    && M.CommandOf(s.master.users[u]) == c
    && forall k :: 0 <= k < |s.master.users| && k != u && s.master.users[k].state == UWaitingCommit ==>
         s.master.users[k].ticket != t
  }

  /** Nobody waits for votes under that ticket, and nobody will. */
  ghost predicate Settled(s: Cluster, t: nat) {
    && t <= s.master.started
    && forall k :: 0 <= k < |s.master.users| && s.master.users[k].state == UWaitingCommit ==>
         s.master.users[k].ticket != t
  }

  lemma SettledStays(s: Cluster, kind: Kind, s': Cluster, a: Act, t: nat)
    requires Effect(s, kind, s', a) && Settled(s, t) && Settles(a) && a.ticket == t
    ensures Settled(s', t) && (a in s'.trace <==> a in s.trace)
  {
  }

  /** What is decided first after the refusal: Replaced by the user's next command, Committed by an ACK
      event, RejectedAgain by an ERR event, or Pending while there is none of these. */
  datatype Fate = Pending | Replaced | Committed | RejectedAgain

  ghost function FateOf(s: System, u: nat, moves: seq<Move>): Fate
    requires CanRun(s, moves)
    decreases |moves|
  {
    if moves == [] then Pending
    else
      match KindOf(s, moves[0])
      case Acks => Committed
      case Errs => RejectedAgain
      case Saves(v) => if v == u then Replaced else FateOf(After(s, moves[0]), u, moves[1..])
      case Neutral => FateOf(After(s, moves[0]), u, moves[1..])
  }

  lemma AwaitingStep(s: Cluster, kind: Kind, s': Cluster, a: Act, u: nat, t: nat, c: Command)
    requires Effect(s, kind, s', a) && Awaiting(s, u, t, c) && Settles(a) && a.ticket == t && a !in s.trace
    ensures kind == Acks ==> Settled(s', t) && (a in s'.trace <==> a == CommitSent(t, c))
    ensures kind == Errs ==> Settled(s', t) && (a in s'.trace <==> a == Rejected(t))
    ensures kind == Saves(u) ==> Settled(s', t) && a !in s'.trace
    ensures kind == Neutral || (kind.Saves? && kind.user != u) ==> Awaiting(s', u, t, c) && a !in s'.trace
  {
  }

  lemma {:induction false} SettledRun(s: System, moves: seq<Move>, a: Act, t: nat)
    requires CanRun(s, moves) && Settled(s.cluster, t) && Settles(a) && a.ticket == t
    ensures a in RunTo(s, moves).cluster.trace <==> a in s.cluster.trace
    decreases |moves|
  {
    if moves != [] {
      var s1 := After(s, moves[0]);
      MoveEffect(s, moves[0], a);
      SettledStays(s.cluster, KindOf(s, moves[0]), s1.cluster, a, t);
      SettledRun(s1, moves[1..], a, t);
    }
  }

  /** The act that a fate stands for. */
  ghost predicate Shows(fate: Fate, a: Act, t: nat, c: Command) {
    (fate == Committed && a == CommitSent(t, c)) || (fate == RejectedAgain && a == Rejected(t))
  }

  lemma {:induction false} FateRun(s: System, u: nat, t: nat, c: Command, moves: seq<Move>, a: Act)
    requires CanRun(s, moves) && Awaiting(s.cluster, u, t, c)
    requires Settles(a) && a.ticket == t && a !in s.cluster.trace
    ensures a in RunTo(s, moves).cluster.trace <==> Shows(FateOf(s, u, moves), a, t, c)
    ensures FateOf(s, u, moves) == Pending ==> Awaiting(RunTo(s, moves).cluster, u, t, c)
    decreases |moves|
  {
    if moves != [] {
      var s1, kind := After(s, moves[0]), KindOf(s, moves[0]);
      MoveEffect(s, moves[0], a);
      AwaitingStep(s.cluster, kind, s1.cluster, a, u, t, c);
      if kind == Acks || kind == Errs || kind == Saves(u) {
        SettledRun(s1, moves[1..], a, t);
      } else {
        FateRun(s1, u, t, c, moves[1..], a);
      }
    }
  }

  // ---------- whole runs ----------

  /** Tickets of those who wait, and of what was settled, are not from the future. */
  ghost predicate Known(s: Cluster) {
    && (forall k :: 0 <= k < |s.master.users| && s.master.users[k].state == UWaitingCommit ==>
          s.master.users[k].ticket <= s.master.started)
    && (forall a :: a in s.trace && Settles(a) ==> a.ticket <= s.master.started)
  }

  lemma KnownStep(s: System, move: Move)
    requires CanMove(s, move) && Known(s.cluster)
    ensures Known(After(s, move).cluster)
  {
    var c, c', kind := s.cluster, After(s, move).cluster, KindOf(s, move);
    MoveEffect(s, move, Rejected(0));
    forall a | a in c'.trace && Settles(a) ensures a.ticket <= c'.master.started {
      MoveEffect(s, move, a);
    }
  }

  lemma {:induction false} KnownRun(s: System, moves: seq<Move>)
    requires CanRun(s, moves) && Known(s.cluster)
    ensures Known(RunTo(s, moves).cluster)
    decreases |moves|
  {
    if moves != [] {
      KnownStep(s, moves[0]);
      KnownRun(After(s, moves[0]), moves[1..]);
    }
  }

  lemma {:induction false} RefusedStays(s: System, moves: seq<Move>)
    requires CanRun(s, moves)
    ensures s.refused <= RunTo(s, moves).refused
    decreases |moves|
  {
    if moves != [] {
      RefusedStays(After(s, moves[0]), moves[1..]);
    }
  }

  ghost predicate Starts(s: System) {
    Shape(s.cluster) && Initial(s.cluster) && s.refused == {}
  }

  lemma RefusalKeeps(s: System, move: Move)
    requires Refuses(s, move)
    ensures var m, s' := s.cluster.master, After(s, move);
            && s'.cluster.master.out == m.out && s'.refused == s.refused + {m.started + 1}
            && s'.cluster.master.users[move.user].state == UWaitingCommit
            && M.CommandOf(s'.cluster.master.users[move.user]) == TriedCommand(m, move)
  {
    var m, c := TriedBegins(s, move);
    TriedKeepsShape(s.cluster, Tried(s.cluster.master, move), move.user, m, c, move.reach);
  }

  lemma RefusalAwaits(s: System, move: Move, s': System, t: nat)
    requires Refuses(s, move) && Known(s.cluster) && s' == After(s, move) && t == s.cluster.master.started + 1
    ensures Awaiting(s'.cluster, move.user, t, TriedCommand(s.cluster.master, move)) && t in s'.refused
    ensures s'.cluster.master.out == s.cluster.master.out
    ensures forall a :: a in s'.cluster.trace && Settles(a) ==> a.ticket != t
  {
    RefusalKeeps(s, move);
    TryEffect(s, move, Rejected(0));
    forall a | a in s'.cluster.trace && Settles(a) ensures a.ticket != t {
      TryEffect(s, move, a);
    }
  }

  /** s is a state of some run. */
  ghost predicate Reached(s: System) {
    exists start: System, moves: seq<Move> :: Starts(start) && CanRun(start, moves) && RunTo(start, moves) == s
  }

  lemma ReachedKnown(s: System)
    requires Reached(s)
    ensures Known(s.cluster)
  {
    var start: System, moves: seq<Move> :| Starts(start) && CanRun(start, moves) && RunTo(start, moves) == s;
    KnownRun(start, moves);
  }

  /** What becomes of a refused command, in any run of any number of users: it was answered 3.2 and nothing
      was sent. Its COMMIT goes out afterwards if and only if, among the user's next command, the ACK
      events and the ERR events that are handled, an ACK event comes first; it is rejected, so that 3.2 is
      answered a second time, if and only if an ERR event comes first; and while there is none of these the
      user's block keeps waiting. */
  lemma RefusedFate(s0: System, move: Move, s1: System, after: seq<Move>, t: nat, c: Command, e: System)
    requires Reached(s0) && Refuses(s0, move) && s1 == After(s0, move) && CanRun(s1, after) && e == RunTo(s1, after)
    requires t == s0.cluster.master.started + 1 && c == TriedCommand(s0.cluster.master, move)
    ensures s1.cluster.master.out == s0.cluster.master.out && t in e.refused
    ensures CommitSent(t, c) in e.cluster.trace <==> FateOf(s1, move.user, after) == Committed
    ensures Rejected(t) in e.cluster.trace <==> FateOf(s1, move.user, after) == RejectedAgain
    ensures FateOf(s1, move.user, after) == Pending ==> Awaiting(e.cluster, move.user, t, c)
  {
    ReachedKnown(s0);
    RefusalAwaits(s0, move, s1, t);
    FateRun(s1, move.user, t, c, after, CommitSent(t, c));
    FateRun(s1, move.user, t, c, after, Rejected(t));
    RefusedStays(s1, after);
  }

  ghost predicate OnEvery(out: seq<seq<Line>>, line: Line) {
    forall i :: 0 <= i < |out| ==> line in out[i]
  }

  lemma {:induction false} AckSends(m: M.Master, k: nat, line: Line)
    requires m.Valid() && k < |m.users|
    requires (m.users[k].state == UWaitingCommit && line == Commit(M.CommandOf(m.users[k]), m.users[k].ticket))
             || OnEvery(m.out, line)
    ensures OnEvery(M.PrecommitAcked(m).out, line)
    decreases M.CountUsers(m.users, UWaitingCommit)
  {
    var j := M.FindUser(m.users, UWaitingCommit);
    if j < |m.users| {
      CommitUserEffect(m, j, M.CommitUser(m, j));
      M.CountAfterMove(m.users, j, m.users[j].(state := UWaitingSave), UWaitingCommit);
      AckSends(M.CommitUser(m, j), k, line);
    }
  }

  /** The ACK event that commits it puts its COMMIT on every connection. */
  lemma CommittedGoesOut(s: System, move: Move, u: nat, t: nat, c: Command)
    requires CanMove(s, move) && KindOf(s, move) == Acks && Awaiting(s.cluster, u, t, c)
    ensures OnEvery(After(s, move).cluster.master.out, Commit(c, t))
  {
    AckSends(Dequeued(s.cluster.master), u, Commit(c, t));
  }

  // ---------- nothing goes to a peer that is not connected ----------

  predicate Connected(m: M.Master) {
    forall i :: 0 <= i < |m.peers| ==> m.peers[i] != Disconnect
  }

  lemma {:induction false} AckConnected(m: M.Master)
    requires m.Valid() && Connected(m)
    ensures Connected(M.PrecommitAcked(m))
    decreases M.CountUsers(m.users, UWaitingCommit)
  {
    var k := M.FindUser(m.users, UWaitingCommit);
    if k < |m.users| {
      CommitUserEffect(m, k, M.CommitUser(m, k));
      M.CountAfterMove(m.users, k, m.users[k].(state := UWaitingSave), UWaitingCommit);
      AckConnected(M.CommitUser(m, k));
    }
  }

  lemma {:induction false} ErrConnected(m: M.Master)
    requires Connected(m)
    ensures Connected(M.RejectAll(m))
    decreases M.CountUsers(m.users, UWaitingCommit)
  {
    var k := M.FindUser(m.users, UWaitingCommit);
    if k < |m.users| {
      M.CountAfterMove(m.users, k, M.Cleared(m.users[k]), UWaitingCommit);
      ErrConnected(M.RejectUser(m, k));
    }
  }

  lemma {:induction false} SuccessConnected(m: M.Master, number: string, failing: set<nat>)
    requires Connected(m)
    ensures Connected(M.CommitSucceeded(m, number, failing))
    decreases M.CountUsers(m.users, UWaitingSave)
  {
    var k := M.FindUser(m.users, UWaitingSave);
    if k < |m.users| && number == m.users[k].msgNumber {
      M.CountAfterMove(m.users, k, M.Cleared(m.users[k]), UWaitingSave);
      SuccessConnected(M.FinishUser(m, k, number, failing), number, failing);
    }
  }

  lemma {:induction false} FailureConnected(m: M.Master, number: string, response: Option<Reply>)
    requires Connected(m)
    ensures Connected(M.CommitFailedAll(m, number, response))
    decreases M.CountUsers(m.users, UWaitingSave)
  {
    var k := M.FindUser(m.users, UWaitingSave);
    if k < |m.users| && (number == "" || number == m.users[k].msgNumber) {
      M.CountAfterMove(m.users, k, M.Cleared(m.users[k]), UWaitingSave);
      FailureConnected(M.FailUser(m, k, number, response), number, response);
    }
  }

  lemma EventConnected(m: M.Master, failing: set<nat>)
    requires m.Valid() && Connected(m) && m.queue != []
    ensures Connected(M.Handle(m, failing))
  {
    var ev, m1 := m.queue[0], Dequeued(m);
    match ev.kind {
      case EvPrecommitAck => AckConnected(m1);
      case EvPrecommitErr => ErrConnected(M.Record(M.Broadcast(m1, Abort, Idle), AbortSent(m1.started)));
      case EvCommitSuccess => SuccessConnected(m1, ev.number, failing);
      case EvCommitUnsuccess => FailureConnected(m1, ev.number, ev.response);
      case EvMasterTimeout =>
    }
  }

  /** While a peer is not connected no line or reply is under way, no event is queued and no timer runs. */
  ghost predicate SilentUnlessConnected(s: Cluster)
    requires Shape(s)
  {
    || Connected(s.master)
    || (s.master.queue == [] && !s.master.timer
        && forall i :: 0 <= i < |s.slaves| ==> s.master.out[i] == [] && s.replies[i] == [])
  }

  lemma SilentTry(s: System, move: Move, s': System)
    requires CanMove(s, move) && !move.Other? && SilentUnlessConnected(s.cluster) && s' == After(s, move)
    ensures Shape(s'.cluster) && SilentUnlessConnected(s'.cluster)
  {
    var m, c := TriedBegins(s, move);
    TriedKeepsShape(s.cluster, Tried(s.cluster.master, move), move.user, m, c, move.reach);
  }

  lemma SilentEvent(s: Cluster, failing: set<nat>, m': M.Master, s': Cluster)
    requires Shape(s) && s.master.queue != [] && SilentUnlessConnected(s) && Shape(s')
    requires m' == M.Handle(s.master, failing) && s' == Absorb(s, m')
    ensures SilentUnlessConnected(s')
  {
    EventConnected(s.master, failing);
  }

  lemma SilentStep(s: System, move: Move, s': System)
    requires CanMove(s, move) && SilentUnlessConnected(s.cluster) && s' == After(s, move)
    ensures Shape(s'.cluster) && SilentUnlessConnected(s'.cluster)
  {
    AfterKeepsShape(s, move);
    match move {
      case Other(HandleEvent(failing)) =>
        SilentEvent(s.cluster, failing, M.Handle(s.cluster.master, failing), s'.cluster);
      case Other(_) =>
      case _ => SilentTry(s, move, s');
    }
  }

  /** In every run nothing is sent, and no handler runs, while a peer is not connected. */
  lemma {:induction false} SilentRun(s: System, moves: seq<Move>)
    requires CanRun(s, moves) && SilentUnlessConnected(s.cluster)
    ensures SilentUnlessConnected(RunTo(s, moves).cluster)
    decreases |moves|
  {
    if moves != [] {
      SilentStep(s, moves[0], After(s, moves[0]));
      SilentRun(After(s, moves[0]), moves[1..]);
    }
  }

  lemma NothingGoesToTheUnreached(s: System, moves: seq<Move>)
    requires Starts(s) && CanRun(s, moves)
    ensures SilentUnlessConnected(RunTo(s, moves).cluster)
  {
    SilentRun(s, moves);
  }

  // ---------- which peers are connected ----------

  predicate Reaches(move: Move, i: nat) {
    !move.Other? && i < |move.reach| && move.reach[i]
  }

  /** No command so far could reach peer i. */
  ghost predicate NeverReached(moves: seq<Move>, i: nat) {
    forall k :: 0 <= k < |moves| ==> !Reaches(moves[k], i)
  }

  ghost predicate Off(s: System, i: nat) {
    i < |s.cluster.master.peers| && s.cluster.master.peers[i] == Disconnect
  }

  /** A peer gets connected by the first command that can reach it, whether the command is refused or not, and
      stays so. */
  lemma ConnectStep(s: System, move: Move, i: nat, s': System)
    requires CanMove(s, move) && SilentUnlessConnected(s.cluster) && s' == After(s, move)
    ensures |s'.cluster.master.peers| == |s.cluster.master.peers|
    ensures Off(s', i) <==> Off(s, i) && !Reaches(move, i)
    ensures Off(s, i) && Reaches(move, i) && Refuses(s, move) ==> s'.cluster.master.peers[i] == Idle
  {
    AfterKeepsShape(s, move);
    if move.Other? {
      DoKeepsShape(s.cluster, move.step);
      if i < |s.cluster.master.peers| {
        OtherConnects(s, move.step, i, s');
      }
    } else {
      var m, c := TriedBegins(s, move);
      TriedKeepsShape(s.cluster, Tried(s.cluster.master, move), move.user, m, c, move.reach);
      if i < |m.peers| {
        TryConnects(m, move.user, c, move.reach, i, Tried(s.cluster.master, move));
      }
    }
  }

  lemma OtherConnects(s: System, step: Step, i: nat, s': System)
    requires CanMove(s, Other(step)) && SilentUnlessConnected(s.cluster) && s' == After(s, Other(step))
    requires i < |s.cluster.master.peers| == |s'.cluster.master.peers|
    ensures s'.cluster.master.peers[i] == Disconnect <==> s.cluster.master.peers[i] == Disconnect
  {
    if step.HandleEvent? {
      EventConnected(s.cluster.master, step.failing);
    }
  }

  lemma TryConnects(m: M.Master, u: nat, c: Command, reach: seq<bool>, i: nat, m': M.Master)
    requires m.Valid() && u < |m.users| && |reach| == |m.peers| && i < |m.peers| && m' == M.TryBegin(m, u, c, reach)
    ensures |m'.peers| == |m.peers|
    ensures m'.peers[i] == Disconnect <==> m.peers[i] == Disconnect && !reach[i]
    ensures m.peers[i] == Disconnect && reach[i] && !M.AllReached(m.peers, reach) ==> m'.peers[i] == Idle
  {
  }

  lemma NeverReachedFirst(moves: seq<Move>, i: nat)
    requires moves != []
    ensures NeverReached(moves, i) <==> !Reaches(moves[0], i) && NeverReached(moves[1..], i)
  {
    var rest := moves[1..];
    if NeverReached(moves, i) {
      forall k | 0 <= k < |rest| ensures !Reaches(rest[k], i) {
        assert rest[k] == moves[k + 1];
      }
    }
    if NeverReached(rest, i) {
      forall k | 1 <= k < |moves| ensures !Reaches(moves[k], i) {
        assert moves[k] == rest[k - 1];
      }
    }
  }

  lemma {:induction false} ConnectRun(s: System, moves: seq<Move>, i: nat)
    requires CanRun(s, moves) && SilentUnlessConnected(s.cluster)
    ensures |RunTo(s, moves).cluster.master.peers| == |s.cluster.master.peers|
    ensures Off(RunTo(s, moves), i) <==> Off(s, i) && NeverReached(moves, i)
    decreases |moves|
  {
    if moves != [] {
      var s1 := After(s, moves[0]);
      ConnectStep(s, moves[0], i, s1);
      SilentStep(s, moves[0], s1);
      ConnectRun(s1, moves[1..], i);
      NeverReachedFirst(moves, i);
    }
  }

  /** In every run, a command is refused exactly when it cannot reach a peer that was not connected at the
      start and that no earlier command could reach either. */
  lemma RefusedIff(s: System, moves: seq<Move>, move: Move)
    requires Starts(s) && CanRun(s, moves) && CanMove(RunTo(s, moves), move) && !move.Other?
    ensures Refuses(RunTo(s, moves), move) <==>
            exists i: nat :: Off(s, i) && NeverReached(moves, i) && !Reaches(move, i)
  {
    var e := RunTo(s, moves);
    ConnectRun(s, moves, 0);
    forall i: nat ensures Off(e, i) <==> Off(s, i) && NeverReached(moves, i) {
      ConnectRun(s, moves, i);
    }
    RefusedWhenOff(e, move);
  }

  lemma RefusedWhenOff(s: System, move: Move)
    requires CanMove(s, move) && !move.Other?
    ensures Refuses(s, move) <==> exists i: nat :: Off(s, i) && !Reaches(move, i)
  {
    if Refuses(s, move) {
      var i :| 0 <= i < |move.reach| && s.cluster.master.peers[i] == Disconnect && !move.reach[i];
      assert Off(s, i) && !Reaches(move, i);
    }
  }
}
