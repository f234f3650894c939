/**
 Runs with one command in flight. The invariant names the four stages of a round and what each of
 them allows on a connection, in the event queue and in the history; every step keeps it, in any
 interleaving and with timers expiring at any moment.
 */
module Serial {
  import opened Wrappers
  import opened Text
  import opened Store
  import opened Protocol
  import opened History
  import opened Cluster
  import M = Master
  import S = Slave

  // ---------- users and queue ----------

  ghost predicate NoUser(users: seq<M.User>) {
    forall k :: 0 <= k < |users| ==> !M.Waiting(users[k])
  }

  ghost predicate OnlyUser(users: seq<M.User>, u: nat, state: SyncState) {
    u < |users| && users[u].state == state && forall k :: 0 <= k < |users| && k != u ==> !M.Waiting(users[k])
  }

  ghost predicate One(q: seq<Event>, k: EventKind) {
    |q| == 1 && q[0].kind == k
  }

  ghost predicate Two(q: seq<Event>, k0: EventKind, k1: EventKind) {
    |q| == 2 && q[0].kind == k0 && q[1].kind == k1
  }

  // ---------- stages ----------

  /** The part of a cluster the stages speak of: the master, the replies on their way to it, and what
      has happened so far. */
  ghost predicate Base(m: M.Master, replies: seq<seq<Reply>>, past: set<Act>) {
    && m.Valid() && |replies| == |m.peers|
    && (forall a :: a in past ==> a.ticket <= m.started)
  }

  /** Phase one: PRECOMMIT under way, answered, or counted. */
  ghost predicate LinkOne(out: seq<Line>, replies: seq<Reply>, peer: SyncState, i: nat, t: nat, past: set<Act>) {
    || (out == [Precommit] && replies == [] && peer == MPrecommitMulticasted)
    || (out == [] && replies == [PrecommitAck] && peer == MPrecommitMulticasted && Voted(i, t) in past)
    || (out == [] && replies == [] && peer == MPrecommited && Voted(i, t) in past)
  }

  ghost predicate QueueOne(m: M.Master) {
    if M.AllPeers(m.peers, MPrecommited) then
      && m.masterState == MPrecommited && !m.timer
      && (|| One(m.queue, EvPrecommitAck)
          || Two(m.queue, EvMasterTimeout, EvPrecommitAck)
          || Two(m.queue, EvPrecommitErr, EvPrecommitAck))
    else
      && m.masterState == MPrecommitMulticasted
      && (|| (m.timer && m.queue == [])
          || (!m.timer && One(m.queue, EvMasterTimeout))
          || (!m.timer && One(m.queue, EvPrecommitErr)))
  }

  ghost predicate PhaseOne(m: M.Master, replies: seq<seq<Reply>>, past: set<Act>, u: nat)
    requires Base(m, replies, past)
  {
    var t := m.started;
    && !m.hung && OnlyUser(m.users, u, UWaitingCommit) && m.users[u].ticket == t
    && m.users[u].msgNumber == NumberOf(m.users[u].msg) && HasSlash(m.users[u].msg)
    && (forall i :: 0 <= i < |replies| ==> LinkOne(m.out[i], replies[i], m.peers[i], i, t, past))
    && QueueOne(m)
    && Started(t, M.CommandOf(m.users[u])) in past
    && (forall a :: a in past && a.ticket == t ==> a.Started? || a.Voted?)
  }

  /** After an abort: nobody waits, late votes still come in. */
  ghost predicate LinkAbort(out: seq<Line>, replies: seq<Reply>) {
    || (out == [Precommit, Abort] && replies == [])
    || ((out == [Abort] || out == []) && (replies == [PrecommitAck] || replies == []))
  }

  ghost predicate Aborting(m: M.Master, replies: seq<seq<Reply>>, past: set<Act>)
    requires Base(m, replies, past)
  {
    && !m.hung && NoUser(m.users) && !m.timer
    && (forall i :: 0 <= i < |replies| ==> LinkAbort(m.out[i], replies[i]))
    && (forall e :: e in m.queue ==> e.kind == EvPrecommitAck)
  }

  /** Phase two: COMMIT under way, dropped by the slave, stored and answered, or counted. */
  ghost predicate LinkTwo(out: seq<Line>, replies: seq<Reply>, peer: SyncState, i: nat, t: nat, c: Command,
      past: set<Act>) {
    || (out == [Commit(c, t)] && replies == [] && peer == MCommited && !TriedBy(past, i, t))
    || (out == [] && replies == [] && peer == MCommited && !TriedBy(past, i, t))
    || (out == [] && peer == MCommited
        && exists r :: replies == [S.ReplyFor(Heard(c), r)] && SlaveSaved(i, t, Heard(c), r) in past)
    || (out == [] && replies == [] && peer == MOperationPerformed && SlaveSaved(i, t, Heard(c), Saved) in past)
    || (out == [] && replies == [] && peer == MOperationUnsuccess
        && exists r :: r != Saved && SlaveSaved(i, t, Heard(c), r) in past)
  }

  ghost predicate SomePeer(peers: seq<SyncState>, state: SyncState) {
    exists i :: 0 <= i < |peers| && peers[i] == state
  }

  ghost predicate NumbersTwo(queue: seq<Event>, number: string) {
    forall k :: 0 <= k < |queue| ==>
      && (queue[k].kind == EvCommitSuccess ==> queue[k].number == number)
      && (queue[k].kind == EvCommitUnsuccess ==> queue[k].number == number || queue[k].number == "")
  }

  /** A failure is a slave's, and the event holds its reply; or it comes from a timeout and holds none. */
  ghost predicate Causes(queue: seq<Event>, past: set<Act>, t: nat, c: Command) {
    forall k :: 0 <= k < |queue| && queue[k].kind == EvCommitUnsuccess ==>
      queue[k].response == None || FailedReply(queue[k].response.value, past, t, c)
  }

  ghost predicate FailedReply(reply: Reply, past: set<Act>, t: nat, c: Command) {
    exists i: nat, r: SaveResult :: r != Saved && SlaveSaved(i, t, Heard(c), r) in past
                                    && reply == HeardReply(S.ReplyFor(Heard(c), r))
  }

  ghost predicate QueueTwo(m: M.Master, timedOut: bool) {
    if M.AllPeers(m.peers, MOperationPerformed) then
      && m.masterState == MOperationPerformed && !m.timer
      && (|| One(m.queue, EvCommitSuccess)
          || Two(m.queue, EvMasterTimeout, EvCommitSuccess)
          || (Two(m.queue, EvCommitUnsuccess, EvCommitSuccess) && timedOut))
    else if SomePeer(m.peers, MOperationUnsuccess) then
      && m.masterState == MOperationUnsuccess && !m.timer
      && (|| One(m.queue, EvCommitUnsuccess)
          || Two(m.queue, EvMasterTimeout, EvCommitUnsuccess)
          || (Two(m.queue, EvCommitUnsuccess, EvCommitUnsuccess) && timedOut))
    else
      && m.masterState == MCommited
      && (|| (m.timer && m.queue == [])
          || (!m.timer && One(m.queue, EvMasterTimeout))
          || (!m.timer && One(m.queue, EvCommitUnsuccess) && timedOut))
  }

  ghost predicate LinksTwo(m: M.Master, replies: seq<seq<Reply>>, past: set<Act>, c: Command)
    requires Base(m, replies, past)
  {
    forall i :: 0 <= i < |replies| ==> LinkTwo(m.out[i], replies[i], m.peers[i], i, m.started, c, past)
  }

  ghost predicate PhaseTwo(m: M.Master, replies: seq<seq<Reply>>, past: set<Act>, u: nat)
    requires Base(m, replies, past)
  {
    var t := m.started;
    && !m.hung && OnlyUser(m.users, u, UWaitingSave) && m.users[u].ticket == t
    && m.users[u].msgNumber == NumberOf(m.users[u].msg) && HasSlash(m.users[u].msg)
    && LinksTwo(m, replies, past, M.CommandOf(m.users[u]))
    && NumbersTwo(m.queue, Back(M.CommandOf(m.users[u])))
    && QueueTwo(m, PhaseTwoTimeout(t) in past)
    && Causes(m.queue, past, t, M.CommandOf(m.users[u]))
    && CommitSent(t, M.CommandOf(m.users[u])) in past
    && (forall a :: a in past && a.ticket == t ==>
          a.Started? || a.Voted? || a.CommitSent? || a.SlaveSaved? || a.PhaseTwoTimeout?)
  }

  /** After the answer: END under way, late stores and late replies still possible. */
  ghost predicate LinkEnd(out: seq<Line>, replies: seq<Reply>, i: nat, t: nat, c: Command, past: set<Act>) {
    || (|out| == 2 && out[0] == Commit(c, t) && out[1].End? && replies == []
        && !TriedBy(past, i, t) && !ToldWrote(past, t))
    || ((out == [] || (|out| == 1 && out[0].End?))
        && (replies == [] || exists r :: replies == [S.ReplyFor(Heard(c), r)]))
  }

  ghost predicate Ending(m: M.Master, replies: seq<seq<Reply>>, past: set<Act>, c: Command)
    requires Base(m, replies, past)
  {
    && !m.hung && NoUser(m.users) && !m.timer
    && (forall i :: 0 <= i < |replies| ==> LinkEnd(m.out[i], replies[i], i, m.started, c, past))
    && (forall e :: e in m.queue ==> e.kind == EvCommitSuccess || e.kind == EvCommitUnsuccess)
    && CommitSent(m.started, c) in past
  }

  /** A handler of phase two searches forever for a user with the number that came back: no user is
      answered any more, but a COMMIT still under way may be stored. */
  ghost predicate LinkHanging(out: seq<Line>, i: nat, t: nat, c: Command, past: set<Act>) {
    out == [] || (out == [Commit(c, t)] && !TriedBy(past, i, t))
  }

  ghost predicate Hanging(m: M.Master, replies: seq<seq<Reply>>, past: set<Act>, u: nat)
    requires Base(m, replies, past)
  {
    var t := m.started;
    && m.hung && OnlyUser(m.users, u, UWaitingSave) && m.users[u].ticket == t
    && m.users[u].msgNumber == NumberOf(m.users[u].msg) && EndsInCR(m.users[u].msgNumber)
    && (forall i :: 0 <= i < |replies| ==> LinkHanging(m.out[i], i, t, M.CommandOf(m.users[u]), past))
    && CommitSent(t, M.CommandOf(m.users[u])) in past
    && (forall a :: a in past && a.ticket == t ==>
          a.Started? || a.Voted? || a.CommitSent? || a.SlaveSaved? || a.PhaseTwoTimeout?)
  }

  datatype Stage =
    | InPhaseOne(user: nat) | InAborting | InPhaseTwo(user: nat) | InEnding(command: Command) | InHanging(user: nat)

  ghost predicate At(m: M.Master, replies: seq<seq<Reply>>, past: set<Act>, stage: Stage)
    requires Base(m, replies, past)
  {
    match stage
    case InPhaseOne(u) => PhaseOne(m, replies, past, u)
    case InAborting => Aborting(m, replies, past)
    case InPhaseTwo(u) => PhaseTwo(m, replies, past, u)
    case InEnding(c) => Ending(m, replies, past, c)
    case InHanging(u) => Hanging(m, replies, past, u)
  }

  ghost predicate Inv(s: Cluster, stage: Stage) {
    && Shape(s) && Ok(|s.slaves|, s.trace)
    && Base(s.master, s.replies, Past(s.trace))
    && At(s.master, s.replies, Past(s.trace), stage)
  }

  /** A commit event whose handler finds the user with that number. */
  ghost predicate Concerns(e: Event, number: string) {
    e.number == number || (e.kind == EvCommitUnsuccess && e.number == "")
  }

  // ---------- handlers with one user or none ----------

  lemma {:induction false} FindOnly(users: seq<M.User>, u: nat, state: SyncState)
    requires u < |users| && users[u].state == state && forall k :: 0 <= k < |users| && k != u ==>
            users[k].state != state
    ensures M.FindUser(users, state) == u
  {
  }

  lemma FindNone(users: seq<M.User>, state: SyncState)
    requires M.NoneIn(users, state)
    ensures M.FindUser(users, state) == |users|
  {
  }

  lemma AckOnly(m: M.Master, u: nat)
    requires OnlyUser(m.users, u, UWaitingCommit)
    ensures M.PrecommitAcked(m) == M.CommitUser(m, u)
  {
    FindOnly(m.users, u, UWaitingCommit);
    FindNone(M.CommitUser(m, u).users, UWaitingCommit);
  }

  lemma RejectOnly(m: M.Master, u: nat)
    requires OnlyUser(m.users, u, UWaitingCommit)
    ensures M.RejectAll(m) == M.RejectUser(m, u)
  {
  }

  lemma FinishOnly(m: M.Master, u: nat, number: string, failing: set<nat>)
    requires OnlyUser(m.users, u, UWaitingSave) && m.users[u].msgNumber == number
    ensures M.CommitSucceeded(m, number, failing) == M.FinishUser(m, u, number, failing)
  {
  }

  lemma FinishHangs(m: M.Master, u: nat, number: string, failing: set<nat>)
    requires OnlyUser(m.users, u, UWaitingSave) && m.users[u].msgNumber != number
    ensures M.CommitSucceeded(m, number, failing) == m.(hung := true)
  {
    FindOnly(m.users, u, UWaitingSave);
  }

  lemma FailHangs(m: M.Master, u: nat, number: string, response: Option<Reply>)
    requires OnlyUser(m.users, u, UWaitingSave) && number != "" && m.users[u].msgNumber != number
    ensures M.CommitFailedAll(m, number, response) == m.(hung := true)
  {
    FindOnly(m.users, u, UWaitingSave);
  }

  lemma FailOnly(m: M.Master, u: nat, number: string, response: Option<Reply>)
    requires OnlyUser(m.users, u, UWaitingSave) && (number == "" || m.users[u].msgNumber == number)
    ensures M.CommitFailedAll(m, number, response) == M.FailUser(m, u, number, response)
  {
  }
}
