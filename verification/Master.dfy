/**
 The master's side: the event handlers of event.cpp, process_sync_master_msg, the broadcasts of
 sync.cpp and the state setters and searches of list.cpp, as functions from one state of the master
 to the next. Class `Coordinator` does the same work with the source's loops and assignments.
 */
module Master {
  import opened Wrappers
  import opened Text
  import opened Store
  import opened Numbers
  import opened Protocol

  /** A user's control block. */
  datatype User = User(name: string, state: SyncState, cmd: Cmd, msg: string, msgNumber: string, ticket: nat)

  /** peers[i] is the state field of the i-th server record and out[i] the connection to it;
      masterState is kept in the first record. `started` and `acts` are history. */
  datatype Master = Master(
    peers: seq<SyncState>, masterState: SyncState, timer: bool,
    users: seq<User>, queue: seq<Event>, out: seq<seq<Line>>,
    file: string, counter: int, hung: bool,
    started: nat, acts: seq<Act>)
  {
    ghost predicate Valid() {
      |peers| == |out| && |peers| > 0
    }
  }

  // ---------- states and searches ----------

  function CommandOf(u: User): Command {
    Command(u.cmd, u.msg)
  }

  predicate Waiting(u: User) {
    u.state == UWaitingCommit || u.state == UWaitingSave
  }

  /** The first user in that state, |users| when there is none. */
  function FindUser(users: seq<User>, state: SyncState): (k: nat)
    ensures k <= |users|
    ensures k < |users| ==> users[k].state == state
    ensures forall j :: 0 <= j < k ==> users[j].state != state
  {
    if users == [] || users[0].state == state then 0 else 1 + FindUser(users[1..], state)
  }

  /** How many users are in that state. */
  function CountUsers(users: seq<User>, state: SyncState): nat {
    if users == [] then 0 else (if users[0].state == state then 1 else 0) + CountUsers(users[1..], state)
  }

  lemma {:induction false} CountAfterMove(users: seq<User>, k: nat, u: User, state: SyncState)
    requires k < |users| && users[k].state == state && u.state != state
    ensures CountUsers(users[k := u], state) == CountUsers(users, state) - 1
  {
    if k == 0 {
      assert users[k := u][1..] == users[1..];
    } else {
      assert users[k := u][1..] == users[1..][k - 1 := u];
      CountAfterMove(users[1..], k - 1, u, state);
    }
  }

  /** sync_set_master_state: the state decides what happens to the timer. */
  function SetMasterState(m: Master, state: SyncState): Master {
    m.(masterState := state,
       timer := match state
                case MPrecommitMulticasted => true
                case MCommited => true
                case MPrecommited => false
                case MPrecommitUnsuccess => false
                case MOperationPerformed => false
                case MOperationUnsuccess => false
                case _ => m.timer)
  }

  /** sync_check_server_state */
  predicate AllPeers(peers: seq<SyncState>, state: SyncState) {
    forall i :: 0 <= i < |peers| ==> peers[i] == state
  }

  function Enqueue(m: Master, kind: EventKind, number: string, response: Option<Reply>): Master {
    m.(queue := m.queue + [Event(kind, number, response)])
  }

  function AllIn(n: nat, state: SyncState): (peers: seq<SyncState>)
    ensures |peers| == n && AllPeers(peers, state)
  {
    seq(n, _ => state)
  }

  /** One line more on every connection. */
  function Sent(out: seq<seq<Line>>, line: Line): (out': seq<seq<Line>>)
    ensures |out'| == |out| && forall i :: 0 <= i < |out| ==> out'[i] == out[i] + [line]
  {
    seq(|out|, i requires 0 <= i < |out| => out[i] + [line])
  }

  /** sync_send_precommit, sync_send_abort, sync_send_commit and sync_send_success differ only in the
      line and in the state the peers go to. */
  function Broadcast(m: Master, line: Line, state: SyncState): Master {
    var m' := m.(peers := AllIn(|m.peers|, state), out := Sent(m.out, line));
    if AllPeers(m'.peers, state) then SetMasterState(m', state) else m'
  }

  /** init_sync_server_connection with every peer connected. */
  function InitConnection(m: Master): Master {
    if AllPeers(m.peers, Idle) then SetMasterState(m, Idle) else m
  }

  // ---------- commands ----------

  /** sync_save_client_cmd */
  function SaveClientCmd(m: Master, u: nat, c: Command): Master
    requires u < |m.users|
  {
    var t := m.started + 1;
    m.(users := m.users[u := m.users[u].(cmd := c.cmd, msg := c.body, msgNumber := NumberOf(c.body),
                                         state := UWaitingCommit, ticket := t)],
       started := t,
       acts := m.acts + [Started(t, c)])
  }

  /** sync_clear_client_cmd */
  function Cleared(u: User): User {
    u.(msg := "", msgNumber := "", state := Idle)
  }

  function UserName(u: User): string {
    if u.name == "" then "nobody" else u.name
  }

  /** The message saved for a user: number/user/text. */
  function MessageOf(number: string, u: User, text: string): string {
    number + "/" + UserName(u) + "/" + text
  }

  lemma MessageNumber(number: string, u: User, text: string)
    ensures HasSlash(MessageOf(number, u, text)) && NumberOf(MessageOf(number, u, text)) == NumberOf(number)
  {
    var msg, k := MessageOf(number, u, text), Find(number, '/', 0);
    FindFirst(number, '/', 0);
    assert msg[|number|] == '/' && forall j :: 0 <= j < |number| ==> msg[j] == number[j];
    FindIs(msg, '/', 0, k);
    assert msg[..k] == number[..k];
  }

  /** WRITE with peers configured: allocate, remember the command, start phase one. */
  function SubmitWrite(m: Master, u: nat, text: string): Master
    requires u < |m.users|
  {
    var m1 := m.(counter := Allocate(m.counter));
    var c := Command(CmdWrite, MessageOf(PrintInt(m1.counter), m.users[u], text));
    Broadcast(InitConnection(SaveClientCmd(m1, u, c)), Precommit, MPrecommitMulticasted)
  }

  /** REPLACE with peers configured. */
  function SubmitReplace(m: Master, u: nat, number: string, text: string): Master
    requires u < |m.users|
  {
    var c := Command(CmdReplace, MessageOf(number, m.users[u], text));
    Broadcast(InitConnection(SaveClientCmd(m, u, c)), Precommit, MPrecommitMulticasted)
  }

  // ---------- peers that cannot be reached ----------

  /** The loop of init_sync_server_connection: a peer without a connection is connected if it can be
      reached. */
  function Connect(peers: seq<SyncState>, reach: seq<bool>): (peers': seq<SyncState>)
    requires |reach| == |peers|
    ensures |peers'| == |peers|
  {
    seq(|peers|, i requires 0 <= i < |peers| => if peers[i] == Disconnect && reach[i] then Idle else peers[i])
  }

  predicate AllReached(peers: seq<SyncState>, reach: seq<bool>)
    requires |reach| == |peers|
  {
    forall i :: 0 <= i < |peers| && peers[i] == Disconnect ==> reach[i]
  }

  /** A command with peers configured: the command is saved before the connections are made, and nothing is
      sent when one of them fails. */
  function TryBegin(m: Master, u: nat, c: Command, reach: seq<bool>): Master
    requires u < |m.users| && |reach| == |m.peers|
  {
    var m1 := SaveClientCmd(m, u, c);
    var m2 := InitConnection(m1.(peers := Connect(m.peers, reach)));
    if AllReached(m.peers, reach) then Broadcast(m2, Precommit, MPrecommitMulticasted) else m2
  }

  function TryWrite(m: Master, u: nat, text: string, reach: seq<bool>): Master
    requires u < |m.users| && |reach| == |m.peers|
  {
    var m1 := m.(counter := Allocate(m.counter));
    TryBegin(m1, u, Command(CmdWrite, MessageOf(PrintInt(m1.counter), m.users[u], text)), reach)
  }

  function TryReplace(m: Master, u: nat, number: string, text: string, reach: seq<bool>): Master
    requires u < |m.users| && |reach| == |m.peers|
  {
    TryBegin(m, u, Command(CmdReplace, MessageOf(number, m.users[u], text)), reach)
  }

  /** When every peer can be reached, a round starts whatever was connected before. */
  lemma ReachedBegins(m: Master, u: nat, c: Command, reach: seq<bool>)
    requires m.Valid() && u < |m.users| && |reach| == |m.peers| && AllReached(m.peers, reach)
    ensures TryBegin(m, u, c, reach) == Broadcast(InitConnection(SaveClientCmd(m, u, c)), Precommit,
                                                  MPrecommitMulticasted)
  {
    var m1 := SaveClientCmd(m, u, c);
    assert AllIn(|m.peers|, MPrecommitMulticasted) == AllIn(|Connect(m.peers, reach)|, MPrecommitMulticasted);
  }

  // ---------- replies from slaves ----------

  function SetPeer(m: Master, i: nat, state: SyncState): Master
    requires i < |m.peers|
  {
    m.(peers := m.peers[i := state])
  }

  /** The two branches that wait for every peer. */
  function CollectAll(m: Master, i: nat, state: SyncState, kind: EventKind, number: string, reply: Reply): Master
    requires i < |m.peers|
  {
    var m1 := SetPeer(m, i, state);
    if AllPeers(m1.peers, state) then Enqueue(SetMasterState(m1, state), kind, number, Some(reply)) else m1
  }

  /** The branches where one bad reply is enough, but is reported only once. */
  function ReportOnce(m: Master, i: nat, state: SyncState, kind: EventKind, number: string, reply: Reply): Master
    requires i < |m.peers|
  {
    var m1 := SetPeer(m, i, state);
    if m1.masterState != state then Enqueue(SetMasterState(m1, state), kind, number, Some(reply)) else m1
  }

  /** process_sync_master_msg for a reply of peer i. */
  function Receive(m: Master, i: nat, reply: Reply): Master
    requires i < |m.peers|
  {
    match reply
    case PrecommitAck => CollectAll(m, i, MPrecommited, EvPrecommitAck, "", reply)
    case PrecommitErr => ReportOnce(m, i, MPrecommitUnsuccess, EvPrecommitErr, "", reply)
    case CommitOk(number) => CollectAll(m, i, MOperationPerformed, EvCommitSuccess, number, reply)
    case CommitFailed(number) => ReportOnce(m, i, MOperationUnsuccess, EvCommitUnsuccess, number, reply)
    case CommitUnknown(number) => ReportOnce(m, i, MOperationUnsuccess, EvCommitUnsuccess, number, reply)
  }

  /** What a reply says: the state its peer goes to, the event it may cause, whether that waits for all
      peers, and the number it carries. */
  datatype Meaning = Meaning(state: SyncState, kind: EventKind, waits: bool, number: string)

  function MeaningOf(reply: Reply): Meaning {
    match reply
    case PrecommitAck => Meaning(MPrecommited, EvPrecommitAck, true, "")
    case PrecommitErr => Meaning(MPrecommitUnsuccess, EvPrecommitErr, false, "")
    case CommitOk(number) => Meaning(MOperationPerformed, EvCommitSuccess, true, number)
    case CommitFailed(number) => Meaning(MOperationUnsuccess, EvCommitUnsuccess, false, number)
    case CommitUnknown(number) => Meaning(MOperationUnsuccess, EvCommitUnsuccess, false, number)
  }

  /** A reply moves its peer and no other. It queues its event exactly when it is the last one that was waited
      for, or the first bad one, and then, and only then, the timer stops. */
  lemma ReplyQueuesIff(m: Master, i: nat, reply: Reply)
    requires i < |m.peers|
    ensures var w, m' := MeaningOf(reply), Receive(m, i, reply);
            var queues := if w.waits then forall j :: 0 <= j < |m.peers| && j != i ==> m.peers[j] == w.state
                          else m.masterState != w.state;
            && m'.peers == m.peers[i := w.state]
            && m'.queue == (if queues then m.queue + [Event(w.kind, w.number, Some(reply))] else m.queue)
            && m'.masterState == (if queues then w.state else m.masterState)
            && m'.timer == (if queues then false else m.timer)
  {
    var w := MeaningOf(reply);
    assert m.peers[i := w.state][i] == w.state;
    forall j | 0 <= j < |m.peers| && j != i ensures m.peers[i := w.state][j] == m.peers[j] {
    }
  }

  // ---------- event handlers ----------

  function SetUser(m: Master, k: nat, u: User): Master
    requires k < |m.users|
  {
    m.(users := m.users[k := u])
  }

  function Record(m: Master, act: Act): Master {
    m.(acts := m.acts + [act])
  }

  /** One turn of proc_sync_ev_precommit_ack. */
  function CommitUser(m: Master, k: nat): Master
    requires k < |m.users|
  {
    var c, t := CommandOf(m.users[k]), m.users[k].ticket;
    var m1 := Record(Broadcast(m, Commit(c, t), MCommited), CommitSent(t, c));
    SetUser(m1, k, m1.users[k].(state := UWaitingSave))
  }

  function PrecommitAcked(m: Master): Master
    decreases CountUsers(m.users, UWaitingCommit)
  {
    var k := FindUser(m.users, UWaitingCommit);
    if k == |m.users| then m
    else
      CountAfterMove(m.users, k, m.users[k].(state := UWaitingSave), UWaitingCommit);
      PrecommitAcked(CommitUser(m, k))
  }

  /** One turn of the loop of proc_sync_ev_precommit_err. */
  function RejectUser(m: Master, k: nat): Master
    requires k < |m.users|
  {
    SetUser(Record(m, Rejected(m.users[k].ticket)), k, Cleared(m.users[k]))
  }

  function RejectAll(m: Master): Master
    decreases CountUsers(m.users, UWaitingCommit)
  {
    var k := FindUser(m.users, UWaitingCommit);
    if k == |m.users| then m
    else
      CountAfterMove(m.users, k, Cleared(m.users[k]), UWaitingCommit);
      RejectAll(RejectUser(m, k))
  }

  function PrecommitFailed(m: Master): Master {
    RejectAll(Record(Broadcast(m, Abort, Idle), AbortSent(m.started)))
  }

  /** What the user hears about a save at the master. */
  function SaveAnswer(c: Command, result: SaveResult): Answer {
    match result
    case Saved => Wrote(NumberOf(c.body))
    case NotFound => if c.cmd == CmdReplace then Unknown(NumberOf(c.body)) else ErrorWrite
    case OpenFailed => ErrorWrite
  }

  /** One turn of proc_sync_ev_commit_success. `failing` holds the tickets whose save cannot open the file. */
  function FinishUser(m: Master, k: nat, number: string, failing: set<nat>): Master
    requires k < |m.users|
  {
    var c, t := CommandOf(m.users[k]), m.users[k].ticket;
    var saved := Save(m.file, c, t !in failing);
    var m1 := Record(m.(file := saved.file), MasterSaved(t, c, saved.result));
    var m2 := Broadcast(m1, End(saved.result == Saved, number), Idle);
    var m3 := Record(m2, Answered(t, c, SaveAnswer(c, saved.result)));
    SetUser(m3, k, Cleared(m3.users[k]))
  }

  /** proc_sync_ev_commit_success. A waiting user with another number is found again and again: the
      loop never leaves it. */
  function CommitSucceeded(m: Master, number: string, failing: set<nat>): Master
    decreases CountUsers(m.users, UWaitingSave)
  {
    var k := FindUser(m.users, UWaitingSave);
    if k == |m.users| then m
    else if number != m.users[k].msgNumber then m.(hung := true)
    else
      CountAfterMove(m.users, k, Cleared(m.users[k]), UWaitingSave);
      CommitSucceeded(FinishUser(m, k, number, failing), number, failing)
  }

  function FailureAnswer(u: User, response: Option<Reply>): Answer {
    if u.cmd == CmdReplace && response.Some? && response.value.CommitUnknown? then Unknown(u.msgNumber)
    else ErrorWrite
  }

  /** One turn of proc_sync_ev_commit_unsuccess. */
  function FailUser(m: Master, k: nat, number: string, response: Option<Reply>): Master
    requires k < |m.users|
  {
    var u := m.users[k];
    var m1 := Record(m, Answered(u.ticket, CommandOf(u), FailureAnswer(u, response)));
    Broadcast(SetUser(m1, k, Cleared(u)), End(false, number), Idle)
  }

  function CommitFailedAll(m: Master, number: string, response: Option<Reply>): Master
    decreases CountUsers(m.users, UWaitingSave)
  {
    var k := FindUser(m.users, UWaitingSave);
    if k == |m.users| then m
    else if number != "" && number != m.users[k].msgNumber then m.(hung := true)
    else
      CountAfterMove(m.users, k, Cleared(m.users[k]), UWaitingSave);
      CommitFailedAll(FailUser(m, k, number, response), number, response)
  }

  /** proc_sync_ev_master_timeout */
  function TimedOut(m: Master): Master {
    if m.masterState == MPrecommitMulticasted then Enqueue(m, EvPrecommitErr, "", None)
    else if m.masterState == MCommited then
      Record(Enqueue(m, EvCommitUnsuccess, "", None), PhaseTwoTimeout(m.started))
    else m
  }

  /** handle_client_event for the synchronization events, in queue order. */
  function Handle(m: Master, failing: set<nat>): Master
    requires m.queue != []
  {
    var ev, m1 := m.queue[0], m.(queue := m.queue[1..]);
    match ev.kind
    case EvPrecommitAck => PrecommitAcked(m1)
    case EvPrecommitErr => PrecommitFailed(m1)
    case EvCommitSuccess => CommitSucceeded(m1, ev.number, failing)
    case EvCommitUnsuccess => CommitFailedAll(m1, ev.number, ev.response)
    case EvMasterTimeout => TimedOut(m1)
  }

  /** The one-shot timer expires. */
  function Expire(m: Master): Master {
    Enqueue(m.(timer := false), EvMasterTimeout, "", None)
  }

  // ---------- termination of the handler loops ----------

  predicate NoneIn(users: seq<User>, state: SyncState) {
    forall k :: 0 <= k < |users| ==> users[k].state != state
  }

  /** The loops of the ACK and ERR handlers leave nobody waiting to commit, and everybody else alone. */
  lemma {:induction false} AckLoopEmpties(m: Master)
    requires m.Valid()
    ensures var m' := PrecommitAcked(m);
            && |m'.users| == |m.users| && m'.hung == m.hung && NoneIn(m'.users, UWaitingCommit)
            && forall k :: 0 <= k < |m.users| ==>
                 m'.users[k] == if m.users[k].state == UWaitingCommit then m.users[k].(state := UWaitingSave)
                     else m.users[k]
    decreases CountUsers(m.users, UWaitingCommit)
  {
    var k := FindUser(m.users, UWaitingCommit);
    if k < |m.users| {
      CountAfterMove(m.users, k, m.users[k].(state := UWaitingSave), UWaitingCommit);
      AckLoopEmpties(CommitUser(m, k));
    }
  }

  lemma {:induction false} ErrLoopEmpties(m: Master)
    ensures var m' := RejectAll(m);
            && |m'.users| == |m.users| && m'.hung == m.hung && NoneIn(m'.users, UWaitingCommit)
            && forall k :: 0 <= k < |m.users| ==>
                 m'.users[k] == if m.users[k].state == UWaitingCommit then Cleared(m.users[k]) else m.users[k]
    decreases CountUsers(m.users, UWaitingCommit)
  {
    var k := FindUser(m.users, UWaitingCommit);
    if k < |m.users| {
      CountAfterMove(m.users, k, Cleared(m.users[k]), UWaitingCommit);
      ErrLoopEmpties(RejectUser(m, k));
    }
  }

  /** Every user who waits for the save carries the number. */
  predicate AllCarry(users: seq<User>, number: string) {
    forall k :: 0 <= k < |users| && users[k].state == UWaitingSave ==> users[k].msgNumber == number
  }

  lemma AllCarryRest(users: seq<User>, k: nat, number: string)
    requires k < |users| && users[k].msgNumber == number
    ensures AllCarry(users[k := Cleared(users[k])], number) <==> AllCarry(users, number)
  {
    var users' := users[k := Cleared(users[k])];
    if AllCarry(users', number) {
      forall j | 0 <= j < |users| && users[j].state == UWaitingSave ensures users[j].msgNumber == number {
        assert j == k || users'[j] == users[j];
      }
    }
  }

  /** The COMMIT-success loop ends exactly when every user in WAITING_SAVE carries the number of the
      event, and then it leaves nobody waiting for the save. */
  lemma {:induction false} SuccessLoopEndsIff(m: Master, number: string, failing: set<nat>)
    requires m.Valid() && !m.hung
    ensures var m' := CommitSucceeded(m, number, failing);
            && (!m'.hung <==> AllCarry(m.users, number))
            && (!m'.hung ==> NoneIn(m'.users, UWaitingSave))
    decreases CountUsers(m.users, UWaitingSave)
  {
    var k := FindUser(m.users, UWaitingSave);
    if k < |m.users| && number == m.users[k].msgNumber {
      CountAfterMove(m.users, k, Cleared(m.users[k]), UWaitingSave);
      var m1 := FinishUser(m, k, number, failing);
      SuccessLoopEndsIff(m1, number, failing);
      assert m1.users == m.users[k := Cleared(m.users[k])];
      AllCarryRest(m.users, k, number);
    }
  }

  /** The COMMIT-unsuccess loop also ends for an event without a number, as a timeout queues it. */
  lemma {:induction false} FailureLoopEndsIff(m: Master, number: string, response: Option<Reply>)
    requires m.Valid() && !m.hung
    ensures var m' := CommitFailedAll(m, number, response);
            && (!m'.hung <==> number == "" || AllCarry(m.users, number))
            && (!m'.hung ==> NoneIn(m'.users, UWaitingSave))
    decreases CountUsers(m.users, UWaitingSave)
  {
    var k := FindUser(m.users, UWaitingSave);
    if k < |m.users| && (number == "" || number == m.users[k].msgNumber) {
      CountAfterMove(m.users, k, Cleared(m.users[k]), UWaitingSave);
      var m1 := FailUser(m, k, number, response);
      FailureLoopEndsIff(m1, number, response);
      assert m1.users == m.users[k := Cleared(m.users[k])];
      if number != "" {
        AllCarryRest(m.users, k, number);
      }
    }
  }
}
