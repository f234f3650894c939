/**
 The master as an object: the lists are fields, the handlers are methods with the loops of event.cpp,
 sync.cpp and list.cpp, and each is proved to compute the function of module Master of the same name.
 */
module Coordinator {
  import opened Wrappers
  import opened Text
  import opened Store
  import opened Numbers
  import opened Protocol
  import M = Master

  class Coordinator {
    var peers: seq<SyncState>
    var masterState: SyncState
    var timer: bool
    var users: seq<M.User>
    var queue: seq<Event>
    var out: seq<seq<Line>>
    var file: BBFile
    var counter: MsgCounter
    /** A handler loop that never ends: the model stops in it. */
    var hung: bool
    var started: nat
    ghost var acts: seq<Act>

    constructor (n: nat, users: seq<M.User>, file: BBFile, counter: MsgCounter)
      ensures View() == M.Master(seq(n, _ => Disconnect), Disconnect, false, users, [], seq(n, _ => []),
                                 file.bytes, counter.msgNumber, false, 0, [])
    {
      peers, masterState, timer := seq(n, _ => Disconnect), Disconnect, false;
      this.users, queue, out := users, [], seq(n, _ => []);
      this.file, this.counter := file, counter;
      hung, started, acts := false, 0, [];
    }

    ghost function View(): M.Master
      reads this, file, counter
    {
      M.Master(peers, masterState, timer, users, queue, out, file.bytes, counter.msgNumber, hung, started, acts)
    }

    ghost predicate Valid()
      reads this, file, counter
    {
      View().Valid()
    }

    // ---------- list.cpp ----------

    method SetMasterState(state: SyncState)
      modifies this`masterState, this`timer
      ensures View() == M.SetMasterState(old(View()), state)
    {
      masterState := state;
      match state {
        case MPrecommitMulticasted => timer := true;
        case MCommited => timer := true;
        case MPrecommited => timer := false;
        case MPrecommitUnsuccess => timer := false;
        case MOperationPerformed => timer := false;
        case MOperationUnsuccess => timer := false;
        case _ =>
      }
    }

    /** sync_find_waiting_commit_user_client and sync_find_waiting_save_user_client */
    method FindWaiting(state: SyncState) returns (k: nat)
      ensures k == M.FindUser(users, state)
    {
      k := 0;
      while k < |users| && users[k].state != state
        invariant k <= |users|
        invariant forall j :: 0 <= j < k ==> users[j].state != state
      {
        k := k + 1;
      }
      FindUserIs(users, state, k);
    }

    method SaveClientCmd(u: nat, c: Command)
      requires u < |users|
      modifies this`users, this`started, this`acts
      ensures View() == M.SaveClientCmd(old(View()), u, c)
    {
      started := started + 1;
      acts := acts + [Started(started, c)];
      users := users[u := users[u].(cmd := c.cmd, msg := c.body, msgNumber := c.body[..Find(c.body, '/', 0)],
                                    state := UWaitingCommit, ticket := started)];
    }

    method ClearClientCmd(k: nat)
      requires k < |users|
      modifies this`users
      ensures View() == M.SetUser(old(View()), k, M.Cleared(old(users[k])))
    {
      users := users[k := users[k].(msg := "", msgNumber := "", state := Idle)];
    }

    // ---------- sync.cpp ----------

    method CheckServerState(state: SyncState) returns (all: bool)
      ensures all == M.AllPeers(peers, state)
    {
      for i := 0 to |peers|
        invariant forall j :: 0 <= j < i ==> peers[j] == state
      {
        if peers[i] != state {
          return false;
        }
      }
      all := true;
    }

    /** The loop over the server list that all four broadcasts run. */
    method Multicast(line: Line, state: SyncState)
      requires Valid()
      modifies this`peers, this`out, this`masterState, this`timer
      ensures View() == M.Broadcast(old(View()), line, state) && Valid()
    {
      SendToAll(line, state);
      var all := CheckServerState(state);
      if all {
        SetMasterState(state);
      }
    }

    method SendToAll(line: Line, state: SyncState)
      requires |peers| == |out|
      modifies this`peers, this`out
      ensures peers == M.AllIn(|old(peers)|, state) && out == M.Sent(old(out), line)
    {
      for i := 0 to |peers|
        invariant |peers| == old(|peers|) && |out| == old(|out|)
        invariant forall j :: 0 <= j < i ==> peers[j] == state && out[j] == old(out[j]) + [line]
        invariant forall j :: i <= j < |peers| ==> peers[j] == old(peers[j]) && out[j] == old(out[j])
      {
        out := out[i := out[i] + [line]];
        peers := peers[i := state];
      }
    }

    method SendEvent(kind: EventKind, number: string, response: Option<Reply>)
      modifies this`queue
      ensures View() == M.Enqueue(old(View()), kind, number, response)
    {
      queue := queue + [Event(kind, number, response)];
    }

    /** Whether a peer can be reached is up to the environment. */
    method InitConnection(reach: seq<bool>) returns (ret: int)
      requires |reach| == |peers|
      modifies this`peers, this`masterState, this`timer
      ensures View() == M.InitConnection(old(View()).(peers := M.Connect(old(peers), reach)))
      ensures ret == if M.AllReached(old(peers), reach) then 0 else -1
      ensures (forall i :: 0 <= i < |peers| ==> peers[i] == Idle) ==> masterState == Idle
    {
      ret := 0;
      for i := 0 to |peers|
        invariant |peers| == old(|peers|)
        invariant forall j :: 0 <= j < i ==> peers[j] == M.Connect(old(peers), reach)[j]
        invariant forall j :: i <= j < |peers| ==> peers[j] == old(peers[j])
        invariant masterState == old(masterState) && timer == old(timer) && (ret == 0 || ret == -1)
        invariant ret == 0 <==> forall j :: 0 <= j < i && old(peers[j]) == Disconnect ==> reach[j]
      {
        if peers[i] == Disconnect {
          if reach[i] {
            peers := peers[i := Idle];
          } else {
            ret := -1;
          }
        }
      }
      assert peers == M.Connect(old(peers), reach);
      var idle := CheckServerState(Idle);
      if idle {
        SetMasterState(Idle);
      }
    }

    // ---------- msg.cpp ----------

    /** The answer, if there is one, is 3.2 ERROR WRITE. */
    method ProcessWrite(u: nat, text: string, reach: seq<bool>) returns (answer: Option<Answer>)
      requires Valid() && u < |users| && counter.msgNumber < INT_MAX && |reach| == |peers|
      modifies this, counter
      ensures View() == M.TryWrite(old(View()), u, text, reach) && Valid()
      ensures answer == if M.AllReached(old(peers), reach) then None else Some(ErrorWrite)
      ensures file == old(file) && counter == old(counter)
    {
      var strNumber := counter.Alloc();
      var name := if |users[u].name| != 0 then users[u].name else "nobody";
      var msgSave := strNumber + "/" + name + "/" + text;
      SaveClientCmd(u, Command(CmdWrite, msgSave));
      var ret := InitConnection(reach);
      if ret < 0 {
        return Some(ErrorWrite);
      }
      Multicast(Precommit, MPrecommitMulticasted);
      answer := None;
    }

    method ProcessReplace(u: nat, number: string, text: string, reach: seq<bool>) returns (answer: Option<Answer>)
      requires Valid() && u < |users| && |reach| == |peers|
      modifies this
      ensures View() == M.TryReplace(old(View()), u, number, text, reach) && Valid()
      ensures answer == if M.AllReached(old(peers), reach) then None else Some(ErrorWrite)
      ensures file == old(file) && counter == old(counter)
    {
      var name := if |users[u].name| != 0 then users[u].name else "nobody";
      var msgSave := number + "/" + name + "/" + text;
      SaveClientCmd(u, Command(CmdReplace, msgSave));
      var ret := InitConnection(reach);
      if ret < 0 {
        return Some(ErrorWrite);
      }
      Multicast(Precommit, MPrecommitMulticasted);
      answer := None;
    }

    method ProcessReply(i: nat, reply: Reply)
      requires Valid() && i < |peers|
      modifies this`peers, this`masterState, this`timer, this`queue
      ensures View() == M.Receive(old(View()), i, reply) && Valid()
    {
      match reply {
        case PrecommitAck =>
          peers := peers[i := MPrecommited];
          var all := CheckServerState(MPrecommited);
          if all {
            SetMasterState(MPrecommited);
            SendEvent(EvPrecommitAck, "", Some(reply));
          }
        case PrecommitErr =>
          peers := peers[i := MPrecommitUnsuccess];
          if masterState != MPrecommitUnsuccess {
            SetMasterState(MPrecommitUnsuccess);
            SendEvent(EvPrecommitErr, "", Some(reply));
          }
        case CommitOk(number) =>
          peers := peers[i := MOperationPerformed];
          var all := CheckServerState(MOperationPerformed);
          if all {
            SetMasterState(MOperationPerformed);
            SendEvent(EvCommitSuccess, number, Some(reply));
          }
        case CommitFailed(number) =>
          peers := peers[i := MOperationUnsuccess];
          if masterState != MOperationUnsuccess {
            SetMasterState(MOperationUnsuccess);
            SendEvent(EvCommitUnsuccess, number, Some(reply));
          }
        case CommitUnknown(number) =>
          peers := peers[i := MOperationUnsuccess];
          if masterState != MOperationUnsuccess {
            SetMasterState(MOperationUnsuccess);
            SendEvent(EvCommitUnsuccess, number, Some(reply));
          }
      }
    }

    // ---------- event.cpp ----------

    method ProcessPrecommitAck()
      requires Valid()
      modifies this
      ensures View() == M.PrecommitAcked(old(View())) && Valid()
      ensures file == old(file) && counter == old(counter)
    {
      var k := FindWaiting(UWaitingCommit);
      while k < |users|
        invariant Valid() && file == old(file) && counter == old(counter)
        invariant k == M.FindUser(users, UWaitingCommit)
        invariant M.PrecommitAcked(View()) == M.PrecommitAcked(old(View()))
        decreases M.CountUsers(users, UWaitingCommit)
      {
        M.CountAfterMove(users, k, users[k].(state := UWaitingSave), UWaitingCommit);
        CommitUser(k);
        k := FindWaiting(UWaitingCommit);
      }
    }

    method CommitUser(k: nat)
      requires Valid() && k < |users|
      modifies this
      ensures View() == M.CommitUser(old(View()), k) && Valid()
      ensures file == old(file) && counter == old(counter)
    {
      var u := users[k];
      Multicast(Commit(Command(u.cmd, u.msg), u.ticket), MCommited);
      acts := acts + [CommitSent(u.ticket, M.CommandOf(u))];
      users := users[k := u.(state := UWaitingSave)];
    }

    method ProcessPrecommitErr()
      requires Valid()
      modifies this
      ensures View() == M.PrecommitFailed(old(View())) && Valid()
      ensures file == old(file) && counter == old(counter)
    {
      Multicast(Abort, Idle);
      acts := acts + [AbortSent(started)];
      var k := FindWaiting(UWaitingCommit);
      while k < |users|
        invariant Valid() && file == old(file) && counter == old(counter)
        invariant k == M.FindUser(users, UWaitingCommit)
        invariant M.RejectAll(View()) == M.PrecommitFailed(old(View()))
        decreases M.CountUsers(users, UWaitingCommit)
      {
        M.CountAfterMove(users, k, M.Cleared(users[k]), UWaitingCommit);
        RejectUser(k);
        k := FindWaiting(UWaitingCommit);
      }
    }

    method RejectUser(k: nat)
      requires Valid() && k < |users|
      modifies this
      ensures View() == M.RejectUser(old(View()), k) && Valid()
      ensures file == old(file) && counter == old(counter)
    {
      acts := acts + [Rejected(users[k].ticket)];
      ClearClientCmd(k);
    }

    /** The `continue` on a user with another number finds the same user again, forever. */
    method ProcessCommitSuccess(number: string, failing: set<nat>)
      requires Valid()
      modifies this, file
      ensures View() == M.CommitSucceeded(old(View()), number, failing) && Valid()
      ensures file == old(file) && counter == old(counter)
    {
      var k := FindWaiting(UWaitingSave);
      while k < |users|
        invariant Valid() && file == old(file) && counter == old(counter)
        invariant k == M.FindUser(users, UWaitingSave)
        invariant M.CommitSucceeded(View(), number, failing) == M.CommitSucceeded(old(View()), number, failing)
        decreases M.CountUsers(users, UWaitingSave)
      {
        if number != users[k].msgNumber {
          hung := true;
          return;
        }
        M.CountAfterMove(users, k, M.Cleared(users[k]), UWaitingSave);
        FinishUser(k, number, failing);
        k := FindWaiting(UWaitingSave);
      }
    }

    method FinishUser(k: nat, number: string, failing: set<nat>)
      requires Valid() && k < |users|
      modifies this, file
      ensures View() == M.FinishUser(old(View()), k, number, failing) && Valid()
      ensures file == old(file) && counter == old(counter)
      ensures users == old(users)[k := M.Cleared(old(users)[k])]
    {
      var u := users[k];
      var answer: Answer;
      var isSuccess: bool;
      var ret: SaveResult;
      var canOpen := u.ticket !in failing;
      if u.cmd == CmdWrite {
        ret := file.AppendMessage(u.msg, canOpen);
        isSuccess := ret == Saved;
        answer := if ret == Saved then Wrote(u.msg[..Find(u.msg, '/', 0)]) else ErrorWrite;
      } else {
        ret := file.ReplaceMessage(u.msg, canOpen);
        isSuccess := ret == Saved;
        answer := if ret == Saved then Wrote(u.msg[..Find(u.msg, '/', 0)])
        else if ret == NotFound then Unknown(u.msg[..Find(u.msg, '/', 0)]) else ErrorWrite;
      }
      acts := acts + [MasterSaved(u.ticket, M.CommandOf(u), ret)];
      Multicast(End(isSuccess, number), Idle);
      acts := acts + [Answered(u.ticket, M.CommandOf(u), answer)];
      ClearClientCmd(k);
    }

    method ProcessCommitUnsuccess(number: string, response: Option<Reply>)
      requires Valid()
      modifies this
      ensures View() == M.CommitFailedAll(old(View()), number, response) && Valid()
      ensures file == old(file) && counter == old(counter)
    {
      var k := FindWaiting(UWaitingSave);
      while k < |users|
        invariant Valid() && file == old(file) && counter == old(counter)
        invariant k == M.FindUser(users, UWaitingSave)
        invariant M.CommitFailedAll(View(), number, response) == M.CommitFailedAll(old(View()), number, response)
        decreases M.CountUsers(users, UWaitingSave)
      {
        if number != "" && number != users[k].msgNumber {
          hung := true;
          return;
        }
        M.CountAfterMove(users, k, M.Cleared(users[k]), UWaitingSave);
        FailUser(k, number, response);
        k := FindWaiting(UWaitingSave);
      }
    }

    method FailUser(k: nat, number: string, response: Option<Reply>)
      requires Valid() && k < |users|
      modifies this
      ensures View() == M.FailUser(old(View()), k, number, response) && Valid()
      ensures file == old(file) && counter == old(counter)
      ensures users == old(users)[k := M.Cleared(old(users)[k])]
    {
      var u := users[k];
      var answer := ErrorWrite;
      if u.cmd == CmdReplace {
        if response.Some? && response.value.CommitUnknown? {
          answer := Unknown(u.msgNumber);
        }
      }
      acts := acts + [Answered(u.ticket, M.CommandOf(u), answer)];
      ClearClientCmd(k);
      Multicast(End(false, number), Idle);
    }

    method ProcessMasterTimeout()
      modifies this`queue, this`acts
      ensures View() == M.TimedOut(old(View()))
    {
      if masterState == MPrecommitMulticasted {
        SendEvent(EvPrecommitErr, "", None);
      } else if masterState == MCommited {
        SendEvent(EvCommitUnsuccess, "", None);
        acts := acts + [PhaseTwoTimeout(started)];
      }
    }

    /** One turn of handle_client_event. */
    method HandleEvent(failing: set<nat>)
      requires Valid() && queue != []
      modifies this, file
      ensures View() == M.Handle(old(View()), failing) && Valid()
      ensures file == old(file) && counter == old(counter)
    {
      var ev := queue[0];
      queue := queue[1..];
      match ev.kind {
        case EvPrecommitAck => ProcessPrecommitAck();
        case EvPrecommitErr => ProcessPrecommitErr();
        case EvCommitSuccess => ProcessCommitSuccess(ev.number, failing);
        case EvCommitUnsuccess => ProcessCommitUnsuccess(ev.number, ev.response);
        case EvMasterTimeout => ProcessMasterTimeout();
      }
    }
  }

  lemma {:induction false} FindUserIs(users: seq<M.User>, state: SyncState, k: nat)
    requires k <= |users| && forall j :: 0 <= j < k ==> users[j].state != state
    requires k < |users| ==> users[k].state == state
    ensures M.FindUser(users, state) == k
  {
  }
}
