/**
 The slave's side of one connection: process_sync_slave_msg, the slave timeout handler, and the state
 setter that arms and stops the slave timer. The stores of a connection are tied to its votes.
 */
module Slave {
  import opened Wrappers
  import opened Text
  import opened Store
  import opened Numbers
  import opened Protocol

  const DEBUG_LEVEL_D: nat := 1

  /** `timeouts` counts the timeout events queued and not handled yet. */
  datatype Slave = Slave(state: SyncState, timer: bool, timeouts: nat, file: string, counter: int)

  /** What one line does: the new state, the reply if there is one, the result of a store if one was tried. */
  datatype Effect = Effect(slave: Slave, reply: Option<Reply>, stored: Option<SaveResult>)

  /** sync_set_slave_state */
  function SetState(sl: Slave, state: SyncState): Slave {
    sl.(state := state,
        timer := match state
                 case SPrecommitAck => true
                 case SCommited => false
                 case _ => sl.timer)
  }

  function ReplyFor(c: Command, result: SaveResult): Reply {
    match result
    case Saved => CommitOk(NumberOf(c.body))
    case NotFound => if c.cmd == CmdReplace then CommitUnknown(NumberOf(c.body)) else CommitFailed(NumberOf(c.body))
    case OpenFailed => CommitFailed(NumberOf(c.body))
  }

  /** A COMMIT in a state other than PRECOMMIT_ACK is dropped, but the return that drops it is inside
      the block that logs, so it only exists at debug level 1 and above. */
  predicate Drops(sl: Slave, debugLevel: nat) {
    sl.state != SPrecommitAck && debugLevel >= DEBUG_LEVEL_D
  }

  function Apply(sl: Slave, c: Command, canOpen: bool): Effect {
    var sl1 := SetState(sl, SCommited);
    var sl2 := if c.cmd == CmdWrite then sl1.(counter := Updated(sl1.counter, NumberOf(c.body))) else sl1;
    var saved := Save(sl2.file, c, canOpen);
    Effect(sl2.(file := saved.file), Some(ReplyFor(c, saved.result)), Some(saved.result))
  }

  /** process_sync_slave_msg */
  function Receive(sl: Slave, line: Line, debugLevel: nat, canOpen: bool): Effect {
    match line
    case Precommit => Effect(SetState(SetState(sl, SPrecommitReceived), SPrecommitAck), Some(PrecommitAck), None)
    case Abort => Effect(SetState(sl, Idle), None, None)
    case Commit(c, _) => if Drops(sl, debugLevel) then Effect(sl, None, None) else Apply(sl, c, canOpen)
    case End(_, _) => Effect(SetState(sl, Idle), None, None)
  }

  /** The one-shot timer expires. */
  function Expire(sl: Slave): Slave {
    sl.(timer := false, timeouts := sl.timeouts + 1)
  }

  /** proc_sync_ev_slave_timeout, as one step. */
  function TimedOut(sl: Slave): Slave
    requires sl.timeouts > 0
  {
    var sl1 := sl.(timeouts := sl.timeouts - 1);
    if sl1.state == SPrecommitAck then SetState(sl1, Idle) else sl1
  }

  /** The connection as an object with the fields of its control block. */
  class SlaveConnection {
    var state: SyncState
    var timer: bool
    var timeouts: nat
    var slaveTimeout: bool
    var counter: MsgCounter
    var file: BBFile
    const debugLevel: nat

    constructor (file: BBFile, counter: MsgCounter, debugLevel: nat)
      ensures this.file == file && this.counter == counter && this.debugLevel == debugLevel
      ensures state == Idle && !timer && timeouts == 0 && !slaveTimeout
    {
      this.file, this.counter, this.debugLevel := file, counter, debugLevel;
      state, timer, timeouts, slaveTimeout := Idle, false, 0, false;
    }

    ghost function View(): Slave
      reads this, file, counter
    {
      Slave(state, timer, timeouts, file.bytes, counter.msgNumber)
    }

    method SetSlaveState(state: SyncState)
      modifies this`state, this`timer
      ensures View() == SetState(old(View()), state)
    {
      this.state := state;
      if state == SPrecommitAck {
        timer := true;
      } else if state == SCommited {
        timer := false;
      }
    }

    /** A WRITE from a master carries a number stoi can read. */
    method ProcessLine(line: Line, canOpen: bool) returns (response: Option<Reply>)
      requires line.Commit? && line.command.cmd == CmdWrite ==> Stoi(NumberOf(line.command.body)).Some?
      modifies this`state, this`timer, file, counter
      ensures Receive(old(View()), line, debugLevel, canOpen).slave == View()
      ensures Receive(old(View()), line, debugLevel, canOpen).reply == response
    {
      response := None;
      match line {
        case Precommit =>
          SetSlaveState(SPrecommitReceived);
          response := Some(PrecommitAck);
          SetSlaveState(SPrecommitAck);
        case Abort =>
          SetSlaveState(Idle);
        case Commit(c, _) =>
          if SPrecommitAck != state {
            if debugLevel >= DEBUG_LEVEL_D {
              return None;
            }
          }
          var msgnumber := c.body[..Find(c.body, '/', 0)];
          SetSlaveState(SCommited);
          if c.cmd == CmdWrite {
            var _ := counter.Update(msgnumber);
            var ret := file.AppendMessage(c.body, canOpen);
            response := Some(if ret == Saved then CommitOk(msgnumber) else CommitFailed(msgnumber));
          } else {
            var ret := file.ReplaceMessage(c.body, canOpen);
            response := Some(if ret == Saved then CommitOk(msgnumber)
                             else if ret == NotFound then CommitUnknown(msgnumber) else CommitFailed(msgnumber));
          }
        case End(_, _) =>
          SetSlaveState(Idle);
      }
    }

    method ProcessTimeout()
      requires timeouts > 0
      modifies this`state, this`timer, this`timeouts, this`slaveTimeout
      ensures View() == TimedOut(old(View()))
    {
      timeouts := timeouts - 1;
      if state == SPrecommitAck {
        slaveTimeout := true;
      }
      if state == SPrecommitAck {
        SetSlaveState(Idle);
        slaveTimeout := false;
      }
    }
  }

  // ---------- stores follow votes ----------

  datatype Input = Get(line: Line, canOpen: bool) | TimerExpires | HandleTimeout

  /** One input on a connection, where the timer only expires when armed and a timeout is only handled
      when one is queued. */
  function Feed(sl: Slave, input: Input, debugLevel: nat): Effect {
    match input
    case Get(line, canOpen) => Receive(sl, line, debugLevel, canOpen)
    case TimerExpires => Effect(if sl.timer then Expire(sl) else sl, None, None)
    case HandleTimeout => Effect(if sl.timeouts > 0 then TimedOut(sl) else sl, None, None)
  }

  function After(sl: Slave, inputs: seq<Input>, debugLevel: nat): Slave {
    if inputs == [] then sl
    else Feed(After(sl, inputs[..|inputs| - 1], debugLevel), inputs[|inputs| - 1], debugLevel).slave
  }

  function LastEffect(sl: Slave, inputs: seq<Input>, debugLevel: nat): Effect
    requires inputs != []
  {
    Feed(After(sl, inputs[..|inputs| - 1], debugLevel), inputs[|inputs| - 1], debugLevel)
  }

  /** How often the slave tried to store. */
  function Stores(sl: Slave, inputs: seq<Input>, debugLevel: nat): nat {
    if inputs == [] then 0
    else Stores(sl, inputs[..|inputs| - 1], debugLevel)
         + if LastEffect(sl, inputs, debugLevel).stored.Some? then 1 else 0
  }

  /** How often it voted 5.0. */
  function Votes(sl: Slave, inputs: seq<Input>, debugLevel: nat): nat {
    if inputs == [] then 0
    else Votes(sl, inputs[..|inputs| - 1], debugLevel)
         + if LastEffect(sl, inputs, debugLevel).reply == Some(PrecommitAck) then 1 else 0
  }

  lemma {:induction false} StoresBelowVotes(sl: Slave, inputs: seq<Input>, debugLevel: nat)
    requires debugLevel >= DEBUG_LEVEL_D && sl.state != SPrecommitAck
    ensures Stores(sl, inputs, debugLevel) + (if After(sl, inputs, debugLevel).state == SPrecommitAck then 1 else 0)
            <= Votes(sl, inputs, debugLevel)
  {
    if inputs != [] {
      StoresBelowVotes(sl, inputs[..|inputs| - 1], debugLevel);
    }
  }

  /** A COMMIT out of the blue: at debug level 0 it is stored although the slave never voted. */
  lemma StoreWithoutVote(sl: Slave, c: Command)
    requires sl.state != SPrecommitAck
    ensures Stores(sl, [Get(Commit(c, 0), true)], 0) == 1 && Votes(sl, [Get(Commit(c, 0), true)], 0) == 0
  {
  }

  /** On a fresh connection stores never outnumber votes, whatever lines and timeouts come, exactly
      when the debug level turns the guard on. */
  lemma StoresFollowVotesIff(sl: Slave, debugLevel: nat)
    requires sl.state != SPrecommitAck
    ensures (forall inputs :: Stores(sl, inputs, debugLevel) <= Votes(sl, inputs, debugLevel))
            <==> debugLevel >= DEBUG_LEVEL_D
  {
    if debugLevel >= DEBUG_LEVEL_D {
      forall inputs ensures Stores(sl, inputs, debugLevel) <= Votes(sl, inputs, debugLevel) {
        StoresBelowVotes(sl, inputs, debugLevel);
      }
    } else {
      StoreWithoutVote(sl, Command(CmdWrite, ""));
    }
  }

  /** Between a timeout that was handled or an ABORT and the next PRECOMMIT nothing is stored. */
  lemma {:induction false} NoStoreUntilVote(sl: Slave, cause: Input, inputs: seq<Input>, debugLevel: nat)
    requires debugLevel >= DEBUG_LEVEL_D
    requires cause == Get(Abort, true) || (cause == HandleTimeout && sl.timeouts > 0)
    requires forall k :: 0 <= k < |inputs| ==> !(inputs[k].Get? && inputs[k].line.Precommit?)
    ensures var sl1 := Feed(sl, cause, debugLevel).slave;
            Stores(sl1, inputs, debugLevel) == 0 && After(sl1, inputs, debugLevel).state != SPrecommitAck
  {
    if inputs != [] {
      NoStoreUntilVote(sl, cause, inputs[..|inputs| - 1], debugLevel);
    }
  }

  // ---------- the timer ----------

  predicate IsPrecommit(input: Input) {
    input.Get? && input.line.Precommit?
  }

  /** What stops the timer: it expires, or a COMMIT is applied. */
  predicate Stops(sl: Slave, input: Input, debugLevel: nat) {
    input.TimerExpires? || (input.Get? && input.line.Commit? && !Drops(sl, debugLevel))
  }

  type Condition = (Slave, Input) -> bool

  ghost predicate HoldsAt(p: Condition, sl: Slave, inputs: seq<Input>, k: nat, debugLevel: nat)
    requires k < |inputs|
  {
    p(After(sl, inputs[..k], debugLevel), inputs[k])
  }

  ghost predicate SinceAt(starts: Condition, stops: Condition, sl: Slave, inputs: seq<Input>, j: nat, debugLevel: nat)
    requires j < |inputs|
  {
    && HoldsAt(starts, sl, inputs, j, debugLevel)
    && forall k :: j < k < |inputs| ==> !HoldsAt(stops, sl, inputs, k, debugLevel)
  }

  /** The first condition has been met, and the second has not been met since. */
  ghost predicate Since(starts: Condition, stops: Condition, sl: Slave, inputs: seq<Input>, debugLevel: nat) {
    exists j :: 0 <= j < |inputs| && SinceAt(starts, stops, sl, inputs, j, debugLevel)
  }

  lemma HoldsEarlier(p: Condition, sl: Slave, inputs: seq<Input>, n: nat, k: nat, debugLevel: nat)
    requires k < n <= |inputs|
    ensures HoldsAt(p, sl, inputs[..n], k, debugLevel) == HoldsAt(p, sl, inputs, k, debugLevel)
  {
    assert inputs[..n][..k] == inputs[..k];
  }

  lemma SinceAtLater(starts: Condition, stops: Condition, sl: Slave, inputs: seq<Input>, j: nat, debugLevel: nat)
    requires j < |inputs| - 1
    ensures SinceAt(starts, stops, sl, inputs, j, debugLevel) <==>
            && SinceAt(starts, stops, sl, inputs[..|inputs| - 1], j, debugLevel)
            && !HoldsAt(stops, sl, inputs, |inputs| - 1, debugLevel)
  {
    var front, n := inputs[..|inputs| - 1], |inputs| - 1;
    HoldsEarlier(starts, sl, inputs, n, j, debugLevel);
    if SinceAt(starts, stops, sl, inputs, j, debugLevel) {
      forall k | j < k < n ensures !HoldsAt(stops, sl, front, k, debugLevel) {
        HoldsEarlier(stops, sl, inputs, n, k, debugLevel);
      }
    } else if SinceAt(starts, stops, sl, front, j, debugLevel) {
      var k :| j < k < |inputs| && HoldsAt(stops, sl, inputs, k, debugLevel);
      if k < n {
        HoldsEarlier(stops, sl, inputs, n, k, debugLevel);
      }
    }
  }

  lemma SinceLater(starts: Condition, stops: Condition, sl: Slave, inputs: seq<Input>, debugLevel: nat)
    requires inputs != []
    ensures Since(starts, stops, sl, inputs, debugLevel) <==>
            || HoldsAt(starts, sl, inputs, |inputs| - 1, debugLevel)
            || (Since(starts, stops, sl, inputs[..|inputs| - 1], debugLevel)
                && !HoldsAt(stops, sl, inputs, |inputs| - 1, debugLevel))
  {
    var front, n := inputs[..|inputs| - 1], |inputs| - 1;
    assert HoldsAt(starts, sl, inputs, n, debugLevel) <==> SinceAt(starts, stops, sl, inputs, n, debugLevel);
    if Since(starts, stops, sl, inputs, debugLevel) && !HoldsAt(starts, sl, inputs, n, debugLevel) {
      var j :| 0 <= j < |inputs| && SinceAt(starts, stops, sl, inputs, j, debugLevel);
      SinceAtLater(starts, stops, sl, inputs, j, debugLevel);
      assert SinceAt(starts, stops, sl, front, j, debugLevel);
    }
    if Since(starts, stops, sl, front, debugLevel) && !HoldsAt(stops, sl, inputs, n, debugLevel) {
      var j :| 0 <= j < |front| && SinceAt(starts, stops, sl, front, j, debugLevel);
      SinceAtLater(starts, stops, sl, inputs, j, debugLevel);
      assert SinceAt(starts, stops, sl, inputs, j, debugLevel);
    }
  }

  /** What each input starts and stops, over whole sequences. */
  lemma {:induction false} SinceRun(q: Slave -> bool, starts: Condition, stops: Condition, sl: Slave,
                                    inputs: seq<Input>, debugLevel: nat)
    requires !q(sl)
    requires forall s: Slave, input: Input ::
               q(Feed(s, input, debugLevel).slave) <==> starts(s, input) || (q(s) && !stops(s, input))
    ensures q(After(sl, inputs, debugLevel)) <==> Since(starts, stops, sl, inputs, debugLevel)
  {
    if inputs != [] {
      SinceRun(q, starts, stops, sl, inputs[..|inputs| - 1], debugLevel);
      SinceLater(starts, stops, sl, inputs, debugLevel);
    }
  }

  predicate Precommits(sl: Slave, input: Input) {
    IsPrecommit(input)
  }

  function Stopping(debugLevel: nat): Condition {
    (sl: Slave, input: Input) => Stops(sl, input, debugLevel)
  }

  /** What ends the wait for a COMMIT. */
  predicate EndsVote(sl: Slave, input: Input) {
    || (input.HandleTimeout? && sl.timeouts > 0)
    || (input.Get? && !input.line.Precommit?)
  }

  function Applying(debugLevel: nat): Condition {
    (sl: Slave, input: Input) => input.Get? && input.line.Commit? && !Drops(sl, debugLevel)
  }

  predicate LineOtherThanCommit(sl: Slave, input: Input) {
    input.Get? && !input.line.Commit?
  }

  /** The timer runs exactly when the last PRECOMMIT has been followed neither by an applied COMMIT nor by an
      expiry. ABORT, END and a handled timeout leave it alone. */
  lemma TimerArmedIff(sl: Slave, inputs: seq<Input>, debugLevel: nat)
    requires !sl.timer
    ensures After(sl, inputs, debugLevel).timer <==> Since(Precommits, Stopping(debugLevel), sl, inputs, debugLevel)
  {
    SinceRun((s: Slave) => s.timer, Precommits, Stopping(debugLevel), sl, inputs, debugLevel);
  }

  /** A slave waits for COMMIT exactly when the last PRECOMMIT has been followed by no other line and by no
      timeout that was handled. */
  lemma VoteOpenIff(sl: Slave, inputs: seq<Input>, debugLevel: nat)
    requires sl.state != SPrecommitAck
    ensures After(sl, inputs, debugLevel).state == SPrecommitAck <==>
            Since(Precommits, EndsVote, sl, inputs, debugLevel)
  {
    SinceRun((s: Slave) => s.state == SPrecommitAck, Precommits, EndsVote, sl, inputs, debugLevel);
  }

  /** It is COMMITED exactly when the last COMMIT it applied has been followed by no other line; a timeout that
      is handled late changes nothing. */
  lemma CommitedIff(sl: Slave, inputs: seq<Input>, debugLevel: nat)
    requires sl.state != SCommited
    ensures After(sl, inputs, debugLevel).state == SCommited <==>
            Since(Applying(debugLevel), LineOtherThanCommit, sl, inputs, debugLevel)
  {
    SinceRun((s: Slave) => s.state == SCommited, Applying(debugLevel), LineOtherThanCommit, sl, inputs, debugLevel);
  }

  /** A COMMIT that is applied is the end of its round's timer: until the next PRECOMMIT the timer is off and
      no timeout is added to those queued before, so none can take away a later vote. */
  lemma {:induction false} NoTimeoutAfterStore(sl: Slave, c: Command, t: nat, canOpen: bool, inputs: seq<Input>,
                                               debugLevel: nat)
    requires !Drops(sl, debugLevel) && forall k :: 0 <= k < |inputs| ==> !IsPrecommit(inputs[k])
    ensures var e := After(Feed(sl, Get(Commit(c, t), canOpen), debugLevel).slave, inputs, debugLevel);
            !e.timer && e.timeouts <= sl.timeouts
  {
    if inputs != [] {
      NoTimeoutAfterStore(sl, c, t, canOpen, inputs[..|inputs| - 1], debugLevel);
    }
  }

  function Expiries(sl: Slave, inputs: seq<Input>, debugLevel: nat): nat {
    if inputs == [] then 0
    else
      var front, last := inputs[..|inputs| - 1], inputs[|inputs| - 1];
      Expiries(sl, front, debugLevel) + if last.TimerExpires? && After(sl, front, debugLevel).timer then 1 else 0
  }

  function Handlings(sl: Slave, inputs: seq<Input>, debugLevel: nat): nat {
    if inputs == [] then 0
    else
      var front, last := inputs[..|inputs| - 1], inputs[|inputs| - 1];
      Handlings(sl, front, debugLevel)
      + if last.HandleTimeout? && After(sl, front, debugLevel).timeouts > 0 then 1 else 0
  }

  /** Every expiry queues one timeout, and each is handled once. */
  lemma {:induction false} TimeoutsAddUp(sl: Slave, inputs: seq<Input>, debugLevel: nat)
    ensures After(sl, inputs, debugLevel).timeouts + Handlings(sl, inputs, debugLevel)
            == sl.timeouts + Expiries(sl, inputs, debugLevel)
  {
    if inputs != [] {
      TimeoutsAddUp(sl, inputs[..|inputs| - 1], debugLevel);
    }
  }
}
