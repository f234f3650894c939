/**
 The vocabulary of the two-phase commit: states, lines between master and slaves, events, answers to
 users, and the history of what happened. The text of the lines is in module Wire.
 */
module Protocol {
  import opened Text
  import opened Wrappers
  import opened Store

  datatype SyncState =
    | Disconnect | Idle
    | MPrecommitMulticasted | MPrecommited | MPrecommitUnsuccess
    | MCommited | MOperationPerformed | MOperationUnsuccess
    | SPrecommitReceived | SPrecommitAck | SCommited | SUndo
    | UWaitingCommit | UWaitingSave | USaving | USaved

  datatype Cmd = CmdWrite | CmdReplace

  /** A WRITE or REPLACE with the line number/user/text it stores. */
  datatype Command = Command(cmd: Cmd, body: string)

  /** Master to slave. The ticket names the user command a COMMIT belongs to. It is not on the wire
      and no handler looks at it. */
  datatype Line =
    | Precommit
    | Abort
    | Commit(command: Command, ticket: nat)
    | End(success: bool, number: string)

  /** Slave to master. */
  datatype Reply =
    | PrecommitAck
    | PrecommitErr
    | CommitOk(number: string)
    | CommitFailed(number: string)
    | CommitUnknown(number: string)

  // ---------- what arrives ----------

  /** Both receivers take a CR off together with the newline the sender adds, so a text that ends in CR
      loses it. Module Wire derives the three functions from the printed text. */
  function Heard(c: Command): Command {
    c.(body := Chopped(c.body))
  }

  function HeardLine(line: Line): Line {
    match line
    case Commit(c, t) => Commit(Heard(c), t)
    case End(success, number) => End(success, Chopped(number))
    case _ => line
  }

  function HeardReply(reply: Reply): Reply {
    match reply
    case CommitOk(number) => CommitOk(Chopped(number))
    case CommitFailed(number) => CommitFailed(Chopped(number))
    case CommitUnknown(number) => CommitUnknown(Chopped(number))
    case _ => reply
  }

  /** The number a master hears back about a command. */
  function Back(c: Command): string {
    Chopped(NumberOf(Heard(c).body))
  }

  /** The number of a command comes back unchanged exactly when it does not end in CR, whatever the text
      behind it ends in. */
  lemma BackIff(c: Command)
    requires HasSlash(c.body)
    ensures Back(c) == Chopped(NumberOf(c.body))
    ensures Back(c) == NumberOf(c.body) <==> !EndsInCR(NumberOf(c.body))
  {
    ChoppedNumber(c.body);
    ChoppedIff(NumberOf(c.body));
  }

  datatype EventKind =
    | EvPrecommitAck | EvPrecommitErr | EvCommitSuccess | EvCommitUnsuccess | EvMasterTimeout

  datatype Event = Event(kind: EventKind, number: string, response: Option<Reply>)

  /** 3.0 WROTE, 3.1 UNKNOWN, 3.2 ERROR WRITE */
  datatype Answer = Wrote(number: string) | Unknown(number: string) | ErrorWrite

  /** The history of a run. The ticket of a command is its place in the order of all commands; the
      acts that belong to a broadcast and not to one command carry the latest ticket. */
  datatype Act =
    | Started(ticket: nat, command: Command)
    | Voted(slave: nat, ticket: nat)                                           // 5.0 sent by the slave
    | CommitSent(ticket: nat, command: Command)
    | AbortSent(ticket: nat)
    | SlaveSaved(slave: nat, ticket: nat, command: Command, result: SaveResult)  // the command as the slave heard it
    | MasterSaved(ticket: nat, command: Command, result: SaveResult)
    | PhaseTwoTimeout(ticket: nat)
    | Rejected(ticket: nat)                                                    // 3.2 by the precommit-error handler
    | Answered(ticket: nat, command: Command, answer: Answer)                  // by a phase-two handler

  /** What a command does to a file. */
  function Save(file: string, c: Command, canOpen: bool): SaveOutcome {
    match c.cmd
    case CmdWrite => SaveWrite(file, c.body, canOpen)
    case CmdReplace => SaveReplace(file, c.body, canOpen)
  }
}
