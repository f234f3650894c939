# BBServer: a verified model

BBServer is a replicated bulletin board. Every server keeps its messages in one flat file, `bbfile`, one line
`number/user/text` per message. A server that receives WRITE or REPLACE from a user becomes the master of a
two-phase commit over its configured peers; every other server is a slave of that round. This project models
the commit protocol, the file, the lock around the file, the message counter and the text that ties them
together, and proves properties of the model with Dafny 4.11. `dafny verify dfyconfig.toml` checks everything.

## How the model is built

| part | modules |
|---|---|
| strings, decimal numbers | `Text`, `Wrappers` |
| `bbfile` byte by byte, and as a list of lines | `Store` (class `BBFile`), `Records` |
| the message counter | `Numbers` (class `MsgCounter`) |
| a server without peers over whole runs; user commands as text | `Board`, `Client` (class `Session`), `Visits` |
| states, lines, events, history | `Protocol`, `History` |
| the master | `Master` (functions), `Coordinator` (a class with the source's loops and assignments) |
| a slave's connection | `Slave` (functions and class `SlaveConnection`) |
| master, N slaves, connections, timers as one step system | `Cluster` |
| one command in flight | `Serial`, `SerialSteps`, `SerialRuns`, `Handlers`, `Agreement`, `OneCopy`, `Counters`, `Progress`, `Traces` |
| rounds step by step that go wrong | `OneSlave`, `Divergence`, `CarriageReturn`, `RefusedRound` |
| rounds led by any node of a full mesh | `Mesh` |
| any number of commands in flight | `Concurrent`, `Outcomes`, `UserBlocks`, `Replays` |
| the same with peers that cannot be reached | `Refusals` |
| the readers/writer lock and file access behind it | `Lock`, `SharedFile` |
| text of the lines between servers, peer list, event queue | `Wire`, `Peers`, `EventQueue` |

`Coordinator.Coordinator`, `Slave.SlaveConnection`, `Store.BBFile`, `Numbers.MsgCounter`, `Client.Session`,
`Peers.ServerList` and `EventQueue.Queue` update fields in place as the source does. Their methods are proved to
compute functions; the lemmas about runs are about those functions.

A run is a sequence of steps: a user's command, one line delivered, one event handled, one timer expiring. The
history (`Act`) of a run records what took place in which order. Each command has a ticket, its place in the order
of all commands; the ticket and the history are specification only, no handler looks at them, and a COMMIT line
carries its ticket only so that the history can name the command. Three results tie the model to what it stands for:
a COMMIT on a connection is in the history (`Concurrent.Sound`), every file is exactly what the stores in the
history made of it (`Replays.FilesComeFromHistory`), and a step on a connection is the handler's work on the printed
text (`Wire.DeliveryIsText`, `Wire.ReplyIsText`), without exceptions: connections hold lines as they were sent, and
receivers take the CR off that a payload may end in (`Protocol.HeardLine`, `Protocol.HeardReply`).

Assumptions, because the code does not deliver the claims without them:

- Handlers run one at a time, in queue order. The thread pool does not enforce this.
- One `recv` is one line, every `send` succeeds, and in the runs of module `Cluster` all peers are connected.
- A user sends the next command after the answer to the last one.
- "One command in flight" (`Cluster.OneAtATime`): the next command starts when nothing is under way. Peer states,
  slave states, slave timers and queued slave timeouts may be left over from earlier rounds.
- A one-shot timer is an armed or disarmed flag and an expiry step that may come at any moment while it is armed.
- Whether a file opens is chosen by the environment for every single access.
- The debug level is a parameter. The guard that drops a COMMIT in the wrong state sits inside the block that logs
  (msg.cpp:146-154, 179-187) and only exists from level 1 on.

## What is proved

- **One command in flight, any N, any interleaving, timers expiring at any moment.** Commit safety, unanimity, a
  single decision per round, one outcome per command, and answers that say what happened (`SerialRuns`). Every run is finite without new commands, with an
  explicit bound; it cannot stop with somebody waiting unless a handler runs forever, and whenever nothing is under way
  every command has exactly one outcome (`Progress`). A handler runs forever exactly when a number that ends in CR
  comes back without it; otherwise nobody waits in vain (`Handlers`).
- **The replicated board behaves as one board.** When files open and no timeout is handled in phase two, the master's
  file is one board and the slaves' files are another, every answer is read off the two (`Agreement`,
  `OneCopy.TwoBoards`), and they are one single board when no text ends in CR (`OneCopy.OneCopyBoard`), also over rounds
  led by different nodes (`Mesh`). After one such round the files are equal exactly under the condition of
  `OneCopy.RoundAgreesIff`; for a WRITE: exactly when its text does not end in CR.
- **A failure of phase two may leave a trace**, although README:102 says that no message will be written. For a WRITE
  whose failure is the next event, every continuation leaves all files as they were exactly when no slave has stored
  and every COMMIT still on a connection is one its slave drops (`Traces.FailureLeavesNoTraceIff`). `Divergence` gives,
  for every text, two runs in which the slave keeps a message the master does not have: one with a timeout, one in
  which only the master's file does not open; the second kind of failure always leaves the message at every slave
  (`Traces.MasterFailureAlwaysLeavesTrace`).
- **Any number of commands at once** (`Concurrent`, `Outcomes`, `UserBlocks`, `Replays`): one outcome per command, no
  double store, a command rejected in phase one is in no COMMIT and in no file, every file is the replay of its
  stores, and the life of a user block.
- **Numbers across nodes** (`Counters`, `Mesh`): committed numbers strictly increase over rounds led by any nodes.
- **Handler loops** (`Master`): the ACK and ERR loops always end; the COMMIT loops end exactly under a condition.
- **The lock** (`Lock`, `SharedFile`): exclusion, the counting invariant, deadlock freedom, and serialisable file
  access with every line read and every piece written as its own step.
- **The file** (`Records`, `Board`): REPLACE is a record update exactly when the message fits, the backward scan finds
  the last line exactly under a stated condition, READ answers what the latest WRITE or REPLACE stored.
- **Text** (`Wire`, `Peers`, `Client`): what survives printing and parsing, exactly when. Without peers every answer to a
  line is told from the history of lines (`Visits`).

Findings about the code, each proved for every input concerned:

- a WRITE whose text ends in CR is stored with it by the master and without it by the slaves
  (`CarriageReturn.TextLosesCR`);
- a REPLACE of a number that ends in CR and is more than a CR leaves the master in a handler forever unless a timeout
  comes first, also when no line has that number (`CarriageReturn.NumberLosesCR`, `Handlers.HandlerEndsIff`);
- a failed phase two leaves what was stored (`Traces`, `Divergence`);
- a command refused with 3.2 because a peer cannot be reached keeps waiting: its COMMIT goes out after all if and only
  if an ACK event is handled before an ERR event and before the user's next command (`Refusals.RefusedFate`); when
  another user's round brings that about, the slave stores the refused message, drops the accepted one, and the master
  stays in its handler forever (`RefusedRound.RefusedIsCommitted`);
- a REPLACE longer than the old line damages the next record or the end of the file, and a REPLACE of a last line
  without a newline answers success and writes nothing (`Records.ReplaceRefinesIffFits`);
- at debug level 0 a slave stores a COMMIT it never voted for (`Slave.StoresFollowVotesIff`).

## Model

| member | source | states |
|---|---|---|
| Store.BBFile.ReadMessage | msg.cpp:310-341 | READ answers the first line, in file order, whose part before its first slash is the number; UNKNOWN when there is none; an error when the file does not open |
| Store.BBFile.AppendMessage | msg.cpp:475-500 | WRITE appends the message and a newline, or leaves the file alone and fails |
| Store.BBFile.ReplaceMessage | msg.cpp:503-552 | the search and the in-place write at the computed line start, with padding; the three results 0, -1 and -2 |
| Store.BBFile.GetLastLine | config.cpp:328-370 | the backward scan answers the line that starts where the scan stops, and nothing for a file that does not open or has fewer than two bytes |
| Records.AnswersIff | msg.cpp:322-325 | a line answers a number exactly when the number, without a slash in it, and a slash stand at its front |
| Records.ReadFindsFirst | msg.cpp:319-334 | READ on bytes is first-match lookup in the list of lines, and UNKNOWN exactly when no line has the number |
| Records.AppendAddsLine | msg.cpp:486-489 | on a terminated file an append of a single-line message adds exactly one line at the end of the list and keeps it terminated |
| Records.ReplaceWritesAtFirstMatch | msg.cpp:516-542 | for any file and message: exactly the bytes from the start of the first line with the number are overwritten, by the message and its padding; nothing changes when no line has it |
| Records.PatchLine | msg.cpp:523-533 | a write inside one line keeps every other line, every line boundary and the length |
| Records.ReplaceRefinesIffFits | msg.cpp:503-552 | for every file, terminated or not: UNKNOWN and no change when no line has the number; otherwise success is answered, and the list of lines is the old one with that record replaced, its end as before, exactly when the message is no longer than a line that ends in a newline, or is what a last line without a newline holds already; such a last line is never written |
| Records.LongReplaceDamagesNextRecord | msg.cpp:525-533 | a concrete file and a longer message after which the next record is no longer found |
| Records.ScanFindsLastLineIff | config.cpp:328-370 | for every file the backward scan answers the last line of a forward reading, except exactly a file of one byte that is not a newline, and a file that starts with an empty line and goes on with a single line that is not empty |
| Records.ScanFindsLastRecord | config.cpp:328-370 | the scan finds the last line of every terminated file of non-empty lines |
| Numbers.MsgCounter.Alloc | config.cpp:373-396 | hands out the next number, 1 in place of INT_MAX |
| Numbers.MsgCounter.Update | config.cpp:399-424 | takes over a positive number, 1 in place of INT_MAX, and ignores others |
| Numbers.MsgCounter.Load | config.cpp:427-452 | the number in front of the first slash of the last line and 0, or no change and -1 when the file does not open or has no such number |
| Numbers.AllocateGrowsIff | config.cpp:379-386 | a fresh number is above the counter, by one, exactly while the counter does not wrap; it is always at least 1 and below INT_MAX, and 1 comes after the largest |
| Numbers.UpdatedToPrinted | config.cpp:399-424 | a number a server prints is the counter of the server that reads it |
| Numbers.UpdatedStaysInRange | config.cpp:399-424 | no number that is received takes the counter out of its range: 1 is taken for INT_MAX, and what is not positive or no number leaves it alone |
| Board.RunKeeps | msg.cpp:343-456 | after any run of commands, failed opens and restarts the file's lines are exactly the stored numbers in order, each showing what it holds last, padded to its first length |
| Board.ReadAnswersLatest | msg.cpp:319-334 | READ n after any such run answers what the latest WRITE or fitting REPLACE of n stored, followed by spaces, and UNKNOWN exactly when none did |
| Board.RestartRecovers | config.cpp:427-452 | a restart after any such run finds the last stored number, which is at least every stored one |
| Board.NextNumberIsFresh | config.cpp:373-396 | the next number, with or without a restart, is above the number of every line in the file |
| Board.StoredIncreasing | config.cpp:379-386 | stored numbers strictly increase over any run |
| Coordinator.Coordinator.SetMasterState | list.cpp:508-541 | the state decides whether the master timer is armed, stopped or left |
| Coordinator.Coordinator.FindWaiting | list.cpp:289-319 | the first user in the state, or none |
| Coordinator.Coordinator.SaveClientCmd | list.cpp:246-269 | the user's command, message and number are saved and the user waits for the commit |
| Coordinator.Coordinator.CheckServerState | sync.cpp:329-343 | whether all peers are in the state |
| Coordinator.Coordinator.Multicast | sync.cpp:130-282 | one line more on every connection, every peer and the master in the new state |
| Coordinator.Coordinator.InitConnection | sync.cpp:91-128 | every peer without a connection is connected if it can be reached; -1 when one cannot |
| Coordinator.Coordinator.ProcessWrite | msg.cpp:343-379 | a number is allocated and the command saved; then PRECOMMIT is sent, or 3.2 answered and nothing sent when a peer cannot be reached |
| Coordinator.Coordinator.ProcessReplace | msg.cpp:392-442 | the command is saved; then PRECOMMIT is sent, or 3.2 answered and nothing sent when a peer cannot be reached |
| Coordinator.Coordinator.ProcessReply | msg.cpp:47-102 | the five replies: who waits for all peers, who reports once |
| Master.ReplyQueuesIff | msg.cpp:47-102 | for each of the five replies: its peer and no other moves, its event is queued exactly when it is the last of all peers' or the first bad one, and the timer stops exactly then |
| Coordinator.Coordinator.ProcessPrecommitAck | event.cpp:229-240 | the loop sends COMMIT for every user who waits for the commit, in list order |
| Coordinator.Coordinator.ProcessPrecommitErr | event.cpp:242-255 | ABORT goes out and the loop answers and clears every user who waits for the commit |
| Coordinator.Coordinator.ProcessCommitSuccess | event.cpp:257-308 | the loop saves, answers, sends END and clears for every user who waits with the event's number, and never leaves a user with another number |
| Coordinator.Coordinator.ProcessCommitUnsuccess | event.cpp:310-345 | the loop answers, clears and sends END UNSUCCESS for every user who waits, when the event has no number or theirs, and never leaves a user with another number |
| Coordinator.Coordinator.ProcessMasterTimeout | event.cpp:347-360 | a timeout becomes the failure event of the phase the master is in, or nothing |
| Coordinator.Coordinator.HandleEvent | event.cpp:28-81 | the first event of the queue is taken off and handled, whether its handler ends or not |
| Master.AckLoopEmpties | event.cpp:232-237 | the ACK loop always ends, moves exactly the users who waited for the commit and leaves none |
| Master.ErrLoopEmpties | event.cpp:247-252 | the ERR loop always ends, clears exactly the users who waited for the commit and leaves none |
| Master.SuccessLoopEndsIff | event.cpp:264-305 | the commit-success loop ends exactly when every user who waits for the save carries the event's number, and then leaves none |
| Master.FailureLoopEndsIff | event.cpp:315-342 | the commit-unsuccess loop ends exactly then, or when the event has no number |
| Master.ReachedBegins | msg.cpp:369-379 | when every peer can be reached a command begins a round in one and the same way, whatever was connected before |
| Refusals.RefusedFate | msg.cpp:371-377 | in any run of any number of users, a command answered 3.2 because a peer cannot be reached sends nothing; afterwards it is committed if and only if, among its user's next command and the ACK and ERR events handled, an ACK comes first, and rejected, which answers 3.2 a second time, if and only if an ERR comes first; until one of these its block keeps waiting |
| Refusals.CommittedGoesOut | event.cpp:229-240 | the ACK event that commits it puts its COMMIT on every connection |
| Refusals.NothingGoesToTheUnreached | sync.cpp:91-128 | in any such run no line, reply, event or master timer is pending while a peer is not connected |
| Refusals.ConnectRun | sync.cpp:104-120 | in every run a peer is not connected exactly when it was not at the start and no command since could reach it |
| Refusals.RefusedIff | sync.cpp:104-127 | in every run a command is refused exactly when it cannot reach a peer that was not connected at the start and that no earlier command could reach |
| RefusedRound.RefusedIsCommitted | msg.cpp:371-377 | for all texts, a run in which one user's WRITE is refused and the next user's round sends COMMIT for both: the slave stores only the refused message, and the success handler never ends |
| Slave.SlaveConnection.ProcessLine | msg.cpp:111-231 | state, timer, counter, file and reply after each kind of line, with the guard that depends on the debug level |
| Slave.SlaveConnection.ProcessTimeout | event.cpp:362-382 | a slave that waits for COMMIT gives up its vote |
| Slave.SlaveConnection.SetSlaveState | list.cpp:179-206 | PRECOMMIT_ACK arms the slave timer, COMMITED stops it |
| Slave.StoresBelowVotes | msg.cpp:135-212 | with the guard, over any lines and timeouts on a connection, stores never outnumber 5.0 votes, and an open vote is not used up |
| Slave.StoresFollowVotesIff | msg.cpp:144-212 | that holds for every sequence exactly when the debug level is at least 1 |
| Slave.NoStoreUntilVote | event.cpp:362-382 | with the guard nothing is stored between a handled timeout or an ABORT and the next PRECOMMIT |
| Slave.TimerArmedIff | list.cpp:179-206 | over any lines, expiries and handled timeouts the timer runs exactly when the last PRECOMMIT has been followed neither by an applied COMMIT nor by an expiry |
| Slave.NoTimeoutAfterStore | msg.cpp:162-195 | once a COMMIT is applied the timer is off and no further timeout is queued until the next PRECOMMIT, whatever else comes |
| Slave.VoteOpenIff | event.cpp:362-382 | a slave waits for COMMIT exactly when the last PRECOMMIT has been followed by no other line and by no timeout that was handled |
| Slave.CommitedIff | msg.cpp:144-231 | it is COMMITED exactly when the last COMMIT it applied has been followed by no other line; a timeout that is handled late changes nothing |
| Slave.TimeoutsAddUp | event.cpp:362-382 | every expiry queues one timeout and each is handled once |
| Cluster.DoKeepsShape | event.cpp:28-81 | every step keeps one connection each way per peer |
| SerialRuns.StepKeeps | event.cpp:229-360 | with one command in flight every step keeps the invariant of the stages of a round, a handler that never ends being one of them, and moves between them only by commands and events |
| SerialRuns.SerialHistoryOk | event.cpp:229-345 | every run with one command in flight, however interleaved, has a history that keeps all rules of module History |
| SerialRuns.CommitSafety | event.cpp:257-305 | when a user is told WROTE n, the master has already stored that command successfully and every slave what it heard of it, and no node stores a command twice |
| SerialRuns.UnanimousSingleDecision | msg.cpp:47-67 | a round sends COMMIT or ABORT, once, and COMMIT only after every slave voted in that round, even with a timeout's ERR event and the last ACK's event both queued |
| SerialRuns.AnswersAreTrue | event.cpp:271-345 | in every run with one command in flight, clean or not: WROTE is answered exactly after a successful store of the master; UNKNOWN only to a REPLACE, after the master, or a slave of the round, did not find the line; and once the master has tried, UNKNOWN and ERROR WRITE exactly for a line it did not find and a file it could not open |
| Handlers.HandlerEndsIff | event.cpp:264-342 | in every state of phase two a commit handler ends exactly when the number of the user who waits does not end in CR, or, after a failure, when the event carries no number |
| Handlers.HandlersEnd | event.cpp:264-342 | no handler runs forever in a run whose REPLACE numbers do not end in CR, whatever the texts, the interleaving and the timers |
| Handlers.NoStrandedUser | list.cpp:508-541 | whoever waits, with a number that does not end in CR, is served by the armed timer in its state, by its event, or by a queued commit event of that very number or of none |
| Handlers.FailureSays | event.cpp:322-337 | a failed phase two answers UNKNOWN exactly to a REPLACE whose event holds a 6.2 reply, and then a slave did not find the line; a 6.1 reply, a timeout and every WRITE are answered ERROR WRITE |
| History.WroteMeansStoredEverywhere | sync.cpp:329-343 | in a history that keeps the rules, WROTE comes after a successful store at the master and at every slave |
| History.OneOutcome | event.cpp:229-345 | at most one answer per command |
| History.AnswersSayWhy | event.cpp:271-345 | the same in every history that keeps the rules |
| History.RejectedLeavesNoTrace | event.cpp:242-255 | a rejected command is in no COMMIT and in no store, before or after |
| Agreement.GoodStep | event.cpp:257-345 | while no file fails to open and no timeout is handled in phase two, every step keeps the files at two boards, the master's and the slaves', and only an answer of a commit handler moves them, by the command it answers |
| Agreement.FailureIsUnknown | msg.cpp:198-206 | in such a run a slave fails only by not finding the line of a REPLACE, says so, and its file is unchanged |
| Agreement.NotFoundChangesNothing | msg.cpp:516-548 | a REPLACE that answers unknown leaves every byte as it was |
| Progress.StepLoad | event.cpp:229-382 | every step other than a new command, with any number of users, makes an explicit measure smaller |
| Progress.RunsAreBounded | event.cpp:229-382 | a run has at most Load(s) steps and a fixed number more for each command in it |
| Progress.RoundsEndAnswered | event.cpp:347-360 | a run with one command in flight that only a new command could continue has nothing under way exactly when no handler runs forever, and always when no REPLACE number ends in CR |
| Progress.QuietMeansAnswered | event.cpp:229-345 | whenever nothing is under way every command started in the run has exactly one outcome |
| Divergence.PhaseTwoFailureLeavesTrace | msg.cpp:219-225 | END UNSUCCESS undoes nothing: for every text a run in which all opens succeed, the user hears ERROR WRITE and only the slave keeps the message |
| Divergence.MasterFailureLeavesTrace | event.cpp:271-300 | the same for every text without any timer expiring, when only the master's file does not open |
| Traces.FailureLeavesNoTraceIff | event.cpp:310-345 | when the failure of a WRITE is the next event, in any run with one command in flight, every continuation of the round ends with all files as they were before it if and only if no slave has stored in the round and every COMMIT still on a connection is one its slave drops |
| Traces.MasterFailureAlwaysLeavesTrace | event.cpp:271-300 | when its success is the next event and the master cannot open its file, then for any number of slaves, in every continuation and at every point of it, ERROR WRITE has been answered, the master's file is as before the round and every slave holds the message |
| CarriageReturn.TextLosesCR | msg.cpp:116-164 | for every text, from the bytes of the WRITE line on: a round without a timeout or a failed open ends with the user told WROTE and with equal files exactly when the text does not end in CR |
| CarriageReturn.NumberLosesCR | event.cpp:310-342 | for every number without a line, from the bytes of the REPLACE line on: after the slave's 6.2 the handler of the failure runs forever exactly when the number ends in CR and is more than a CR |
| Counters.CommittedNumbersIncrease | config.cpp:373-424 | over a run with one command in flight whose WRITE commands do not wrap the counter, committed WRITE numbers strictly increase, aborted allocations included; when the last COMMIT WRITE reached every slave, all slaves count from exactly its number, whatever the master allocated and aborted since, and so does the master while no command came after it |
| Mesh.NumbersIncreaseAcrossNodes | msg.cpp:156-164 | over any sequence of rounds led by any nodes, with COMMIT delivered and no wrap, committed numbers strictly increase over the whole run |
| Mesh.CountersMeet | config.cpp:399-424 | after a WRITE that every slave applied all nodes count from its number, whatever they counted before |
| OneCopy.TwoBoards | event.cpp:257-345 | such a run, whatever its texts: every answer is the one read off the two boards at that point, the master's file is its board at every point, and at every quiet point every slave's file is the slaves' board; aborts and unknown numbers included |
| OneCopy.OneCopyBoard | event.cpp:257-345 | when no text ends in CR it refines one single file: every answer is the one the single file gives when the commands answered before are applied in order, and at every quiet point all servers hold that file |
| OneCopy.BoardsStayEqualIff | msg.cpp:116-164 | two equal boards stay equal after a command exactly when its body does not end in CR, or it is a REPLACE that finds no line, finds one without a newline, or whose CR falls on a CR behind the line |
| OneCopy.RoundAgreesIff | msg.cpp:116-164 | after one such round from equal files, master and slaves hold equal files exactly when no commit handler answered or that condition holds; for a WRITE exactly when its text does not end in CR |
| Mesh.MeshIsOneBoard | event.cpp:257-345 | the same over any sequence of such rounds led by any nodes: the whole mesh answers like one board and every node ends with its file |
| Concurrent.AnyHistoryLawful | event.cpp:229-345 | every run with any number of users, in any order of lines, events and timers, has a history that keeps the rules of module Concurrent |
| Outcomes.OneOutcomeEach | event.cpp:229-345 | each command gets at most one of 3.0, 3.1 and 3.2 |
| Outcomes.StoredOnceEach | msg.cpp:144-212 | no node stores a command twice |
| Outcomes.WroteMeansMasterStored | event.cpp:271-290 | WROTE is said only after the master stored the command successfully |
| Outcomes.AnswersSayTheStore | event.cpp:271-300 | in any run with any number of users: WROTE exactly when the master stored; once it has tried, UNKNOWN and ERROR WRITE exactly for a line it did not find and a file it could not open; UNKNOWN to a REPLACE only |
| Outcomes.StoredWasCommitted | event.cpp:232-237 | nothing is stored anywhere that was not committed before: the master stores the command itself, a slave what it heard of it |
| Outcomes.RejectedIsNowhere | event.cpp:242-255 | a command answered by the precommit-error handler is in no COMMIT and stored by no node, before or afterwards |
| Outcomes.RejectedIsOnNoConnection | event.cpp:242-255 | nor is it on any connection at any point of the run, before or after it was rejected |
| Replays.FilesComeFromHistory | msg.cpp:475-552 | from any point of any run on, every file is the one of that point with exactly its node's stores recorded since applied in order |
| UserBlocks.UserBlockMoves | list.cpp:246-319 | every step moves a user block only from IDLE to WAITING_COMMIT by the user's own command, from there to WAITING_SAVE with the same command or to IDLE, and from there to IDLE |
| Lock.MutualExclusion | semaphore.cpp:22-86 | in every run of any number of threads a writer inside is alone: no second writer and no reader |
| Lock.CountsAndSemaphore | semaphore.cpp:55-78 | readerCnt is the number of threads between increment and decrement, and the semaphore's value, the writers inside and the readers' hold on it make one |
| Lock.DeadlockFree | semaphore.cpp:55-60 | while a thread is inside the protocol some thread inside can move, also when the first reader waits for the semaphore holding readerMutex |
| SharedFile.Serialisable | msg.cpp:483-550 | with each line read and each piece written as a step, every completed access answered what it answers alone on the version its predecessors made, and the file is the last version while no writer is inside |
| SharedFile.ReadSeesOneVersion | msg.cpp:315-341 | a completed READ answers what it answers on one version, never on a half-done append or replace |
| SharedFile.EveryAccessIsLogged | msg.cpp:315-341 | for each thread the accesses in the log, followed by the one it is still busy with, are exactly the accesses it began, in that order |
| Wire.LineSurvivesIff | sync.cpp:195-213 | a line from master to slave survives printing, stripping and parsing exactly when its payload does not end in CR |
| Wire.LineArrives | msg.cpp:116-225 | every printed line is understood; a payload that ends in CR loses exactly that CR |
| Wire.ReplyArrives | msg.cpp:23-102 | the same for replies |
| Wire.NumberSurvivesIff | msg.cpp:68-102 | the number a master saved comes back through COMMIT, slave and reply unchanged exactly when it does not end in CR, whatever the text ends in |
| Wire.WriteNumberSurvives | list.cpp:261 | for a WRITE it always does |
| Wire.SlaveTextRefines | msg.cpp:111-231 | for every line, on its printed text a slave does what it does on the line it hears, and sends the text of its reply |
| Wire.MasterTextRefines | msg.cpp:18-109 | and so does the master on every reply |
| Wire.DeliveryIsText | msg.cpp:111-231 | a delivery in module Cluster is the slave's work on the text of the line: the slave it leaves and the text it sends back |
| Wire.ReplyIsText | msg.cpp:18-109 | and a reply taken in is the master's work on its text |
| Peers.JoinPeers | config.cpp:250-264 | the joined string: arguments with a colon, a space behind each that is not the last argument |
| Peers.ServerList.Init | sync.cpp:18-89 | the search loop fills the list with what the string holds, or refuses an empty string |
| Peers.PeersRoundTrip | sync.cpp:38-86 | parsing the joined string yields exactly the space-free arguments that contain a colon, split at the first one, in order |
| Peers.Configure | sync.cpp:18-89 | the two loops together: the server list holds exactly the peers of the command line |
| EventQueue.Queue.Enqueue | queue.cpp:49-60 | an event goes to the end |
| EventQueue.Queue.Dequeue | queue.cpp:62-82 | the first event comes off, or a null pointer when there is none |
| EventQueue.Queue.Drain | queue.cpp:34-46 | emptying the queue takes out every event once, in order |
| EventQueue.FifoAndConserved | queue.cpp:49-82 | events leave in the order in which they entered, and each that entered has left once or is still queued |
| Client.RequestArrivesIff | msg.cpp:255-281 | a command line in capitals or small letters arrives as sent when it ends in CR LF, and with LF alone exactly when its last argument does not end in CR |
| Client.OnlyCommandsParse | msg.cpp:253-442 | no other line is taken for USER, READ, WRITE or REPLACE: what was understood is the word, a space and the argument in front of the end of line, with a name without slash or space, a number without slash and nothing empty |
| Client.BareWords | msg.cpp:255-261 | QUIT and HELP alone on their line, in capitals or small letters |
| Client.HelpIff | msg.cpp:255-261 | HELP is exactly a line of six bytes without a space that begins with the word |
| Client.QuitIff | msg.cpp:460-465 | QUIT is such a line that begins with its word, or the word in front of an argument that is not empty |
| Client.BadUserIff | msg.cpp:288-298 | a USER line is refused exactly when its name has a slash or a space |
| Client.Session.ProcessClientMsg | msg.cpp:239-471 | what a server without peers does with each command and answers |
| Client.ReadLineAnswersLatest | msg.cpp:307-341 | the text READ n sent after any run is answered with the text of the latest message stored under n |
| Visits.LinesAreRun | msg.cpp:239-471 | whatever lines come from whatever users, the board is the run of their commands, each posted under its user's last accepted name or nobody |
| Visits.WriteIsReadBack | msg.cpp:343-390 | WRITE answers a number that was not in use and under which READ finds number/poster/text from then on; 3.2 and an unchanged file when the file does not open |
| Visits.ReplaceAnswers | msg.cpp:392-456 | REPLACE is answered 3.3 exactly when something is stored under the number, 3.1 when nothing is, 3.2 when the file does not open |
| Visits.ReadAnswers | msg.cpp:307-341 | READ of any user is answered with the latest message under the number, 2.1 when there is none, 2.2 when the file does not open |
| Client.SameLineWithPeers | msg.cpp:348-379 | with peers and without a WRITE saves the same line under the same number |

## Left out

- Client.Session.ProcessClientMsg: requires a line of at least two bytes and a counter below INT_MAX, as the code reads two bytes back and increments a C int.
- Coordinator.Coordinator.ProcessWrite: requires a counter below INT_MAX for the same reason.
- Numbers.MsgCounter.Load: requires that `stoi` reads the number in front of the last line's slash; otherwise it throws at start-up.
- A handler that never ends stops the master at `hung`: in the runs it takes no further step, while slaves still take lines.
- Sockets, select, accept, connect, gethostbyname: connections are reliable FIFO sequences and a host name is kept as text; `atoi` of the port is not modelled.
- Users and peers that connect or disconnect during a run: the exit in which connecting to a peer fails (msg.cpp:373-377) is in `Coordinator` and in the runs of module `Refusals`, not in those of module `Cluster`; a connection that breaks is in neither.
- Several `recv` per line or several lines per `recv`, failing `send`.
- Lines on which `substr` or `stoi` throws end the server; they are preconditions of `Wire.SlaveOnText`, `Wire.MasterOnText`, `Slave.SlaveConnection.ProcessLine` and `Numbers.MsgCounter`. The step system keeps the counter where `stoi` would throw.
- Fixed buffer sizes (1024 bytes per line, the `strcpy` targets) and the limits of C integers other than the message counter's INT_MAX.
- The one-second sleep in the slave timeout handler (event.cpp:374): the handler is one step.
- Each slave has one timer and one file of its own; a node that is slave of several masters at the same time is not modelled.
- Condition-variable wakeups of the queue: the wait is unconditional (queue.cpp:67), so nothing is claimed about when an event is dequeued.
- Fairness of the lock; `Lock` proves that some thread can move, not that each one will.
- The lock and the file accesses behind it are a step system over values, because threads interleave inside their methods.
- Undo after a phase-two failure: the code has none, see `Divergence`.
- Full commit safety with several commands in flight: replies carry no round, so the code does not provide it; `Concurrent` and `Outcomes` state what remains.
- masterState lives in the first server record; with no peers at all the protocol is not entered.
- main.cpp, bootup.cpp, signals, daemon mode, configuration files, logging, debug waits and the greeting text are not part of this model.
- After a getline that reached the end of the file without a newline `tellg` fails and the write of a REPLACE with it; the model follows this, and answers 0 as the code does.
