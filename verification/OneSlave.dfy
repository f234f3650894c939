/**
 A cluster of one master with one user and one slave, both with an empty file, and the first half of a
 round step by step: from the user's command to the slave's reply to COMMIT. Modules Divergence and
 CarriageReturn finish the round in different ways.
 */
module OneSlave {
  import opened Wrappers
  import opened Text
  import opened Store
  import opened Numbers
  import opened Protocol
  import opened Cluster
  import opened SerialSteps
  import M = Master
  import S = Slave

  const NEWCOMER := M.User("", Idle, CmdWrite, "", "", 0)
  const FRESH := S.Slave(Idle, false, 0, "", 0)
  const VOTED := S.Slave(SPrecommitAck, true, 0, "", 0)

  /** The command of the round, where the master counts, and what COMMIT does at the slave. */
  datatype Parts = Parts(c: Command, counter: int, slave: S.Slave, reply: Reply, result: SaveResult)

  ghost predicate Fit(x: Parts) {
    S.Apply(VOTED, Heard(x.c), true) == S.Effect(x.slave, Some(x.reply), Some(x.result))
  }

  function PartsOf(c: Command, counter: int): Parts {
    var e := S.Apply(VOTED, Heard(c), true);
    Parts(c, counter, e.slave, e.reply.value, e.stored.value)
  }

  function Author(x: Parts, state: SyncState): M.User {
    M.User("", state, x.c.cmd, x.c.body, NumberOf(x.c.body), 1)
  }

  ghost function Pair(peer: SyncState, state: SyncState, timer: bool, user: M.User, queue: seq<Event>, out: seq<Line>,
                      counter: int, slave: S.Slave, replies: seq<Reply>, trace: seq<Act>): Cluster {
    Cluster(M.Master([peer], state, timer, [user], queue, [out], "", counter, false, user.ticket, []),
            [slave], [replies], trace, S.DEBUG_LEVEL_D)
  }

  // ---------- the states of the round ----------

  ghost function S0(): Cluster {
    Pair(Idle, Idle, false, NEWCOMER, [], [], 0, FRESH, [], [])
  }

  ghost function S1(x: Parts, trace: seq<Act>): Cluster {
    Pair(MPrecommitMulticasted, MPrecommitMulticasted, true, Author(x, UWaitingCommit), [], [Precommit], x.counter,
         FRESH, [], trace)
  }

  ghost function S2(x: Parts, trace: seq<Act>): Cluster {
    Pair(MPrecommitMulticasted, MPrecommitMulticasted, true, Author(x, UWaitingCommit), [], [], x.counter,
         VOTED, [PrecommitAck], trace)
  }

  ghost function S3(x: Parts, trace: seq<Act>): Cluster {
    var ack := Event(EvPrecommitAck, "", Some(PrecommitAck));
    Pair(MPrecommited, MPrecommited, false, Author(x, UWaitingCommit), [ack], [], x.counter, VOTED, [], trace)
  }

  ghost function S4(x: Parts, trace: seq<Act>): Cluster {
    Pair(MCommited, MCommited, true, Author(x, UWaitingSave), [], [Commit(x.c, 1)], x.counter, VOTED, [], trace)
  }

  ghost function S5(x: Parts, trace: seq<Act>): Cluster {
    Pair(MCommited, MCommited, true, Author(x, UWaitingSave), [], [], x.counter, x.slave, [x.reply], trace)
  }

  /** Everything that has happened until the slave has replied. */
  function Stored(x: Parts): seq<Act> {
    [Started(1, x.c)] + [Voted(0, 1)] + [CommitSent(1, x.c)] + [SlaveSaved(0, 1, Heard(x.c), x.result)]
  }

  // ---------- runs ----------

  ghost predicate Leads(s: Cluster, step: Step, s': Cluster) {
    Shape(s) && OneAtATime(s, step) && s' == Do(s, step)
  }

  ghost predicate Runs(s: Cluster, steps: seq<Step>, e: Cluster) {
    Shape(s) && IsSerialRun(s, steps) && IsRun(s, steps) && Final(s, steps) == e
  }

  lemma Stays(s: Cluster)
    requires Shape(s)
    ensures Runs(s, [], s)
  {
  }

  lemma Then(s: Cluster, step: Step, s': Cluster, rest: seq<Step>, e: Cluster)
    requires Leads(s, step, s') && Runs(s', rest, e)
    ensures Runs(s, [step] + rest, e)
  {
    assert ([step] + rest)[1..] == rest;
  }

  // ---------- small facts about lists of one ----------

  lemma SentToOne(line: Line, state: SyncState)
    ensures M.Sent([[]], line) == [[line]] && M.AllIn(1, state) == [state]
  {
    assert [] + [line] == [line];
  }

  lemma TakenFromOne<X>(x: X)
    ensures [x][1..] == [] && [[x]][0 := [x][1..]] == [[]] && [[]][0 := [] + [x]] == [[x]]
  {
    assert [x][1..] == [] && [] + [x] == [x];
  }

  lemma Same<X>(s: seq<X>)
    ensures s + [] == s
  {
  }

  // ---------- the command ----------

  lemma Submitted(x: Parts, m: M.Master, m': M.Master)
    requires m == S0().master.(counter := x.counter)
    requires m' == M.Broadcast(M.InitConnection(M.SaveClientCmd(m, 0, x.c)), Precommit, MPrecommitMulticasted)
    ensures m' == S1(x, []).master.(acts := [Started(1, x.c)])
  {
    BeginEffect(m, 0, x.c, m');
    SentToOne(Precommit, MPrecommitMulticasted);
    assert m'.users == [Author(x, UWaitingCommit)];
  }

  lemma WriteIs(m: M.Master, text: string, number: string)
    requires m.users == [NEWCOMER] && number == PrintInt(Allocate(m.counter))
    ensures M.SubmitWrite(m, 0, text) ==
            M.Broadcast(M.InitConnection(M.SaveClientCmd(m.(counter := Allocate(m.counter)), 0,
                Command(CmdWrite, M.MessageOf(number, NEWCOMER, text)))), Precommit, MPrecommitMulticasted)
  {
  }

  lemma Writes(x: Parts, s: Cluster, number: string, text: string)
    requires s == S0() && x.counter == Allocate(s.master.counter) && number == PrintInt(x.counter)
    requires x.c == Command(CmdWrite, M.MessageOf(number, NEWCOMER, text))
    ensures Leads(s, SubmitWrite(0, text), S1(x, [Started(1, x.c)]))
  {
    var m' := M.SubmitWrite(s.master, 0, text);
    WriteIs(s.master, text, number);
    Submitted(x, s.master.(counter := x.counter), m');
    SubmitLeads(s, SubmitWrite(0, text), m', S1(x, [Started(1, x.c)]));
  }

  lemma Replaces(x: Parts, s: Cluster, number: string, text: string)
    requires s == S0() && x.counter == s.master.counter
    requires x.c == Command(CmdReplace, M.MessageOf(number, NEWCOMER, text))
    ensures Leads(s, SubmitReplace(0, number, text), S1(x, [Started(1, x.c)]))
  {
    var m' := M.SubmitReplace(s.master, 0, number, text);
    Submitted(x, s.master, m');
    SubmitLeads(s, SubmitReplace(0, number, text), m', S1(x, [Started(1, x.c)]));
  }

  lemma SubmitLeads(s: Cluster, step: Step, m': M.Master, s': Cluster)
    requires Shape(s) && Initial(s) && |s.master.users| == 1
    requires step.SubmitWrite? || step.SubmitReplace?
    requires step.user == 0 && m' == if step.SubmitWrite? then M.SubmitWrite(s.master, 0, step.text)
                                     else M.SubmitReplace(s.master, 0, step.number, step.text)
    requires s'.master == m'.(acts := []) && s'.trace == m'.acts
    requires s'.slaves == s.slaves && s'.replies == s.replies && s'.debugLevel == s.debugLevel
    ensures Leads(s, step, s')
  {
  }

  // ---------- vote, commit, store ----------

  lemma Votes(x: Parts, trace: seq<Act>)
    ensures Leads(S1(x, trace), ToSlave(0, true), S2(x, trace + [Voted(0, 1)]))
  {
    TakenFromOne(Precommit);
    TakenFromOne(PrecommitAck);
  }

  lemma CountsVote(x: Parts, trace: seq<Act>)
    ensures Leads(S2(x, trace), ToMaster(0), S3(x, trace))
  {
    TakenFromOne(PrecommitAck);
    Same(trace);
  }

  lemma Commits(x: Parts, trace: seq<Act>)
    ensures Leads(S3(x, trace), HandleEvent({}), S4(x, trace + [CommitSent(1, x.c)]))
  {
    var m := S3(x, trace).master.(queue := []);
    SentToOne(Commit(x.c, 1), MCommited);
    assert M.CommandOf(m.users[0]) == x.c;
    assert M.CommitUser(m, 0).users == [Author(x, UWaitingSave)];
    assert M.PrecommitAcked(m) == M.CommitUser(m, 0);
  }

  lemma StoreEffect(x: Parts)
    requires Fit(x)
    ensures S.Receive(VOTED, HeardLine(Commit(x.c, 1)), S.DEBUG_LEVEL_D, true)
            == S.Effect(x.slave, Some(x.reply), Some(x.result))
  {
  }

  lemma Stores(x: Parts, trace: seq<Act>)
    requires Fit(x)
    ensures Leads(S4(x, trace), ToSlave(0, true), S5(x, trace + [SlaveSaved(0, 1, Heard(x.c), x.result)]))
  {
    StoreEffect(x);
    TakenFromOne(Commit(x.c, 1));
    TakenFromOne(x.reply);
  }

  /** COMMIT goes out and is stored. */
  lemma FromTheVotes(x: Parts, t2: seq<Act>, rest: seq<Step>, e: Cluster) returns (steps: seq<Step>)
    requires Fit(x)
    requires Runs(S5(x, t2 + [CommitSent(1, x.c)] + [SlaveSaved(0, 1, Heard(x.c), x.result)]), rest, e)
    ensures Runs(S3(x, t2), steps, e) && steps == [HandleEvent({}), ToSlave(0, true)] + rest
  {
    var t3 := t2 + [CommitSent(1, x.c)];
    Stores(x, t3);
    steps := [ToSlave(0, true)] + rest;
    Then(S4(x, t3), ToSlave(0, true), S5(x, t3 + [SlaveSaved(0, 1, Heard(x.c), x.result)]), rest, e);
    Commits(x, t2);
    Then(S3(x, t2), HandleEvent({}), S4(x, t3), steps, e);
    steps := [HandleEvent({})] + steps;
  }

  lemma FromTheCommand(x: Parts, t1: seq<Act>, rest: seq<Step>, e: Cluster) returns (steps: seq<Step>)
    requires Runs(S3(x, t1 + [Voted(0, 1)]), rest, e)
    ensures Runs(S1(x, t1), steps, e) && steps == [ToSlave(0, true), ToMaster(0)] + rest
  {
    var t2 := t1 + [Voted(0, 1)];
    CountsVote(x, t2);
    Then(S2(x, t2), ToMaster(0), S3(x, t2), rest, e);
    steps := [ToMaster(0)] + rest;
    Votes(x, t1);
    Then(S1(x, t1), ToSlave(0, true), S2(x, t2), steps, e);
    steps := [ToSlave(0, true)] + steps;
  }

  /** From the command to the reply. */
  lemma UntilStored(x: Parts, s: Cluster, step: Step, rest: seq<Step>, e: Cluster) returns (steps: seq<Step>)
    requires Fit(x) && Leads(s, step, S1(x, [Started(1, x.c)])) && Runs(S5(x, Stored(x)), rest, e)
    ensures Runs(s, steps, e) && steps == [step] + UntilReply() + rest
  {
    var t1 := [Started(1, x.c)];
    steps := FromTheVotes(x, t1 + [Voted(0, 1)], rest, e);
    steps := FromTheCommand(x, t1, steps, e);
    Then(s, step, S1(x, t1), steps, e);
    steps := [step] + steps;
  }

  function UntilReply(): seq<Step> {
    [ToSlave(0, true), ToMaster(0), HandleEvent({}), ToSlave(0, true)]
  }

  // ---------- the master stores too ----------

  /** What the success handler hears: the number that came back. */
  function SuccessOf(x: Parts): Event {
    Event(EvCommitSuccess, Back(x.c), Some(CommitOk(Back(x.c))))
  }

  ghost function T6(x: Parts, trace: seq<Act>): Cluster {
    Pair(MOperationPerformed, MOperationPerformed, false, Author(x, UWaitingSave), [SuccessOf(x)], [], x.counter,
         x.slave, [], trace)
  }

  ghost function WithFile(s: Cluster, file: string): Cluster {
    s.(master := s.master.(file := file))
  }

  ghost function T7(x: Parts, canOpen: bool, trace: seq<Act>): Cluster {
    var saved := Save("", x.c, canOpen);
    WithFile(Pair(Idle, Idle, false, M.Cleared(Author(x, UWaitingSave)), [], [EndFor(x, canOpen)],
                  x.counter, x.slave, [], trace), saved.file)
  }

  ghost function T8(x: Parts, canOpen: bool, trace: seq<Act>): Cluster {
    WithFile(Pair(Idle, Idle, false, M.Cleared(Author(x, UWaitingSave)), [], [],
                  x.counter, x.slave.(state := Idle), [], trace), Save("", x.c, canOpen).file)
  }

  function EndFor(x: Parts, canOpen: bool): Line {
    End(Save("", x.c, canOpen).result == Saved, Back(x.c))
  }

  function Finished(x: Parts, canOpen: bool): seq<Act> {
    var result := Save("", x.c, canOpen).result;
    [MasterSaved(1, x.c, result)] + [Answered(1, x.c, M.SaveAnswer(x.c, result))]
  }

  lemma WriteParts(c: Command, counter: int)
    requires c.cmd == CmdWrite
    ensures var x := PartsOf(c, counter);
            && Fit(x) && x.result == Saved && x.reply == CommitOk(NumberOf(Heard(c).body))
            && x.slave.file == Appended("", Heard(c).body)
  {
  }

  /** The number of a WRITE comes back. */
  lemma DecimalNumber(c: Command, n: nat, text: string)
    requires c == Command(CmdWrite, M.MessageOf(PrintInt(n), NEWCOMER, text))
    ensures NumberOf(c.body) == Back(c)
  {
    M.MessageNumber(PrintInt(n), NEWCOMER, text);
    PrintNatHasNo(n, '\r');
    FindFirst(PrintInt(n), '/', 0);
    BackIff(c);
  }

  lemma CountsSuccess(x: Parts, trace: seq<Act>)
    requires x.reply == CommitOk(NumberOf(Heard(x.c).body))
    ensures Leads(S5(x, trace), ToMaster(0), T6(x, trace))
  {
    TakenFromOne(x.reply);
    Same(trace);
  }

  lemma FinishIs(x: Parts, m: M.Master, failing: set<nat>, canOpen: bool)
    requires m == T6(x, []).master.(queue := []) && NumberOf(x.c.body) == Back(x.c)
    requires canOpen == (1 !in failing)
    ensures M.CommitSucceeded(m, Back(x.c), failing) == T7(x, canOpen, []).master.(acts := Finished(x, canOpen))
  {
    assert M.CommandOf(m.users[0]) == x.c;
    var m' := M.FinishUser(m, 0, Back(x.c), failing);
    FinishUserEffect(m, 0, Back(x.c), failing, m');
    SentToOne(EndFor(x, canOpen), Idle);
    assert m'.users == [M.Cleared(Author(x, UWaitingSave))];
    assert M.CommitSucceeded(m, Back(x.c), failing) == m';
  }

  lemma Finishes(x: Parts, trace: seq<Act>, failing: set<nat>, canOpen: bool)
    requires NumberOf(x.c.body) == Back(x.c) && canOpen == (1 !in failing)
    ensures Leads(T6(x, trace), HandleEvent(failing), T7(x, canOpen, trace + Finished(x, canOpen)))
  {
    FinishIs(x, T6(x, trace).master.(queue := []), failing, canOpen);
  }

  lemma EndsSuccess(x: Parts, canOpen: bool, trace: seq<Act>)
    ensures Leads(T7(x, canOpen, trace), ToSlave(0, true), T8(x, canOpen, trace))
  {
    TakenFromOne(EndFor(x, canOpen));
    Same(trace);
  }

  /** The reply is counted, the master stores or fails to, and END arrives. */
  lemma AfterReply(x: Parts, t: seq<Act>, failing: set<nat>, canOpen: bool) returns (steps: seq<Step>, trace: seq<Act>)
    requires x.reply == CommitOk(NumberOf(Heard(x.c).body)) && NumberOf(x.c.body) == Back(x.c)
    requires canOpen == (1 !in failing)
    ensures trace == t + Finished(x, canOpen) && steps == [ToMaster(0), HandleEvent(failing), ToSlave(0, true)]
    ensures Runs(S5(x, t), steps, T8(x, canOpen, trace))
  {
    trace := t + Finished(x, canOpen);
    var e := T8(x, canOpen, trace);
    Stays(e);
    EndsSuccess(x, canOpen, trace);
    Then(T7(x, canOpen, trace), ToSlave(0, true), e, [], e);
    Finishes(x, t, failing, canOpen);
    Then(T6(x, t), HandleEvent(failing), T7(x, canOpen, trace), [ToSlave(0, true)] + [], e);
    CountsSuccess(x, t);
    steps := [HandleEvent(failing)] + ([ToSlave(0, true)] + []);
    Then(S5(x, t), ToMaster(0), T6(x, t), steps, e);
    steps := [ToMaster(0)] + steps;
  }

  // ---------- the round of a WRITE ----------

  /** The whole round: failing says whether the master's save can open its file. */
  lemma WriteRun(s: Cluster, text: string, failing: set<nat>, canOpen: bool)
    returns (x: Parts, steps: seq<Step>, trace: seq<Act>)
    requires s == S0() && canOpen == (1 !in failing)
    ensures x.c == Command(CmdWrite, M.MessageOf(PrintInt(x.counter), NEWCOMER, text))
    ensures x.result == Saved && x.slave.file == Appended("", Heard(x.c).body)
    ensures trace == Stored(x) + Finished(x, canOpen) && x.counter == Allocate(0)
    ensures steps == [SubmitWrite(0, text)] + UntilReply() + [ToMaster(0), HandleEvent(failing), ToSlave(0, true)]
    ensures Runs(s, steps, T8(x, canOpen, trace))
  {
    var count := Allocate(s.master.counter);
    var number := PrintInt(count);
    var c := Command(CmdWrite, M.MessageOf(number, NEWCOMER, text));
    x := PartsOf(c, count);
    WriteParts(c, count);
    DecimalNumber(c, count, text);
    var rest;
    rest, trace := AfterReply(x, Stored(x), failing, canOpen);
    Writes(x, s, number, text);
    steps := UntilStored(x, s, SubmitWrite(0, text), rest, T8(x, canOpen, trace));
  }

  lemma StartIs(s: Cluster)
    requires s == S0()
    ensures Shape(s) && Initial(s) && |s.slaves| == 1 && s.slaves[0].file == s.master.file == ""
  {
  }

  /** What the round leaves. */
  lemma EndIs(x: Parts, canOpen: bool, trace: seq<Act>, e: Cluster)
    requires e == T8(x, canOpen, trace)
    ensures Shape(e) && Quiet(e) && |e.slaves| == 1 && e.trace == trace && !e.master.hung
    ensures e.master.file == Save("", x.c, canOpen).file && e.slaves[0].file == x.slave.file
  {
  }

  lemma TraceIs(x: Parts, canOpen: bool, trace: seq<Act>)
    requires trace == Stored(x) + Finished(x, canOpen)
    ensures var result := Save("", x.c, canOpen).result;
            && Answered(1, x.c, M.SaveAnswer(x.c, result)) in trace && SlaveSaved(0, 1, Heard(x.c), x.result) in trace
            && forall a :: a in trace ==> !a.PhaseTwoTimeout? && (a.SlaveSaved? ==> a.result == x.result)
  {
    assert trace[5] == Answered(1, x.c, M.SaveAnswer(x.c, Save("", x.c, canOpen).result));
    assert trace[3] == SlaveSaved(0, 1, Heard(x.c), x.result);
  }
}
