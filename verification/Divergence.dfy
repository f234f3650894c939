/**
 A failure of phase two leaves a trace: END UNSUCCESS undoes nothing. Two rounds with one slave that has
 stored: in one the master's timer expires before the reply is counted, in the other only the master
 cannot open its file. The user hears ERROR WRITE, and when nothing is under way any more the slave holds
 a message the master does not. When this happens is the subject of module Traces.
 */
module Divergence {
  import opened Wrappers
  import opened Text
  import opened Store
  import opened Numbers
  import opened Protocol
  import opened Cluster
  import opened SerialSteps
  import opened OneSlave
  import M = Master

  // ---------- a timeout ----------

  ghost function S6(x: Parts, trace: seq<Act>): Cluster {
    var timeout := Event(EvMasterTimeout, "", None);
    Pair(MCommited, MCommited, false, Author(x, UWaitingSave), [timeout], [], x.counter, x.slave, [x.reply], trace)
  }

  ghost function S7(x: Parts, trace: seq<Act>): Cluster {
    var failure := Event(EvCommitUnsuccess, "", None);
    Pair(MCommited, MCommited, false, Author(x, UWaitingSave), [failure], [], x.counter, x.slave, [x.reply], trace)
  }

  ghost function S8(x: Parts, trace: seq<Act>): Cluster {
    Pair(Idle, Idle, false, M.Cleared(Author(x, UWaitingSave)), [], [End(false, "")], x.counter, x.slave, [x.reply],
         trace)
  }

  ghost function S9(x: Parts, trace: seq<Act>): Cluster {
    Pair(Idle, Idle, false, M.Cleared(Author(x, UWaitingSave)), [], [], x.counter, x.slave.(state := Idle), [x.reply],
         trace)
  }

  ghost function S10(x: Parts, trace: seq<Act>): Cluster {
    Pair(MOperationPerformed, MOperationPerformed, false, M.Cleared(Author(x, UWaitingSave)), [SuccessOf(x)], [],
         x.counter, x.slave.(state := Idle), [], trace)
  }

  ghost function S11(x: Parts, trace: seq<Act>): Cluster {
    Pair(MOperationPerformed, MOperationPerformed, false, M.Cleared(Author(x, UWaitingSave)), [], [], x.counter,
         x.slave.(state := Idle), [], trace)
  }

  lemma Expires(x: Parts, trace: seq<Act>)
    ensures Leads(S5(x, trace), MasterTimer, S6(x, trace))
  {
  }

  lemma TimesOut(x: Parts, trace: seq<Act>)
    ensures Leads(S6(x, trace), HandleEvent({}), S7(x, trace + [PhaseTwoTimeout(1)]))
  {
  }

  lemma Fails(x: Parts, trace: seq<Act>)
    ensures Leads(S7(x, trace), HandleEvent({}), S8(x, trace + [Answered(1, x.c, ErrorWrite)]))
  {
    var m := S7(x, trace).master.(queue := []);
    TakenFromOne(Event(EvCommitUnsuccess, "", None));
    SentToOne(End(false, ""), Idle);
    assert M.CommandOf(m.users[0]) == x.c;
    var m' := M.FailUser(m, 0, "", None);
    FailUserEffect(m, 0, "", None, m');
    assert m'.users == [M.Cleared(Author(x, UWaitingSave))];
    assert m' == S8(x, []).master.(acts := [Answered(1, x.c, ErrorWrite)]);
    assert M.CommitFailedAll(m, "", None) == m';
  }

  lemma Ends(x: Parts, trace: seq<Act>)
    ensures Leads(S8(x, trace), ToSlave(0, true), S9(x, trace))
  {
    TakenFromOne(End(false, ""));
    Same(trace);
  }

  lemma CountsReply(x: Parts, trace: seq<Act>)
    requires x.reply == CommitOk(NumberOf(Heard(x.c).body))
    ensures Leads(S9(x, trace), ToMaster(0), S10(x, trace))
  {
    TakenFromOne(x.reply);
    Same(trace);
  }

  lemma FindsNobody(x: Parts, trace: seq<Act>)
    ensures Leads(S10(x, trace), HandleEvent({}), S11(x, trace))
  {
  }

  /** END and the late reply arrive, and nobody is found waiting. */
  lemma EndOfRound(x: Parts, trace: seq<Act>) returns (steps: seq<Step>)
    requires x.reply == CommitOk(NumberOf(Heard(x.c).body))
    ensures Runs(S8(x, trace), steps, S11(x, trace))
  {
    var e := S11(x, trace);
    Stays(e);
    FindsNobody(x, trace);
    Then(S10(x, trace), HandleEvent({}), e, [], e);
    CountsReply(x, trace);
    steps := [HandleEvent({})] + [];
    Then(S9(x, trace), ToMaster(0), S10(x, trace), steps, e);
    steps := [ToMaster(0)] + steps;
    Ends(x, trace);
    Then(S8(x, trace), ToSlave(0, true), S9(x, trace), steps, e);
    steps := [ToSlave(0, true)] + steps;
  }

  /** The timer expires and its two events are handled. */
  lemma AfterTimeout(x: Parts, t: seq<Act>) returns (steps: seq<Step>, trace: seq<Act>)
    requires x.reply == CommitOk(NumberOf(Heard(x.c).body))
    ensures trace == t + [PhaseTwoTimeout(1)] + [Answered(1, x.c, ErrorWrite)]
    ensures Runs(S5(x, t), steps, S11(x, trace))
  {
    var t1 := t + [PhaseTwoTimeout(1)];
    trace := t1 + [Answered(1, x.c, ErrorWrite)];
    var e := S11(x, trace);
    steps := EndOfRound(x, trace);
    Fails(x, t1);
    Then(S7(x, t1), HandleEvent({}), S8(x, trace), steps, e);
    steps := [HandleEvent({})] + steps;
    TimesOut(x, t);
    Then(S6(x, t), HandleEvent({}), S7(x, t1), steps, e);
    steps := [HandleEvent({})] + steps;
    Expires(x, t);
    Then(S5(x, t), MasterTimer, S6(x, t), steps, e);
    steps := [MasterTimer] + steps;
  }

  lemma TraceSays(x: Parts, trace: seq<Act>)
    requires trace == Stored(x) + [PhaseTwoTimeout(1)] + [Answered(1, x.c, ErrorWrite)] && x.result == Saved
    ensures Answered(1, x.c, ErrorWrite) in trace
    ensures forall a :: a in trace && (a.SlaveSaved? || a.MasterSaved?) ==> a.result == Saved
  {
  }

  /** For every text: from equal files, with files that always open and one command in flight, there is a
      run that ends quiet with a user who was told ERROR WRITE and a slave that holds a message the master
      does not. */
  lemma PhaseTwoFailureLeavesTrace(text: string) returns (s: Cluster, steps: seq<Step>, c: Command)
    ensures Shape(s) && Initial(s) && |s.slaves| == 1 && s.slaves[0].file == s.master.file
    ensures IsSerialRun(s, steps) && IsRun(s, steps)
    ensures var e := Final(s, steps);
            && Quiet(e) && |e.slaves| == 1 && Answered(1, c, ErrorWrite) in e.trace
            && (forall a :: a in e.trace && (a.SlaveSaved? || a.MasterSaved?) ==> a.result == Saved)
            && e.master.file == s.master.file && e.slaves[0].file == Appended(e.master.file, Heard(c).body)
            && e.slaves[0].file != e.master.file
  {
    s := S0();
    var number := PrintInt(Allocate(s.master.counter));
    c := Command(CmdWrite, M.MessageOf(number, NEWCOMER, text));
    var x := PartsOf(c, Allocate(s.master.counter));
    WriteParts(c, x.counter);
    var rest, trace := AfterTimeout(x, Stored(x));
    TraceSays(x, trace);
    Writes(x, s, number, text);
    steps := UntilStored(x, s, SubmitWrite(0, text), rest, S11(x, trace));
  }

  // ---------- only the master's save fails ----------

  /** For every text: a run without any timeout, in which every slave opens its file and only the master
      does not, ends quiet in the same way. */
  lemma MasterFailureLeavesTrace(text: string) returns (s: Cluster, steps: seq<Step>, c: Command)
    ensures Shape(s) && Initial(s) && |s.slaves| == 1 && s.slaves[0].file == s.master.file
    ensures IsSerialRun(s, steps) && IsRun(s, steps)
    ensures forall step :: step in steps ==> !step.MasterTimer? && !step.SlaveTimer?
    ensures var e := Final(s, steps);
            && Quiet(e) && |e.slaves| == 1 && Answered(1, c, ErrorWrite) in e.trace
            && SlaveSaved(0, 1, Heard(c), Saved) in e.trace
            && (forall a :: a in e.trace ==> !a.PhaseTwoTimeout? && (a.SlaveSaved? ==> a.result == Saved))
            && e.master.file == s.master.file && e.slaves[0].file == Appended(e.master.file, Heard(c).body)
            && e.slaves[0].file != e.master.file
  {
    s := S0();
    StartIs(s);
    var x, trace;
    x, steps, trace := WriteRun(s, text, {1}, false);
    c := x.c;
    EndIs(x, false, trace, Final(s, steps));
    TraceIs(x, false, trace);
  }
}
