/**
 What a carriage return at the end of a text or of a number does: the receivers of COMMIT and of its
 replies take it off together with the end of line. Two rounds in which every file opens and no timer
 expires, from the bytes a user sends to what the servers hold.
 */
module CarriageReturn {
  import opened Wrappers
  import opened Text
  import opened Store
  import opened Protocol
  import opened Cluster
  import opened Serial
  import opened SerialSteps
  import opened Handlers
  import opened OneSlave
  import C = Client
  import M = Master

  /** No timer expires and every file opens. */
  ghost predicate Undisturbed(steps: seq<Step>) {
    forall step :: step in steps ==>
      && !step.MasterTimer? && !step.SlaveTimer? && !step.SlaveTimeout?
      && (step.ToSlave? ==> step.canOpen) && (step.HandleEvent? ==> step.failing == {})
  }

  // ---------- a text ----------

  lemma WriteRound(s: Cluster, text: string) returns (number: string, steps: seq<Step>, e: Cluster)
    requires s == S0() && text != ""
    ensures Runs(s, steps, e) && Undisturbed(steps) && steps != [] && steps[0] == SubmitWrite(0, text)
    ensures Shape(e) && Quiet(e) && |e.slaves| == 1
    ensures var body := M.MessageOf(number, NEWCOMER, text);
            && Answered(1, Command(CmdWrite, body), Wrote(number)) in e.trace
            && e.master.file == Appended("", body) && e.slaves[0].file == Appended("", Chopped(body))
  {
    var x, trace;
    x, steps, trace := WriteRun(s, text, {}, true);
    e := T8(x, true, trace);
    number := PrintInt(x.counter);
    WrittenNumber(x.counter, text);
    EndIs(x, true, trace, e);
    TraceIs(x, true, trace);
  }

  lemma FilesDifferIff(number: string, text: string)
    requires text != ""
    ensures var body := M.MessageOf(number, NEWCOMER, text);
            Appended("", Chopped(body)) == Appended("", body) <==> !EndsInCR(text)
  {
    var body := M.MessageOf(number, NEWCOMER, text);
    assert body[|body| - 1] == text[|text| - 1];
    if EndsInCR(text) {
      assert |Appended("", body)| == |Appended("", Chopped(body))| + 1;
    }
  }

  /** "WRITE text" from a user: the round ends with nothing under way and the user told WROTE, the master
      holds the text and the slave the text without its final CR; so their files are equal exactly when
      it has none. */
  lemma TextLosesCR(text: string) returns (s: Cluster, steps: seq<Step>, number: string)
    requires text != ""
    ensures C.ParseRequest(C.Sent(C.WriteRequest(text), false, true)) == C.WriteRequest(text)
    ensures Shape(s) && Initial(s) && |s.slaves| == 1 && s.slaves[0].file == s.master.file == ""
    ensures IsSerialRun(s, steps) && IsRun(s, steps) && Undisturbed(steps) && steps != []
    ensures steps[0] == SubmitWrite(0, text)
    ensures var e, body := Final(s, steps), M.MessageOf(number, NEWCOMER, text);
            && Quiet(e) && |e.slaves| == 1 && Answered(1, Command(CmdWrite, body), Wrote(number)) in e.trace
            && e.master.file == Appended("", body) && e.slaves[0].file == Appended("", Chopped(body))
            && (e.slaves[0].file == e.master.file <==> !EndsInCR(text))
  {
    C.RequestArrivesIff(C.WriteRequest(text), false, true);
    s := S0();
    StartIs(s);
    var e;
    number, steps, e := WriteRound(s, text);
    FilesDifferIff(number, text);
  }

  lemma WrittenNumber(n: nat, text: string)
    ensures NumberOf(M.MessageOf(PrintInt(n), NEWCOMER, text)) == PrintInt(n)
  {
    M.MessageNumber(PrintInt(n), NEWCOMER, text);
    PrintNatHasNo(n, '/');
    FindIs(PrintInt(n), '/', 0, |PrintInt(n)|);
  }

  // ---------- a number ----------

  function UnknownOf(x: Parts): Event {
    Event(EvCommitUnsuccess, Back(x.c), Some(CommitUnknown(Back(x.c))))
  }

  ghost function U6(x: Parts, trace: seq<Act>): Cluster {
    Pair(MOperationUnsuccess, MOperationUnsuccess, false, Author(x, UWaitingSave), [UnknownOf(x)], [], x.counter,
         x.slave, [], trace)
  }

  lemma ReplaceParts(c: Command, counter: int)
    requires c.cmd == CmdReplace
    ensures var x := PartsOf(c, counter);
            Fit(x) && x.result == NotFound && x.reply == CommitUnknown(NumberOf(Heard(c).body)) && x.slave.file == ""
  {
  }

  lemma CountsUnknown(x: Parts, trace: seq<Act>)
    requires x.reply == CommitUnknown(NumberOf(Heard(x.c).body))
    ensures Leads(S5(x, trace), ToMaster(0), U6(x, trace))
  {
    TakenFromOne(x.reply);
    Same(trace);
  }

  /** The handler of the failure ends exactly when the number came back, or came back empty. */
  lemma HandlesUnknown(x: Parts, trace: seq<Act>) returns (e: Cluster)
    requires HasSlash(x.c.body)
    ensures Leads(U6(x, trace), HandleEvent({}), e) && Shape(e)
    ensures e.master.hung <==> EndsInCR(NumberOf(x.c.body)) && NumberOf(x.c.body) != "\r"
    ensures e.master.file == "" && e.slaves == [x.slave]
  {
    var s := U6(x, trace);
    e := Do(s, HandleEvent({}));
    DoKeepsShape(s, HandleEvent({}));
    HandleHungIff(s.master, 0, {});
    BackIff(x.c);
    UnknownKeepsFile(s.master);
  }

  lemma UnknownKeepsFile(m: M.Master)
    requires m.Valid() && m.queue != [] && |m.users| == 1 && m.queue[0].kind == EvCommitUnsuccess
    requires m.users[0].state == UWaitingSave
    ensures M.Handle(m, {}).file == m.file
  {
    var ev := m.queue[0];
    if Concerns(ev, m.users[0].msgNumber) {
      FailOnly(Dequeued(m), 0, ev.number, ev.response);
    } else {
      HangEffect(m, 0, {}, M.Handle(m, {}));
    }
  }

  lemma AfterUnknown(x: Parts, t: seq<Act>) returns (steps: seq<Step>, e: Cluster)
    requires HasSlash(x.c.body) && x.reply == CommitUnknown(NumberOf(Heard(x.c).body)) && x.slave.file == ""
    ensures Runs(S5(x, t), steps, e) && steps == [ToMaster(0), HandleEvent({})]
    ensures e.master.hung <==> EndsInCR(NumberOf(x.c.body)) && NumberOf(x.c.body) != "\r"
    ensures e.master.file == "" && |e.slaves| == 1 && e.slaves[0].file == ""
  {
    e := HandlesUnknown(x, t);
    Stays(e);
    Then(U6(x, t), HandleEvent({}), e, [], e);
    CountsUnknown(x, t);
    Then(S5(x, t), ToMaster(0), U6(x, t), [HandleEvent({})] + [], e);
    steps := [ToMaster(0)] + ([HandleEvent({})] + []);
  }

  lemma ReplaceRun(x: Parts, s: Cluster, number: string, text: string) returns (steps: seq<Step>, e: Cluster)
    requires s == S0() && x == PartsOf(x.c, s.master.counter) && HasSlash(x.c.body)
    requires x.c == Command(CmdReplace, M.MessageOf(number, NEWCOMER, text))
    ensures Runs(s, steps, e) && Undisturbed(steps)
    ensures steps == [SubmitReplace(0, number, text)] + UntilReply() + [ToMaster(0), HandleEvent({})]
    ensures e.master.hung <==> EndsInCR(NumberOf(x.c.body)) && NumberOf(x.c.body) != "\r"
    ensures e.master.file == "" && |e.slaves| == 1 && e.slaves[0].file == ""
  {
    ReplaceParts(x.c, x.counter);
    var rest;
    rest, e := AfterUnknown(x, Stored(x));
    Replaces(x, s, number, text);
    steps := UntilStored(x, s, SubmitReplace(0, number, text), rest, e);
  }

  /** "REPLACE number/text" of a number no line has: the slave answers 6.2 with the number it heard, and the
      master's handler of the failure runs forever exactly when the number ends in CR and is more than
      that. */
  lemma NumberLosesCR(number: string, text: string) returns (s: Cluster, steps: seq<Step>)
    requires '/' !in number && text != ""
    ensures C.ParseRequest(C.Sent(C.ReplaceRequest(number, text), false, true)) == C.ReplaceRequest(number, text)
    ensures Shape(s) && Initial(s) && |s.slaves| == 1 && s.slaves[0].file == s.master.file == ""
    ensures IsSerialRun(s, steps) && IsRun(s, steps) && Undisturbed(steps) && steps != []
    ensures steps[0] == SubmitReplace(0, number, text)
    ensures Final(s, steps).master.hung <==> EndsInCR(number) && number != "\r"
    ensures Final(s, steps).master.file == "" && |Final(s, steps).slaves| == 1 && Final(s, steps).slaves[0].file == ""
  {
    C.RequestArrivesIff(C.ReplaceRequest(number, text), false, true);
    s := S0();
    var x := ReplaceOf(number, text, s.master.counter);
    var e;
    steps, e := ReplaceRun(x, s, number, text);
  }

  lemma ReplaceOf(number: string, text: string, counter: int) returns (x: Parts)
    requires '/' !in number
    ensures x == PartsOf(x.c, counter) && x.c == Command(CmdReplace, M.MessageOf(number, NEWCOMER, text))
    ensures HasSlash(x.c.body) && NumberOf(x.c.body) == number
  {
    x := PartsOf(Command(CmdReplace, M.MessageOf(number, NEWCOMER, text)), counter);
    M.MessageNumber(number, NEWCOMER, text);
    FindIs(number, '/', 0, |number|);
    ReplaceParts(x.c, counter);
  }
}
