/**
 What the two boards of module Agreement mean for a user: in a run with one command in flight, files that
 open and no timeout in phase two the servers answer as the boards say, and the replicated board is one
 board exactly as long as no answered command loses a CR that matters on its way to the slaves.
 */
module OneCopy {
  import opened Text
  import opened Store
  import opened Records
  import opened Numbers
  import opened Protocol
  import opened History
  import opened Cluster
  import opened Serial
  import opened SerialRuns
  import opened Agreement
  import M = Master

  // ---------- whole runs ----------

  lemma {:induction false} GoodRun(s: Cluster, b: Boards, stage: Stage, steps: seq<Step>) returns (stage': Stage)
    requires Inv(s, stage) && IsSerialRun(s, steps) && Good(s, b, stage)
    requires IsRun(s, steps) && Clean(Past(Final(s, steps).trace))
    ensures Inv(Final(s, steps), stage') && Good(Final(s, steps), b, stage')
    decreases |steps|
  {
    stage' := stage;
    if steps != [] {
      var s1 := Do(s, steps[0]);
      CleanSoFar(s, steps);
      var stage1 := StepKeeps(s, stage, steps[0]);
      GoodStep(s, b, stage, steps[0], s1);
      stage' := GoodRun(s1, b, stage1, steps[1..]);
    }
  }

  /** A clean run is clean from the start. */
  lemma CleanSoFar(s: Cluster, steps: seq<Step>)
    requires Shape(s) && IsRun(s, steps) && Clean(Past(Final(s, steps).trace)) && steps != []
    ensures Shape(Do(s, steps[0])) && Clean(Past(s.trace)) && Clean(Past(Do(s, steps[0]).trace))
  {
    DoKeepsShape(s, steps[0]);
    TraceGrows(s, steps);
    TraceGrows(Do(s, steps[0]), steps[1..]);
    CleanPrefix(s.trace, Final(s, steps).trace);
    CleanPrefix(Do(s, steps[0]).trace, Final(s, steps).trace);
  }

  ghost predicate SlavesAgree(s: Cluster, f: string) {
    forall i :: 0 <= i < |s.slaves| ==> s.slaves[i].file == f
  }

  lemma GoodInitially(s: Cluster, f: string)
    requires Shape(s) && Initial(s) && SlavesAgree(s, f)
    ensures Good(s, Boards(s.master.file, f), InAborting)
  {
  }

  /** Every clean run, whatever its texts: every answer is read off the two boards, the master's file is
      its board at any point, and at every quiet point every slave's file is the slaves' board. */
  lemma TwoBoards(s: Cluster, steps: seq<Step>, f: string)
    requires Shape(s) && Initial(s) && IsSerialRun(s, steps) && SlavesAgree(s, f)
    requires IsRun(s, steps) && Clean(Past(Final(s, steps).trace))
    ensures var b, e := Boards(s.master.file, f), Final(s, steps);
            && Truthful(b, e.trace) && e.master.file == Replayed(b, e.trace).master
            && (Quiet(e) ==> SlavesAgree(e, Replayed(b, e.trace).slaves))
  {
    InitialInv(s);
    GoodInitially(s, f);
    var stage := GoodRun(s, Boards(s.master.file, f), InAborting, steps);
    QuietSlaves(Final(s, steps), Boards(s.master.file, f), stage);
  }

  lemma QuietSlaves(s: Cluster, b: Boards, stage: Stage)
    requires Now(s, stage) && Good(s, b, stage)
    ensures Quiet(s) ==> SlavesAgree(s, Replayed(b, s.trace).slaves)
  {
    if Quiet(s) {
      QuietWaits(s, stage);
    }
  }

  // ---------- one board ----------

  /** A single file to which commands are applied in order. */
  function Single(f: string, cs: seq<Command>): string {
    if cs == [] then f else Save(Single(f, cs[..|cs| - 1]), cs[|cs| - 1], true).file
  }

  ghost predicate Plain(c: Command) {
    !EndsInCR(c.body)
  }

  ghost predicate AllPlain(cs: seq<Command>) {
    forall c :: c in cs ==> Plain(c)
  }

  /** A text that does not end in CR. */
  ghost predicate PlainText(step: Step) {
    IsCommand(step) ==> !EndsInCR(step.text)
  }

  lemma PlainCommand(m: M.Master, step: Step)
    requires IsCommand(step) && step.user < |m.users|
    ensures Plain(NewCommand(m, step)) <==> !EndsInCR(step.text)
  {
    var body := NewCommand(m, step).body;
    assert body[|body| - 1] == if step.text == "" then '/' else step.text[|step.text| - 1];
  }

  /** What a server with a single file that opens would answer. */
  ghost function AnswerOn(f: string, c: Command): Answer {
    if Save(f, c, true).result == Saved then Wrote(NumberOf(c.body)) else Unknown(NumberOf(c.body))
  }

  /** A plain command keeps equal boards equal, and is answered as a single file answers. */
  lemma PlainAfter(f: string, c: Command)
    requires Plain(c)
    ensures After(Boards(f, f), c) == Boards(Save(f, c, true).file, Save(f, c, true).file)
    ensures AnswerOf(Boards(f, f), c) == AnswerOn(f, c)
  {
    assert Heard(c) == c;
    OpenSave(f, c);
    if Save(f, c, true).result == NotFound {
      NotFoundSave(f, c);
    }
  }

  lemma {:induction false} PlainBoards(f: string, cs: seq<Command>)
    requires AllPlain(cs)
    ensures Applied(Boards(f, f), cs) == Boards(Single(f, cs), Single(f, cs))
  {
    if cs != [] {
      assert forall c :: c in cs[..|cs| - 1] ==> c in cs;
      PlainBoards(f, cs[..|cs| - 1]);
      assert cs[|cs| - 1] in cs;
      PlainAfter(Single(f, cs[..|cs| - 1]), cs[|cs| - 1]);
    }
  }

  lemma PlainStep(s: Cluster, b: Boards, stage: Stage, step: Step, s': Cluster)
    requires Inv(s, stage) && OneAtATime(s, step) && Good(s, b, stage) && s' == Do(s, step)
    requires Clean(Past(s.trace)) && Clean(Past(s'.trace)) && PlainText(step)
    requires InFlight(s.master, stage, Plain) && AllPlain(Done(s.trace))
    ensures var stage' := NextStage(s.master, stage, step);
            && Shape(s') && Good(s', b, stage') && InFlight(s'.master, stage', Plain) && AllPlain(Done(s'.trace))
  {
    GoodStep(s, b, stage, step, s');
    if IsCommand(step) {
      PlainCommand(s.master, step);
    }
    InFlightStep(s, stage, step, Plain);
  }

  lemma {:induction false} PlainRun(s: Cluster, b: Boards, stage: Stage, steps: seq<Step>)
    requires Inv(s, stage) && IsSerialRun(s, steps) && Good(s, b, stage)
    requires IsRun(s, steps) && Clean(Past(Final(s, steps).trace))
    requires InFlight(s.master, stage, Plain) && AllPlain(Done(s.trace))
    requires forall step :: step in steps ==> PlainText(step)
    ensures AllPlain(Done(Final(s, steps).trace))
    decreases |steps|
  {
    if steps != [] {
      CleanSoFar(s, steps);
      assert steps[0] in steps;
      var stage1 := StepKeeps(s, stage, steps[0]);
      PlainStep(s, b, stage, steps[0], Do(s, steps[0]));
      PlainRun(Do(s, steps[0]), b, stage1, steps[1..]);
    }
  }

  lemma PlainDone(s: Cluster, steps: seq<Step>, f: string)
    requires Shape(s) && Initial(s) && IsSerialRun(s, steps) && SlavesAgree(s, f)
    requires IsRun(s, steps) && Clean(Past(Final(s, steps).trace))
    requires forall step :: step in steps ==> PlainText(step)
    ensures AllPlain(Done(Final(s, steps).trace))
  {
    InitialInv(s);
    GoodInitially(s, f);
    PlainRun(s, Boards(s.master.file, f), InAborting, steps);
  }

  /** Every answer of the history is the one a single file gives, on which the commands answered before
      are applied in order. */
  ghost predicate AnswersAsOne(f: string, trace: seq<Act>) {
    forall k :: 0 <= k < |trace| && trace[k].Answered? ==>
      trace[k].answer ==
      AnswerOn(Single(f, Done(trace[..k])), trace[k].command)
  }

  lemma {:induction false} DonePrefix(trace: seq<Act>, k: nat)
    requires k <= |trace|
    ensures Done(trace[..k]) <= Done(trace)
    ensures k < |trace| && trace[k].Answered? ==> trace[k].command in Done(trace)
    decreases |trace|
  {
    if k == |trace| {
      assert trace[..k] == trace;
    } else {
      var front := trace[..|trace| - 1];
      assert front[..k] == trace[..k];
      DonePrefix(front, k);
      DoneOne(front, trace[|trace| - 1]);
      assert trace == front + [trace[|trace| - 1]];
    }
  }

  lemma TruthfulAsOne(f: string, trace: seq<Act>)
    requires Truthful(Boards(f, f), trace) && AllPlain(Done(trace))
    ensures AnswersAsOne(f, trace)
  {
    forall k | 0 <= k < |trace| && trace[k].Answered?
      ensures trace[k].answer ==
              AnswerOn(Single(f, Done(trace[..k])), trace[k].command)
    {
      DonePrefix(trace, k);
      assert TrueAt(Boards(f, f), trace, k);
      PlainBoards(f, Done(trace[..k]));
      PlainAfter(Single(f, Done(trace[..k])), trace[k].command);
    }
  }

  /** The servers behave as one that holds a single file. */
  ghost predicate IsOneBoard(f: string, e: Cluster)
    requires Shape(e)
  {
    && AnswersAsOne(f, e.trace) && e.master.file == Single(f, Done(e.trace))
    && (Quiet(e) ==> SlavesAgree(e, Single(f, Done(e.trace))))
  }

  /** The replicated board refines a single one: started from equal files, in a clean run with one command
      in flight whose texts do not end in CR, every answer at any point is the one the single file gives
      at that point, and at every quiet point the master and all slaves hold the single file. */
  lemma OneCopyBoard(s: Cluster, steps: seq<Step>)
    requires Shape(s) && Initial(s) && IsSerialRun(s, steps) && SlavesAgree(s, s.master.file)
    requires IsRun(s, steps) && Clean(Past(Final(s, steps).trace))
    requires forall step :: step in steps ==> PlainText(step)
    ensures IsOneBoard(s.master.file, Final(s, steps))
  {
    var f, e := s.master.file, Final(s, steps);
    TwoBoards(s, steps, f);
    PlainDone(s, steps, f);
    TruthfulAsOne(f, e.trace);
    PlainBoards(f, Done(e.trace));
  }

  // ---------- when the two boards part ----------

  /** A body that ends in CR leaves the slaves with the same file as the master in one case only: a REPLACE
      that writes nothing, or whose CR goes beyond the line onto a byte that is a CR already. */
  predicate LostCRIsHarmless(f: string, body: string) {
    var q := Target(f, 0, NumberOf(body));
    || q == |f| || LineEnd(f, q) == |f|
    || (|LineAt(f, q)| < |body| && q + |body| - 1 < |f| && f[q + |body| - 1] == '\r')
  }

  predicate SameForSlaves(f: string, c: Command) {
    !EndsInCR(c.body) || (c.cmd == CmdReplace && LostCRIsHarmless(f, c.body))
  }

  /** Writing a text over a line, with and without its final CR. */
  lemma WriteOverIff(f: string, q: nat, body: string)
    requires q < |f| && LineEnd(f, q) < |f| && EndsInCR(body)
    ensures WriteOver(f, q, body) == WriteOver(f, q, Chopped(body)) <==>
            |LineAt(f, q)| < |body| && q + |body| - 1 < |f| && f[q + |body| - 1] == '\r'
  {
    var line, at := LineAt(f, q), q + |body| - 1;
    var g, h := WriteOver(f, q, body), WriteOver(f, q, Chopped(body));
    assert g[at] == '\r';
    if |line| >= |body| {
      var spaces := Spaces(|line| - |Chopped(body)|);
      assert spaces[0] in spaces && Padded(Chopped(body), line) == Chopped(body) + spaces;
      assert h[at] == ' ';
    } else if at < |f| {
      assert h[at] == f[at];
      assert Padded(body, line) == body && Padded(Chopped(body), line) == Chopped(body);
      assert f[at] == '\r' ==> g == h;
    }
  }

  /** Equal boards stay equal after a command exactly under that condition. */
  lemma BoardsStayEqualIff(f: string, c: Command)
    requires HasSlash(c.body)
    ensures After(Boards(f, f), c).master == After(Boards(f, f), c).slaves <==> SameForSlaves(f, c)
  {
    if EndsInCR(c.body) {
      ChoppedNumber(c.body);
      if c.cmd == CmdReplace {
        ReplaceAtTarget(f, 0, c.body);
        ReplaceAtTarget(f, 0, Chopped(c.body));
        var q := Target(f, 0, NumberOf(c.body));
        if q < |f| && LineEnd(f, q) < |f| {
          WriteOverIff(f, q, c.body);
        }
      } else {
        assert |Appended(f, c.body)| != |Appended(f, Chopped(c.body))|;
      }
    } else {
      PlainAfter(f, c);
    }
  }

  // ---------- one round ----------

  /** In a round of command c: the boards are as at its start until c is answered. */
  ghost predicate RoundOf(s: Cluster, c: Command, stage: Stage)
    requires Shape(s)
  {
    && InFlight(s.master, stage, Is(c))
    && Done(s.trace) == if stage.InEnding? then [c] else []
  }

  lemma RoundStep(s: Cluster, b: Boards, c: Command, stage: Stage, step: Step, s': Cluster)
    requires Inv(s, stage) && OneAtATime(s, step) && !IsCommand(step) && s' == Do(s, step)
    requires Good(s, b, stage) && RoundOf(s, c, stage) && Clean(Past(s.trace)) && Clean(Past(s'.trace))
    ensures var stage' := NextStage(s.master, stage, step);
            Shape(s') && Good(s', b, stage') && RoundOf(s', c, stage')
  {
    GoodStep(s, b, stage, step, s');
    InFlightStep(s, stage, step, Is(c));
  }

  lemma {:induction false} RoundRun(s: Cluster, b: Boards, c: Command, stage: Stage, steps: seq<Step>)
    returns (stage': Stage)
    requires Inv(s, stage) && IsSerialRun(s, steps) && Good(s, b, stage) && RoundOf(s, c, stage)
    requires IsRun(s, steps) && Clean(Past(Final(s, steps).trace))
    requires forall step :: step in steps ==> !IsCommand(step)
    ensures Inv(Final(s, steps), stage') && Good(Final(s, steps), b, stage') && RoundOf(Final(s, steps), c, stage')
    decreases |steps|
  {
    stage' := stage;
    if steps != [] {
      CleanSoFar(s, steps);
      assert steps[0] in steps;
      var stage1 := StepKeeps(s, stage, steps[0]);
      RoundStep(s, b, c, stage, steps[0], Do(s, steps[0]));
      stage' := RoundRun(Do(s, steps[0]), b, c, stage1, steps[1..]);
    }
  }

  /** One clean round from equal files: when nothing is under way any more, the master and all slaves hold
      equal files exactly when the command was not answered by a commit handler or loses no CR that
      matters; for a WRITE that is, exactly when its text does not end in CR. */
  lemma RoundAgreesIff(s: Cluster, step: Step, rest: seq<Step>)
    requires Shape(s) && Initial(s) && SlavesAgree(s, s.master.file) && OneAtATime(s, step) && IsCommand(step)
    requires IsSerialRun(s, [step] + rest) && IsRun(s, [step] + rest)
    requires forall x :: x in rest ==> !IsCommand(x)
    requires Clean(Past(Final(s, [step] + rest).trace)) && Quiet(Final(s, [step] + rest))
    ensures var e, c := Final(s, [step] + rest), NewCommand(s.master, step);
            && SlavesAgree(e, e.master.file) <==> Done(e.trace) == [] || SameForSlaves(s.master.file, c)
    ensures step.SubmitWrite? ==> (SameForSlaves(s.master.file, NewCommand(s.master, step)) <==> !EndsInCR(step.text))
  {
    var f, c, b := s.master.file, NewCommand(s.master, step), Boards(s.master.file, s.master.file);
    var s1 := Do(s, step);
    assert ([step] + rest)[1..] == rest && ([step] + rest)[0] == step;
    InitialInv(s);
    GoodInitially(s, f);
    CleanSoFar(s, [step] + rest);
    var stage1 := StepKeeps(s, InAborting, step);
    GoodStep(s, b, InAborting, step, s1);
    InFlightStep(s, InAborting, step, x => x == c);
    var stage := RoundRun(s1, b, c, stage1, rest);
    RoundEnds(Final(s1, rest), f, c, stage);
    PlainCommand(s.master, step);
    CommandHasSlash(s.master, step);
    BoardsStayEqualIff(f, c);
  }

  lemma CommandHasSlash(m: M.Master, step: Step)
    requires IsCommand(step) && step.user < |m.users|
    ensures HasSlash(NewCommand(m, step).body)
  {
    var number := if step.SubmitWrite? then PrintInt(Allocate(m.counter)) else step.number;
    M.MessageNumber(number, m.users[step.user], step.text);
  }

  lemma RoundEnds(e: Cluster, f: string, c: Command, stage: Stage)
    requires Now(e, stage) && Good(e, Boards(f, f), stage) && RoundOf(e, c, stage) && Quiet(e)
    ensures SlavesAgree(e, e.master.file) <==>
            Done(e.trace) == [] || After(Boards(f, f), c).master == After(Boards(f, f), c).slaves
  {
    QuietWaits(e, stage);
    AppliedOne(Boards(f, f), [], c);
    assert [] + [c] == [c];
    assert e.slaves[0].file == Replayed(Boards(f, f), e.trace).slaves;
  }
}
