/** What the history of any run, with any number of users, says about the outcomes of commands. */
module Outcomes {
  import opened Text
  import opened Store
  import opened Protocol
  import opened History
  import opened Cluster
  import opened Concurrent
  import SerialRuns

  ghost predicate Outcome(a: Act) {
    a.Answered? || a.Rejected?
  }

  /** One outcome: each command is answered at most once, by one handler, in any run. */
  lemma OneOutcomeEach(trace: seq<Act>, j: nat, k: nat)
    requires Lawful(trace) && j < k < |trace| && Outcome(trace[j]) && Outcome(trace[k])
    ensures trace[j].ticket != trace[k].ticket
  {
    LawfulEverywhere(trace, k);
    PrefixPast(trace, j, k);
  }

  /** No node tries to store a command twice. */
  lemma StoredOnceEach(trace: seq<Act>, j: nat, k: nat)
    requires Lawful(trace) && j < k < |trace|
    requires (trace[j].SlaveSaved? && trace[k].SlaveSaved? && trace[j].slave == trace[k].slave)
             || (trace[j].MasterSaved? && trace[k].MasterSaved?)
    ensures trace[j].ticket != trace[k].ticket
  {
    LawfulEverywhere(trace, k);
    PrefixPast(trace, j, k);
  }

  /** A user is told WROTE only after the master has stored the command successfully. */
  lemma WroteMeansMasterStored(trace: seq<Act>, k: nat) returns (j: nat)
    requires Lawful(trace) && k < |trace| && trace[k].Answered? && trace[k].answer.Wrote?
    ensures j < k && trace[j] == MasterSaved(trace[k].ticket, trace[k].command, Saved)
  {
    LawfulEverywhere(trace, k);
    j := PastPrefix(trace, k, MasterSaved(trace[k].ticket, trace[k].command, Saved));
  }

  /** True answers, in any run: once the master has tried to store a command, WROTE is said exactly when it
      stored, UNKNOWN exactly when it did not find the line, ERROR WRITE exactly when it could not open its
      file; and before that WROTE is never said. UNKNOWN is said of a REPLACE only. */
  lemma AnswersSayTheStore(trace: seq<Act>, k: nat)
    requires Lawful(trace) && k < |trace| && trace[k].Answered?
    ensures var t, c, a := trace[k].ticket, trace[k].command, trace[k].answer;
            && a in {Wrote(NumberOf(c.body)), Unknown(NumberOf(c.body)), ErrorWrite}
            && (a.Wrote? <==> Before(trace, k, MasterSaved(t, c, Saved)))
            && (Before(trace, k, MasterSaved(t, c, NotFound)) ==> a.Unknown?)
            && (Before(trace, k, MasterSaved(t, c, OpenFailed)) ==> a.ErrorWrite?)
            && (a.Unknown? ==> c.cmd == CmdReplace)
  {
    var t, c := trace[k].ticket, trace[k].command;
    LawfulEverywhere(trace, k);
    forall result ensures Before(trace, k, MasterSaved(t, c, result)) <==>
                          MasterSaved(t, c, result) in Past(trace[..k])
    {
      BeforeIsPast(trace, k, MasterSaved(t, c, result));
    }
  }

  /** No node stores what was not committed before: the master the command itself, a slave what it heard
      of it. */
  lemma StoredWasCommitted(trace: seq<Act>, k: nat) returns (j: nat)
    requires Lawful(trace) && k < |trace| && (trace[k].SlaveSaved? || trace[k].MasterSaved?)
    ensures j < k && trace[j].CommitSent? && trace[j].ticket == trace[k].ticket
    ensures trace[k].command == if trace[k].SlaveSaved? then Heard(trace[j].command) else trace[j].command
  {
    LawfulEverywhere(trace, k);
    j := CommitBefore(trace, k);
  }

  /** A command that the precommit-error handler rejected is in no COMMIT and is stored by no node,
      before or afterwards, however many other commands are under way. */
  lemma RejectedIsNowhere(trace: seq<Act>, j: nat, k: nat)
    requires Lawful(trace) && j < |trace| && k < |trace| && trace[j].Rejected?
    requires trace[k].CommitSent? || trace[k].SlaveSaved? || trace[k].MasterSaved?
    ensures trace[j].ticket != trace[k].ticket
  {
    var c := k;
    if !trace[k].CommitSent? {
      c := StoredWasCommitted(trace, k);
    }
    LawfulEverywhere(trace, j);
    LawfulEverywhere(trace, c);
    if c < j {
      PrefixPast(trace, c, j);
    } else {
      PrefixPast(trace, j, c);
    }
  }

  /** The first n steps of a run are a run, whose history the whole run only continues. */
  lemma {:induction false} PrefixIsRun(s: Cluster, steps: seq<Step>, n: nat)
    requires Shape(s) && IsRun(s, steps) && n <= |steps|
    ensures IsRun(s, steps[..n]) && Final(s, steps[..n]).trace <= Final(s, steps).trace
    decreases n
  {
    if n == 0 {
      SerialRuns.TraceGrows(s, steps);
    } else {
      DoKeepsShape(s, steps[0]);
      PrefixIsRun(Do(s, steps[0]), steps[1..], n - 1);
      assert steps[..n][1..] == steps[1..][..n - 1];
    }
  }

  /** Nor is it on any connection at any point of the run, before or after it was rejected. */
  lemma RejectedIsOnNoConnection(s: Cluster, steps: seq<Step>, n: nat, j: nat, i: nat, k: nat)
    requires Shape(s) && Initial(s) && IsRun(s, steps) && n <= |steps| && IsRun(s, steps[..n])
    requires j < |Final(s, steps).trace| && Final(s, steps).trace[j].Rejected?
    requires var out := Final(s, steps[..n]).master.out; i < |out| && k < |out[i]| && out[i][k].Commit?
    ensures Final(s, steps[..n]).master.out[i][k].ticket != Final(s, steps).trace[j].ticket
  {
    assert Inv(s);
    RunKeeps(s, steps);
    RunKeeps(s, steps[..n]);
    PrefixIsRun(s, steps, n);
    var now, trace := Final(s, steps[..n]), Final(s, steps).trace;
    var line := now.master.out[i][k];
    assert LinkOk(now.master.out[i], i, Past(now.trace));
    InPast(now.trace, CommitSent(line.ticket, line.command));
    var c :| 0 <= c < |now.trace| && now.trace[c] == CommitSent(line.ticket, line.command);
    assert trace[c] == now.trace[c];
    RejectedIsNowhere(trace, j, c);
  }
}
