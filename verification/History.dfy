/**
 What the history of a run of the two-phase commit must look like: for each act, what has to have
 happened before it and what must not have happened yet. The order of the sequence is the order in
 which the acts took place.
 */
module History {
  import opened Text
  import opened Store
  import opened Protocol

  /** The acts of a history, without their order. */
  ghost function Past(trace: seq<Act>): set<Act> {
    if trace == [] then {} else Past(trace[..|trace| - 1]) + {trace[|trace| - 1]}
  }

  lemma {:induction false} InPast(trace: seq<Act>, a: Act)
    ensures a in Past(trace) <==> a in trace
  {
    if trace != [] {
      var front, last := trace[..|trace| - 1], trace[|trace| - 1];
      InPast(front, a);
      assert trace == front + [last];
    }
  }

  /** The past with one act more. */
  ghost function With(past: set<Act>, e: Act): set<Act> {
    past + {e}
  }

  lemma PastAppend(trace: seq<Act>, e: Act)
    ensures Past(trace + [e]) == With(Past(trace), e)
  {
  }

  ghost predicate TriedBy(past: set<Act>, slave: nat, ticket: nat) {
    exists a :: a in past && a.SlaveSaved? && a.slave == slave && a.ticket == ticket
  }

  ghost predicate TriedByMaster(past: set<Act>, ticket: nat) {
    exists a :: a in past && a.MasterSaved? && a.ticket == ticket
  }

  ghost predicate Closed(past: set<Act>, ticket: nat) {
    exists a :: a in past && (a.Answered? || a.Rejected?) && a.ticket == ticket
  }

  ghost predicate Committed(past: set<Act>, ticket: nat) {
    exists a :: a in past && a.CommitSent? && a.ticket == ticket
  }

  /** The command is what a slave hears of one that was committed under that ticket. */
  ghost predicate CommittedAs(past: set<Act>, ticket: nat, c: Command) {
    exists a :: a in past && a.CommitSent? && a.ticket == ticket && c == Heard(a.command)
  }

  ghost predicate ToldWrote(past: set<Act>, ticket: nat) {
    exists a :: a in past && a.Answered? && a.answer.Wrote? && a.ticket == ticket
  }

  /** Act e may take place after the acts of the past, in a cluster with n slaves. */
  ghost predicate OkAt(n: nat, past: set<Act>, e: Act) {
    match e
    case Started(t, _) => forall a :: a in past ==> a.ticket < t
    case Voted(i, t) => true
    // every slave has voted in this round, and neither ABORT nor COMMIT has gone out
    case CommitSent(t, c) =>
      && Started(t, c) in past
      && (forall i :: 0 <= i < n ==> Voted(i, t) in past)
      && AbortSent(t) !in past && !Committed(past, t)
    case AbortSent(t) => !Committed(past, t) && AbortSent(t) !in past
    // a slave stores what was committed, once, and not after the user was told it was written
    case SlaveSaved(i, t, c, _) =>
      && CommittedAs(past, t, c)
      && !TriedBy(past, i, t) && !ToldWrote(past, t)
    // the master stores after every slave, once
    case MasterSaved(t, c, _) =>
      && CommitSent(t, c) in past
      && (forall i :: 0 <= i < n ==> SlaveSaved(i, t, Heard(c), Saved) in past)
      && !TriedByMaster(past, t)
    case PhaseTwoTimeout(t) => Committed(past, t)
    case Rejected(t) => AbortSent(t) in past && !Closed(past, t)
    case Answered(t, c, answer) =>
      && CommitSent(t, c) in past && !Closed(past, t)
      && (answer.Wrote? ==>
            && answer.number == NumberOf(c.body)
            && MasterSaved(t, c, Saved) in past
            && forall i :: 0 <= i < n ==> SlaveSaved(i, t, Heard(c), Saved) in past)
      && answer in {Wrote(NumberOf(c.body)), Unknown(NumberOf(c.body)), ErrorWrite}
      && (answer.Unknown? ==> c.cmd == CmdReplace)
      && (if TriedByMaster(past, t) then Reports(past, t, c, answer) else FailsWith(past, t, c, answer))
  }

  /** Once the master has tried to store a command, the user hears how that went. */
  ghost predicate Reports(past: set<Act>, t: nat, c: Command, answer: Answer) {
    && (answer == Wrote(NumberOf(c.body)) <==> MasterSaved(t, c, Saved) in past)
    && (answer == Unknown(NumberOf(c.body)) <==> MasterSaved(t, c, NotFound) in past)
    && (answer == ErrorWrite <==> MasterSaved(t, c, OpenFailed) in past)
  }

  /** Before that the answer is an error, or says of a REPLACE that a slave did not find its line. */
  ghost predicate FailsWith(past: set<Act>, t: nat, c: Command, answer: Answer) {
    || answer == ErrorWrite
    || (answer == Unknown(NumberOf(c.body)) && c.cmd == CmdReplace && UnknownToSlave(past, t, c))
  }

  ghost predicate UnknownToSlave(past: set<Act>, t: nat, c: Command) {
    exists i: nat :: SlaveSaved(i, t, Heard(c), NotFound) in past
  }

  ghost predicate Ok(n: nat, trace: seq<Act>) {
    trace == [] ||
    (Ok(n, trace[..|trace| - 1]) && OkAt(n, Past(trace[..|trace| - 1]), trace[|trace| - 1]))
  }

  lemma OkAppend(n: nat, trace: seq<Act>, e: Act)
    requires Ok(n, trace) && OkAt(n, Past(trace), e)
    ensures Ok(n, trace + [e])
  {
  }

  /** Every act of such a history is allowed after those in front of it. */
  lemma {:induction false} OkEverywhere(n: nat, trace: seq<Act>, k: nat)
    requires Ok(n, trace) && k < |trace|
    ensures OkAt(n, Past(trace[..k]), trace[k])
  {
    if k < |trace| - 1 {
      OkEverywhere(n, trace[..|trace| - 1], k);
      assert trace[..|trace| - 1][..k] == trace[..k];
    }
  }

  /** The acts of one step, at most two, each allowed after what came before it. */
  ghost predicate Extends(n: nat, past: set<Act>, acts: seq<Act>, past': set<Act>) {
    || (acts == [] && past' == past)
    || (|acts| == 1 && OkAt(n, past, acts[0]) && past' == With(past, acts[0]))
    || (|acts| == 2 && OkAt(n, past, acts[0]) && OkAt(n, With(past, acts[0]), acts[1])
        && past' == With(With(past, acts[0]), acts[1]))
  }

  lemma ExtendsKeepsOk(n: nat, trace: seq<Act>, acts: seq<Act>, past': set<Act>)
    requires Ok(n, trace) && Extends(n, Past(trace), acts, past')
    ensures Ok(n, trace + acts) && Past(trace + acts) == past'
  {
    if acts == [] {
      assert trace + acts == trace;
    } else {
      var trace1 := trace + [acts[0]];
      OkAppend(n, trace, acts[0]);
      PastAppend(trace, acts[0]);
      if |acts| == 2 {
        OkAppend(n, trace1, acts[1]);
        PastAppend(trace1, acts[1]);
        assert trace + acts == trace1 + [acts[1]];
      } else {
        assert trace + acts == trace1;
      }
    }
  }

  // ---------- what such a history says ----------

  lemma PrefixPast(trace: seq<Act>, j: nat, k: nat)
    requires j < k <= |trace|
    ensures trace[j] in Past(trace[..k])
  {
    InPast(trace[..k], trace[j]);
    assert trace[..k][j] == trace[j];
  }

  lemma PastPrefix(trace: seq<Act>, k: nat, a: Act) returns (j: nat)
    requires k <= |trace| && a in Past(trace[..k])
    ensures j < k && trace[j] == a
  {
    InPast(trace[..k], a);
    j :| 0 <= j < k && trace[..k][j] == a;
  }

  /** No slave tries to store a command twice. */
  lemma SlaveStoresOnce(n: nat, trace: seq<Act>, j: nat, k: nat)
    requires Ok(n, trace) && j < k < |trace| && trace[j].SlaveSaved? && trace[k].SlaveSaved?
    ensures trace[j].slave != trace[k].slave || trace[j].ticket != trace[k].ticket
  {
    OkEverywhere(n, trace, k);
    PrefixPast(trace, j, k);
  }

  lemma MasterStoresOnce(n: nat, trace: seq<Act>, j: nat, k: nat)
    requires Ok(n, trace) && j < k < |trace| && trace[j].MasterSaved? && trace[k].MasterSaved?
    ensures trace[j].ticket != trace[k].ticket
  {
    OkEverywhere(n, trace, k);
    PrefixPast(trace, j, k);
  }

  /** No node stores a command twice. */
  ghost predicate StoredOnce(trace: seq<Act>) {
    forall j, l :: 0 <= j < l < |trace| && trace[j].ticket == trace[l].ticket ==>
      && !(trace[j].MasterSaved? && trace[l].MasterSaved?)
      && !(trace[j].SlaveSaved? && trace[l].SlaveSaved? && trace[j].slave == trace[l].slave)
  }

  lemma NobodyStoresTwice(n: nat, trace: seq<Act>)
    requires Ok(n, trace)
    ensures StoredOnce(trace)
  {
    forall j, l | 0 <= j < l < |trace| && trace[j].ticket == trace[l].ticket
      ensures !(trace[j].MasterSaved? && trace[l].MasterSaved?)
      ensures !(trace[j].SlaveSaved? && trace[l].SlaveSaved? && trace[j].slave == trace[l].slave)
    {
      if trace[j].MasterSaved? && trace[l].MasterSaved? {
        MasterStoresOnce(n, trace, j, l);
      }
      if trace[j].SlaveSaved? && trace[l].SlaveSaved? {
        SlaveStoresOnce(n, trace, j, l);
      }
    }
  }

  ghost predicate Before(trace: seq<Act>, k: nat, a: Act)
    requires k <= |trace|
  {
    exists j :: 0 <= j < k && trace[j] == a
  }

  /** Before position k the master has stored the command successfully, and every slave what it heard of it. */
  ghost predicate StoredEverywhere(n: nat, trace: seq<Act>, k: nat, t: nat, c: Command)
    requires k <= |trace|
  {
    && Before(trace, k, MasterSaved(t, c, Saved))
    && forall i :: 0 <= i < n ==> Before(trace, k, SlaveSaved(i, t, Heard(c), Saved))
  }

  /** Commit safety: when a user is told WROTE, every slave and the master have already stored that
      command successfully. */
  lemma WroteMeansStoredEverywhere(n: nat, trace: seq<Act>, k: nat)
    requires Ok(n, trace) && k < |trace| && trace[k].Answered? && trace[k].answer.Wrote?
    ensures trace[k].answer.number == NumberOf(trace[k].command.body)
    ensures StoredEverywhere(n, trace, k, trace[k].ticket, trace[k].command)
  {
    var t, c := trace[k].ticket, trace[k].command;
    OkEverywhere(n, trace, k);
    var _ := PastPrefix(trace, k, MasterSaved(t, c, Saved));
    forall i | 0 <= i < n ensures Before(trace, k, SlaveSaved(i, t, Heard(c), Saved)) {
      var _ := PastPrefix(trace, k, SlaveSaved(i, t, Heard(c), Saved));
    }
  }

  ghost predicate BeforeAtSlave(trace: seq<Act>, k: nat, t: nat, c: Command)
    requires k <= |trace|
  {
    exists i: nat :: Before(trace, k, SlaveSaved(i, t, Heard(c), NotFound))
  }

  ghost predicate SaysWhy(trace: seq<Act>, k: nat)
    requires k < |trace| && trace[k].Answered?
  {
    var t, c, a := trace[k].ticket, trace[k].command, trace[k].answer;
    && a in {Wrote(NumberOf(c.body)), Unknown(NumberOf(c.body)), ErrorWrite}
    && (a.Wrote? <==> Before(trace, k, MasterSaved(t, c, Saved)))
    && (a.Unknown? ==> c.cmd == CmdReplace)
    && (a.Unknown? ==> Before(trace, k, MasterSaved(t, c, NotFound)) || BeforeAtSlave(trace, k, t, c))
    && (Before(trace, k, MasterSaved(t, c, NotFound)) ==> a.Unknown?)
    && (Before(trace, k, MasterSaved(t, c, OpenFailed)) ==> a.ErrorWrite?)
  }

  /** What the user hears is what happened. WROTE n: the master has stored. UNKNOWN n, to a REPLACE only:
      the master did not find the line, or it has not tried and a slave did not find it. ERROR WRITE: the
      master could not open its file, or it has not tried. Once the master has tried, each of the three is
      said exactly in its case. */
  lemma AnswersSayWhy(n: nat, trace: seq<Act>, k: nat)
    requires Ok(n, trace) && k < |trace| && trace[k].Answered?
    ensures SaysWhy(trace, k)
  {
    var t, c, past := trace[k].ticket, trace[k].command, Past(trace[..k]);
    OkEverywhere(n, trace, k);
    forall result ensures Before(trace, k, MasterSaved(t, c, result)) <==> MasterSaved(t, c, result) in past {
      BeforeIsPast(trace, k, MasterSaved(t, c, result));
    }
    forall i: nat ensures Before(trace, k, SlaveSaved(i, t, Heard(c), NotFound)) <==>
                          SlaveSaved(i, t, Heard(c), NotFound) in past
    {
      BeforeIsPast(trace, k, SlaveSaved(i, t, Heard(c), NotFound));
    }
  }

  lemma BeforeIsPast(trace: seq<Act>, k: nat, a: Act)
    requires k <= |trace|
    ensures Before(trace, k, a) <==> a in Past(trace[..k])
  {
    if a in Past(trace[..k]) {
      var j := PastPrefix(trace, k, a);
    } else {
      forall j | 0 <= j < k && trace[j] == a ensures false {
        PrefixPast(trace, j, k);
      }
    }
  }

  /** Unanimity: before a COMMIT goes out every slave has voted in the same round. */
  lemma CommitMeansAllVoted(n: nat, trace: seq<Act>, k: nat, i: nat) returns (j: nat)
    requires Ok(n, trace) && k < |trace| && trace[k].CommitSent? && i < n
    ensures j < k && trace[j] == Voted(i, trace[k].ticket)
  {
    OkEverywhere(n, trace, k);
    j := PastPrefix(trace, k, Voted(i, trace[k].ticket));
  }

  ghost predicate Decides(a: Act) {
    a.CommitSent? || a.AbortSent?
  }

  /** Single decision: a round sends COMMIT or ABORT, never both, and only once. */
  lemma OneDecision(n: nat, trace: seq<Act>, j: nat, k: nat)
    requires Ok(n, trace) && j < k < |trace| && Decides(trace[j]) && Decides(trace[k])
    ensures trace[j].ticket != trace[k].ticket
  {
    OkEverywhere(n, trace, k);
    PrefixPast(trace, j, k);
  }

  /** No other act decides the round of act k. */
  ghost predicate OnlyDecision(trace: seq<Act>, k: nat)
    requires k < |trace|
  {
    forall j :: 0 <= j < |trace| && j != k && Decides(trace[j]) ==> trace[j].ticket != trace[k].ticket
  }

  ghost predicate AllVotedBefore(n: nat, trace: seq<Act>, k: nat)
    requires k < |trace|
  {
    forall i :: 0 <= i < n ==> Before(trace, k, Voted(i, trace[k].ticket))
  }

  lemma RoundDecidesOnce(n: nat, trace: seq<Act>, k: nat)
    requires Ok(n, trace) && k < |trace| && Decides(trace[k])
    ensures OnlyDecision(trace, k)
    ensures trace[k].CommitSent? ==> AllVotedBefore(n, trace, k)
  {
    forall j | 0 <= j < |trace| && j != k && Decides(trace[j]) ensures trace[j].ticket != trace[k].ticket {
      if j < k {
        OneDecision(n, trace, j, k);
      } else {
        OneDecision(n, trace, k, j);
      }
    }
    if trace[k].CommitSent? {
      forall i | 0 <= i < n ensures Before(trace, k, Voted(i, trace[k].ticket)) {
        var j := CommitMeansAllVoted(n, trace, k, i);
      }
    }
  }

  /** One outcome: a command is answered at most once, by one handler. */
  lemma OneOutcome(n: nat, trace: seq<Act>, j: nat, k: nat)
    requires Ok(n, trace) && j < k < |trace|
    requires (trace[j].Answered? || trace[j].Rejected?) && (trace[k].Answered? || trace[k].Rejected?)
    ensures trace[j].ticket != trace[k].ticket
  {
    OkEverywhere(n, trace, k);
    PrefixPast(trace, j, k);
  }

  /** What a node stores was committed before. */
  lemma CommitBefore(trace: seq<Act>, k: nat) returns (j: nat)
    requires k < |trace| && (trace[k].SlaveSaved? || trace[k].MasterSaved?)
    requires trace[k].SlaveSaved? ==> CommittedAs(Past(trace[..k]), trace[k].ticket, trace[k].command)
    requires trace[k].MasterSaved? ==> CommitSent(trace[k].ticket, trace[k].command) in Past(trace[..k])
    ensures j < k && trace[j].CommitSent? && trace[j].ticket == trace[k].ticket
    ensures trace[k].command == if trace[k].SlaveSaved? then Heard(trace[j].command) else trace[j].command
  {
    var a: Act;
    if trace[k].SlaveSaved? {
      a :| a in Past(trace[..k]) && a.CommitSent? && a.ticket == trace[k].ticket
           && trace[k].command == Heard(a.command);
    } else {
      a := CommitSent(trace[k].ticket, trace[k].command);
    }
    j := PastPrefix(trace, k, a);
  }

  /** A rejected command is never committed and never stored, before or after. */
  lemma RejectedLeavesNoTrace(n: nat, trace: seq<Act>, j: nat, k: nat)
    requires Ok(n, trace) && j < |trace| && k < |trace| && trace[j].Rejected?
    requires trace[k].CommitSent? || trace[k].SlaveSaved? || trace[k].MasterSaved?
    ensures trace[j].ticket != trace[k].ticket
  {
    if trace[j].ticket == trace[k].ticket {
      var t := trace[j].ticket;
      OkEverywhere(n, trace, j);
      var a := PastPrefix(trace, j, AbortSent(t));
      var b := k;
      if !trace[k].CommitSent? {
        OkEverywhere(n, trace, k);
        b := CommitBefore(trace, k);
      }
      if a < b {
        OneDecision(n, trace, a, b);
      } else {
        OneDecision(n, trace, b, a);
      }
    }
  }
}
