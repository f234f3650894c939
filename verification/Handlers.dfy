/**
 Do the handlers end, and does anybody wait in vain? With one command in flight the answer depends on one
 thing a caller can see: whether the number of a REPLACE ends in CR, because such a number comes back
 from the slaves without it.
 */
module Handlers {
  import opened Text
  import opened Numbers
  import opened Protocol
  import opened History
  import opened Cluster
  import opened Serial
  import opened SerialSteps
  import opened SerialRuns
  import M = Master

  // ---------- one handler ----------

  /** In every state of phase two a commit handler ends exactly when its event concerns the user who waits:
      the success handler exactly when the user's number does not end in CR, the failure handler also
      when the event carries no number, as after a timeout or for a number that is only a CR. */
  lemma HandlerEndsIff(s: Cluster, u: nat, failing: set<nat>)
    requires Inv(s, InPhaseTwo(u)) && s.master.queue != [] && s.master.queue[0].kind != EvMasterTimeout
    ensures var ev, number := s.master.queue[0], s.master.users[u].msgNumber;
            && (!M.Handle(s.master, failing).hung <==> Concerns(ev, number))
            && (Concerns(ev, number) <==> !EndsInCR(number) || (ev.kind == EvCommitUnsuccess && ev.number == ""))
  {
    var m := s.master;
    KindsTwo(m, PhaseTwoTimeout(m.started) in Past(s.trace));
    BackIff(M.CommandOf(m.users[u]));
    HandleHungIff(m, u, failing);
  }

  lemma HandleHungIff(m: M.Master, u: nat, failing: set<nat>)
    requires m.Valid() && !m.hung && OnlyUser(m.users, u, UWaitingSave) && m.queue != []
    requires m.queue[0].kind == EvCommitSuccess || m.queue[0].kind == EvCommitUnsuccess
    ensures M.Handle(m, failing).hung <==> !Concerns(m.queue[0], m.users[u].msgNumber)
  {
    var ev := m.queue[0];
    if !Concerns(ev, m.users[u].msgNumber) {
      HangEffect(m, u, failing, M.Handle(m, failing));
    } else if ev.kind == EvCommitSuccess {
      FinishOnly(Dequeued(m), u, ev.number, failing);
      FinishUserEffect(Dequeued(m), u, ev.number, failing, M.Handle(m, failing));
    } else {
      FailOnly(Dequeued(m), u, ev.number, ev.response);
      FailUserEffect(Dequeued(m), u, ev.number, ev.response, M.Handle(m, failing));
    }
  }

  /** What the failure handler answers in phase two: UNKNOWN exactly for a REPLACE whose event holds a 6.2
      reply, and then a slave has not found the line; ERROR WRITE in every other case, so for a WRITE, for a
      6.1 reply, with which a slave has failed, and for the event of a timeout, which holds no reply. */
  lemma FailureSays(s: Cluster, u: nat, failing: set<nat>)
    requires Inv(s, InPhaseTwo(u)) && s.master.queue != [] && s.master.queue[0].kind == EvCommitUnsuccess
    requires Concerns(s.master.queue[0], s.master.users[u].msgNumber)
    ensures var c, response := M.CommandOf(s.master.users[u]), s.master.queue[0].response;
            var unknown := c.cmd == CmdReplace && response.Some? && response.value.CommitUnknown?;
            && M.Handle(s.master, failing).acts ==
               [Answered(s.master.started, c, if unknown then Unknown(NumberOf(c.body)) else ErrorWrite)]
            && (unknown ==> UnknownToSlave(Past(s.trace), s.master.started, c))
            && (response.Some? ==> FailedReply(response.value, Past(s.trace), s.master.started, c))
  {
    var m, u' := s.master, s.master.users[u];
    var answer := M.FailureAnswer(u', m.queue[0].response);
    FailureParts(m, u, PhaseTwoTimeout(m.started) in Past(s.trace), answer, M.Handle(m, failing));
    FailureIsCaused(m, Past(s.trace), u, answer);
  }

  // ---------- whole runs ----------

  /** The number a REPLACE names comes back as it was sent. */
  ghost predicate KeepsNumber(step: Step) {
    step.SubmitReplace? ==> !EndsInCR(NumberOf(step.number))
  }

  ghost predicate ComesBack(c: Command) {
    !EndsInCR(NumberOf(c.body))
  }

  lemma KeptNumber(m: M.Master, step: Step)
    requires IsCommand(step) && step.user < |m.users| && KeepsNumber(step)
    ensures ComesBack(NewCommand(m, step))
  {
    var number := if step.SubmitWrite? then PrintInt(Allocate(m.counter)) else step.number;
    M.MessageNumber(number, m.users[step.user], step.text);
    PrintIntNoCR(Allocate(m.counter));
  }

  /** A number the server prints never ends in CR. */
  lemma PrintIntNoCR(n: int)
    ensures !EndsInCR(NumberOf(PrintInt(n)))
  {
    PrintNatHasNo(if n < 0 then -n else n, '\r');
    FindFirst(PrintInt(n), '/', 0);
  }

  lemma {:induction false} KeptRun(s: Cluster, stage: Stage, steps: seq<Step>) returns (stage': Stage)
    requires Inv(s, stage) && IsSerialRun(s, steps) && IsRun(s, steps) && InFlight(s.master, stage, ComesBack)
    requires forall step :: step in steps ==> KeepsNumber(step)
    ensures Inv(Final(s, steps), stage') && InFlight(Final(s, steps).master, stage', ComesBack)
    decreases |steps|
  {
    stage' := stage;
    if steps != [] {
      DoKeepsShape(s, steps[0]);
      var stage1 := StepKeeps(s, stage, steps[0]);
      if IsCommand(steps[0]) {
        KeptNumber(s.master, steps[0]);
      }
      InFlightStep(s, stage, steps[0], ComesBack);
      stage' := KeptRun(Do(s, steps[0]), stage1, steps[1..]);
    }
  }

  /** No handler loop runs forever in a run whose REPLACE commands name numbers that do not end in CR,
      whatever the texts, the interleaving and the timers. */
  lemma HandlersEnd(s: Cluster, steps: seq<Step>)
    requires Shape(s) && Initial(s) && IsSerialRun(s, steps) && IsRun(s, steps)
    requires forall step :: step in steps ==> KeepsNumber(step)
    ensures !Final(s, steps).master.hung
  {
    InitialInv(s);
    var stage := KeptRun(s, InAborting, steps);
  }

  // ---------- nobody waits in vain ----------

  ghost predicate Queued(q: seq<Event>, kind: EventKind) {
    exists k :: 0 <= k < |q| && q[k].kind == kind
  }

  /** A commit event that will answer the user with that number. */
  ghost predicate CommitQueued(q: seq<Event>, number: string) {
    exists k :: 0 <= k < |q| && Concerns(q[k], number)
                && (q[k].kind == EvCommitSuccess || q[k].kind == EvCommitUnsuccess)
  }

  /** Something is under way that will go on with this user's command: the master timer runs in the state
      it guards, its event is queued, or an event is queued whose handler serves this very user. */
  ghost predicate Served(m: M.Master, u: M.User) {
    && (u.state == UWaitingCommit ==>
          && !m.hung
          && (|| (m.timer && m.masterState == MPrecommitMulticasted)
              || Queued(m.queue, EvPrecommitAck) || Queued(m.queue, EvPrecommitErr)
              || (Queued(m.queue, EvMasterTimeout) && m.masterState == MPrecommitMulticasted)))
    && (u.state == UWaitingSave ==>
          && !m.hung
          && (|| (m.timer && m.masterState == MCommited)
              || CommitQueued(m.queue, u.msgNumber)
              || (Queued(m.queue, EvMasterTimeout) && m.masterState == MCommited)))
  }

  lemma QueueOneServes(m: M.Master, u: M.User)
    requires QueueOne(m) && !m.hung && u.state == UWaitingCommit
    ensures Served(m, u)
  {
    if |m.queue| == 2 {
      assert m.queue[1].kind == EvPrecommitAck;
    }
  }

  lemma QueueTwoServes(m: M.Master, timedOut: bool, u: M.User)
    requires QueueTwo(m, timedOut) && !m.hung && NumbersTwo(m.queue, u.msgNumber) && u.state == UWaitingSave
    ensures Served(m, u)
  {
    forall k | 0 <= k < |m.queue| && (m.queue[k].kind == EvCommitSuccess || m.queue[k].kind == EvCommitUnsuccess)
      ensures Concerns(m.queue[k], u.msgNumber)
    {
    }
    if |m.queue| == 2 {
      assert m.queue[1].kind == EvCommitSuccess || m.queue[1].kind == EvCommitUnsuccess;
    }
  }

  lemma InvServes(s: Cluster, stage: Stage, u: nat)
    requires Inv(s, stage) && u < |s.master.users|
    requires M.Waiting(s.master.users[u]) ==> !EndsInCR(s.master.users[u].msgNumber)
    ensures Served(s.master, s.master.users[u])
  {
    if M.Waiting(s.master.users[u]) {
      if stage.InPhaseOne? {
        QueueOneServes(s.master, s.master.users[u]);
      } else if stage.InPhaseTwo? {
        BackIff(M.CommandOf(s.master.users[u]));
        QueueTwoServes(s.master, PhaseTwoTimeout(s.master.started) in Past(s.trace), s.master.users[u]);
      }
    }
  }

  /** No stranded user: at every point of every run with one command in flight, whoever waits with a number
      that does not end in CR is served by the timer, by its event or by an event of that very number. */
  lemma NoStrandedUser(s: Cluster, steps: seq<Step>, u: nat)
    requires Shape(s) && Initial(s) && IsSerialRun(s, steps)
    requires IsRun(s, steps) && u < |Final(s, steps).master.users|
    requires !EndsInCR(Final(s, steps).master.users[u].msgNumber)
    ensures Served(Final(s, steps).master, Final(s, steps).master.users[u])
  {
    InitialInv(s);
    var stage := RunKeeps(s, InAborting, steps);
    InvServes(Final(s, steps), stage, u);
  }
}
