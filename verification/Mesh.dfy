/**
 A full mesh: any node may become the master of the next round, with all other nodes as its slaves.
 Rounds follow each other; each is a run with one command in flight that ends when nothing is under
 way. What is left on the connections between rounds, peer states, slave states and slave timers, may
 be anything.
 */
module Mesh {
  import opened Text
  import opened Protocol
  import opened History
  import opened Cluster
  import opened Agreement
  import opened Counters
  import opened OneCopy

  /** What a node carries from round to round. */
  datatype Node = Node(file: string, counter: int)

  datatype Round = Round(master: nat, start: Cluster, steps: seq<Step>)

  /** The node behind slave i of a round led by node m. */
  function PeerOf(m: nat, i: nat): nat {
    if i < m then i else i + 1
  }

  function SlaveOf(m: nat, k: nat): nat
    requires k != m
  {
    if k < m then k else k - 1
  }

  /** The round starts from what the nodes hold. */
  ghost predicate StartsFrom(nodes: seq<Node>, r: Round) {
    && Shape(r.start) && Initial(r.start)
    && r.master < |nodes| == |r.start.slaves| + 1
    && nodes[r.master] == Node(r.start.master.file, r.start.master.counter)
    && forall i :: 0 <= i < |r.start.slaves| ==>
         nodes[PeerOf(r.master, i)] == Node(r.start.slaves[i].file, r.start.slaves[i].counter)
  }

  ghost predicate IsRound(nodes: seq<Node>, r: Round) {
    && StartsFrom(nodes, r) && IsSerialRun(r.start, r.steps) && IsRun(r.start, r.steps)
    && Quiet(Final(r.start, r.steps))
  }

  ghost function EndOf(nodes: seq<Node>, r: Round): (e: Cluster)
    requires IsRound(nodes, r)
    ensures Shape(e)
  {
    Final(r.start, r.steps)
  }

  lemma {:induction false} RunKeepsSize(s: Cluster, steps: seq<Step>)
    requires Shape(s) && IsRun(s, steps)
    ensures |Final(s, steps).slaves| == |s.slaves|
    decreases |steps|
  {
    if steps != [] {
      DoKeepsShape(s, steps[0]);
      RunKeepsSize(Do(s, steps[0]), steps[1..]);
    }
  }

  /** What the nodes hold after the round. */
  ghost function AfterRound(nodes: seq<Node>, r: Round): (nodes': seq<Node>)
    requires IsRound(nodes, r)
    ensures |nodes'| == |nodes|
  {
    var e := EndOf(nodes, r);
    RunKeepsSize(r.start, r.steps);
    seq(|nodes|, k requires 0 <= k < |nodes| =>
      if k == r.master then Node(e.master.file, e.master.counter)
      else Node(e.slaves[SlaveOf(r.master, k)].file, e.slaves[SlaveOf(r.master, k)].counter))
  }

  ghost predicate IsMeshRun(nodes: seq<Node>, rounds: seq<Round>)
    decreases |rounds|
  {
    rounds == [] || (IsRound(nodes, rounds[0]) && IsMeshRun(AfterRound(nodes, rounds[0]), rounds[1..]))
  }

  ghost function AfterRounds(nodes: seq<Node>, rounds: seq<Round>): (nodes': seq<Node>)
    requires IsMeshRun(nodes, rounds)
    ensures |nodes'| == |nodes|
    decreases |rounds|
  {
    if rounds == [] then nodes else AfterRounds(AfterRound(nodes, rounds[0]), rounds[1..])
  }

  /** The numbers of all WRITE commands committed in the mesh, in the order of their COMMITs. */
  ghost function CommittedNumbers(nodes: seq<Node>, rounds: seq<Round>): seq<int>
    requires IsMeshRun(nodes, rounds)
    decreases |rounds|
  {
    if rounds == [] then []
    else Nums(EndOf(nodes, rounds[0]).trace) + CommittedNumbers(AfterRound(nodes, rounds[0]), rounds[1..])
  }

  // ---------- numbers ----------

  /** In each round the last COMMIT WRITE reached every slave, and the WRITE commands did not make the counter wrap. */
  ghost predicate Numbered(nodes: seq<Node>, r: Round)
    requires IsRound(nodes, r)
  {
    LastDelivered(EndOf(nodes, r)) && r.start.master.counter + Writes(r.steps) < INT_MAX
  }

  ghost predicate AllNumbered(nodes: seq<Node>, rounds: seq<Round>)
    requires IsMeshRun(nodes, rounds)
    decreases |rounds|
  {
    rounds == [] || (Numbered(nodes, rounds[0]) && AllNumbered(AfterRound(nodes, rounds[0]), rounds[1..]))
  }

  ghost predicate CountFrom(nodes: seq<Node>, low: int) {
    forall k :: 0 <= k < |nodes| ==> nodes[k].counter >= low
  }

  /** Counters of the round that has ended, seen from its nodes. */
  lemma EndCounts(nodes: seq<Node>, r: Round, low: nat)
    requires IsRound(nodes, r) && Numbered(nodes, r) && CountFrom(nodes, low)
    ensures var e := EndOf(nodes, r);
            && |e.slaves| + 1 == |nodes| && IncreasingFrom(low, Nums(e.trace))
            && low <= Top(e.trace, low) <= e.master.counter
            && SlavesCountFrom(e, low)
            && (Nums(e.trace) != [] && LastTicket(e.trace) == e.master.started ==>
                  e.master.counter == Top(e.trace, low))
  {
    forall i | 0 <= i < |r.start.slaves| ensures r.start.slaves[i].counter >= low {
      assert nodes[PeerOf(r.master, i)].counter >= low;
    }
    CommittedNumbersIncrease(r.start, low, r.steps);
  }

  lemma RoundCounts(nodes: seq<Node>, r: Round, low: nat) returns (top: nat)
    requires IsRound(nodes, r) && Numbered(nodes, r) && CountFrom(nodes, low)
    ensures var ns := Nums(EndOf(nodes, r).trace);
            IncreasingFrom(low, ns) && low <= top && top == if ns == [] then low else ns[|ns| - 1]
    ensures CountFrom(AfterRound(nodes, r), top)
  {
    EndCounts(nodes, r, low);
    top := Top(EndOf(nodes, r).trace, low);
  }

  lemma IncreasingAppend(low: int, ms: seq<int>, top: int, ns: seq<int>)
    requires IncreasingFrom(low, ms) && IncreasingFrom(top, ns)
    requires top == if ms == [] then low else ms[|ms| - 1]
    ensures IncreasingFrom(low, ms + ns)
  {
  }

  /** Committed numbers strictly increase over the whole run, whichever nodes lead the rounds, so no two
      committed messages share a number. */
  lemma {:induction false} NumbersIncreaseAcrossNodes(nodes: seq<Node>, rounds: seq<Round>, low: nat)
    requires IsMeshRun(nodes, rounds) && AllNumbered(nodes, rounds) && CountFrom(nodes, low)
    ensures IncreasingFrom(low, CommittedNumbers(nodes, rounds))
    decreases |rounds|
  {
    if rounds != [] {
      var top := RoundCounts(nodes, rounds[0], low);
      var after := AfterRound(nodes, rounds[0]);
      NumbersIncreaseAcrossNodes(after, rounds[1..], top);
      IncreasingAppend(low, Nums(EndOf(nodes, rounds[0]).trace), top, CommittedNumbers(after, rounds[1..]));
    }
  }

  /** After a round whose last command was a WRITE that every slave applied, every node of the mesh
      counts from its number, whatever it counted before. */
  lemma CountersMeet(nodes: seq<Node>, r: Round, low: nat, k: nat)
    requires IsRound(nodes, r) && Numbered(nodes, r) && CountFrom(nodes, low) && k < |nodes|
    requires var e := EndOf(nodes, r); Nums(e.trace) != [] && LastTicket(e.trace) == e.master.started
    ensures var ns := Nums(EndOf(nodes, r).trace);
            AfterRound(nodes, r)[k].counter == ns[|ns| - 1]
  {
    EndCounts(nodes, r, low);
  }

  // ---------- one board ----------

  /** No save failed to open its file, no timeout was handled in phase two, and no text ends in CR. */
  ghost predicate CleanRound(nodes: seq<Node>, r: Round)
    requires IsRound(nodes, r)
  {
    Clean(Past(EndOf(nodes, r).trace)) && forall step :: step in r.steps ==> PlainText(step)
  }

  ghost predicate AllClean(nodes: seq<Node>, rounds: seq<Round>)
    requires IsMeshRun(nodes, rounds)
    decreases |rounds|
  {
    rounds == [] || (CleanRound(nodes, rounds[0]) && AllClean(AfterRound(nodes, rounds[0]), rounds[1..]))
  }

  /** The history of all rounds, one after the other. */
  ghost function WholeHistory(nodes: seq<Node>, rounds: seq<Round>): seq<Act>
    requires IsMeshRun(nodes, rounds)
    decreases |rounds|
  {
    if rounds == [] then []
    else EndOf(nodes, rounds[0]).trace + WholeHistory(AfterRound(nodes, rounds[0]), rounds[1..])
  }

  lemma {:induction false} SingleConcat(f: string, a: seq<Command>, b: seq<Command>)
    ensures Single(f, a + b) == Single(Single(f, a), b)
  {
    if b == [] {
      assert a + b == a;
    } else {
      assert (a + b)[..|a + b| - 1] == a + b[..|b| - 1];
      SingleConcat(f, a, b[..|b| - 1]);
    }
  }

  lemma {:induction false} DoneConcat(a: seq<Act>, b: seq<Act>)
    ensures Done(a + b) == Done(a) + Done(b)
  {
    if b == [] {
      assert a + b == a;
    } else {
      assert (a + b)[..|a + b| - 1] == a + b[..|b| - 1];
      DoneConcat(a, b[..|b| - 1]);
    }
  }

  lemma AsOneConcat(f: string, a: seq<Act>, b: seq<Act>)
    requires AnswersAsOne(f, a) && AnswersAsOne(Single(f, Done(a)), b)
    ensures AnswersAsOne(f, a + b)
  {
    forall k | 0 <= k < |a + b| && (a + b)[k].Answered?
      ensures (a + b)[k].answer == AnswerOn(Single(f, Done((a + b)[..k])), (a + b)[k].command)
    {
      BoardBefore(f, a, b, k);
    }
  }

  /** The single file in front of act k of two histories, one after the other. */
  lemma BoardBefore(f: string, a: seq<Act>, b: seq<Act>, k: nat)
    requires k < |a + b|
    ensures Single(f, Done((a + b)[..k])) ==
            if k < |a| then Single(f, Done(a[..k])) else Single(Single(f, Done(a)), Done(b[..k - |a|]))
  {
    if k < |a| {
      assert (a + b)[..k] == a[..k];
    } else {
      assert (a + b)[..k] == a + b[..k - |a|];
      DoneConcat(a, b[..k - |a|]);
      SingleConcat(f, Done(a), Done(b[..k - |a|]));
    }
  }

  ghost predicate AllHold(nodes: seq<Node>, f: string) {
    forall k :: 0 <= k < |nodes| ==> nodes[k].file == f
  }

  lemma RoundIsOneCopy(nodes: seq<Node>, r: Round, f: string)
    requires IsRound(nodes, r) && AllHold(nodes, f) && CleanRound(nodes, r)
    ensures AnswersAsOne(f, EndOf(nodes, r).trace)
    ensures AllHold(AfterRound(nodes, r), Single(f, Done(EndOf(nodes, r).trace)))
  {
    forall i | 0 <= i < |r.start.slaves| ensures r.start.slaves[i].file == r.start.master.file {
      assert nodes[PeerOf(r.master, i)].file == nodes[r.master].file;
    }
    OneCopyBoard(r.start, r.steps);
    RunKeepsSize(r.start, r.steps);
  }

  /** The whole mesh behaves as one board: whichever nodes lead the rounds, every answer is the one a
      single file gives on which all answered commands of all rounds are applied in order, and after the
      rounds every node holds that file. */
  lemma {:induction false} MeshIsOneBoard(nodes: seq<Node>, rounds: seq<Round>, f: string)
    requires IsMeshRun(nodes, rounds) && AllClean(nodes, rounds) && AllHold(nodes, f)
    ensures AnswersAsOne(f, WholeHistory(nodes, rounds))
    ensures AllHold(AfterRounds(nodes, rounds), Single(f, Done(WholeHistory(nodes, rounds))))
    decreases |rounds|
  {
    if rounds != [] {
      var first, after := EndOf(nodes, rounds[0]).trace, AfterRound(nodes, rounds[0]);
      RoundIsOneCopy(nodes, rounds[0], f);
      MeshIsOneBoard(after, rounds[1..], Single(f, Done(first)));
      var rest := WholeHistory(after, rounds[1..]);
      DoneConcat(first, rest);
      SingleConcat(f, Done(first), Done(rest));
      AsOneConcat(f, first, rest);
    }
  }
}
