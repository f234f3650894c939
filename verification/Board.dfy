/**
 A server without peers, command by command: READ, WRITE and REPLACE over any run, with files that
 may fail to open and restarts that reload the counter, against what the history of commands says
 each number holds.
 */
module Board {
  import opened Wrappers
  import opened Text
  import opened Store
  import opened Records
  import opened Numbers

  datatype Op =
    | WriteOp(name: string, text: string, canOpen: bool)
    | ReplaceOp(number: string, name: string, text: string, canOpen: bool)
    | ReadOp(target: string)
    | RestartOp

  datatype State = State(file: string, counter: int)

  /** The line saved for a message: number/user/text. */
  function Body(number: string, name: string, text: string): string {
    number + "/" + name + "/" + text
  }

  function Step(b: State, op: Op): State {
    match op
    case WriteOp(name, text, canOpen) =>
      var n := Allocate(b.counter);
      State(SaveWrite(b.file, Body(PrintInt(n), name, text), canOpen).file, n)
    case ReplaceOp(number, name, text, canOpen) =>
      b.(file := SaveReplace(b.file, Body(number, name, text), canOpen).file)
    case ReadOp(_) => b
    case RestartOp => b.(counter := Loaded(0, b.file))
  }

  function Run(ops: seq<Op>): State {
    if ops == [] then State("", 0) else Step(Run(ops[..|ops| - 1]), ops[|ops| - 1])
  }

  // ---------- what the history says ----------

  function Front(ops: seq<Op>): seq<Op>
    requires ops != []
  {
    ops[..|ops| - 1]
  }

  function Last(ops: seq<Op>): Op
    requires ops != []
  {
    ops[|ops| - 1]
  }

  /** The numbers under which a WRITE was stored, in order. */
  function Stored(ops: seq<Op>): seq<nat> {
    if ops == [] then []
    else if Last(ops).WriteOp? && Last(ops).canOpen then Stored(Front(ops)) + [Count(ops)]
    else Stored(Front(ops))
  }

  /** The last number handed out, whether or not it was stored; a restart falls back to the last
      stored one. */
  function Count(ops: seq<Op>): nat {
    if ops == [] then 0
    else if Last(ops).WriteOp? then Count(Front(ops)) + 1
    else if Last(ops).RestartOp? then LastStored(Front(ops))
    else Count(Front(ops))
  }

  function LastStored(ops: seq<Op>): nat {
    if ops == [] then 0
    else if Last(ops).WriteOp? && Last(ops).canOpen then Count(Front(ops)) + 1
    else LastStored(Front(ops))
  }

  /** The message the latest WRITE or REPLACE stored under a number. */
  function Latest(ops: seq<Op>, number: string): Option<string> {
    if ops == [] then None
    else
      var before := Latest(Front(ops), number);
      match Last(ops)
      case WriteOp(name, text, canOpen) =>
        if canOpen && number == PrintNat(Count(ops)) then Some(Body(number, name, text)) else before
      case ReplaceOp(target, name, text, canOpen) =>
        if canOpen && target == number && before.Some? then Some(Body(number, name, text)) else before
      case _ => before
  }

  /** The length of the line a number was given by its WRITE. */
  function Width(ops: seq<Op>, number: string): nat {
    if ops == [] then 0
    else
      match Last(ops)
      case WriteOp(name, text, canOpen) =>
        if canOpen && number == PrintNat(Count(ops)) then |Body(number, name, text)| else Width(Front(ops), number)
      case _ => Width(Front(ops), number)
  }

  /** Commands of a single line each, replacements no longer than the line they replace, and fewer
      messages than the counter can number. */
  ghost predicate Orderly(ops: seq<Op>) {
    ops == [] ||
    (&& Orderly(Front(ops))
     && match Last(ops)
        case WriteOp(name, text, _) => SingleLine(name) && SingleLine(text) && Count(Front(ops)) + 1 < INT_MAX
        case ReplaceOp(number, name, text, _) =>
          && SingleLine(number) && SingleLine(name) && SingleLine(text) && '/' !in number
          && (Latest(Front(ops), number).Some? ==> |Body(number, name, text)| <= Width(Front(ops), number))
        case _ => true)
  }

  // ---------- the run keeps what the history says ----------

  /** Line j shows what the history holds for the j-th stored number, followed by spaces only. */
  ghost predicate Shows(ops: seq<Op>, n: nat, line: string) {
    var number := PrintNat(n);
    && Latest(ops, number).Some?
    && |line| == Width(ops, number)
    && |Latest(ops, number).value| <= |line|
    && line == Padded(Latest(ops, number).value, line)
  }

  ghost predicate Increasing(s: seq<nat>) {
    forall i, j :: 0 <= i < j < |s| ==> s[i] < s[j]
  }

  ghost predicate Keeps(ops: seq<Op>, b: State) {
    var ls, stored := Lines(b.file, 0), Stored(ops);
    && Terminated(b.file)
    && b.counter == Count(ops)
    && |ls| == |stored|
    && (forall j :: 0 <= j < |ls| ==> Shows(ops, stored[j], ls[j]))
  }

  /** Stored numbers only grow, whatever writes fail and however often the server restarts. */
  lemma {:induction false} StoredIncreasing(ops: seq<Op>)
    ensures Increasing(Stored(ops)) && LastStored(ops) <= Count(ops)
    ensures forall j :: 0 <= j < |Stored(ops)| ==> 0 < Stored(ops)[j] <= LastStored(ops)
    ensures Stored(ops) != [] ==> LastStored(ops) == Stored(ops)[|Stored(ops)| - 1]
    ensures Stored(ops) == [] ==> LastStored(ops) == 0
  {
    if ops != [] {
      StoredIncreasing(Front(ops));
    }
  }

  lemma BodyNumber(number: string, name: string, text: string)
    requires '/' !in number
    ensures NumberOf(Body(number, name, text)) == number && HasSlash(Body(number, name, text))
  {
    assert Body(number, name, text) == number + "/" + (name + "/" + text);
    NumberOfPrefix(number, name + "/" + text);
  }

  lemma BodySingleLine(number: string, name: string, text: string)
    requires SingleLine(number) && SingleLine(name) && SingleLine(text)
    ensures SingleLine(Body(number, name, text))
  {
  }

  /** What the history holds for a number is a message that starts with it. */
  lemma {:induction false} LatestNumber(ops: seq<Op>, number: string)
    requires Orderly(ops) && Latest(ops, number).Some?
    ensures HasSlash(Latest(ops, number).value) && NumberOf(Latest(ops, number).value) == number
  {
    var op := Last(ops);
    if Latest(ops, number) == Latest(Front(ops), number) {
      LatestNumber(Front(ops), number);
    } else {
      if op.WriteOp? {
        PrintNatHasNo(Count(ops), '/');
      }
      BodyNumber(number, op.name, op.text);
    }
  }

  /** Only stored numbers hold anything. */
  lemma {:induction false} KnownIsStored(ops: seq<Op>, number: string) returns (j: nat)
    requires Latest(ops, number).Some?
    ensures j < |Stored(ops)| && number == PrintNat(Stored(ops)[j])
  {
    var op := Last(ops);
    if op.WriteOp? && op.canOpen && number == PrintNat(Count(ops)) {
      j := |Stored(ops)| - 1;
    } else {
      j := KnownIsStored(Front(ops), number);
    }
  }

  lemma ShowsNumber(ops: seq<Op>, n: nat, line: string)
    requires Orderly(ops) && Shows(ops, n, line)
    ensures HasSlash(line) && NumberOf(line) == PrintNat(n)
  {
    LatestNumber(ops, PrintNat(n));
    PaddedNumber(Latest(ops, PrintNat(n)).value, line);
  }

  /** A padded message keeps the number in front of its slash. */
  lemma PaddedNumber(msg: string, line: string)
    requires HasSlash(msg)
    ensures HasSlash(Padded(msg, line)) && NumberOf(Padded(msg, line)) == NumberOf(msg)
  {
    var p := Padded(msg, line);
    var k := Find(msg, '/', 0);
    FindFirst(msg, '/', 0);
    FindIs(p, '/', 0, k);
    assert p[..k] == msg[..k];
  }

  lemma {:induction false} RunKeeps(ops: seq<Op>)
    requires Orderly(ops)
    ensures Keeps(ops, Run(ops))
  {
    if ops == [] {
    } else {
      RunKeeps(Front(ops));
      var b := Run(Front(ops));
      match Last(ops) {
        case WriteOp(name, text, canOpen) =>
          if canOpen {
            WriteKeeps(ops, b);
          } else {
            UnchangedKeeps(ops, b, Step(b, Last(ops)));
          }
        case ReplaceOp(number, name, text, canOpen) =>
          if canOpen {
            ReplaceKeeps(ops, b);
          } else {
            UnchangedKeeps(ops, b, Step(b, Last(ops)));
          }
        case ReadOp(_) =>
          UnchangedKeeps(ops, b, b);
        case RestartOp =>
          RestartRecovers(Front(ops), b);
          UnchangedKeeps(ops, b, Step(b, Last(ops)));
      }
    }
  }

  /** A command that stores nothing leaves every number with what it had. */
  lemma UnchangedKeeps(ops: seq<Op>, b: State, b': State)
    requires ops != [] && Keeps(Front(ops), b)
    requires !(Last(ops).WriteOp? && Last(ops).canOpen) && !(Last(ops).ReplaceOp? && Last(ops).canOpen)
    requires b'.file == b.file && b'.counter == Count(ops)
    ensures Keeps(ops, b')
  {
  }

  /** A number that was stored before the WRITE still shows what it showed. */
  lemma WriteKeepsOld(ops: seq<Op>, n: nat, line: string)
    requires ops != [] && Last(ops).WriteOp? && Shows(Front(ops), n, line) && n != Count(ops)
    ensures Shows(ops, n, line)
  {
  }

  lemma WriteShowsNew(ops: seq<Op>)
    requires ops != [] && Last(ops).WriteOp? && Last(ops).canOpen
    ensures var msg := Body(PrintNat(Count(ops)), Last(ops).name, Last(ops).text);
            Shows(ops, Count(ops), msg)
  {
  }

  lemma WriteAddsLine(ops: seq<Op>, b: State, msg: string)
    requires ops != [] && Orderly(ops) && Keeps(Front(ops), b)
    requires Last(ops).WriteOp? && Last(ops).canOpen
    requires msg == Body(PrintNat(Count(ops)), Last(ops).name, Last(ops).text)
    ensures var b' := Step(b, Last(ops));
            && Lines(b'.file, 0) == Lines(b.file, 0) + [msg] && Terminated(b'.file) && b'.counter == Count(ops)
  {
    var op, n := Last(ops), Count(ops);
    PrintNatHasNo(n, '\n');
    BodySingleLine(PrintNat(n), op.name, op.text);
    AppendAddsLine(b.file, 0, msg);
    assert Step(b, op).file == Appended(b.file, msg);
  }

  lemma WriteKeeps(ops: seq<Op>, b: State)
    requires ops != [] && Orderly(ops) && Keeps(Front(ops), b)
    requires Last(ops).WriteOp? && Last(ops).canOpen
    ensures Keeps(ops, Step(b, Last(ops)))
  {
    var op, before := Last(ops), Front(ops);
    var msg := Body(PrintNat(Count(ops)), op.name, op.text);
    var ls, stored := Lines(Step(b, op).file, 0), Stored(ops);
    StoredIncreasing(before);
    WriteAddsLine(ops, b, msg);
    WriteShowsNew(ops);
    forall j | 0 <= j < |ls| ensures Shows(ops, stored[j], ls[j]) {
      if j < |ls| - 1 {
        assert Shows(before, Stored(before)[j], Lines(b.file, 0)[j]);
        WriteKeepsOld(ops, stored[j], ls[j]);
      }
    }
  }

  lemma IndexOfStored(ops: seq<Op>, b: State, j: nat)
    requires Orderly(ops) && Keeps(ops, b) && j < |Lines(b.file, 0)|
    ensures IndexOf(Lines(b.file, 0), PrintNat(Stored(ops)[j])) == j
  {
    var ls, stored := Lines(b.file, 0), Stored(ops);
    var k := IndexOf(ls, PrintNat(stored[j]));
    StoredIncreasing(ops);
    ShowsNumber(ops, stored[j], ls[j]);
    ShowsNumber(ops, stored[k], ls[k]);
  }

  lemma ReplaceKeeps(ops: seq<Op>, b: State)
    requires ops != [] && Orderly(ops) && Keeps(Front(ops), b)
    requires Last(ops).ReplaceOp? && Last(ops).canOpen
    ensures Keeps(ops, Step(b, Last(ops)))
  {
    var op, before := Last(ops), Front(ops);
    var msg := Body(op.number, op.name, op.text);
    var ls, stored := Lines(b.file, 0), Stored(before);
    BodyNumber(op.number, op.name, op.text);
    BodySingleLine(op.number, op.name, op.text);
    ReplaceRefinesIffFits(b.file, msg);
    var k := IndexOf(ls, op.number);
    if k == |ls| {
      if Latest(before, op.number).Some? {
        var j := KnownIsStored(before, op.number);
        IndexOfStored(before, b, j);
        assert false;
      }
      forall number
        ensures Latest(ops, number) == Latest(before, number) && Width(ops, number) == Width(before, number)
      {
      }
      forall j | 0 <= j < |ls| ensures Shows(ops, stored[j], ls[j]) {
        assert Shows(before, stored[j], ls[j]);
      }
    } else {
      ReplaceFoundKeeps(ops, b, k);
    }
  }

  lemma ReplaceKeepsOther(ops: seq<Op>, n: nat, line: string)
    requires ops != [] && Last(ops).ReplaceOp? && Shows(Front(ops), n, line) && PrintNat(n) != Last(ops).number
    ensures Shows(ops, n, line)
  {
  }

  lemma ReplaceShowsTarget(ops: seq<Op>, n: nat, line: string)
    requires ops != [] && Orderly(ops) && Last(ops).ReplaceOp? && Last(ops).canOpen
    requires Shows(Front(ops), n, line) && PrintNat(n) == Last(ops).number
    ensures Shows(ops, n, Padded(Body(PrintNat(n), Last(ops).name, Last(ops).text), line))
  {
  }

  lemma ReplaceFoundKeeps(ops: seq<Op>, b: State, k: nat)
    requires ops != [] && Orderly(ops) && Keeps(Front(ops), b)
    requires Last(ops).ReplaceOp? && Last(ops).canOpen
    requires k < |Lines(b.file, 0)| && k == IndexOf(Lines(b.file, 0), Last(ops).number)
    ensures Keeps(ops, Step(b, Last(ops)))
  {
    var op, before := Last(ops), Front(ops);
    var msg := Body(op.number, op.name, op.text);
    var ls, stored := Lines(b.file, 0), Stored(before);
    BodyNumber(op.number, op.name, op.text);
    BodySingleLine(op.number, op.name, op.text);
    ShowsNumber(before, stored[k], ls[k]);
    ReplaceRefinesIffFits(b.file, msg);
    LineStarts(b.file, 0, k);
    LastLineEnds(b.file, LineStart(b.file, 0, k));
    var b' := Step(b, op);
    assert UpdatesOneRecord(b.file, b'.file, k, msg);
    var ls' := Lines(b'.file, 0);
    assert ls' == ls[k := Padded(msg, ls[k])];
    StoredIncreasing(before);
    forall j | 0 <= j < |ls'| ensures Shows(ops, stored[j], ls'[j]) {
      assert Shows(before, stored[j], ls[j]);
      if j == k {
        ReplaceShowsTarget(ops, stored[k], ls[k]);
      } else {
        ShowsNumber(before, stored[j], ls[j]);
        assert NatOf(PrintNat(stored[j])) != NatOf(PrintNat(stored[k]));
        ReplaceKeepsOther(ops, stored[j], ls[j]);
      }
    }
  }

  lemma LastLineNumber(ops: seq<Op>, b: State)
    requires Keeps(ops, b) && Orderly(ops)
    ensures NumberOf(LastLineScan(b.file)) == if Stored(ops) == [] then "" else PrintNat(LastStored(ops))
  {
    var ls, stored := Lines(b.file, 0), Stored(ops);
    forall j | 0 <= j < |ls| ensures ls[j] != "" {
      ShowsNumber(ops, stored[j], ls[j]);
    }
    ScanFindsLastRecord(b.file);
    StoredIncreasing(ops);
    if ls != [] {
      ShowsNumber(ops, stored[|ls| - 1], ls[|ls| - 1]);
    }
  }

  /** After any run a restart finds the last stored number again, so the next number handed out is
      greater than every stored one. */
  lemma RestartRecovers(ops: seq<Op>, b: State)
    requires Keeps(ops, b) && Orderly(ops)
    ensures Loaded(0, b.file) == LastStored(ops)
    ensures forall j :: 0 <= j < |Stored(ops)| ==> Stored(ops)[j] < Loaded(0, b.file) + 1
  {
    StoredIncreasing(ops);
    CountBounded(ops);
    LastLineNumber(ops, b);
    if Stored(ops) != [] {
      StoiPrintNat(LastStored(ops));
    }
  }

  lemma {:induction false} CountBounded(ops: seq<Op>)
    requires Orderly(ops)
    ensures LastStored(ops) <= Count(ops) < INT_MAX
  {
    StoredIncreasing(ops);
    if ops != [] {
      CountBounded(Front(ops));
    }
  }

  /** A number nothing was stored under has no line. */
  lemma ReadUnknown(ops: seq<Op>, b: State, number: string)
    requires Orderly(ops) && Keeps(ops, b) && Latest(ops, number).None?
    ensures Read(b.file, number) == UnknownNumber(number)
  {
    var k := ReadFindsFirst(b.file, 0, number);
    if Read(b.file, number).Message? {
      ShowsNumber(ops, Stored(ops)[k], Lines(b.file, 0)[k]);
    }
  }

  lemma ReadKnown(ops: seq<Op>, b: State, number: string) returns (k: nat)
    requires Orderly(ops) && Keeps(ops, b) && Latest(ops, number).Some?
    ensures k < |Lines(b.file, 0)| == |Stored(ops)| && number == PrintNat(Stored(ops)[k])
    ensures Read(b.file, number) == Message(Lines(b.file, 0)[k])
  {
    var j := KnownIsStored(ops, number);
    ShowsNumber(ops, Stored(ops)[j], Lines(b.file, 0)[j]);
    assert Answers(Lines(b.file, 0)[j], number);
    k := ReadFindsFirst(b.file, 0, number);
    ShowsNumber(ops, Stored(ops)[k], Lines(b.file, 0)[k]);
  }

  /** READ after any orderly run answers what the latest WRITE or REPLACE of that number stored,
      followed by spaces up to the width of its line, and UNKNOWN exactly when none did. */
  lemma ReadAnswersLatest(ops: seq<Op>, number: string)
    requires Orderly(ops)
    ensures var reply := Read(Run(ops).file, number);
            match Latest(ops, number)
            case None => reply == UnknownNumber(number)
            case Some(msg) =>
              && |msg| <= Width(ops, number)
              && reply == Message(msg + Spaces(Width(ops, number) - |msg|))
  {
    var b := Run(ops);
    RunKeeps(ops);
    if Latest(ops, number).None? {
      ReadUnknown(ops, b, number);
    } else {
      var k := ReadKnown(ops, b, number);
      assert Shows(ops, Stored(ops)[k], Lines(b.file, 0)[k]);
      ShownLine(Latest(ops, number).value, Lines(b.file, 0)[k]);
    }
  }

  lemma ShownLine(msg: string, line: string)
    requires |msg| <= |line| && line == Padded(msg, line)
    ensures line == msg + Spaces(|line| - |msg|)
  {
    assert msg + Spaces(0) == msg;
  }

  /** After any orderly run the next number handed out, with or without a restart in between, is
      greater than the number of every line in the file. */
  lemma NextNumberIsFresh(ops: seq<Op>, j: nat)
    requires Orderly(ops) && Count(ops) + 1 < INT_MAX
    requires j < |Lines(Run(ops).file, 0)| == |Stored(ops)|
    ensures var b, n := Run(ops), Stored(ops)[j];
            && NumberOf(Lines(b.file, 0)[j]) == PrintNat(n)
            && n < Allocate(b.counter) && n < Allocate(Loaded(0, b.file))
  {
    var b := Run(ops);
    RunKeeps(ops);
    StoredIncreasing(ops);
    RestartRecovers(ops, b);
    ShowsNumber(ops, Stored(ops)[j], Lines(b.file, 0)[j]);
  }
}
