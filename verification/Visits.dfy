/**
 A server without peers as its users see it: lines come in from any number of users, and what each of them
 hears is told by the history of lines alone, without the server's file, counter or name table.
 */
module Visits {
  import opened Wrappers
  import opened Text
  import opened Store
  import opened Records
  import opened Client
  import B = Board

  /** A line has at least two bytes. */
  type Line = s: string | |s| >= 2 witness "\r\n"

  /** A line of one user, and whether the file opens while it is handled. */
  datatype Call = Call(user: nat, line: Line, canOpen: bool)

  // ---------- the server ----------

  datatype Server = Server(board: B.State, names: map<nat, string>, response: string)

  function NameIn(names: map<nat, string>, user: nat): string {
    if user in names then names[user] else ""
  }

  function Serve(calls: seq<Call>): Server {
    if calls == [] then Server(B.State("", 0), map[], "")
    else
      var before, call := Serve(calls[..|calls| - 1]), calls[|calls| - 1];
      var a := Respond(before.board, NameIn(before.names, call.user), ParseRequest(call.line), call.canOpen);
      Server(a.board, before.names[call.user := a.name], a.response)
  }

  // ---------- what the lines say ----------

  /** The name of the user's last accepted USER line. */
  function NameOf(calls: seq<Call>, user: nat): string {
    if calls == [] then ""
    else
      var call := calls[|calls| - 1];
      match ParseRequest(call.line)
      case SetUser(name) => if call.user == user then name else NameOf(calls[..|calls| - 1], user)
      case _ => NameOf(calls[..|calls| - 1], user)
  }

  function PosterOf(calls: seq<Call>, user: nat): string {
    if NameOf(calls, user) == "" then "nobody" else NameOf(calls, user)
  }

  /** The command a line stands for, if it is one that goes to the file. */
  function OpOf(calls: seq<Call>, call: Call): seq<B.Op> {
    match ParseRequest(call.line)
    case ReadRequest(number) => [B.ReadOp(number)]
    case WriteRequest(text) => [B.WriteOp(PosterOf(calls, call.user), text, call.canOpen)]
    case ReplaceRequest(number, text) => [B.ReplaceOp(number, PosterOf(calls, call.user), text, call.canOpen)]
    case _ => []
  }

  function OpsOf(calls: seq<Call>): seq<B.Op> {
    if calls == [] then [] else OpsOf(calls[..|calls| - 1]) + OpOf(calls[..|calls| - 1], calls[|calls| - 1])
  }

  // ---------- the server does what the lines say ----------

  lemma RunAppend(ops: seq<B.Op>, op: B.Op)
    ensures B.Run(ops + [op]) == B.Step(B.Run(ops), op)
  {
    assert (ops + [op])[..|ops|] == ops;
  }

  lemma OpsAppend(calls: seq<Call>, call: Call)
    ensures (calls + [call])[..|calls|] == calls
    ensures OpsOf(calls + [call]) == OpsOf(calls) + OpOf(calls, call)
  {
    assert (calls + [call])[..|calls|] == calls;
  }

  lemma ServeOne(calls: seq<Call>, call: Call)
    ensures var before, e := Serve(calls), Serve(calls + [call]);
            var a := Respond(before.board, NameIn(before.names, call.user), ParseRequest(call.line), call.canOpen);
            e == Server(a.board, before.names[call.user := a.name], a.response)
  {
    assert (calls + [call])[..|calls|] == calls;
  }

  /** What a line does to the board is what its command does. */
  lemma BoardAfter(ops: seq<B.Op>, calls: seq<Call>, call: Call)
    ensures Respond(B.Run(ops), NameOf(calls, call.user), ParseRequest(call.line), call.canOpen).board
            == B.Run(ops + OpOf(calls, call))
  {
    match ParseRequest(call.line) {
      case ReadRequest(number) => RunAppend(ops, B.ReadOp(number));
      case WriteRequest(text) => RunAppend(ops, B.WriteOp(PosterOf(calls, call.user), text, call.canOpen));
      case ReplaceRequest(number, text) =>
        RunAppend(ops, B.ReplaceOp(number, PosterOf(calls, call.user), text, call.canOpen));
      case _ => assert ops + [] == ops;
    }
  }

  lemma NameAfter(b: B.State, calls: seq<Call>, call: Call, user: nat)
    ensures NameOf(calls + [call], user) ==
            if call.user == user then Respond(b, NameOf(calls, user), ParseRequest(call.line), call.canOpen).name
            else NameOf(calls, user)
  {
    assert (calls + [call])[..|calls|] == calls;
  }

  ghost predicate NamesAgree(names: map<nat, string>, calls: seq<Call>) {
    forall user :: NameIn(names, user) == NameOf(calls, user)
  }

  /** Whatever lines come, from whatever users, the board is the run of their commands, posted under each
      user's last accepted name. */
  lemma {:induction false} LinesAreRun(calls: seq<Call>)
    ensures Serve(calls).board == B.Run(OpsOf(calls)) && NamesAgree(Serve(calls).names, calls)
  {
    if calls != [] {
      var front, call := calls[..|calls| - 1], calls[|calls| - 1];
      assert calls == front + [call];
      LinesAreRun(front);
      ServeOne(front, call);
      BoardAfter(OpsOf(front), front, call);
      OpsAppend(front, call);
      forall user ensures NameIn(Serve(calls).names, user) == NameOf(calls, user) {
        NameAfter(Serve(front).board, front, call, user);
      }
    }
  }

  // ---------- what a user hears ----------

  lemma LastAnswer(calls: seq<Call>, call: Call)
    ensures Serve(calls + [call]).response ==
            Respond(B.Run(OpsOf(calls)), NameOf(calls, call.user), ParseRequest(call.line), call.canOpen).response
  {
    LinesAreRun(calls);
    ServeOne(calls, call);
  }

  /** WRITE answers the number under which the text can be read from then on: a number nothing was stored
      under before, with the poster's name and the text behind it. When the file does not open the answer
      is an error and the board's lines stay. */
  lemma WriteIsReadBack(calls: seq<Call>, call: Call, text: string) returns (number: string)
    requires ParseRequest(call.line) == WriteRequest(text) && B.Orderly(OpsOf(calls + [call]))
    ensures var e := Serve(calls + [call]);
            if call.canOpen then
              && e.response == "3.0 WROTE " + number && B.Latest(OpsOf(calls), number).None?
              && Read(e.board.file, number) == Message(number + "/" + PosterOf(calls, call.user) + "/" + text)
            else
              e.response == "3.2 ERROR WRITE" && e.board.file == Serve(calls).board.file
  {
    var ops, op := OpsOf(calls), B.WriteOp(PosterOf(calls, call.user), text, call.canOpen);
    LinesAreRun(calls);
    LinesAreRun(calls + [call]);
    OpsAppend(calls, call);
    LastAnswer(calls, call);
    number := PrintNat(B.Count(ops + [op]));
    WrittenIs(ops, op, number, NameOf(calls, call.user));
  }

  /** The same for the run of commands. */
  lemma WrittenIs(ops: seq<B.Op>, op: B.Op, number: string, name: string)
    requires op.WriteOp? && op.name == Poster(name) && B.Orderly(ops + [op]) && number == PrintNat(B.Count(ops + [op]))
    ensures Respond(B.Run(ops), name, WriteRequest(op.text), op.canOpen).response ==
            if op.canOpen then "3.0 WROTE " + number else "3.2 ERROR WRITE"
    ensures if op.canOpen then
              && B.Latest(ops, number).None?
              && Read(B.Run(ops + [op]).file, number) == Message(number + "/" + op.name + "/" + op.text)
            else
              B.Run(ops + [op]).file == B.Run(ops).file
  {
    RunAppend(ops, op);
    WrittenNumber(ops, op);
    if op.canOpen {
      B.ReadAnswersLatest(ops + [op], number);
      LatestWritten(ops, op, number);
    }
  }

  lemma WrittenNumber(ops: seq<B.Op>, op: B.Op)
    requires op.WriteOp? && B.Orderly(ops + [op])
    ensures PrintInt(B.Step(B.Run(ops), op).counter) == PrintNat(B.Count(ops + [op]))
  {
    assert (ops + [op])[..|ops|] == ops;
    RunAppend(ops, op);
    B.RunKeeps(ops + [op]);
  }

  lemma LatestWritten(ops: seq<B.Op>, op: B.Op, number: string)
    requires op.WriteOp? && op.canOpen && B.Orderly(ops + [op]) && number == PrintNat(B.Count(ops + [op]))
    ensures B.Latest(ops + [op], number) == Some(number + "/" + op.name + "/" + op.text)
    ensures B.Width(ops + [op], number) == |number + "/" + op.name + "/" + op.text|
    ensures B.Latest(ops, number).None?
  {
    assert (ops + [op])[..|ops|] == ops;
    B.StoredIncreasing(ops);
    if B.Latest(ops, number).Some? {
      var j := B.KnownIsStored(ops, number);
      assert false;
    }
  }

  /** The first line with a number exists exactly when something is stored under it. */
  lemma KnownIff(ops: seq<B.Op>, number: string)
    requires B.Orderly(ops)
    ensures IndexOf(Lines(B.Run(ops).file, 0), number) < |Lines(B.Run(ops).file, 0)| <==> B.Latest(ops, number).Some?
  {
    var b := B.Run(ops);
    var ls := Lines(b.file, 0);
    B.RunKeeps(ops);
    var k := IndexOf(ls, number);
    if k < |ls| {
      B.ShowsNumber(ops, B.Stored(ops)[k], ls[k]);
    }
    if B.Latest(ops, number).Some? {
      var j := B.KnownIsStored(ops, number);
      B.IndexOfStored(ops, b, j);
    }
  }

  /** REPLACE is answered 3.3 exactly when something is stored under the number, 3.1 when nothing is, and 3.2
      when the file does not open. */
  lemma ReplaceAnswers(calls: seq<Call>, call: Call, number: string, text: string)
    requires ParseRequest(call.line) == ReplaceRequest(number, text) && B.Orderly(OpsOf(calls))
    ensures Serve(calls + [call]).response ==
            if !call.canOpen then "3.2 ERROR WRITE"
            else if B.Latest(OpsOf(calls), number).Some? then "3.3 REPLACED " + number
            else "3.1 UNKNOWN " + number
  {
    var ops := OpsOf(calls);
    LastAnswer(calls, call);
    if call.canOpen {
      var msg := B.Body(number, Poster(NameOf(calls, call.user)), text);
      var small, end := OnlyCommandsParse(call.line);
      B.BodyNumber(number, Poster(NameOf(calls, call.user)), text);
      ReplaceWritesAtFirstMatch(B.Run(ops).file, 0, msg);
      KnownIff(ops, number);
    }
  }

  /** READ is answered with the latest message under the number and spaces up to the width of its line, with
      2.1 when there is none, and with 2.2 when the file does not open. */
  lemma ReadAnswers(calls: seq<Call>, call: Call, number: string)
    requires ParseRequest(call.line) == ReadRequest(number) && B.Orderly(OpsOf(calls))
    ensures Serve(calls + [call]).response ==
            if !call.canOpen then "2.2 ERROR READ"
            else
              match B.Latest(OpsOf(calls), number)
              case None => "2.1 UNKNOWN " + number
              case Some(msg) =>
                "2.0 MESSAGE " + (msg + Spaces(if B.Width(OpsOf(calls), number) > |msg|
                                               then B.Width(OpsOf(calls), number) - |msg| else 0))
  {
    LastAnswer(calls, call);
    ReadIs(OpsOf(calls), NameOf(calls, call.user), number, call.canOpen);
  }

  lemma ReadIs(ops: seq<B.Op>, name: string, number: string, canOpen: bool)
    requires B.Orderly(ops)
    ensures Respond(B.Run(ops), name, ReadRequest(number), canOpen).response ==
            if !canOpen then "2.2 ERROR READ"
            else
              match B.Latest(ops, number)
              case None => "2.1 UNKNOWN " + number
              case Some(msg) =>
                "2.0 MESSAGE "
                + (msg + Spaces(if B.Width(ops, number) > |msg| then B.Width(ops, number) - |msg| else 0))
  {
    B.ReadAnswersLatest(ops, number);
  }
}
