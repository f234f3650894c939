/**
 User commands as text: how process_client_msg takes a line apart, and what a server without peers does
 with the command and answers. With peers, WRITE and REPLACE go to module Master instead.
 */
module Client {
  import opened Wrappers
  import opened Text
  import opened Store
  import opened Numbers
  import opened Wire
  import B = Board
  import M = Master

  datatype Request =
    | Quit | Help | BadCommand
    | SetUser(name: string) | BadUser
    | ReadRequest(number: string)
    | WriteRequest(text: string)
    | ReplaceRequest(number: string, text: string)

  // ---------- taking a line apart ----------

  /** What stands between the first space and the end of line, "\r\n" or one byte. */
  function SecondArgument(msg: string, space: nat): string
    requires space < |msg| && |msg| >= 2
  {
    var end := if msg[|msg| - 2] == '\r' then |msg| - 2 else |msg| - 1;
    if space + 1 >= end then "" else msg[space + 1..end]
  }

  function ReplaceArguments(arg: string): Request {
    if !HasSlash(arg) then BadCommand
    else
      var k := Find(arg, '/', 0);
      if arg[k + 1..] == "" then BadCommand else ReplaceRequest(arg[..k], arg[k + 1..])
  }

  predicate IsBareWord(msg: string, upper: string, lower: string) {
    |msg| == 6 && (upper <= msg || lower <= msg)
  }

  /** The branches on the command word. */
  function Interpret(arg1: string, arg2: string): Request {
    if arg1 == "" || arg2 == "" then BadCommand
    else if arg1 == "USER" || arg1 == "user" then
      if '/' in arg2 || ' ' in arg2 then BadUser else SetUser(arg2)
    else if arg1 == "READ" || arg1 == "read" then ReadRequest(arg2)
    else if arg1 == "WRITE" || arg1 == "write" then WriteRequest(arg2)
    else if arg1 == "REPLACE" || arg1 == "replace" then ReplaceArguments(arg2)
    else if arg1 == "QUIT" || arg1 == "quit" then Quit
    else BadCommand
  }

  function ParseRequest(msg: string): Request
    requires |msg| >= 2
  {
    var space := Find(msg, ' ', 0);
    if space == |msg| then
      if IsBareWord(msg, "QUIT", "quit") then Quit
      else if IsBareWord(msg, "HELP", "help") then Help
      else BadCommand
    else Interpret(msg[..space], SecondArgument(msg, space))
  }

  // ---------- round trip ----------

  predicate IsCommand(req: Request) {
    match req
    case SetUser(name) => name != "" && '/' !in name && ' ' !in name
    case ReadRequest(number) => number != ""
    case WriteRequest(text) => text != ""
    case ReplaceRequest(number, text) => '/' !in number && text != ""
    case _ => false
  }

  /** Each word is understood in capitals and in small letters. */
  function Keyword(req: Request, small: bool): string
    requires IsCommand(req)
  {
    match req
    case SetUser(_) => if small then "user" else "USER"
    case ReadRequest(_) => if small then "read" else "READ"
    case WriteRequest(_) => if small then "write" else "WRITE"
    case ReplaceRequest(_, _) => if small then "replace" else "REPLACE"
  }

  function Argument(req: Request): string
    requires IsCommand(req)
  {
    match req
    case SetUser(name) => name
    case ReadRequest(number) => number
    case WriteRequest(text) => text
    case ReplaceRequest(number, text) => number + "/" + text
  }

  /** The line a client sends. */
  function Sent(req: Request, small: bool, crlf: bool): string
    requires IsCommand(req)
  {
    Keyword(req, small) + " " + Argument(req) + if crlf then "\r\n" else "\n"
  }

  lemma SecondArgumentOf(keyword: string, arg: string, crlf: bool)
    requires ' ' !in keyword
    ensures var msg := keyword + " " + arg + if crlf then "\r\n" else "\n";
            && |msg| >= 2 && Find(msg, ' ', 0) == |keyword| && msg[..|keyword|] == keyword
            && SecondArgument(msg, |keyword|) == if crlf then arg else Chopped(arg)
  {
    var eol := if crlf then "\r\n" else "\n";
    var msg := keyword + " " + arg + eol;
    assert msg[|keyword|] == ' ';
    FindIs(msg, ' ', 0, |keyword|);
    assert msg[..|keyword|] == keyword;
    if crlf {
      assert msg[|msg| - 2] == '\r';
      assert msg[|keyword| + 1..|msg| - 2] == arg;
    } else {
      assert msg[|msg| - 2] == if arg == "" then ' ' else arg[|arg| - 1];
      assert msg[|keyword| + 1..|msg| - 1] == arg;
      if EndsInCR(arg) {
        assert msg[|keyword| + 1..|msg| - 2] == arg[..|arg| - 1];
      }
    }
  }

  lemma ReplaceArgumentsOf(number: string, text: string)
    requires '/' !in number && text != ""
    ensures ReplaceArguments(number + "/" + text) == ReplaceRequest(number, text)
  {
    var arg := number + "/" + text;
    assert arg[|number|] == '/';
    FindIs(arg, '/', 0, |number|);
    assert arg[..|number|] == number && arg[|number| + 1..] == text;
  }

  lemma Interprets(req: Request, small: bool)
    requires IsCommand(req)
    ensures Interpret(Keyword(req, small), Argument(req)) == req
    ensures EndsInCR(Argument(req)) ==> Interpret(Keyword(req, small), Chopped(Argument(req))) != req
  {
    if req.ReplaceRequest? {
      ReplaceArgumentsOf(req.number, req.text);
      if EndsInCR(Argument(req)) {
        ReplaceWithoutCR(req.number, req.text);
      }
    }
  }

  lemma ReplaceWithoutCR(number: string, text: string)
    requires '/' !in number && text != "" && EndsInCR(text)
    ensures ReplaceArguments(Chopped(number + "/" + text)) != ReplaceRequest(number, text)
  {
    var arg := number + "/" + text;
    assert Chopped(arg) == number + "/" + Chopped(text);
    if Chopped(text) != "" {
      ReplaceArgumentsOf(number, Chopped(text));
    }
  }

  lemma SentParses(req: Request, small: bool, crlf: bool)
    requires IsCommand(req)
    ensures |Sent(req, small, crlf)| >= 2
    ensures ParseRequest(Sent(req, small, crlf)) ==
            Interpret(Keyword(req, small), if crlf then Argument(req) else Chopped(Argument(req)))
  {
    SecondArgumentOf(Keyword(req, small), Argument(req), crlf);
  }

  /** A command whose line ends in "\r\n" arrives as it was sent; one whose line ends in "\n" does exactly
      when its last argument does not end in CR. */
  lemma RequestArrivesIff(req: Request, small: bool, crlf: bool)
    requires IsCommand(req)
    ensures |Sent(req, small, crlf)| >= 2
    ensures ParseRequest(Sent(req, small, crlf)) == req <==> crlf || !EndsInCR(Argument(req))
  {
    SentParses(req, small, crlf);
    Interprets(req, small);
  }

  /** And no other line is taken for a command: what was understood is what stands in the line, between the
      word and the end of line. */
  lemma OnlyCommandsParse(msg: string) returns (small: bool, end: nat)
    requires |msg| >= 2
    ensures var req := ParseRequest(msg);
            req.SetUser? || req.ReadRequest? || req.WriteRequest? || req.ReplaceRequest? ==>
              && IsCommand(req) && end <= |msg| && msg[..end] == Keyword(req, small) + " " + Argument(req)
              && (end == |msg| - 1 || (end == |msg| - 2 && msg[end] == '\r'))
  {
    var space, req := Find(msg, ' ', 0), ParseRequest(msg);
    end := if msg[|msg| - 2] == '\r' then |msg| - 2 else |msg| - 1;
    small := space < |msg| && msg[..space] in {"user", "read", "write", "replace"};
    if req.SetUser? || req.ReadRequest? || req.WriteRequest? || req.ReplaceRequest? {
      InterpretedFrom(msg[..space], SecondArgument(msg, space));
      LineSplits(msg, space, end);
    }
  }

  lemma LineSplits(msg: string, space: nat, end: nat)
    requires |msg| >= 2 && space == Find(msg, ' ', 0) < |msg| && SecondArgument(msg, space) != ""
    requires end == if msg[|msg| - 2] == '\r' then |msg| - 2 else |msg| - 1
    ensures msg[..end] == msg[..space] + " " + SecondArgument(msg, space)
  {
    FindFirst(msg, ' ', 0);
  }

  lemma InterpretedFrom(arg1: string, arg2: string)
    ensures var req := Interpret(arg1, arg2);
            req.SetUser? || req.ReadRequest? || req.WriteRequest? || req.ReplaceRequest? ==>
              && IsCommand(req) && arg2 == Argument(req)
              && arg1 == Keyword(req, arg1 in {"user", "read", "write", "replace"})
  {
    var req := Interpret(arg1, arg2);
    if req.ReplaceRequest? {
      var k := Find(arg2, '/', 0);
      FindFirst(arg2, '/', 0);
      assert arg2 == arg2[..k] + "/" + arg2[k + 1..];
    }
  }

  /** The words that stand alone. */
  lemma BareWords(word: string)
    requires word in {"QUIT", "quit", "HELP", "help"}
    ensures ParseRequest(word + "\r\n") == if word in {"QUIT", "quit"} then Quit else Help
  {
    var msg := word + "\r\n";
    FindIs(msg, ' ', 0, |msg|);
    assert msg[..4] == word && word <= msg;
    assert msg[0] == word[0];
  }

  /** What a line of several words ends with: "\r\n" or one byte. */
  function EndOf(msg: string): nat
    requires |msg| >= 2
  {
    if msg[|msg| - 2] == '\r' then |msg| - 2 else |msg| - 1
  }

  /** The line is that word, a space, and an argument that is not empty. */
  ghost predicate IsWordAndArgument(msg: string, words: set<string>, arg: string)
    requires |msg| >= 2
  {
    arg != "" && exists word :: word in words && msg[..EndOf(msg)] == word + " " + arg
  }

  lemma WordFirst(msg: string, word: string, arg: string)
    requires |msg| >= 2 && ' ' !in word && arg != "" && msg[..EndOf(msg)] == word + " " + arg
    ensures Find(msg, ' ', 0) == |word| < |msg| && msg[..|word|] == word && SecondArgument(msg, |word|) == arg
  {
    var line := msg[..EndOf(msg)];
    assert line[|word|] == ' ';
    forall k | 0 <= k < |word| ensures msg[k] != ' ' {
      assert line[k] == word[k] && word[k] in word;
    }
    FindIs(msg, ' ', 0, |word|);
    assert line[..|word|] == word && line[|word| + 1..] == arg;
  }

  /** For words without a space: the word is what stands in front of the first space. */
  lemma WordAndArgument(msg: string, words: set<string>, arg: string)
    requires |msg| >= 2 && forall word :: word in words ==> ' ' !in word
    ensures var space := Find(msg, ' ', 0);
            IsWordAndArgument(msg, words, arg) <==>
            space < |msg| && msg[..space] in words && arg != "" && arg == SecondArgument(msg, space)
  {
    var space := Find(msg, ' ', 0);
    FindFirst(msg, ' ', 0);
    if IsWordAndArgument(msg, words, arg) {
      var word :| word in words && msg[..EndOf(msg)] == word + " " + arg;
      WordFirst(msg, word, arg);
    }
    if space < |msg| && msg[..space] in words && arg != "" && arg == SecondArgument(msg, space) {
      LineSplits(msg, space, EndOf(msg));
    }
  }

  lemma BareWordIff(msg: string, upper: string, lower: string)
    requires |upper| == |lower| == 4
    ensures IsBareWord(msg, upper, lower) <==> |msg| == 6 && msg[..4] in {upper, lower}
  {
    if |msg| == 6 {
      assert upper <= msg <==> msg[..4] == upper;
      assert lower <= msg <==> msg[..4] == lower;
    }
  }

  lemma NoSpaceIff(msg: string)
    ensures Find(msg, ' ', 0) == |msg| <==> ' ' !in msg
  {
    FindFirst(msg, ' ', 0);
  }

  /** HELP stands alone. */
  lemma HelpIff(msg: string)
    requires |msg| >= 2
    ensures ParseRequest(msg) == Help <==> ' ' !in msg && |msg| == 6 && msg[..4] in {"HELP", "help"}
  {
    NoSpaceIff(msg);
    BareWordIff(msg, "QUIT", "quit");
    BareWordIff(msg, "HELP", "help");
  }

  /** QUIT stands alone or in front of an argument. */
  lemma QuitIff(msg: string)
    requires |msg| >= 2
    ensures ParseRequest(msg) == Quit <==>
            || (' ' !in msg && |msg| == 6 && msg[..4] in {"QUIT", "quit"})
            || exists arg :: IsWordAndArgument(msg, {"QUIT", "quit"}, arg)
  {
    NoSpaceIff(msg);
    BareWordIff(msg, "QUIT", "quit");
    var space := Find(msg, ' ', 0);
    forall arg ensures IsWordAndArgument(msg, {"QUIT", "quit"}, arg) <==>
      space < |msg| && msg[..space] in {"QUIT", "quit"} && arg != "" && arg == SecondArgument(msg, space)
    {
      WordAndArgument(msg, {"QUIT", "quit"}, arg);
    }
    if ParseRequest(msg) == Quit && space < |msg| {
      assert IsWordAndArgument(msg, {"QUIT", "quit"}, SecondArgument(msg, space));
    }
  }

  /** A USER line is refused exactly when its name has a slash or a space. */
  lemma BadUserIff(msg: string)
    requires |msg| >= 2
    ensures ParseRequest(msg) == BadUser <==>
            exists arg :: IsWordAndArgument(msg, {"USER", "user"}, arg) && ('/' in arg || ' ' in arg)
  {
    NoSpaceIff(msg);
    var space := Find(msg, ' ', 0);
    forall arg ensures IsWordAndArgument(msg, {"USER", "user"}, arg) <==>
      space < |msg| && msg[..space] in {"USER", "user"} && arg != "" && arg == SecondArgument(msg, space)
    {
      WordAndArgument(msg, {"USER", "user"}, arg);
    }
  }

  // ---------- a server without peers ----------

  /** The name a message is saved under. */
  function Poster(name: string): string {
    if name != "" then name else "nobody"
  }

  datatype Answered = Answered(board: B.State, name: string, response: string)

  function ReadResponse(reply: ReadReply): string {
    match reply
    case Message(line) => "2.0 MESSAGE " + line
    case UnknownNumber(number) => "2.1 UNKNOWN " + number
    case ErrorRead => "2.2 ERROR READ"
  }

  /** The answer to REPLACE without peers is 3.3; with peers the same success is answered 3.0. */
  function ReplaceResponse(result: SaveResult, number: string): string {
    match result
    case Saved => "3.3 REPLACED " + number
    case NotFound => "3.1 UNKNOWN " + number
    case OpenFailed => "3.2 ERROR WRITE"
  }

  const HELP_TEXT :=
    "COMMMANS FORMAT:\nUSER name\nREAD message-number\nWRITE message\nREPLACE message-number/message\nQUIT"

  /** What one request does to the board and to the user's name, and what the user hears. */
  function Respond(b: B.State, name: string, req: Request, canOpen: bool): Answered {
    match req
    case Quit => Answered(b, name, "4.0 BYE")
    case Help => Answered(b, name, HELP_TEXT)
    case BadCommand => Answered(b, name, "ERROR COMMAND")
    case BadUser => Answered(b, name, "1.2 ERROR USER")
    case SetUser(n) => Answered(b, n, "1.0 HELLO " + n)
    case ReadRequest(number) => Answered(b, name, ReadResponse(if canOpen then Read(b.file, number) else ErrorRead))
    case WriteRequest(text) =>
      var b' := B.Step(b, B.WriteOp(Poster(name), text, canOpen));
      Answered(b', name, if canOpen then "3.0 WROTE " + PrintInt(b'.counter) else "3.2 ERROR WRITE")
    case ReplaceRequest(number, text) =>
      var msg := B.Body(number, Poster(name), text);
      Answered(B.Step(b, B.ReplaceOp(number, Poster(name), text, canOpen)), name,
               ReplaceResponse(SaveReplace(b.file, msg, canOpen).result, number))
  }

  /** A user's connection on a server without peers. */
  class Session {
    var name: string
    const file: BBFile
    const counter: MsgCounter

    constructor (file: BBFile, counter: MsgCounter)
      ensures name == "" && this.file == file && this.counter == counter
    {
      name := "";
      this.file, this.counter := file, counter;
    }

    ghost function View(): B.State
      reads this, file, counter
    {
      B.State(file.bytes, counter.msgNumber)
    }

    /** process_client_msg */
    method ProcessClientMsg(buf: string, canOpen: bool) returns (response: string)
      requires |buf| >= 2 && counter.msgNumber < INT_MAX
      modifies this, file, counter
      ensures Answered(View(), name, response) == Respond(old(View()), old(name), ParseRequest(buf), canOpen)
    {
      match ParseRequest(buf) {
        case Quit => response := "4.0 BYE";
        case Help => response := HELP_TEXT;
        case BadCommand => response := "ERROR COMMAND";
        case BadUser => response := "1.2 ERROR USER";
        case SetUser(n) =>
          response := "1.0 HELLO " + n;
          name := n;
        case ReadRequest(number) =>
          var reply := file.ReadMessage(number, canOpen);
          response := ReadResponse(reply);
        case WriteRequest(text) =>
          var strNumber := counter.Alloc();
          var msgSave := strNumber + "/" + (if name != "" then name else "nobody") + "/" + text;
          var ret := file.AppendMessage(msgSave, canOpen);
          response := if ret == Saved then "3.0 WROTE " + strNumber else "3.2 ERROR WRITE";
        case ReplaceRequest(number, text) =>
          var msgSave := number + "/" + (if name != "" then name else "nobody") + "/" + text;
          var ret := file.ReplaceMessage(msgSave, canOpen);
          response := ReplaceResponse(ret, number);
      }
    }
  }

  /** A READ line sent after any orderly run is answered with the latest message stored under its number
      and spaces up to the width of its line, or with UNKNOWN when there is none. */
  lemma ReadLineAnswersLatest(ops: seq<B.Op>, name: string, number: string)
    requires B.Orderly(ops) && number != ""
    ensures |Sent(ReadRequest(number), false, true)| >= 2
    ensures Respond(B.Run(ops), name, ParseRequest(Sent(ReadRequest(number), false, true)), true).response ==
            match B.Latest(ops, number)
            case None => "2.1 UNKNOWN " + number
            case Some(msg) =>
              "2.0 MESSAGE " + (msg + Spaces(if B.Width(ops, number) > |msg| then B.Width(ops, number) - |msg| else 0))
  {
    RequestArrivesIff(ReadRequest(number), false, true);
    B.ReadAnswersLatest(ops, number);
  }

  /** With peers and without, a WRITE saves the same line under the same number. */
  lemma SameLineWithPeers(m: M.Master, u: nat, text: string)
    requires u < |m.users|
    ensures var m', b := M.SubmitWrite(m, u, text), B.State(m.file, m.counter);
            && m'.counter == B.Step(b, B.WriteOp(Poster(m.users[u].name), text, true)).counter
            && Appended(m.file, m'.users[u].msg) == B.Step(b, B.WriteOp(Poster(m.users[u].name), text, true)).file
  {
  }
}
