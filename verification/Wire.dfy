/**
 The text of the lines between master and slave. Module Protocol speaks of lines as values; here is how
 sync.cpp and msg.cpp print them, how the receiver strips and parses them, and when a value survives.
 */
module Wire {
  import opened Wrappers
  import opened Text
  import opened Store
  import opened Protocol
  import opened Cluster
  import M = Master
  import S = Slave

  /** substr throws when it starts behind the end; a text that matches nothing is ignored. */
  datatype Parsed<T> = Good(value: T) | Throws | Ignored

  // ---------- master to slave ----------

  const COMMIT_WRITE := "COMMIT WRITE"
  const COMMIT_REPLACE := "COMMIT REPLACE"
  const END_SUCCESS := "END SUCCESS"
  const END_UNSUCCESS := "END UNSUCCESS"

  /** sync_send_precommit, sync_send_abort, sync_send_commit, sync_send_success */
  function PrintLine(line: Line): string {
    match line
    case Precommit => "PRECOMMIT"
    case Abort => "ABORT"
    case Commit(c, _) => (if c.cmd == CmdWrite then COMMIT_WRITE else COMMIT_REPLACE) + " " + c.body
    case End(success, number) => (if success then END_SUCCESS else END_UNSUCCESS) + " " + number
  }

  /** What both receivers take off the end. The code looks two bytes back whatever the last byte is. */
  function Strip(buf: string): string
    requires |buf| >= 2
  {
    if buf[|buf| - 2] == '\r' then buf[..|buf| - 2]
    else if buf[|buf| - 1] == '\n' then buf[..|buf| - 1]
    else buf
  }

  /** What follows a keyword and one more character. */
  function AfterKeyword(msg: string, keyword: string): Parsed<string>
    requires keyword <= msg
  {
    if |keyword| + 1 > |msg| then Throws else Good(msg[|keyword| + 1..])
  }

  /** The branches of process_sync_slave_msg. */
  function ParseLine(msg: string): Parsed<Line> {
    if msg == "PRECOMMIT" then Good(Precommit)
    else if msg == "ABORT" then Good(Abort)
    else if COMMIT_WRITE <= msg then
      match AfterKeyword(msg, COMMIT_WRITE) case Good(body) => Good(Commit(Command(CmdWrite, body), 0)) case _ => Throws
    else if COMMIT_REPLACE <= msg then
      match AfterKeyword(msg, COMMIT_REPLACE)
      case Good(body) => Good(Commit(Command(CmdReplace, body), 0))
      case _ => Throws
    else if END_SUCCESS <= msg then
      match AfterKeyword(msg, END_SUCCESS) case Good(number) => Good(End(true, number)) case _ => Throws
    else if END_UNSUCCESS <= msg then
      match AfterKeyword(msg, END_UNSUCCESS) case Good(number) => Good(End(false, number)) case _ => Throws
    else Ignored
  }

  /** What a slave makes of the bytes it receives. */
  function HearLine(buf: string): Parsed<Line>
    requires |buf| >= 2
  {
    ParseLine(Strip(buf))
  }

  /** The ticket is not on the wire. */
  function NoTicket(line: Line): Line {
    if line.Commit? then line.(ticket := 0) else line
  }

  lemma StripPrinted(keyword: string, payload: string)
    requires keyword != "" && !EndsInCR(keyword)
    ensures |keyword + " " + payload + "\n"| >= 2
    ensures Strip(keyword + " " + payload + "\n") == keyword + " " + Chopped(payload)
  {
  }

  lemma KeywordPrinted(keyword: string, payload: string)
    ensures keyword <= keyword + " " + payload
    ensures AfterKeyword(keyword + " " + payload, keyword) == Good(payload)
  {
  }

  /** Keywords that differ in a character behind a common length tell texts apart. */
  lemma OtherKeyword(a: string, b: string, k: nat, payload: string)
    requires k < |a| && k < |b| && a[k] != b[k]
    ensures !(b <= a + " " + payload)
  {
  }

  lemma ParsePrinted(keyword: string, payload: string)
    requires keyword in {COMMIT_WRITE, COMMIT_REPLACE, END_SUCCESS, END_UNSUCCESS}
    ensures ParseLine(keyword + " " + payload) ==
            if keyword == COMMIT_WRITE then Good(Commit(Command(CmdWrite, payload), 0))
            else if keyword == COMMIT_REPLACE then Good(Commit(Command(CmdReplace, payload), 0))
            else Good(End(keyword == END_SUCCESS, payload))
  {
    var msg := keyword + " " + payload;
    KeywordPrinted(keyword, payload);
    assert msg[0] == keyword[0] && msg[0] != 'P' && msg[0] != 'A';
    assert msg != "PRECOMMIT" && msg != "ABORT";
    if keyword == COMMIT_REPLACE {
      OtherKeyword(keyword, COMMIT_WRITE, 7, payload);
    } else if keyword == END_SUCCESS {
      OtherKeyword(keyword, COMMIT_WRITE, 0, payload);
      OtherKeyword(keyword, COMMIT_REPLACE, 0, payload);
    } else if keyword == END_UNSUCCESS {
      OtherKeyword(keyword, COMMIT_WRITE, 0, payload);
      OtherKeyword(keyword, COMMIT_REPLACE, 0, payload);
      OtherKeyword(keyword, END_SUCCESS, 4, payload);
    }
  }

  /** Every line a master prints is understood; what arrives is the line that was sent without the CR its
      payload may end in. */
  lemma LineArrives(line: Line)
    ensures |PrintLine(line) + "\n"| >= 2 && HearLine(PrintLine(line) + "\n") == Good(NoTicket(HeardLine(line)))
  {
    match line {
      case Precommit => assert Strip("PRECOMMIT\n") == "PRECOMMIT";
      case Abort => assert Strip("ABORT\n") == "ABORT";
      case Commit(c, _) =>
        var keyword := if c.cmd == CmdWrite then COMMIT_WRITE else COMMIT_REPLACE;
        StripPrinted(keyword, c.body);
        ParsePrinted(keyword, Chopped(c.body));
      case End(success, number) =>
        var keyword := if success then END_SUCCESS else END_UNSUCCESS;
        StripPrinted(keyword, number);
        ParsePrinted(keyword, Chopped(number));
    }
  }

  function Payload(line: Line): string {
    match line
    case Commit(c, _) => c.body
    case End(_, number) => number
    case _ => ""
  }

  /** A line survives exactly when its payload does not end in CR. */
  lemma LineSurvivesIff(line: Line)
    ensures |PrintLine(line) + "\n"| >= 2
    ensures HearLine(PrintLine(line) + "\n") == Good(NoTicket(line)) <==> !EndsInCR(Payload(line))
  {
    LineArrives(line);
    ChoppedIff(Payload(line));
  }

  // ---------- slave to master ----------

  const PRECOMMIT_ACK := "5.0 PRECOMMIT ACK"
  const ERROR_PRECOMMIT := "5.1 ERROR PRECOMMIT"
  const COMMITED_SUCCESS := "6.0 COMMITED SUCCESS"
  const COMMITED_UNSUCCESS := "6.1 COMMITED UNSUCCESS"
  const COMMITED_UNKNOWN := "6.2 COMMITED UNSUCCESS UNKNOWN"

  function PrintReply(reply: Reply): string {
    match reply
    case PrecommitAck => PRECOMMIT_ACK
    case PrecommitErr => ERROR_PRECOMMIT
    case CommitOk(number) => COMMITED_SUCCESS + " " + number
    case CommitFailed(number) => COMMITED_UNSUCCESS + " " + number
    case CommitUnknown(number) => COMMITED_UNKNOWN + " " + number
  }

  /** The branches of process_sync_master_msg. */
  function ParseReply(msg: string): Parsed<Reply> {
    if msg == PRECOMMIT_ACK then Good(PrecommitAck)
    else if msg == ERROR_PRECOMMIT then Good(PrecommitErr)
    else if COMMITED_SUCCESS <= msg then
      match AfterKeyword(msg, COMMITED_SUCCESS) case Good(number) => Good(CommitOk(number)) case _ => Throws
    else if COMMITED_UNSUCCESS <= msg then
      match AfterKeyword(msg, COMMITED_UNSUCCESS) case Good(number) => Good(CommitFailed(number)) case _ => Throws
    else if COMMITED_UNKNOWN <= msg then
      match AfterKeyword(msg, COMMITED_UNKNOWN) case Good(number) => Good(CommitUnknown(number)) case _ => Throws
    else Ignored
  }

  function HearReply(buf: string): Parsed<Reply>
    requires |buf| >= 2
  {
    ParseReply(Strip(buf))
  }

  lemma ParsePrintedReply(keyword: string, number: string)
    requires keyword in {COMMITED_SUCCESS, COMMITED_UNSUCCESS, COMMITED_UNKNOWN}
    ensures ParseReply(keyword + " " + number) ==
            if keyword == COMMITED_SUCCESS then Good(CommitOk(number))
            else if keyword == COMMITED_UNSUCCESS then Good(CommitFailed(number))
            else Good(CommitUnknown(number))
  {
    var msg := keyword + " " + number;
    KeywordPrinted(keyword, number);
    assert msg[0] == '6';
    assert msg != PRECOMMIT_ACK && msg != ERROR_PRECOMMIT;
    if keyword == COMMITED_UNSUCCESS {
      OtherKeyword(keyword, COMMITED_SUCCESS, 2, number);
    } else if keyword == COMMITED_UNKNOWN {
      OtherKeyword(keyword, COMMITED_SUCCESS, 2, number);
      OtherKeyword(keyword, COMMITED_UNSUCCESS, 2, number);
    }
  }

  lemma NumberedReplyArrives(keyword: string, number: string)
    requires keyword in {COMMITED_SUCCESS, COMMITED_UNSUCCESS, COMMITED_UNKNOWN}
    ensures |keyword + " " + number + "\n"| >= 2
    ensures HearReply(keyword + " " + number + "\n") ==
            if keyword == COMMITED_SUCCESS then Good(CommitOk(Chopped(number)))
            else if keyword == COMMITED_UNSUCCESS then Good(CommitFailed(Chopped(number)))
            else Good(CommitUnknown(Chopped(number)))
  {
    StripPrinted(keyword, number);
    ParsePrintedReply(keyword, Chopped(number));
  }

  lemma VoteArrives(reply: Reply)
    requires reply.PrecommitAck? || reply.PrecommitErr?
    ensures |PrintReply(reply) + "\n"| >= 2 && HearReply(PrintReply(reply) + "\n") == Good(reply)
  {
  }

  lemma ReplyArrives(reply: Reply)
    ensures |PrintReply(reply) + "\n"| >= 2 && HearReply(PrintReply(reply) + "\n") == Good(HeardReply(reply))
  {
    match reply {
      case CommitOk(number) => NumberedReplyArrives(COMMITED_SUCCESS, number);
      case CommitFailed(number) => NumberedReplyArrives(COMMITED_UNSUCCESS, number);
      case CommitUnknown(number) => NumberedReplyArrives(COMMITED_UNKNOWN, number);
      case _ => VoteArrives(reply);
    }
  }

  // ---------- there and back ----------

  /** The number in a reply to a COMMIT. */
  function NumberHeard(reply: Parsed<Reply>): Parsed<string> {
    match reply
    case Good(CommitOk(number)) => Good(number)
    case Good(CommitFailed(number)) => Good(number)
    case Good(CommitUnknown(number)) => Good(number)
    case Throws => Throws
    case _ => Ignored
  }

  function NumberBackFrom(line: Parsed<Line>, result: SaveResult): Parsed<string> {
    match line
    case Good(Commit(c, _)) =>
      ReplyArrives(S.ReplyFor(c, result));
      NumberHeard(HearReply(PrintReply(S.ReplyFor(c, result)) + "\n"))
    case Throws => Throws
    case _ => Ignored
  }

  /** The number the master hears back about a command it sent: printed in COMMIT, parsed by the slave,
      printed in the reply, parsed by the master. */
  function NumberBack(c: Command, result: SaveResult): Parsed<string> {
    LineArrives(Commit(c, 0));
    NumberBackFrom(HearLine(PrintLine(Commit(c, 0)) + "\n"), result)
  }

  lemma NumberBackIs(c: Command, result: SaveResult)
    ensures NumberBackFrom(Good(Commit(c, 0)), result) == Good(Chopped(NumberOf(c.body)))
  {
    ReplyArrives(S.ReplyFor(c, result));
  }

  /** The number the master saved comes back unchanged exactly when it does not end in CR; whether the
      text behind it ends in CR does not matter. Every WRITE meets this, its number being decimal. */
  lemma NumberSurvivesIff(c: Command, result: SaveResult)
    requires HasSlash(c.body)
    ensures NumberBack(c, result) == Good(NumberOf(c.body)) <==> !EndsInCR(NumberOf(c.body))
  {
    LineArrives(Commit(c, 0));
    NumberBackIs(Heard(c), result);
    BackIff(c);
  }

  lemma WriteNumberSurvives(n: nat, u: M.User, text: string, result: SaveResult)
    ensures NumberBack(Command(CmdWrite, M.MessageOf(PrintInt(n), u, text)), result) == Good(PrintInt(n))
  {
    var number := PrintInt(n);
    var body := M.MessageOf(number, u, text);
    PrintNatHasNo(n, '/');
    PrintNatHasNo(n, '\r');
    assert body == number + "/" + (M.UserName(u) + "/" + text);
    NumberOfPrefix(number, M.UserName(u) + "/" + text);
    NumberSurvivesIff(Command(CmdWrite, body), result);
  }

  // ---------- handlers on text ----------

  /** process_sync_slave_msg from the bytes received to the bytes sent back. */
  function SlaveOnText(sl: S.Slave, buf: string, debugLevel: nat, canOpen: bool): (S.Slave, string)
    requires |buf| >= 2 && HearLine(buf) != Throws
  {
    match HearLine(buf)
    case Good(line) =>
      var e := S.Receive(sl, line, debugLevel, canOpen);
      (e.slave, match e.reply case Some(reply) => PrintReply(reply) + "\n" case None => "")
    case _ => (sl, "")
  }

  /** process_sync_master_msg from the bytes received. */
  function MasterOnText(m: M.Master, i: nat, buf: string): M.Master
    requires |buf| >= 2 && i < |m.peers| && HearReply(buf) != Throws
  {
    match HearReply(buf)
    case Good(reply) => M.Receive(m, i, reply)
    case _ => m
  }

  /** On text the slave does what module Slave says of the line that arrives, for every line a master
      sends. */
  lemma SlaveTextRefines(sl: S.Slave, line: Line, debugLevel: nat, canOpen: bool)
    ensures |PrintLine(line) + "\n"| >= 2 && HearLine(PrintLine(line) + "\n") != Throws
    ensures var e := S.Receive(sl, HeardLine(line), debugLevel, canOpen);
            SlaveOnText(sl, PrintLine(line) + "\n", debugLevel, canOpen) ==
            (e.slave, match e.reply case Some(reply) => PrintReply(reply) + "\n" case None => "")
  {
    LineArrives(line);
  }

  lemma MasterTextRefines(m: M.Master, i: nat, reply: Reply)
    requires i < |m.peers|
    ensures |PrintReply(reply) + "\n"| >= 2 && HearReply(PrintReply(reply) + "\n") != Throws
    ensures MasterOnText(m, i, PrintReply(reply) + "\n") == M.Receive(m, i, HeardReply(reply))
  {
    ReplyArrives(reply);
  }

  // ---------- connections as text ----------

  /** The bytes a slave sends back. */
  function Sent(replies: seq<Reply>): string {
    if replies == [] then "" else PrintReply(replies[0]) + "\n" + Sent(replies[1..])
  }

  /** A delivery of module Cluster is the slave's work on the text of the line: the slave it leaves, and
      the replies whose text it sends back. */
  lemma DeliveryIsText(s: Cluster, i: nat, canOpen: bool)
    requires Shape(s) && i < |s.slaves| && s.master.out[i] != []
    ensures |PrintLine(s.master.out[i][0]) + "\n"| >= 2
    ensures HearLine(PrintLine(s.master.out[i][0]) + "\n") != Throws
    ensures var s' := Deliver(s, i, canOpen);
            && s.replies[i] <= s'.replies[i]
            && SlaveOnText(s.slaves[i], PrintLine(s.master.out[i][0]) + "\n", s.debugLevel, canOpen)
               == (s'.slaves[i], Sent(s'.replies[i][|s.replies[i]|..]))
  {
    var line := s.master.out[i][0];
    var e := S.Receive(s.slaves[i], HeardLine(line), s.debugLevel, canOpen);
    SlaveTextRefines(s.slaves[i], line, s.debugLevel, canOpen);
    if e.reply.Some? {
      assert (s.replies[i] + [e.reply.value])[|s.replies[i]|..] == [e.reply.value];
      assert Sent([e.reply.value]) == PrintReply(e.reply.value) + "\n";
    } else {
      assert s.replies[i][|s.replies[i]|..] == [];
    }
  }

  /** And the master's step on a reply is its work on the text of the reply. */
  lemma ReplyIsText(s: Cluster, i: nat)
    requires Shape(s) && Enabled(s, ToMaster(i))
    ensures |PrintReply(s.replies[i][0]) + "\n"| >= 2 && HearReply(PrintReply(s.replies[i][0]) + "\n") != Throws
    ensures Do(s, ToMaster(i)) ==
            Absorb(DropReply(s, i), MasterOnText(s.master, i, PrintReply(s.replies[i][0]) + "\n"))
  {
    MasterTextRefines(s.master, i, s.replies[i][0]);
  }
}
