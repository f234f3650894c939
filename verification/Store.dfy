/**
 bbfile at the level of its bytes: append, in-place replace with padding, first-match lookup and
 the backward scan for the last line. The functions say what each file operation answers and
 leaves in the file; class `BBFile` does the work in the loops of msg.cpp and config.cpp. The
 lemmas relate the bytes to the list of lines they stand for.
 */
module Store {
  import opened Text

  /** 0, -1 and -2 of save_msg_replace; save_msg_write answers only Saved and OpenFailed. */
  datatype SaveResult = Saved | NotFound | OpenFailed

  datatype ReadReply = Message(line: string) | UnknownNumber(number: string) | ErrorRead

  datatype SaveOutcome = SaveOutcome(result: SaveResult, file: string)

  // ---------- getline ----------

  /** Where the line that starts at p ends: at its newline, or at the end of the file. */
  function LineEnd(f: string, p: nat): (e: nat)
    requires p <= |f|
    ensures p <= e <= |f|
  {
    Find(f, '\n', p)
  }

  function LineAt(f: string, p: nat): string
    requires p <= |f|
  {
    f[p..LineEnd(f, p)]
  }

  /** The position after one getline at p. */
  function NextLine(f: string, p: nat): (q: nat)
    requires p < |f|
    ensures p < q <= |f|
  {
    if LineEnd(f, p) < |f| then LineEnd(f, p) + 1 else |f|
  }

  /** Everything `while(getline(...))` reads from p on. */
  function Lines(f: string, p: nat): seq<string>
    requires p <= |f|
    decreases |f| - p
  {
    if p == |f| then [] else [LineAt(f, p)] + Lines(f, NextLine(f, p))
  }

  predicate Terminated(f: string) {
    f == "" || f[|f| - 1] == '\n'
  }

  // ---------- what the operations answer and write ----------

  predicate Answers(line: string, number: string) {
    HasSlash(line) && NumberOf(line) == number
  }

  function ReadFrom(f: string, p: nat, number: string): ReadReply
    requires p <= |f|
    decreases |f| - p
  {
    if p == |f| then UnknownNumber(number)
    else if Answers(LineAt(f, p), number) then Message(LineAt(f, p))
    else ReadFrom(f, NextLine(f, p), number)
  }

  function Read(f: string, number: string): ReadReply {
    ReadFrom(f, 0, number)
  }

  function Appended(f: string, msg: string): string {
    f + msg + "\n"
  }

  /** Bytes written at `at`; writing past the end makes the file longer. */
  function Overwrite(f: string, at: nat, bytes: string): (g: string)
    requires at <= |f|
    ensures |g| == if at + |bytes| <= |f| then |f| else at + |bytes|
    ensures forall k :: 0 <= k < |g| ==> g[k] == if at <= k < at + |bytes| then bytes[k - at] else f[k]
  {
    if at + |bytes| <= |f| then f[..at] + bytes + f[at + |bytes|..] else f[..at] + bytes
  }

  /** A message with the spaces save_msg_replace writes after one that is shorter than the old line. */
  function Padded(msg: string, line: string): string {
    if |line| > |msg| then msg + Spaces(|line| - |msg|) else msg
  }

  /** The file once the line at p has been written over. After a getline that stopped at the end of
      the file tellg fails and every later write fails with it. */
  function WriteOver(f: string, p: nat, msg: string): string
    requires p <= |f|
  {
    if LineEnd(f, p) == |f| then f else Overwrite(f, p, Padded(msg, LineAt(f, p)))
  }

  function ReplaceFrom(f: string, p: nat, msg: string): SaveOutcome
    requires p <= |f|
    decreases |f| - p
  {
    if p == |f| then SaveOutcome(NotFound, f)
    else if NumberOf(LineAt(f, p)) == NumberOf(msg) then SaveOutcome(Saved, WriteOver(f, p, msg))
    else ReplaceFrom(f, NextLine(f, p), msg)
  }

  /** save_msg_write */
  function SaveWrite(f: string, msg: string, canOpen: bool): SaveOutcome {
    if canOpen then SaveOutcome(Saved, Appended(f, msg)) else SaveOutcome(OpenFailed, f)
  }

  /** save_msg_replace */
  function SaveReplace(f: string, msg: string, canOpen: bool): SaveOutcome {
    if canOpen then ReplaceFrom(f, 0, msg) else SaveOutcome(OpenFailed, f)
  }

  // ---------- the backward scan of get_last_line ----------

  /** Where the scan stops when the next byte it reads is the one at p. */
  function ScanBack(f: string, p: nat): (q: nat)
    requires p < |f|
    ensures q <= p + 1
    decreases p
  {
    if p == 0 then 0
    else if f[p] == '\n' then p + 1
    else ScanBack(f, p - 1)
  }

  /** The line get_last_line answers. Two bytes are needed to seek two bytes back from the end. */
  function LastLineScan(f: string): string {
    if |f| < 2 then "" else LineAt(f, ScanBack(f, |f| - 2))
  }

  /** The last line of a forward reading, "" when there is none. */
  function LastLine(f: string): string {
    var ls := Lines(f, 0);
    if ls == [] then "" else ls[|ls| - 1]
  }

  /** Writing two pieces one after the other writes their concatenation. */
  lemma OverwriteTwice(f: string, at: nat, a: string, b: string)
    requires at <= |f|
    ensures Overwrite(Overwrite(f, at, a), at + |a|, b) == Overwrite(f, at, a + b)
  {
  }

  // ---------- the file object ----------

  /** bbfile on disk. `canOpen` says of each call whether fstream.open succeeds. */
  class BBFile {
    var bytes: string

    constructor (bytes: string)
      ensures this.bytes == bytes
    {
      this.bytes := bytes;
    }

    /** The READ branch of process_client_msg. */
    method ReadMessage(number: string, canOpen: bool) returns (reply: ReadReply)
      ensures reply == if canOpen then Read(bytes, number) else ErrorRead
    {
      if !canOpen {
        return ErrorRead;
      }
      var pos := 0;
      while pos < |bytes|
        invariant pos <= |bytes|
        invariant ReadFrom(bytes, pos, number) == Read(bytes, number)
        decreases |bytes| - pos
      {
        var line := LineAt(bytes, pos);
        var slash := Find(line, '/', 0);
        if slash != |line| && number == line[..slash] {
          return Message(line);
        }
        pos := NextLine(bytes, pos);
      }
      reply := UnknownNumber(number);
    }

    method AppendMessage(msg: string, canOpen: bool) returns (ret: SaveResult)
      modifies this
      ensures SaveOutcome(ret, bytes) == SaveWrite(old(bytes), msg, canOpen)
    {
      if canOpen {
        bytes := bytes + msg;
        bytes := bytes + "\n";
        ret := Saved;
      } else {
        ret := OpenFailed;
      }
    }

    method ReplaceMessage(msg: string, canOpen: bool) returns (ret: SaveResult)
      modifies this
      ensures SaveOutcome(ret, bytes) == SaveReplace(old(bytes), msg, canOpen)
    {
      var numberInput := msg[..Find(msg, '/', 0)];
      if !canOpen {
        return OpenFailed;
      }
      ret := NotFound;
      var pos := 0;
      while pos < |bytes|
        invariant pos <= |bytes| && bytes == old(bytes) && ret == NotFound
        invariant ReplaceFrom(bytes, pos, msg) == SaveReplace(old(bytes), msg, true)
        decreases |bytes| - pos
      {
        var line := LineAt(bytes, pos);
        var start := pos;
        var atEnd := LineEnd(bytes, pos) == |bytes|;
        pos := NextLine(bytes, pos);
        var numberSaved := line[..Find(line, '/', 0)];
        if numberInput == numberSaved {
          if !atEnd {
            bytes := Overwrite(bytes, start, msg);
            if |line| > |msg| {
              OverwriteTwice(old(bytes), start, msg, Spaces(|line| - |msg|));
              bytes := Overwrite(bytes, start + |msg|, Spaces(|line| - |msg|));
            }
          }
          return Saved;
        }
      }
    }

    /** get_last_line */
    method GetLastLine(canOpen: bool) returns (lastline: string)
      ensures lastline == if canOpen then LastLineScan(bytes) else ""
    {
      if !canOpen || |bytes| < 2 {
        return "";
      }
      var pos := |bytes| - 2;
      var keeplooping := true;
      while keeplooping
        invariant 0 <= pos <= |bytes|
        invariant keeplooping ==> pos < |bytes| && ScanBack(bytes, pos) == ScanBack(bytes, |bytes| - 2)
        invariant !keeplooping ==> pos == ScanBack(bytes, |bytes| - 2)
        decreases if keeplooping then pos + 1 else 0
      {
        var ch := bytes[pos];
        pos := pos + 1;
        if pos <= 1 {
          pos := 0;
          keeplooping := false;
        } else if ch == '\n' {
          keeplooping := false;
        } else {
          pos := pos - 2;
        }
      }
      lastline := LineAt(bytes, pos);
    }
  }
}
