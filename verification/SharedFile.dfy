/**
 File accesses by any number of threads, line by line and piece by piece, behind the readers/writer lock
 of module Lock: they behave as if each had run alone, one after the other.
 */
module SharedFile {
  import opened Text
  import opened Store
  import opened Lock

  // ---------- one access after the other ----------

  /** What an access answers when it has the file to itself, and the file it leaves. */
  function Alone(f: string, job: Job, didOpen: bool): (Outcome, string) {
    match job
    case ReadJob(number) => (ReadDone(if didOpen then Read(f, number) else ErrorRead), f)
    case WriteJob(msg) => (SaveDone(SaveWrite(f, msg, didOpen).result), SaveWrite(f, msg, didOpen).file)
    case ReplaceJob(msg) => (SaveDone(SaveReplace(f, msg, didOpen).result), SaveReplace(f, msg, didOpen).file)
  }

  /** The version of the file after the accesses of the log. */
  function Version(f: string, log: seq<Entry>): string {
    if log == [] then f
    else Alone(Version(f, log[..|log| - 1]), log[|log| - 1].job, log[|log| - 1].didOpen).1
  }

  /** Every access of the log answered what it answers alone on the version before it. */
  ghost predicate Serial(f: string, log: seq<Entry>) {
    forall k :: 0 <= k < |log| ==> log[k].outcome == Alone(Version(f, log[..k]), log[k].job, log[k].didOpen).0
  }

  lemma LogAppend(f: string, log: seq<Entry>, e: Entry)
    requires Serial(f, log) && e.outcome == Alone(Version(f, log), e.job, e.didOpen).0
    ensures Serial(f, log + [e]) && Version(f, log + [e]) == Alone(Version(f, log), e.job, e.didOpen).1
  {
    var log' := log + [e];
    assert log'[..|log|] == log;
    forall k | 0 <= k < |log'| ensures log'[k].outcome == Alone(Version(f, log'[..k]), log'[k].job, log'[k].didOpen).0 {
      assert log'[..k] == log[..k];
    }
  }

  // ---------- the invariant ----------

  /** What a thread inside knows of the file, when `now` is the version after the log. */
  ghost predicate Knows(file: string, now: string, th: Thread) {
    match th.pc
    case OpenRead => true
    case ScanRead(pos) =>
      th.job.ReadJob? && pos <= |file| && ReadFrom(file, pos, th.job.number) == Read(file, th.job.number)
    case OpenWrite => file == now
    case AppendText => th.job.WriteJob? && file == now
    case AppendNewline => th.job.WriteJob? && file == now + th.job.msg
    case ScanReplace(pos) =>
      && th.job.ReplaceJob? && file == now && pos <= |file|
      && ReplaceFrom(now, pos, th.job.msg) == ReplaceFrom(now, 0, th.job.msg)
    case WriteText(start, oldLength) =>
      && th.job.ReplaceJob? && file == now && start <= |file|
      && ReplaceFrom(now, 0, th.job.msg) ==
         SaveOutcome(Saved, Overwrite(now, start, th.job.msg
             + Spaces(if oldLength > |th.job.msg| then oldLength - |th.job.msg| else 0)))
    case WritePad(at, n) =>
      && th.job.ReplaceJob? && at <= |file|
      && ReplaceFrom(now, 0, th.job.msg) == SaveOutcome(Saved, Overwrite(file, at, Spaces(n)))
    case PostWrite => file == now
    case _ => true
  }

  /** Readers read and writers write. */
  ghost predicate KeepsJob(th: Thread) {
    && (HoldsMutex(th.pc) || Reading(th.pc) || th.pc.LockIn? ==> th.job.ReadJob?)
    && (Writing(th.pc) || th.pc.WaitWrite? ==> !th.job.ReadJob?)
  }

  ghost predicate FileInv(s: System, f: string) {
    && LockInv(s) && Serial(f, s.log)
    && (forall t :: 0 <= t < |s.threads| ==> KeepsJob(s.threads[t]) && Knows(s.file, Version(f, s.log), s.threads[t]))
    && ((forall t :: 0 <= t < |s.threads| ==> !Writing(s.threads[t].pc)) ==> s.file == Version(f, s.log))
  }

  lemma ReaderSeesVersion(s: System, f: string, t: nat)
    requires FileInv(s, f) && t < |s.threads| && Reading(s.threads[t].pc)
    ensures s.file == Version(f, s.log)
    ensures forall u :: 0 <= u < |s.threads| ==> !Writing(s.threads[u].pc)
  {
    assert Local(s, s.threads[t].pc);
    forall u | 0 <= u < |s.threads| ensures !Writing(s.threads[u].pc) {
      if Writing(s.threads[u].pc) {
        WriterIsAlone(s, u);
      }
    }
  }

  /** A reader moves on, or is done with what the version answers. */
  lemma ReadStep(s: System, f: string, t: nat, canOpen: bool, s': System)
    requires FileInv(s, f) && t < |s.threads| && Reading(s.threads[t].pc) && s.threads[t].pc != LockOut
    requires s' == FileStep(s, t, canOpen) && LockInv(s')
    ensures FileInv(s', f)
  {
    ReaderSeesVersion(s, f, t);
    assert Knows(s.file, Version(f, s.log), s.threads[t]);
    assert KeepsJob(s.threads[t]);
    ReadStays(s, t, canOpen);
    ReadAnswers(s, f, t, canOpen, s');
    forall u | 0 <= u < |s'.threads| && u != t
      ensures KeepsJob(s'.threads[u]) && Knows(s'.file, Version(f, s'.log), s'.threads[u])
    {
      assert Knows(s.file, Version(f, s.log), s.threads[u]);
    }
  }

  lemma ReadAnswers(s: System, f: string, t: nat, canOpen: bool, s': System)
    requires Serial(f, s.log) && s.file == Version(f, s.log)
    requires t < |s.threads| && Reading(s.threads[t].pc) && s.threads[t].pc != LockOut
    requires s.threads[t].job.ReadJob? && Knows(s.file, Version(f, s.log), s.threads[t])
    requires s' == FileStep(s, t, canOpen)
    ensures Serial(f, s'.log) && Version(f, s'.log) == Version(f, s.log) && s'.file == s.file
    ensures |s'.threads| == |s.threads| && Knows(s'.file, Version(f, s'.log), s'.threads[t])
  {
    match s.threads[t].pc {
      case OpenRead =>
        if !canOpen {
          ReadDoneAnswers(s, f, t, false, ErrorRead, s');
        }
      case ScanRead(pos) =>
        ReadLineAnswers(s, f, t, pos, s.threads[t].job.number, s');
    }
  }

  lemma ReadDoneAnswers(s: System, f: string, t: nat, didOpen: bool, reply: ReadReply, s': System)
    requires Serial(f, s.log) && t < |s.threads| && s.threads[t].job.ReadJob?
    requires Alone(Version(f, s.log), s.threads[t].job, didOpen).0 == ReadDone(reply)
    requires s' == Done(s, t, didOpen, ReadDone(reply))
    ensures Serial(f, s'.log) && Version(f, s'.log) == Version(f, s.log) && s'.file == s.file
    ensures |s'.threads| == |s.threads| && Knows(s'.file, Version(f, s'.log), s'.threads[t])
  {
    LogAppend(f, s.log, s'.log[|s.log|]);
  }

  lemma ReadLineAnswers(s: System, f: string, t: nat, pos: nat, number: string, s': System)
    requires Serial(f, s.log) && s.file == Version(f, s.log)
    requires t < |s.threads| && s.threads[t] == Thread(ScanRead(pos), ReadJob(number))
    requires pos <= |s.file| && ReadFrom(s.file, pos, number) == Read(s.file, number)
    requires s' == ReadLine(s, t, pos, number)
    ensures Serial(f, s'.log) && Version(f, s'.log) == Version(f, s.log) && s'.file == s.file
    ensures |s'.threads| == |s.threads| && Knows(s'.file, Version(f, s'.log), s'.threads[t])
  {
    if pos >= |s.file| {
      ReadDoneAnswers(s, f, t, true, UnknownNumber(number), s');
    } else if Answers(LineAt(s.file, pos), number) {
      ReadDoneAnswers(s, f, t, true, Message(LineAt(s.file, pos)), s');
    }
  }

  /** A writer moves on, or is done with the next version in the file. */
  lemma WriteStep(s: System, f: string, t: nat, canOpen: bool, s': System)
    requires FileInv(s, f) && t < |s.threads| && Writing(s.threads[t].pc) && s.threads[t].pc != PostWrite
    requires s' == FileStep(s, t, canOpen) && LockInv(s')
    ensures FileInv(s', f)
  {
    WriterIsAlone(s, t);
    assert Knows(s.file, Version(f, s.log), s.threads[t]);
    assert KeepsJob(s.threads[t]);
    WriteStays(s, t, canOpen);
    WriteLands(s, f, t, canOpen, s');
    forall u | 0 <= u < |s'.threads| && u != t
      ensures KeepsJob(s'.threads[u]) && Knows(s'.file, Version(f, s'.log), s'.threads[u])
    {
      assert KeepsJob(s.threads[u]);
    }
  }

  /** What the thread that wrote has to see to. */
  ghost predicate Lands(s: System, f: string, t: nat, s': System)
    requires t < |s.threads|
  {
    Serial(f, s'.log) && |s'.threads| == |s.threads| && Knows(s'.file, Version(f, s'.log), s'.threads[t])
  }

  /** The access is complete and the file is what it makes of the version. */
  lemma DoneLands(s: System, f: string, t: nat, file: string, didOpen: bool, result: SaveResult, s': System)
    requires Serial(f, s.log) && t < |s.threads|
    requires Alone(Version(f, s.log), s.threads[t].job, didOpen) == (SaveDone(result), file)
    requires s' == Done(s.(file := file), t, didOpen, SaveDone(result))
    ensures Lands(s, f, t, s')
  {
    LogAppend(f, s.log, s'.log[|s.log|]);
  }

  lemma AppendLands(s: System, f: string, t: nat, canOpen: bool, s': System)
    requires Serial(f, s.log) && t < |s.threads| && !s.threads[t].job.ReadJob?
    requires s.threads[t].pc in {OpenWrite, AppendText, AppendNewline}
    requires Knows(s.file, Version(f, s.log), s.threads[t]) && s' == FileStep(s, t, canOpen)
    ensures Lands(s, f, t, s')
  {
    if s.threads[t].pc == OpenWrite && !canOpen {
      DoneLands(s, f, t, s.file, false, OpenFailed, s');
    } else if s.threads[t].pc == AppendNewline {
      DoneLands(s, f, t, s.file + "\n", true, Saved, s');
    }
  }

  /** The text is written; spaces follow when the old line was longer. */
  lemma TextLands(s: System, f: string, t: nat, start: nat, oldLength: nat, msg: string, s': System)
    requires Serial(f, s.log) && t < |s.threads| && s.threads[t].job == ReplaceJob(msg)
    requires s.file == Version(f, s.log) && start <= |s.file|
    requires var spaces := if oldLength > |msg| then oldLength - |msg| else 0;
             ReplaceFrom(s.file, 0, msg) == SaveOutcome(Saved, Overwrite(s.file, start, msg + Spaces(spaces)))
    requires var s1 := s.(file := Overwrite(s.file, start, msg));
             s' == if oldLength > |msg| then At(s1, t, WritePad(start + |msg|, oldLength - |msg|))
                   else Done(s1, t, true, SaveDone(Saved))
    ensures Lands(s, f, t, s')
  {
    if oldLength > |msg| {
      OverwriteTwice(s.file, start, msg, Spaces(oldLength - |msg|));
    } else {
      assert msg + Spaces(0) == msg;
      DoneLands(s, f, t, Overwrite(s.file, start, msg), true, Saved, s');
    }
  }

  lemma PadLands(s: System, f: string, t: nat, at: nat, n: nat, canOpen: bool, s': System)
    requires Serial(f, s.log) && t < |s.threads| && s.threads[t].pc == WritePad(at, n)
    requires Knows(s.file, Version(f, s.log), s.threads[t]) && s' == FileStep(s, t, canOpen)
    ensures Lands(s, f, t, s')
  {
    DoneLands(s, f, t, Overwrite(s.file, at, Spaces(n)), true, Saved, s');
  }

  lemma TextStepLands(s: System, f: string, t: nat, canOpen: bool, s': System)
    requires Serial(f, s.log) && t < |s.threads| && s.threads[t].pc.WriteText?
    requires Knows(s.file, Version(f, s.log), s.threads[t]) && s' == FileStep(s, t, canOpen)
    ensures Lands(s, f, t, s')
  {
    TextLands(s, f, t, s.threads[t].pc.start, s.threads[t].pc.oldLength, s.threads[t].job.msg, s');
  }

  lemma SearchStepLands(s: System, f: string, t: nat, canOpen: bool, s': System)
    requires Serial(f, s.log) && t < |s.threads| && s.threads[t].pc.ScanReplace?
    requires Knows(s.file, Version(f, s.log), s.threads[t]) && s' == FileStep(s, t, canOpen)
    ensures Lands(s, f, t, s')
  {
    ReplaceLineLands(s, f, t, s.threads[t].pc.pos, s.threads[t].job.msg, s');
  }

  lemma WriteLands(s: System, f: string, t: nat, canOpen: bool, s': System)
    requires Serial(f, s.log)
    requires t < |s.threads| && Writing(s.threads[t].pc) && s.threads[t].pc != PostWrite
    requires !s.threads[t].job.ReadJob? && Knows(s.file, Version(f, s.log), s.threads[t])
    requires s' == FileStep(s, t, canOpen)
    ensures Lands(s, f, t, s')
  {
    if s.threads[t].pc.ScanReplace? {
      SearchStepLands(s, f, t, canOpen, s');
    } else if s.threads[t].pc.WriteText? {
      TextStepLands(s, f, t, canOpen, s');
    } else if s.threads[t].pc.WritePad? {
      PadLands(s, f, t, s.threads[t].pc.at, s.threads[t].pc.spaces, canOpen, s');
    } else {
      AppendLands(s, f, t, canOpen, s');
    }
  }

  /** What one getline of the search finds out. */
  lemma SearchStep(now: string, pos: nat, msg: string)
    requires pos < |now|
    ensures var line := LineAt(now, pos);
            if NumberOf(line) != NumberOf(msg) then
              ReplaceFrom(now, pos, msg) == ReplaceFrom(now, NextLine(now, pos), msg)
            else if LineEnd(now, pos) == |now| then
              ReplaceFrom(now, pos, msg) == SaveOutcome(Saved, now)
            else
              ReplaceFrom(now, pos, msg) ==
              SaveOutcome(Saved, Overwrite(now, pos, msg + Spaces(if |line| > |msg| then |line| - |msg| else 0)))
  {
  }

  lemma ReplaceLineLands(s: System, f: string, t: nat, pos: nat, msg: string, s': System)
    requires Serial(f, s.log) && t < |s.threads| && s.threads[t] == Thread(ScanReplace(pos), ReplaceJob(msg))
    requires Knows(s.file, Version(f, s.log), s.threads[t]) && s' == ReplaceLine(s, t, pos, msg)
    ensures Lands(s, f, t, s')
  {
    var now := Version(f, s.log);
    if pos >= |now| {
      DoneLands(s, f, t, now, true, NotFound, s');
    } else {
      SearchStep(now, pos, msg);
      if NumberOf(LineAt(now, pos)) == NumberOf(msg) && LineEnd(now, pos) == |now| {
        DoneLands(s, f, t, now, true, Saved, s');
      }
    }
  }

  lemma OtherStep(s: System, f: string, t: nat, move: Move, s': System)
    requires FileInv(s, f) && CanMove(s, t, move)
    requires HoldsMutex(s.threads[t].pc) || s.threads[t].pc in {Outside, LockIn, LockOut, WaitWrite, PostWrite}
    requires s' == Do(s, t, move) && LockInv(s')
    ensures FileInv(s', f)
  {
    assert KeepsJob(s.threads[t]) && Knows(s.file, Version(f, s.log), s.threads[t]);
    OtherStays(s, t, move, s');
    forall u | 0 <= u < |s'.threads| && u != t
      ensures KeepsJob(s'.threads[u]) && Knows(s'.file, Version(f, s'.log), s'.threads[u])
    {
      assert Knows(s.file, Version(f, s.log), s.threads[u]);
    }
    if s.threads[t].pc.WaitWrite? {
      NobodyInside(s, t);
    }
  }

  lemma OtherStays(s: System, t: nat, move: Move, s': System)
    requires CanMove(s, t, move) && KeepsJob(s.threads[t])
    requires HoldsMutex(s.threads[t].pc) || s.threads[t].pc in {Outside, LockIn, LockOut, WaitWrite, PostWrite}
    requires s' == Do(s, t, move)
    ensures Steps(s, t, s') && s'.file == s.file && s'.log == s.log && KeepsJob(s'.threads[t])
    ensures Writing(s'.threads[t].pc) ==> s.threads[t].pc.WaitWrite? && s'.threads[t].pc.OpenWrite? && s.wrt > 0
    ensures Writing(s.threads[t].pc) ==> s.threads[t].pc.PostWrite?
    ensures !s'.threads[t].pc.ScanRead?
  {
  }

  /** The semaphore is free: no writer is inside. */
  lemma NobodyInside(s: System, t: nat)
    requires LockInv(s) && s.wrt > 0
    ensures forall u :: 0 <= u < |s.threads| ==> !Writing(s.threads[u].pc)
  {
    CountNone(s.threads, Writer);
    forall u | 0 <= u < |s.threads| ensures !Writing(s.threads[u].pc) {
      assert !Plays(s.threads[u].pc, Writer);
    }
  }

  lemma FileStepKeeps(s: System, f: string, t: nat, move: Move)
    requires FileInv(s, f) && CanMove(s, t, move)
    ensures FileInv(Do(s, t, move), f)
  {
    LockStep(s, t, move);
    var pc, s' := s.threads[t].pc, Do(s, t, move);
    if HoldsMutex(pc) || pc in {Outside, LockIn, LockOut, WaitWrite, PostWrite} {
      OtherStep(s, f, t, move, s');
    } else if Reading(pc) {
      ReadStep(s, f, t, move.canOpen, s');
    } else {
      WriteStep(s, f, t, move.canOpen, s');
    }
  }

  lemma {:induction false} FileRun(s: System, f: string, turns: seq<Turn>)
    requires FileInv(s, f) && IsRun(s, turns)
    ensures FileInv(Final(s, turns), f)
    decreases |turns|
  {
    if turns != [] {
      FileStepKeeps(s, f, turns[0].thread, turns[0].move);
      FileRun(Do(s, turns[0].thread, turns[0].move), f, turns[1..]);
    }
  }

  // ---------- what every run guarantees ----------

  /** Concurrent file access is serialisable: in any run of any number of threads every completed READ,
      WRITE and REPLACE answered exactly what it answers alone on the version that the accesses
      completed before it had made; while no writer is inside, the file is the last version. */
  lemma Serialisable(s: System, turns: seq<Turn>)
    requires Initial(s) && IsRun(s, turns)
    ensures var e := Final(s, turns);
            && Serial(s.file, e.log)
            && ((forall t :: 0 <= t < |e.threads| ==> !Writing(e.threads[t].pc)) ==> e.file == Version(s.file, e.log))
  {
    InitialLock(s);
    FileRun(s, s.file, turns);
  }

  /** A completed READ never saw a half-done append or replace. */
  lemma ReadSeesOneVersion(s: System, turns: seq<Turn>, k: nat)
    requires Initial(s) && IsRun(s, turns)
    requires k < |Final(s, turns).log| && Final(s, turns).log[k].job.ReadJob?
    ensures var log := Final(s, turns).log;
            log[k].outcome == ReadDone(if log[k].didOpen then Read(Version(s.file, log[..k]),
                log[k].job.number) else ErrorRead)
  {
    Serialisable(s, turns);
  }

  // ---------- no access is lost ----------

  /** The accesses thread t began, in order. */
  function BegunBy(turns: seq<Turn>, t: nat): seq<Job> {
    if turns == [] then []
    else (if turns[0].thread == t && turns[0].move.Begin? then [turns[0].move.job] else []) + BegunBy(turns[1..], t)
  }

  /** The completed accesses of thread t, in order. */
  function LoggedBy(log: seq<Entry>, t: nat): seq<Job> {
    if log == [] then []
    else
      var before, e := LoggedBy(log[..|log| - 1], t), log[|log| - 1];
      if e.thread == t then before + [e.job] else before
  }

  /** The access a thread is busy with. */
  function Pending(th: Thread): seq<Job> {
    if Unfinished(th.pc) then [th.job] else []
  }

  /** A step of thread t begins an access, completes the one it is busy with, or neither. */
  ghost predicate Logs(s: System, t: nat, s': System, begun: seq<Job>) {
    && Steps(s, t, s')
    && (|| (s'.log == s.log && Pending(s'.threads[t]) == Pending(s.threads[t]) + begun)
        || (|s'.log| == |s.log| + 1 && s'.log == s.log + [s'.log[|s.log|]] && s'.log[|s.log|].thread == t
            && Pending(s.threads[t]) == [s'.log[|s.log|].job] && Pending(s'.threads[t]) == [] && begun == []))
  }

  function JobOf(move: Move): seq<Job> {
    if move.Begin? then [move.job] else []
  }

  lemma LockLogs(s: System, t: nat, move: Move)
    requires CanMove(s, t, move)
    requires HoldsMutex(s.threads[t].pc) || s.threads[t].pc in {Outside, LockIn, LockOut, WaitWrite, PostWrite}
    ensures Logs(s, t, Do(s, t, move), JobOf(move))
  {
  }

  lemma ReadLogs(s: System, t: nat, canOpen: bool)
    requires t < |s.threads| && Reading(s.threads[t].pc) && !s.threads[t].pc.LockOut?
    requires s.threads[t].job.ReadJob?
    ensures Logs(s, t, FileStep(s, t, canOpen), [])
  {
  }

  lemma WriteLogs(s: System, t: nat, canOpen: bool)
    requires t < |s.threads| && Writing(s.threads[t].pc) && !s.threads[t].pc.PostWrite?
    ensures Logs(s, t, FileStep(s, t, canOpen), [])
  {
  }

  lemma StepLogs(s: System, t: nat, move: Move)
    requires CanMove(s, t, move) && KeepsJob(s.threads[t])
    ensures Logs(s, t, Do(s, t, move), JobOf(move))
  {
    var pc := s.threads[t].pc;
    if HoldsMutex(pc) || pc in {Outside, LockIn, LockOut, WaitWrite, PostWrite} {
      LockLogs(s, t, move);
    } else if Reading(pc) {
      ReadLogs(s, t, move.canOpen);
    } else {
      WriteLogs(s, t, move.canOpen);
    }
  }

  /** The accesses of thread u so far. */
  function AccessesOf(s: System, u: nat): seq<Job>
    requires u < |s.threads|
  {
    LoggedBy(s.log, u) + Pending(s.threads[u])
  }

  lemma AccessesMove(s: System, t: nat, s': System, begun: seq<Job>, u: nat)
    requires Logs(s, t, s', begun) && u < |s.threads|
    ensures AccessesOf(s', u) == AccessesOf(s, u) + if u == t then begun else []
  {
    if s'.log != s.log {
      assert s'.log[..|s'.log| - 1] == s.log;
    }
  }

  lemma TurnLogs(s: System, f: string, turn: Turn, s': System, u: nat)
    requires FileInv(s, f) && CanMove(s, turn.thread, turn.move) && s' == Do(s, turn.thread, turn.move)
    requires u < |s.threads|
    ensures FileInv(s', f) && |s'.threads| == |s.threads|
    ensures AccessesOf(s', u) == AccessesOf(s, u) + BegunBy([turn], u)
  {
    FileStepKeeps(s, f, turn.thread, turn.move);
    StepLogs(s, turn.thread, turn.move);
    AccessesMove(s, turn.thread, s', JobOf(turn.move), u);
    assert BegunBy([turn], u) == if u == turn.thread then JobOf(turn.move) else [];
  }

  lemma BegunFirst(turns: seq<Turn>, u: nat)
    requires turns != []
    ensures BegunBy(turns, u) == BegunBy([turns[0]], u) + BegunBy(turns[1..], u)
  {
    var one := [turns[0]];
    assert one[1..] == [] && one[0] == turns[0];
  }

  lemma Regroup(a: seq<Job>, b: seq<Job>, c: seq<Job>)
    ensures a + (b + c) == (a + b) + c
  {
  }

  lemma {:induction false} LoggedOrBusy(s: System, f: string, turns: seq<Turn>, u: nat)
    requires FileInv(s, f) && IsRun(s, turns) && u < |s.threads|
    ensures |Final(s, turns).threads| == |s.threads|
    ensures AccessesOf(Final(s, turns), u) == AccessesOf(s, u) + BegunBy(turns, u)
    decreases |turns|
  {
    if turns != [] {
      var s1 := Do(s, turns[0].thread, turns[0].move);
      TurnLogs(s, f, turns[0], s1, u);
      LoggedOrBusy(s1, f, turns[1..], u);
      BegunFirst(turns, u);
      Regroup(AccessesOf(s, u), BegunBy([turns[0]], u), BegunBy(turns[1..], u));
    }
  }

  /** No access is lost or done twice: for each thread the accesses in the log, followed by the one it is
      still busy with, are exactly the accesses it began, in the order in which it began them. */
  lemma EveryAccessIsLogged(s: System, turns: seq<Turn>, u: nat)
    requires Initial(s) && IsRun(s, turns) && u < |s.threads|
    ensures var e := Final(s, turns);
            && |e.threads| == |s.threads|
            && LoggedBy(e.log, u) + Pending(e.threads[u]) == BegunBy(turns, u)
  {
    InitialLock(s);
    LoggedOrBusy(s, s.file, turns, u);
  }
}
