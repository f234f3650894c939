/**
 The readers/writer lock around bbfile, with any number of threads. Every statement of read_start,
 read_end, write_start and write_end is a step of its own, and so is every line read from the file and
 every piece written to it; the threads take their steps in any order.
 */
module Lock {
  import opened Wrappers
  import opened Text
  import opened Store

  datatype Job = ReadJob(number: string) | WriteJob(msg: string) | ReplaceJob(msg: string)

  /** The statement a thread executes next. */
  datatype Pc =
    | Outside
    // read_start
    | LockIn | Increment | TestFirst | WaitIn | UnlockIn
    // the READ branch of process_client_msg
    | OpenRead | ScanRead(pos: nat)
    // read_end
    | LockOut | Decrement | TestLast | PostOut | UnlockOut
    // write_start
    | WaitWrite
    // save_msg_write and save_msg_replace
    | OpenWrite | AppendText | AppendNewline
    | ScanReplace(pos: nat) | WriteText(start: nat, oldLength: nat) | WritePad(at: nat, spaces: nat)
    // write_end
    | PostWrite

  datatype Thread = Thread(pc: Pc, job: Job)

  datatype Outcome = ReadDone(reply: ReadReply) | SaveDone(result: SaveResult)

  /** One file access, entered in the log when it has read or written its last. */
  datatype Entry = Entry(thread: nat, job: Job, didOpen: bool, outcome: Outcome)

  /** readerMutex, readerCnt and the semaphore wrt, with the file they protect. Whether the readers as a
      group hold the semaphore, and the log, are history. */
  datatype System = System(
    mutex: Option<nat>, readerCnt: int, wrt: int, threads: seq<Thread>, file: string,
    groupHolds: bool, log: seq<Entry>)

  datatype Move = Begin(job: Job) | Go(canOpen: bool)

  // ---------- steps ----------

  predicate CanMove(s: System, t: nat, move: Move) {
    && t < |s.threads|
    && match s.threads[t].pc
       case Outside => move.Begin?
       case LockIn => move.Go? && s.mutex == None
       case LockOut => move.Go? && s.mutex == None
       case WaitIn => move.Go? && s.wrt > 0
       case WaitWrite => move.Go? && s.wrt > 0
       case _ => move.Go?
  }

  function At(s: System, t: nat, pc: Pc): System
    requires t < |s.threads|
  {
    s.(threads := s.threads[t := s.threads[t].(pc := pc)])
  }

  /** The access is complete. */
  function Done(s: System, t: nat, didOpen: bool, outcome: Outcome): System
    requires t < |s.threads|
  {
    var s1 := s.(log := s.log + [Entry(t, s.threads[t].job, didOpen, outcome)]);
    At(s1, t, if outcome.ReadDone? then LockOut else PostWrite)
  }

  /** One getline of READ and what follows it. */
  function ReadLine(s: System, t: nat, pos: nat, number: string): System
    requires t < |s.threads|
  {
    if pos >= |s.file| then Done(s, t, true, ReadDone(UnknownNumber(number)))
    else if Answers(LineAt(s.file, pos), number) then Done(s, t, true, ReadDone(Message(LineAt(s.file, pos))))
    else At(s, t, ScanRead(NextLine(s.file, pos)))
  }

  /** One getline of save_msg_replace and what follows it. */
  function ReplaceLine(s: System, t: nat, pos: nat, msg: string): System
    requires t < |s.threads|
  {
    if pos >= |s.file| then Done(s, t, true, SaveDone(NotFound))
    else if NumberOf(LineAt(s.file, pos)) == NumberOf(msg) then
      if LineEnd(s.file, pos) == |s.file| then Done(s, t, true, SaveDone(Saved))
      else At(s, t, WriteText(pos, |LineAt(s.file, pos)|))
    else At(s, t, ScanReplace(NextLine(s.file, pos)))
  }

  /** Bytes written at a position. The positions of this module are always inside the file. */
  function WriteAt(f: string, at: nat, bytes: string): string {
    if at <= |f| then Overwrite(f, at, bytes) else f
  }

  function FileStep(s: System, t: nat, canOpen: bool): System
    requires t < |s.threads|
  {
    var job := s.threads[t].job;
    match s.threads[t].pc
    case OpenRead => if canOpen then At(s, t, ScanRead(0)) else Done(s, t, false, ReadDone(ErrorRead))
    case ScanRead(pos) => if job.ReadJob? then ReadLine(s, t, pos, job.number) else s
    case OpenWrite =>
      if !canOpen then Done(s, t, false, SaveDone(OpenFailed))
      else At(s, t, if job.WriteJob? then AppendText else ScanReplace(0))
    case AppendText => if job.ReadJob? then s else At(s.(file := s.file + job.msg), t, AppendNewline)
    case AppendNewline => Done(s.(file := s.file + "\n"), t, true, SaveDone(Saved))
    case ScanReplace(pos) => if job.ReadJob? then s else ReplaceLine(s, t, pos, job.msg)
    case WriteText(start, oldLength) =>
      if job.ReadJob? then s
      else
        var s1 := s.(file := WriteAt(s.file, start, job.msg));
        if oldLength > |job.msg| then At(s1, t, WritePad(start + |job.msg|, oldLength - |job.msg|))
        else Done(s1, t, true, SaveDone(Saved))
    case WritePad(at, n) => Done(s.(file := WriteAt(s.file, at, Spaces(n))), t, true, SaveDone(Saved))
    case _ => s
  }

  function Do(s: System, t: nat, move: Move): System
    requires CanMove(s, t, move)
  {
    match s.threads[t].pc
    case Outside =>
      s.(threads := s.threads[t := Thread(if move.job.ReadJob? then LockIn else WaitWrite, move.job)])
    case LockIn => At(s.(mutex := Some(t)), t, Increment)
    case Increment => At(s.(readerCnt := s.readerCnt + 1), t, TestFirst)
    case TestFirst => At(s, t, if s.readerCnt == 1 then WaitIn else UnlockIn)
    case WaitIn => At(s.(wrt := s.wrt - 1, groupHolds := true), t, UnlockIn)
    case UnlockIn => At(s.(mutex := None), t, OpenRead)
    case LockOut => At(s.(mutex := Some(t)), t, Decrement)
    case Decrement => At(s.(readerCnt := s.readerCnt - 1), t, TestLast)
    case TestLast => At(s, t, if s.readerCnt == 0 then PostOut else UnlockOut)
    case PostOut => At(s.(wrt := s.wrt + 1, groupHolds := false), t, UnlockOut)
    case UnlockOut => At(s.(mutex := None), t, Outside)
    case WaitWrite => At(s.(wrt := s.wrt - 1), t, OpenWrite)
    case PostWrite => At(s.(wrt := s.wrt + 1), t, Outside)
    case _ => FileStep(s, t, move.canOpen)
  }

  datatype Turn = Turn(thread: nat, move: Move)

  predicate IsRun(s: System, turns: seq<Turn>)
    decreases |turns|
  {
    turns == [] ||
    (CanMove(s, turns[0].thread, turns[0].move) && IsRun(Do(s, turns[0].thread, turns[0].move), turns[1..]))
  }

  function Final(s: System, turns: seq<Turn>): System
    requires IsRun(s, turns)
    decreases |turns|
  {
    if turns == [] then s else Final(Do(s, turns[0].thread, turns[0].move), turns[1..])
  }

  /** init_bbfile_access_semahpores: nobody inside, semaphore at 1. */
  ghost predicate Initial(s: System) {
    && s.mutex == None && s.readerCnt == 0 && s.wrt == 1 && !s.groupHolds && s.log == []
    && forall t :: 0 <= t < |s.threads| ==> s.threads[t].pc == Outside
  }

  // ---------- who is where ----------

  predicate HoldsMutex(pc: Pc) {
    pc.Increment? || pc.TestFirst? || pc.WaitIn? || pc.UnlockIn?
    || pc.Decrement? || pc.TestLast? || pc.PostOut? || pc.UnlockOut?
  }

  /** Between read_start and read_end. */
  predicate Reading(pc: Pc) {
    pc.OpenRead? || pc.ScanRead? || pc.LockOut?
  }

  /** Between write_start and write_end. */
  predicate Writing(pc: Pc) {
    pc.OpenWrite? || pc.AppendText? || pc.AppendNewline? || pc.ScanReplace? || pc.WriteText? || pc.WritePad?
    || pc.PostWrite?
  }

  /** Between the increment and the decrement of readerCnt. */
  predicate Counted(pc: Pc) {
    pc.TestFirst? || pc.WaitIn? || pc.UnlockIn? || Reading(pc) || pc.Decrement?
  }

  /** Begun, and not yet at the end of the access. */
  predicate Unfinished(pc: Pc) {
    pc.LockIn? || pc.Increment? || pc.TestFirst? || pc.WaitIn? || pc.UnlockIn? || pc.OpenRead? || pc.ScanRead?
    || pc.WaitWrite? || (Writing(pc) && !pc.PostWrite?)
  }

  datatype Role = Reader | Writer

  predicate Plays(pc: Pc, role: Role) {
    match role
    case Reader => Counted(pc)
    case Writer => Writing(pc)
  }

  /** How many threads are counted as readers, or inside as writers. */
  function CountOf(threads: seq<Thread>, role: Role): nat {
    if threads == [] then 0 else (if Plays(threads[0].pc, role) then 1 else 0) + CountOf(threads[1..], role)
  }

  lemma {:induction false} CountUpdate(threads: seq<Thread>, t: nat, thread: Thread, role: Role)
    requires t < |threads|
    ensures CountOf(threads[t := thread], role) ==
            CountOf(threads, role) - (if Plays(threads[t].pc, role) then 1 else 0) + (if Plays(thread.pc,
                role) then 1 else 0)
  {
    if t == 0 {
      assert threads[t := thread][1..] == threads[1..];
    } else {
      assert threads[t := thread][1..] == threads[1..][t - 1 := thread];
      CountUpdate(threads[1..], t - 1, thread, role);
    }
  }

  lemma {:induction false} CountedOnce(threads: seq<Thread>, t: nat, role: Role)
    requires t < |threads| && Plays(threads[t].pc, role)
    ensures CountOf(threads, role) >= 1
    ensures CountOf(threads, role) == 1 ==> forall u :: 0 <= u < |threads| && u != t ==> !Plays(threads[u].pc, role)
  {
    if t == 0 {
      if CountOf(threads[1..], role) == 0 {
        CountNone(threads[1..], role);
        assert forall u :: 0 < u < |threads| ==> threads[u] == threads[1..][u - 1];
      }
    } else {
      CountedOnce(threads[1..], t - 1, role);
      assert forall u :: 0 < u < |threads| ==> threads[u] == threads[1..][u - 1];
    }
  }

  lemma {:induction false} CountNone(threads: seq<Thread>, role: Role)
    ensures CountOf(threads, role) == 0 <==> forall u :: 0 <= u < |threads| ==> !Plays(threads[u].pc, role)
  {
    if threads != [] {
      CountNone(threads[1..], role);
      if CountOf(threads, role) == 0 {
        assert forall u :: 0 < u < |threads| ==> threads[u] == threads[1..][u - 1];
      } else if !Plays(threads[0].pc, role) {
        var u :| 0 <= u < |threads[1..]| && Plays(threads[1..][u].pc, role);
        assert threads[u + 1] == threads[1..][u];
      }
    }
  }

  // ---------- the invariant of the lock ----------

  ghost predicate GroupAsCounted(s: System) {
    s.readerCnt == 0 <==> !s.groupHolds
  }

  /** What a thread at pc may rely on. */
  ghost predicate Local(s: System, pc: Pc) {
    match pc
    case Increment => GroupAsCounted(s)
    case TestFirst => s.readerCnt == 1 <==> !s.groupHolds
    case WaitIn => s.readerCnt == 1 && !s.groupHolds
    case UnlockIn => s.groupHolds
    case OpenRead => s.groupHolds
    case ScanRead(_) => s.groupHolds
    case LockOut => s.groupHolds
    case Decrement => s.groupHolds
    case TestLast => s.groupHolds
    case PostOut => s.groupHolds && s.readerCnt == 0
    case UnlockOut => GroupAsCounted(s)
    case _ => true
  }

  ghost predicate LockInv(s: System) {
    && (s.mutex.Some? ==> s.mutex.value < |s.threads|)
    && (forall t :: 0 <= t < |s.threads| ==> (HoldsMutex(s.threads[t].pc) <==> s.mutex == Some(t)))
    && (s.mutex == None ==> GroupAsCounted(s))
    && s.readerCnt == CountOf(s.threads, Reader)
    && s.wrt >= 0 && s.wrt + CountOf(s.threads, Writer) + (if s.groupHolds then 1 else 0) == 1
    && (forall t :: 0 <= t < |s.threads| ==> Local(s, s.threads[t].pc))
  }

  lemma InitialLock(s: System)
    requires Initial(s)
    ensures LockInv(s)
  {
    CountNone(s.threads, Reader);
    CountNone(s.threads, Writer);
  }

  function Bit(b: bool): int {
    if b then 1 else 0
  }

  /** Thread t takes a step and nobody else's statement changes. */
  ghost predicate Steps(s: System, t: nat, s': System) {
    t < |s.threads| && |s'.threads| == |s.threads| && s'.threads == s.threads[t := s'.threads[t]]
  }

  /** A thread that holds the mutex is the only one that relies on more than the group holding on. */
  lemma OthersKeep(s: System, t: nat, s': System)
    requires LockInv(s) && Steps(s, t, s')
    requires s.mutex == Some(t) || (s'.readerCnt == s.readerCnt && s'.groupHolds == s.groupHolds)
    requires s.groupHolds ==> s'.groupHolds || s.readerCnt == 0
    ensures forall u :: 0 <= u < |s.threads| && u != t ==> Local(s', s'.threads[u].pc)
  {
    CountNone(s.threads, Reader);
    forall u | 0 <= u < |s.threads| && u != t ensures Local(s', s'.threads[u].pc) {
      assert Local(s, s.threads[u].pc);
    }
  }

  /** What the thread that steps has to see to. */
  lemma LockAfter(s: System, t: nat, s': System)
    requires LockInv(s) && Steps(s, t, s')
    requires s.mutex == Some(t) || (s'.readerCnt == s.readerCnt && s'.groupHolds == s.groupHolds)
    requires s.groupHolds ==> s'.groupHolds || s.readerCnt == 0
    requires HoldsMutex(s'.threads[t].pc) <==> s'.mutex == Some(t)
    requires forall u :: 0 <= u < |s.threads| && u != t ==> (s'.mutex == Some(u) <==> s.mutex == Some(u))
    requires s'.mutex.Some? ==> s'.mutex.value < |s.threads|
    requires s'.mutex == None ==> GroupAsCounted(s')
    requires s'.readerCnt - s.readerCnt == Bit(Counted(s'.threads[t].pc)) - Bit(Counted(s.threads[t].pc))
    requires s'.wrt + Bit(Writing(s'.threads[t].pc)) + Bit(s'.groupHolds)
             == s.wrt + Bit(Writing(s.threads[t].pc)) + Bit(s.groupHolds)
    requires s'.wrt >= 0 && Local(s', s'.threads[t].pc)
    ensures LockInv(s')
  {
    CountUpdate(s.threads, t, s'.threads[t], Reader);
    CountUpdate(s.threads, t, s'.threads[t], Writer);
    OthersKeep(s, t, s');
  }

  lemma EnterSteps(s: System, t: nat, move: Move)
    requires LockInv(s) && CanMove(s, t, move)
    requires s.threads[t].pc in {Outside, LockIn, LockOut, WaitWrite, PostWrite}
    ensures LockInv(Do(s, t, move))
  {
    assert Local(s, s.threads[t].pc);
    LockAfter(s, t, Do(s, t, move));
  }

  lemma EnteringSteps(s: System, t: nat, move: Move)
    requires LockInv(s) && CanMove(s, t, move) && s.mutex == Some(t)
    requires s.threads[t].pc in {Increment, TestFirst, WaitIn, UnlockIn}
    ensures LockInv(Do(s, t, move))
  {
    assert Local(s, s.threads[t].pc);
    if Counted(s.threads[t].pc) {
      CountedOnce(s.threads, t, Reader);
    }
    LockAfter(s, t, Do(s, t, move));
  }

  lemma LeavingSteps(s: System, t: nat, move: Move)
    requires LockInv(s) && CanMove(s, t, move) && s.mutex == Some(t)
    requires s.threads[t].pc in {Decrement, TestLast, PostOut, UnlockOut}
    ensures LockInv(Do(s, t, move))
  {
    assert Local(s, s.threads[t].pc);
    LockAfter(s, t, Do(s, t, move));
  }

  /** Reading and writing the file does not move a thread in or out. */
  ghost predicate Stays(s: System, t: nat, s': System) {
    && Steps(s, t, s') && s'.threads[t].job == s.threads[t].job
    && s'.mutex == s.mutex && s'.readerCnt == s.readerCnt && s'.wrt == s.wrt && s'.groupHolds == s.groupHolds
    && (Reading(s'.threads[t].pc) <==> Reading(s.threads[t].pc))
    && (Writing(s'.threads[t].pc) <==> Writing(s.threads[t].pc))
    && !HoldsMutex(s'.threads[t].pc)
  }

  lemma ReadStays(s: System, t: nat, canOpen: bool)
    requires t < |s.threads| && Reading(s.threads[t].pc) && !s.threads[t].pc.LockOut?
    ensures Stays(s, t, FileStep(s, t, canOpen))
  {
  }

  lemma WriteStays(s: System, t: nat, canOpen: bool)
    requires t < |s.threads| && Writing(s.threads[t].pc) && !s.threads[t].pc.PostWrite?
    ensures Stays(s, t, FileStep(s, t, canOpen))
  {
  }

  lemma FileSteps(s: System, t: nat, s': System)
    requires LockInv(s) && t < |s.threads| && Stays(s, t, s')
    requires Reading(s.threads[t].pc) || Writing(s.threads[t].pc)
    ensures LockInv(s')
  {
    assert Local(s, s.threads[t].pc);
    LockAfter(s, t, s');
  }

  lemma LockStep(s: System, t: nat, move: Move)
    requires LockInv(s) && CanMove(s, t, move)
    ensures LockInv(Do(s, t, move)) && |Do(s, t, move).threads| == |s.threads|
  {
    var pc := s.threads[t].pc;
    if HoldsMutex(pc) {
      if pc in {Increment, TestFirst, WaitIn, UnlockIn} {
        EnteringSteps(s, t, move);
      } else {
        LeavingSteps(s, t, move);
      }
    } else if pc in {Outside, LockIn, LockOut, WaitWrite, PostWrite} {
      EnterSteps(s, t, move);
    } else {
      if Reading(pc) {
        ReadStays(s, t, move.canOpen);
      } else {
        WriteStays(s, t, move.canOpen);
      }
      FileSteps(s, t, FileStep(s, t, move.canOpen));
    }
  }

  lemma {:induction false} LockRun(s: System, turns: seq<Turn>)
    requires LockInv(s) && IsRun(s, turns)
    ensures LockInv(Final(s, turns))
    decreases |turns|
  {
    if turns != [] {
      LockStep(s, turns[0].thread, turns[0].move);
      LockRun(Do(s, turns[0].thread, turns[0].move), turns[1..]);
    }
  }

  // ---------- exclusion ----------

  /** At most one writer inside, never a writer with a reader, readerCnt is the number of threads between
      increment and decrement, and the semaphore's value, the writers inside and the readers' hold on it
      make one, at every step of every run. */
  lemma MutualExclusion(s0: System, turns: seq<Turn>, t: nat, u: nat)
    requires Initial(s0) && IsRun(s0, turns)
    requires var s := Final(s0, turns); t < |s.threads| && u < |s.threads| && t != u && Writing(s.threads[t].pc)
    ensures var s := Final(s0, turns); !Writing(s.threads[u].pc) && !Reading(s.threads[u].pc)
  {
    InitialLock(s0);
    LockRun(s0, turns);
    WriterIsAlone(Final(s0, turns), t);
  }

  lemma WriterIsAlone(s: System, t: nat)
    requires LockInv(s) && t < |s.threads| && Writing(s.threads[t].pc)
    ensures !s.groupHolds
    ensures forall u :: 0 <= u < |s.threads| && u != t ==> !Writing(s.threads[u].pc) && !Reading(s.threads[u].pc)
  {
    CountedOnce(s.threads, t, Writer);
    forall u | 0 <= u < |s.threads| && u != t ensures !Writing(s.threads[u].pc) && !Reading(s.threads[u].pc) {
      assert Local(s, s.threads[u].pc);
      assert !Plays(s.threads[u].pc, Writer);
    }
  }

  lemma CountsAndSemaphore(s0: System, turns: seq<Turn>)
    requires Initial(s0) && IsRun(s0, turns)
    ensures var s := Final(s0, turns);
            && s.readerCnt == CountOf(s.threads, Reader)
            && s.wrt + CountOf(s.threads, Writer) + Bit(s.groupHolds) == 1 && s.wrt >= 0
  {
    InitialLock(s0);
    LockRun(s0, turns);
  }

  // ---------- deadlock freedom ----------

  lemma MutexHolder(s: System)
    requires LockInv(s)
    ensures s.mutex == None || exists k :: 0 <= k < |s.threads| && HoldsMutex(s.threads[k].pc)
  {
  }

  /** While a thread is inside the protocol some thread inside it can move, also when the first reader
      waits for the semaphore with readerMutex in its hands. */
  lemma SomebodyCanMove(s: System, busy: nat) returns (t: nat)
    requires LockInv(s) && busy < |s.threads| && s.threads[busy].pc != Outside
    ensures t < |s.threads| && s.threads[t].pc != Outside && CanMove(s, t, Go(true))
  {
    if k :| 0 <= k < |s.threads| && s.threads[k].pc !in {Outside, LockIn, LockOut, WaitIn, WaitWrite} {
      return k;
    }
    CountNone(s.threads, Writer);
    if s.wrt > 0 {
      if k :| 0 <= k < |s.threads| && s.threads[k].pc in {WaitIn, WaitWrite} {
        return k;
      }
      MutexHolder(s);
      t := busy;
    } else {
      t := SomeReaderCanLeave(s);
    }
  }

  /** When the readers hold the semaphore and all wait, one of them can take the mutex to leave. */
  lemma SomeReaderCanLeave(s: System) returns (t: nat)
    requires LockInv(s) && s.groupHolds
    requires forall k :: 0 <= k < |s.threads| ==> s.threads[k].pc in {Outside, LockIn, LockOut, WaitIn, WaitWrite}
    ensures t < |s.threads| && s.threads[t].pc != Outside && CanMove(s, t, Go(true))
  {
    forall k | 0 <= k < |s.threads| ensures !s.threads[k].pc.WaitIn? {
      assert Local(s, s.threads[k].pc);
    }
    MutexHolder(s);
    CountNone(s.threads, Reader);
    t :| 0 <= t < |s.threads| && Plays(s.threads[t].pc, Reader);
  }

  lemma DeadlockFree(s0: System, turns: seq<Turn>, busy: nat) returns (t: nat)
    requires Initial(s0) && IsRun(s0, turns)
    requires busy < |Final(s0, turns).threads| && Final(s0, turns).threads[busy].pc != Outside
    ensures var s := Final(s0, turns); t < |s.threads| && s.threads[t].pc != Outside && CanMove(s, t, Go(true))
  {
    InitialLock(s0);
    LockRun(s0, turns);
    t := SomebodyCanMove(Final(s0, turns), busy);
  }
}
