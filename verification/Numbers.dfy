/** The message counter of config.cpp: allocation, update from a COMMIT, and recovery at start-up. */
module Numbers {
  import opened Wrappers
  import opened Text
  import opened Store

  /** alloc_new_msg_number: the next number, starting over at 1 instead of reaching INT_MAX. */
  function Allocate(counter: int): int {
    if counter + 1 == INT_MAX then 1 else counter + 1
  }

  /** update_msg_number. A number that does not parse makes stoi throw before the counter is touched. */
  function Updated(counter: int, number: string): int {
    match Stoi(number)
    case None => counter
    case Some(n) => if n <= 0 then counter else if n == INT_MAX then 1 else n
  }

  /** load_msg_number, run once when the server starts. */
  function Loaded(counter: int, f: string): int {
    var number := NumberOf(LastLineScan(f));
    if number == "" then counter
    else
      match Stoi(number)
      case None => counter
      case Some(n) => n
  }

  class MsgCounter {
    var msgNumber: int

    constructor ()
      ensures msgNumber == 0
    {
      msgNumber := 0;
    }

    /** The increment is on a C int, so it must not start from INT_MAX. */
    method Alloc() returns (strNumber: string)
      requires msgNumber < INT_MAX
      modifies this
      ensures msgNumber == Allocate(old(msgNumber)) && strNumber == PrintInt(msgNumber)
    {
      msgNumber := msgNumber + 1;
      if msgNumber == INT_MAX {
        msgNumber := 1;
      }
      strNumber := PrintInt(msgNumber);
    }

    method Update(strNumber: string) returns (ret: int)
      requires Stoi(strNumber).Some?
      modifies this
      ensures msgNumber == Updated(old(msgNumber), strNumber)
      ensures ret == if Stoi(strNumber).value <= 0 then -1 else 0
    {
      var number := Stoi(strNumber).value;
      if number <= 0 {
        return -1;
      }
      msgNumber := number;
      if msgNumber == INT_MAX {
        msgNumber := 1;
      }
      ret := 0;
    }

    /** load_msg_number; a file that does not open reads as one without lines. */
    method Load(file: BBFile, canOpen: bool) returns (ret: int)
      requires canOpen && NumberOf(LastLineScan(file.bytes)) != "" ==>
                 Stoi(NumberOf(LastLineScan(file.bytes))).Some?
      modifies this
      ensures file.bytes == old(file.bytes)
      ensures msgNumber == if canOpen then Loaded(old(msgNumber), file.bytes) else old(msgNumber)
      ensures ret == if canOpen && NumberOf(LastLineScan(file.bytes)) != "" then 0 else -1
    {
      var lastline := file.GetLastLine(canOpen);
      var msgNumLast := NumberOf(lastline);
      if msgNumLast == "" {
        return -1;
      }
      msgNumber := Stoi(msgNumLast).value;
      ret := 0;
    }
  }

  /** A fresh number is greater than the counter exactly while the counter does not wrap; it is always a
      number a message can have, and after the largest of them comes 1. */
  lemma AllocateGrowsIff(counter: int)
    requires 0 <= counter < INT_MAX
    ensures Allocate(counter) > counter <==> counter + 1 != INT_MAX
    ensures 1 <= Allocate(counter) < INT_MAX && Allocate(INT_MAX - 1) == 1
    ensures counter + 1 != INT_MAX ==> Allocate(counter) - counter == 1
  {
  }

  /** The number in a COMMIT becomes the counter of every node that applies it. */
  lemma UpdatedToPrinted(counter: int, n: int)
    requires 0 < n < INT_MAX
    ensures Updated(counter, PrintInt(n)) == n
  {
    StoiPrintNat(n);
  }

  /** No number that is received takes the counter out of its range: 1 is taken for INT_MAX, and what is not
      positive or no number leaves the counter alone. */
  lemma UpdatedStaysInRange(counter: int, number: string)
    requires 0 <= counter < INT_MAX
    ensures 0 <= Updated(counter, number) < INT_MAX
    ensures Updated(counter, PrintInt(INT_MAX)) == 1
    ensures Stoi(number).None? || Stoi(number).value <= 0 ==> Updated(counter, number) == counter
  {
    StoiPrintNat(INT_MAX);
  }
}
