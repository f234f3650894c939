/**
 The bytes of bbfile against the list of lines they stand for: lookup finds the first record with a
 number, append adds one record, and a fitting replace changes one record and nothing else.
 */
module Records {
  import opened Text
  import opened Store

  // ---------- the reference view ----------

  /** The first line that carries the number, |ls| when none does. */
  function IndexOf(ls: seq<string>, number: string): (k: nat)
    ensures k <= |ls|
    ensures forall j :: 0 <= j < k ==> NumberOf(ls[j]) != number
    ensures k < |ls| ==> NumberOf(ls[k]) == number
  {
    if ls == [] || NumberOf(ls[0]) == number then 0 else 1 + IndexOf(ls[1..], number)
  }

  /** The byte at which line k of the lines from p on begins. */
  function LineStart(f: string, p: nat, k: nat): (q: nat)
    requires p <= |f| && k <= |Lines(f, p)|
    ensures p <= q <= |f|
    decreases k
  {
    if k == 0 then p else LineStart(f, NextLine(f, p), k - 1)
  }

  /** The bytes the lines take up when each is followed by a newline. */
  function Size(ls: seq<string>): nat {
    if ls == [] then 0 else |ls[0]| + 1 + Size(ls[1..])
  }

  /** A record number together with the line that holds it. */
  ghost predicate IsFirstAnswer(ls: seq<string>, number: string, k: nat) {
    k < |ls| && Answers(ls[k], number) && forall j :: 0 <= j < k ==> !Answers(ls[j], number)
  }

  lemma LinesCons(f: string, p: nat)
    requires p < |f|
    ensures |Lines(f, p)| == 1 + |Lines(f, NextLine(f, p))|
    ensures Lines(f, p)[0] == LineAt(f, p) && Lines(f, p)[1..] == Lines(f, NextLine(f, p))
  {
  }

  lemma IndexOfLine(f: string, p: nat, number: string)
    requires p < |f|
    ensures |Lines(f, p)| == 1 + |Lines(f, NextLine(f, p))|
    ensures IndexOf(Lines(f, p), number) ==
            if NumberOf(LineAt(f, p)) == number then 0 else 1 + IndexOf(Lines(f, NextLine(f, p)), number)
  {
  }

  // ---------- lookup ----------

  /** A line answers a number exactly when the number, which has no slash, and a slash stand at its front. */
  lemma AnswersIff(line: string, number: string)
    ensures Answers(line, number) <==> '/' !in number && number + "/" <= line
  {
    var k := Find(line, '/', 0);
    FindFirst(line, '/', 0);
    if '/' !in number && number + "/" <= line {
      NumberOfPrefix(number, line[|number| + 1..]);
      assert line == number + "/" + line[|number| + 1..];
    }
    if Answers(line, number) {
      assert line[..k] + "/" == line[..k + 1];
    }
  }


  /** READ answers the first line with that number, and UNKNOWN only when there is none. */
  lemma {:induction false} ReadFindsFirst(f: string, p: nat, number: string) returns (k: nat)
    requires p <= |f|
    ensures ReadFrom(f, p, number).Message? ==>
              IsFirstAnswer(Lines(f, p), number, k) && ReadFrom(f, p, number).line == Lines(f, p)[k]
    ensures !ReadFrom(f, p, number).Message? ==>
              && ReadFrom(f, p, number) == UnknownNumber(number)
              && forall j :: 0 <= j < |Lines(f, p)| ==> !Answers(Lines(f, p)[j], number)
    decreases |f| - p
  {
    k := 0;
    if p < |f| && !Answers(LineAt(f, p), number) {
      var k' := ReadFindsFirst(f, NextLine(f, p), number);
      k := k' + 1;
      assert Lines(f, p) == [LineAt(f, p)] + Lines(f, NextLine(f, p));
    }
  }

  // ---------- append ----------

  lemma {:induction false} LinesAreSingle(f: string, p: nat)
    requires p <= |f|
    ensures forall k :: 0 <= k < |Lines(f, p)| ==> SingleLine(Lines(f, p)[k])
    decreases |f| - p
  {
    if p < |f| {
      FindFirst(f, '\n', p);
      LinesAreSingle(f, NextLine(f, p));
    }
  }

  lemma SameFirstLine(f: string, g: string, p: nat)
    requires p < |f| == |g| && forall j :: p <= j < |f| ==> f[j] == g[j]
    ensures LineAt(f, p) == LineAt(g, p) && NextLine(f, p) == NextLine(g, p)
  {
    FindFirst(f, '\n', p);
    FindIs(g, '\n', p, LineEnd(f, p));
  }

  /** Files that agree from p on hold the same lines from p on. */
  lemma {:induction false} LinesAgree(f: string, g: string, p: nat)
    requires p <= |f| == |g| && forall j :: p <= j < |f| ==> f[j] == g[j]
    ensures Lines(f, p) == Lines(g, p)
    decreases |f| - p
  {
    if p < |f| {
      var q := NextLine(f, p);
      SameFirstLine(f, g, p);
      LinesAgree(f, g, q);
      assert Lines(f, p) == [LineAt(f, p)] + Lines(f, q);
      assert Lines(g, p) == [LineAt(g, p)] + Lines(g, q);
    }
  }

  /** Files that agree up to and including the newline that ends the line at p hold the same line there. */
  lemma SameLine(f: string, g: string, p: nat)
    requires p <= |f| && LineEnd(f, p) < |f| && LineEnd(f, p) < |g|
    requires forall j :: p <= j <= LineEnd(f, p) ==> f[j] == g[j]
    ensures LineEnd(g, p) == LineEnd(f, p) && LineAt(g, p) == LineAt(f, p) && NextLine(g, p) == NextLine(f, p)
  {
    FindFirst(f, '\n', p);
    FindIs(g, '\n', p, LineEnd(f, p));
  }

  lemma LastLineEnds(f: string, p: nat)
    requires p < |f| && Terminated(f)
    ensures LineEnd(f, p) < |f|
  {
    FindFirst(f, '\n', p);
  }

  /** Appending to a file whose last line is terminated adds exactly one line at the end, and the file stays
      terminated. */
  lemma {:induction false} AppendAddsLine(f: string, p: nat, msg: string)
    requires p <= |f| && Terminated(f) && SingleLine(msg)
    ensures Lines(Appended(f, msg), p) == Lines(f, p) + [msg] && Terminated(Appended(f, msg))
    decreases |f| - p
  {
    var g := Appended(f, msg);
    if p == |f| {
      FindIs(g, '\n', p, p + |msg|);
      assert LineAt(g, p) == msg && NextLine(g, p) == |g|;
      assert Lines(g, |g|) == [];
    } else {
      LastLineEnds(f, p);
      SameLine(f, g, p);
      var q := NextLine(f, p);
      AppendAddsLine(f, q, msg);
      assert Lines(g, p) == [LineAt(f, p)] + Lines(g, q);
    }
  }

  // ---------- replace ----------

  /** Where the first line with that number starts, |f| when there is none. */
  function Target(f: string, p: nat, number: string): (q: nat)
    requires p <= |f|
    ensures p <= q <= |f|
    decreases |f| - p
  {
    if p == |f| || NumberOf(LineAt(f, p)) == number then p else Target(f, NextLine(f, p), number)
  }

  lemma {:induction false} ReplaceAtTarget(f: string, p: nat, msg: string)
    requires p <= |f|
    ensures var q := Target(f, p, NumberOf(msg));
            ReplaceFrom(f, p, msg) ==
            if q == |f| then SaveOutcome(NotFound, f) else SaveOutcome(Saved, WriteOver(f, q, msg))
    decreases |f| - p
  {
    if p < |f| && NumberOf(LineAt(f, p)) != NumberOf(msg) {
      ReplaceAtTarget(f, NextLine(f, p), msg);
    }
  }

  lemma {:induction false} LineStarts(f: string, p: nat, k: nat)
    requires p <= |f| && k < |Lines(f, p)|
    ensures LineStart(f, p, k) < |f| && Lines(f, p)[k] == LineAt(f, LineStart(f, p, k))
    decreases k
  {
    if k > 0 {
      LineStarts(f, NextLine(f, p), k - 1);
    }
  }

  /** Where Target stands when the first line with the number is line k of the lines from p on. */
  ghost predicate IsTarget(f: string, p: nat, number: string, k: nat)
    requires p <= |f| && k <= |Lines(f, p)|
  {
    Target(f, p, number) == if k == |Lines(f, p)| then |f| else LineStart(f, p, k)
  }

  /** The first line with the number starts where the first in the list does. */
  lemma {:induction false} TargetIs(f: string, p: nat, number: string)
    requires p <= |f|
    ensures IsTarget(f, p, number, IndexOf(Lines(f, p), number))
    decreases |f| - p
  {
    if p < |f| {
      IndexOfLine(f, p, number);
      if NumberOf(LineAt(f, p)) == number {
        TargetHere(f, p, number);
      } else {
        TargetIs(f, NextLine(f, p), number);
        TargetStep(f, p, number, IndexOf(Lines(f, NextLine(f, p)), number));
      }
    }
  }

  lemma TargetHere(f: string, p: nat, number: string)
    requires p < |f| && NumberOf(LineAt(f, p)) == number
    ensures IsTarget(f, p, number, 0)
  {
    LinesCons(f, p);
  }

  lemma TargetStep(f: string, p: nat, number: string, k: nat)
    requires p < |f| && NumberOf(LineAt(f, p)) != number && k <= |Lines(f, NextLine(f, p))|
    requires IsTarget(f, NextLine(f, p), number, k)
    ensures k + 1 <= |Lines(f, p)| && IsTarget(f, p, number, k + 1)
  {
    LinesCons(f, p);
    TargetLater(f, p, number, k);
  }

  lemma TargetLater(f: string, p: nat, number: string, k: nat)
    requires p < |f| && NumberOf(LineAt(f, p)) != number && k <= |Lines(f, NextLine(f, p))|
    ensures Target(f, p, number) == Target(f, NextLine(f, p), number)
    ensures k + 1 <= |Lines(f, p)| && LineStart(f, p, k + 1) == LineStart(f, NextLine(f, p), k)
  {
  }

  /** In every case the only bytes a successful replace touches are those of the padded message,
      written from where the first line with that number begins. */
  lemma ReplaceWritesAtFirstMatch(f: string, p: nat, msg: string)
    requires p <= |f|
    ensures var ls := Lines(f, p);
            var k := IndexOf(ls, NumberOf(msg));
            ReplaceFrom(f, p, msg) ==
            if k == |ls| then SaveOutcome(NotFound, f)
            else SaveOutcome(Saved, WriteOver(f, LineStart(f, p, k), msg))
  {
    var ls := Lines(f, p);
    var k := IndexOf(ls, NumberOf(msg));
    TargetIs(f, p, NumberOf(msg));
    ReplaceAtTarget(f, p, msg);
    if k < |ls| {
      LineStarts(f, p, k);
    }
  }

  /** g is f with the bytes of the patch from q on. */
  ghost predicate IsPatched(f: string, g: string, q: nat, patch: string) {
    && |g| == |f|
    && q + |patch| <= |f|
    && (forall j :: 0 <= j < q ==> g[j] == f[j])
    && (forall j :: q <= j < q + |patch| ==> g[j] == patch[j - q])
    && (forall j :: q + |patch| <= j < |f| ==> g[j] == f[j])
  }

  lemma PatchedLineEnds(f: string, p: nat, patch: string, g: string)
    requires p < |f| && LineEnd(f, p) < |f| && SingleLine(patch) && |patch| == |LineAt(f, p)|
    requires IsPatched(f, g, p, patch)
    ensures LineEnd(g, p) == LineEnd(f, p) == p + |patch| < |f| && LineAt(g, p) == patch
  {
    var e := LineEnd(f, p);
    FindFirst(f, '\n', p);
    forall j | p <= j < e ensures g[j] != '\n' {
      assert g[j] == patch[j - p];
    }
    FindIs(g, '\n', p, e);
  }

  lemma FirstLineThenSame(f: string, g: string, p: nat, q: nat)
    requires p < |f| == |g| && NextLine(g, p) == q
    requires forall j :: q <= j < |f| ==> f[j] == g[j]
    ensures Lines(g, p) == [LineAt(g, p)] + Lines(f, q)
  {
    LinesAgree(f, g, q);
  }

  lemma PatchFirstLine(f: string, p: nat, patch: string, g: string)
    requires p < |f| && LineEnd(f, p) < |f| && SingleLine(patch) && |patch| == |LineAt(f, p)|
    requires IsPatched(f, g, p, patch)
    ensures Lines(g, p) == [patch] + Lines(f, NextLine(f, p))
  {
    PatchedLineEnds(f, p, patch, g);
    FirstLineThenSame(f, g, p, p + |patch| + 1);
  }

  lemma KeepsFirstLine(f: string, g: string, p: nat)
    requires p < |f| && LineEnd(f, p) < |f| && |g| == |f|
    requires forall j :: 0 <= j < NextLine(f, p) ==> g[j] == f[j]
    ensures Lines(g, p) == [LineAt(f, p)] + Lines(g, NextLine(f, p))
  {
    SameLine(f, g, p);
  }

  /** Line k ends in a newline. Only the last line may not. */
  predicate Ends(f: string, p: nat, k: nat)
    requires p <= |f| && k < |Lines(f, p)|
  {
    LineEnd(f, LineStart(f, p, k)) < |f|
  }

  /** A single line written over line k, byte for byte as long, changes line k only. */
  lemma {:induction false} PatchLine(f: string, p: nat, k: nat, patch: string, g: string)
    requires p <= |f| && k < |Lines(f, p)| && Ends(f, p, k)
    requires SingleLine(patch) && |patch| == |Lines(f, p)[k]|
    requires IsPatched(f, g, LineStart(f, p, k), patch)
    ensures Lines(g, p) == Lines(f, p)[k := patch]
    decreases k
  {
    var q := NextLine(f, p);
    var head, rest := LineAt(f, p), Lines(f, q);
    LinesCons(f, p);
    if k == 0 {
      PatchFirstLine(f, p, patch, g);
    } else {
      PatchLine(f, q, k - 1, patch, g);
      KeepsFirstLine(f, g, p);
      assert Lines(g, p) == [head] + rest[k - 1 := patch];
    }
  }

  /** The record list a replace is meant to produce, with the last line ended as before. */
  ghost predicate UpdatesOneRecord(f: string, g: string, k: nat, msg: string)
    requires k < |Lines(f, 0)|
  {
    (Terminated(g) <==> Terminated(f)) && Lines(g, 0) == Lines(f, 0)[k := Padded(msg, Lines(f, 0)[k])]
  }

  /** Writing a fitting single line over line k changes line k only. */
  lemma WriteOverLine(f: string, k: nat, msg: string)
    requires k < |Lines(f, 0)| && Ends(f, 0, k)
    requires SingleLine(msg) && |msg| <= |Lines(f, 0)[k]|
    ensures UpdatesOneRecord(f, WriteOver(f, LineStart(f, 0, k), msg), k, msg)
  {
    var q := LineStart(f, 0, k);
    var patch := Padded(msg, Lines(f, 0)[k]);
    LineStarts(f, 0, k);
    FittingPatch(f, q, msg);
    PatchLine(f, 0, k, patch, WriteOver(f, q, msg));
  }

  lemma FittingPatch(f: string, q: nat, msg: string)
    requires q < |f| && LineEnd(f, q) < |f| && SingleLine(msg) && |msg| <= |LineAt(f, q)|
    ensures var patch, g := Padded(msg, LineAt(f, q)), WriteOver(f, q, msg);
            && |patch| == |LineAt(f, q)| && SingleLine(patch) && IsPatched(f, g, q, patch)
            && (Terminated(g) <==> Terminated(f))
  {
    var g := WriteOver(f, q, msg);
    assert g[|f| - 1] == f[|f| - 1];
  }

  lemma {:induction false} SizeOfLines(f: string, p: nat)
    requires p <= |f|
    ensures Size(Lines(f, p)) == |f| - p + if p == |f| || Terminated(f) then 0 else 1
    decreases |f| - p
  {
    if p < |f| {
      var q := NextLine(f, p);
      FindFirst(f, '\n', p);
      SizeOfLines(f, q);
      assert Lines(f, p)[1..] == Lines(f, q);
    }
  }

  lemma {:induction false} SizeOfUpdate(ls: seq<string>, k: nat, line: string)
    requires k < |ls|
    ensures Size(ls[k := line]) == Size(ls) + |line| - |ls[k]|
  {
    if k == 0 {
      assert ls[k := line][1..] == ls[1..];
    } else {
      SizeOfUpdate(ls[1..], k - 1, line);
      assert ls[k := line][1..] == ls[1..][k - 1 := line];
    }
  }

  /** A longer message runs over the newline and into the bytes behind it, or leaves the last line without
      its newline. */
  lemma TooLongDamages(f: string, k: nat, msg: string)
    requires k < |Lines(f, 0)| && Ends(f, 0, k) && SingleLine(msg) && |msg| > |Lines(f, 0)[k]|
    ensures !UpdatesOneRecord(f, WriteOver(f, LineStart(f, 0, k), msg), k, msg)
  {
    var q := LineStart(f, 0, k);
    var g := WriteOver(f, q, msg);
    LineStarts(f, 0, k);
    assert |g| > |f| ==> g[|g| - 1] == msg[|msg| - 1];
    SizeOfLines(f, 0);
    SizeOfLines(g, 0);
    SizeOfUpdate(Lines(f, 0), k, msg);
  }

  /** On any file, a replace is an update of the first record with that number exactly when the message fits
      into the old line. A last line without a newline is the exception: the answer is the same, and nothing
      is written. */
  lemma ReplaceRefinesIffFits(f: string, msg: string)
    requires SingleLine(msg)
    ensures var ls := Lines(f, 0);
            var k := IndexOf(ls, NumberOf(msg));
            var r := SaveReplace(f, msg, true);
            && (k == |ls| ==> r == SaveOutcome(NotFound, f))
            && (k < |ls| ==>
                  && r.result == Saved && (!Ends(f, 0, k) ==> r.file == f)
                  && (UpdatesOneRecord(f, r.file, k, msg) <==>
                        if Ends(f, 0, k) then |msg| <= |ls[k]| else Padded(msg, ls[k]) == ls[k]))
  {
    var ls := Lines(f, 0);
    var k := IndexOf(ls, NumberOf(msg));
    ReplaceWritesAtFirstMatch(f, 0, msg);
    if k < |ls| {
      if !Ends(f, 0, k) {
        UpdateSame(ls, k, Padded(msg, ls[k]));
      } else if |msg| <= |ls[k]| {
        WriteOverLine(f, k, msg);
      } else {
        TooLongDamages(f, k, msg);
      }
    }
  }

  lemma UpdateSame(ls: seq<string>, k: nat, line: string)
    requires k < |ls|
    ensures ls == ls[k := line] <==> line == ls[k]
  {
    assert ls[k := line][k] == line;
  }

  /** What a message longer than its line does to the board: the next record is no longer found. */
  lemma LongReplaceDamagesNextRecord()
    ensures var f := "1/a/x\n2/b/y\n";
            var g := SaveReplace(f, "1/a/xyz", true).file;
            Read(f, "2") == Message("2/b/y") && g == "1/a/xyz/b/y\n" && Read(g, "2") == UnknownNumber("2")
  {
    var f := "1/a/x\n2/b/y\n";
    var g := "1/a/xyz/b/y\n";
    FindIs(f, '\n', 0, 5);
    FindIs(f, '\n', 6, 11);
    FindIs(f[0..5], '/', 0, 1);
    FindIs(f[6..11], '/', 0, 1);
    FindIs("1/a/xyz", '/', 0, 1);
    assert f[..5] == "1/a/x" && f[6..11] == "2/b/y" && f[..5][..1] == "1" && f[6..11][..1] == "2";
    assert "1/a/xyz"[..1] == "1" && NextLine(f, 0) == 6;
    assert LineAt(f, 6) == "2/b/y";
    assert ReadFrom(f, 6, "2") == Message("2/b/y");
    assert Overwrite(f, 0, "1/a/xyz") == g;
    FindIs(g, '\n', 0, 11);
    FindIs(g[..11], '/', 0, 1);
    assert g[..11][..1] == "1" && NextLine(g, 0) == 12;
    assert Read(f, "2") == ReadFrom(f, 6, "2");
    assert Read(g, "2") == ReadFrom(g, 12, "2");
  }

  // ---------- the backward scan ----------

  /** The start of the last line that begins at or after p. */
  lemma {:induction false} LastLineFrom(f: string, p: nat, q: nat)
    requires p <= q < |f|
    requires q == p || f[q - 1] == '\n'
    requires forall k :: q <= k < |f| - 1 ==> f[k] != '\n'
    ensures Lines(f, p) != [] && Lines(f, p)[|Lines(f, p)| - 1] == LineAt(f, q)
    decreases |f| - p
  {
    FindFirst(f, '\n', p);
    if p == q {
      var e := LineEnd(f, p);
      assert e >= |f| - 1;
      assert Lines(f, NextLine(f, p)) == [];
    } else {
      assert LineEnd(f, p) <= q - 1;
      LastLineFrom(f, NextLine(f, p), q);
    }
  }

  lemma {:induction false} ScanBackStops(f: string, p: nat)
    requires p < |f|
    ensures var q := ScanBack(f, p);
            && (forall k :: q <= k <= p && 0 < k ==> f[k] != '\n')
            && (q > 0 ==> q >= 2 && f[q - 1] == '\n')
    decreases p
  {
    if p > 0 && f[p] != '\n' {
      ScanBackStops(f, p - 1);
    }
  }

  /** An empty first line that is followed by no other newline before the last byte. */
  ghost predicate OnlyNewlineIsFirst(f: string) {
    |f| > 0 && f[0] == '\n' && forall k :: 1 <= k < |f| - 1 ==> f[k] != '\n'
  }

  /** The scan from the end finds what a reading from the front finds last, except on a file of one
      byte that is not a newline, and on a file that starts with an empty line and goes on with a
      single line that is not empty. */
  lemma ScanFindsLastLineIff(f: string)
    ensures LastLineScan(f) == LastLine(f) <==>
            !(|f| == 1 && f != "\n") && !(|f| >= 2 && OnlyNewlineIsFirst(f) && f != "\n\n")
  {
    if |f| == 1 {
      LastLineFrom(f, 0, 0);
      assert LineAt(f, 0) == if f[0] == '\n' then "" else f;
      assert f == [f[0]];
    } else if |f| >= 2 {
      var q := ScanBack(f, |f| - 2);
      ScanBackStops(f, |f| - 2);
      if q > 0 {
        LastLineFrom(f, 0, q);
        assert f[q - 1] == '\n' && q - 1 >= 1;
      } else if f[0] != '\n' {
        LastLineFrom(f, 0, 0);
      } else {
        LastLineFrom(f, 0, 1);
        assert LineAt(f, 0) == "";
        assert LastLine(f) == LineAt(f, 1);
        if LineAt(f, 1) == "" {
          assert f[1] == '\n';
          assert |f| == 2;
          assert f == [f[0], f[1]];
        }
      }
    }
  }

  /** On a file made of non-empty, terminated lines the scan always finds the last line. */
  lemma ScanFindsLastRecord(f: string)
    requires Terminated(f) && forall k :: 0 <= k < |Lines(f, 0)| ==> Lines(f, 0)[k] != ""
    ensures LastLineScan(f) == LastLine(f)
  {
    ScanFindsLastLineIff(f);
    if f != "" {
      assert Lines(f, 0)[0] == LineAt(f, 0);
      assert f[0] != '\n';
    }
  }
}
