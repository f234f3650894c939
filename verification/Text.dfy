/**
 The std::string operations the server is written with. `Find` answers |s| where find answers
 npos, so `s[..Find(s, c, 0)]` is `s.substr(0, s.find(c))` in both cases.
 */
module Text {
  import opened Wrappers

  const INT_MAX: int := 2147483647

  /** s.find(c, from) */
  function Find(s: string, c: char, from: nat): (r: nat)
    requires from <= |s|
    ensures from <= r <= |s|
    decreases |s| - from
  {
    if from == |s| || s[from] == c then from else Find(s, c, from + 1)
  }

  /** The message number of a stored line or of a message: everything before the first slash. */
  function NumberOf(line: string): string {
    line[..Find(line, '/', 0)]
  }

  predicate HasSlash(line: string) {
    Find(line, '/', 0) < |line|
  }

  predicate SingleLine(s: string) {
    '\n' !in s
  }

  predicate EndsInCR(s: string) {
    s != "" && s[|s| - 1] == '\r'
  }

  /** Without the final CR, if there is one. */
  function Chopped(s: string): string {
    if EndsInCR(s) then s[..|s| - 1] else s
  }

  function Spaces(n: nat): (s: string)
    ensures |s| == n && forall c <- s :: c == ' '
  {
    if n == 0 then "" else Spaces(n - 1) + " "
  }

  /** Find answers the first occurrence, */
  lemma {:induction false} FindFirst(s: string, c: char, from: nat)
    requires from <= |s|
    ensures var r := Find(s, c, from);
            && (forall k :: from <= k < r ==> s[k] != c)
            && (r < |s| ==> s[r] == c)
    decreases |s| - from
  {
    if from < |s| && s[from] != c {
      FindFirst(s, c, from + 1);
    }
  }

  /** and there is only one first occurrence. */
  lemma FindIs(s: string, c: char, from: nat, r: nat)
    requires from <= r <= |s|
    requires forall k :: from <= k < r ==> s[k] != c
    requires r < |s| ==> s[r] == c
    ensures Find(s, c, from) == r
  {
    FindFirst(s, c, from);
  }

  /** A number with no slash in it is read back from in front of the slash. */
  lemma NumberOfPrefix(number: string, rest: string)
    requires '/' !in number
    ensures NumberOf(number + "/" + rest) == number
    ensures HasSlash(number + "/" + rest)
  {
    var line := number + "/" + rest;
    assert line[|number|] == '/';
    FindIs(line, '/', 0, |number|);
    assert line[..|number|] == number;
  }

  /** The number of a body does not change when the body loses a final CR. */
  lemma ChoppedNumber(body: string)
    requires HasSlash(body)
    ensures HasSlash(Chopped(body)) && NumberOf(Chopped(body)) == NumberOf(body)
  {
    if EndsInCR(body) {
      var k := Find(body, '/', 0);
      FindFirst(body, '/', 0);
      FindIs(Chopped(body), '/', 0, k);
      assert Chopped(body)[..k] == body[..k];
    }
  }

  lemma ChoppedIff(s: string)
    ensures Chopped(s) == s <==> !EndsInCR(s)
  {
    if EndsInCR(s) {
      assert |Chopped(s)| < |s|;
    }
  }

  // ---------- decimal numbers ----------

  predicate IsDigit(c: char) {
    '0' <= c <= '9'
  }

  predicate AllDigits(s: string) {
    forall c <- s :: IsDigit(c)
  }

  function DigitOf(d: nat): char
    requires d < 10
  {
    '0' + d as char
  }

  function ValueOf(c: char): (v: nat)
    requires IsDigit(c)
    ensures v < 10
  {
    c as int - '0' as int
  }

  /** The value a run of digits denotes, most significant digit first. */
  function NatOf(s: string): nat
    requires AllDigits(s)
  {
    if s == "" then 0 else NatOf(s[..|s| - 1]) * 10 + ValueOf(s[|s| - 1])
  }

  /** std::to_string of a number that is not negative */
  function PrintNat(n: nat): (s: string)
    ensures s != "" && AllDigits(s) && NatOf(s) == n
  {
    if n < 10 then
      [DigitOf(n)]
    else
      var s := PrintNat(n / 10) + [DigitOf(n % 10)];
      assert s[..|s| - 1] == PrintNat(n / 10);
      s
  }

  /** std::to_string */
  function PrintInt(n: int): string {
    if n < 0 then "-" + PrintNat(-n) else PrintNat(n)
  }

  predicate IsSpace(c: char) {
    c == ' ' || c == '\t' || c == '\n' || c == '\r' || c as int == 11 || c as int == 12
  }

  function SkipSpaces(s: string): string {
    if s != "" && IsSpace(s[0]) then SkipSpaces(s[1..]) else s
  }

  function LeadingDigits(s: string): (d: string)
    ensures AllDigits(d) && d <= s
  {
    if s != "" && IsDigit(s[0]) then [s[0]] + LeadingDigits(s[1..]) else ""
  }

  /** std::stoi; None where it throws */
  function Stoi(s: string): Option<int> {
    var t := SkipSpaces(s);
    var negative := t != "" && t[0] == '-';
    var u := if t != "" && (t[0] == '-' || t[0] == '+') then t[1..] else t;
    var digits := LeadingDigits(u);
    if digits == "" then None
    else
      var v := if negative then -(NatOf(digits) as int) else NatOf(digits);
      if -INT_MAX - 1 <= v <= INT_MAX then Some(v) else None
  }

  lemma {:induction false} LeadingDigitsOfDigits(s: string)
    requires AllDigits(s)
    ensures LeadingDigits(s) == s
  {
    if s != "" {
      LeadingDigitsOfDigits(s[1..]);
    }
  }

  /** A number the server prints is read back unchanged. */
  lemma StoiPrintNat(n: nat)
    requires n <= INT_MAX
    ensures Stoi(PrintNat(n)) == Some(n)
  {
    var s := PrintNat(n);
    assert s[0] in s;
    assert SkipSpaces(s) == s;
    LeadingDigitsOfDigits(s);
  }

  lemma PrintNatHasNo(n: nat, c: char)
    requires !IsDigit(c)
    ensures c !in PrintNat(n)
  {
  }
}
