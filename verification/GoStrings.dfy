/** Text as Go's `strconv` and `strings` treat it. */
module GoStrings {
  import opened Wrappers

  const MAX_INT64 := 0x7FFF_FFFF_FFFF_FFFF

  /** Lower case, for the ASCII letters. */
  function LowerCase(s: string): string {
    seq(|s|, i requires 0 <= i < |s| => if 'A' <= s[i] <= 'Z' then (s[i] as int + 32) as char else s[i])
  }

  /** Each letter keeps its place in the alphabet, and everything else stays. */
  lemma LowerCaseMeans(s: string)
    ensures |LowerCase(s)| == |s|
    ensures forall i :: 0 <= i < |s| && 'A' <= s[i] <= 'Z' ==>
      'a' <= LowerCase(s)[i] <= 'z' && LowerCase(s)[i] as int - 'a' as int == s[i] as int - 'A' as int
    ensures forall i :: 0 <= i < |s| && !('A' <= s[i] <= 'Z') ==> LowerCase(s)[i] == s[i]
  {
  }

  predicate IsDigit(c: char) {
    '0' <= c <= '9'
  }

  predicate AllDigits(s: string) {
    forall i :: 0 <= i < |s| ==> IsDigit(s[i])
  }

  function DigitValue(c: char): nat
    requires IsDigit(c)
  {
    c as int - '0' as int
  }

  /** The number that a run of digits stands for. */
  function Value(s: string): nat
    requires AllDigits(s)
  {
    if s == "" then 0 else Value(s[..|s| - 1]) * 10 + DigitValue(s[|s| - 1])
  }

  function Itoa(n: nat): string {
    if n < 10 then ["0123456789"[n]] else Itoa(n / 10) + ["0123456789"[n % 10]]
  }

  /** Digits are decimal, the most significant first. */
  lemma DecimalNotation(s: string, c: char)
    requires AllDigits(s) && IsDigit(c)
    ensures AllDigits(s + [c]) && Value(s + [c]) == 10 * Value(s) + (c as int - 48)
    ensures Value("") == 0 && Itoa(7) == "7" && Itoa(90) == "90"
  {
    assert (s + [c])[..|s|] == s;
    assert Itoa(90) == Itoa(9) + "0";
  }

  /** `strconv.Itoa`, sign included. */
  function SignedItoa(n: int): string {
    if n < 0 then "-" + Itoa(-n) else Itoa(n)
  }

  lemma {:induction false} ItoaRoundTrip(n: nat)
    ensures Itoa(n) != "" && AllDigits(Itoa(n)) && Value(Itoa(n)) == n
  {
    var last := "0123456789"[n % 10];
    assert IsDigit(last) && DigitValue(last) == n % 10;
    if n < 10 {
      assert Itoa(n)[..0] == "";
    } else {
      ItoaRoundTrip(n / 10);
      assert Itoa(n)[..|Itoa(n)| - 1] == Itoa(n / 10);
    }
  }

  lemma AtoiUndoesItoa(n: int)
    requires -MAX_INT64 - 1 <= n <= MAX_INT64
    ensures Atoi(SignedItoa(n)) == Some(n) && ':' !in SignedItoa(n)
  {
    var digits := Itoa(if n < 0 then -n else n);
    ItoaRoundTrip(if n < 0 then -n else n);
    assert IsDigit(digits[0]);
    if n < 0 {
      assert SignedItoa(n)[1..] == digits;
    }
  }

  /** Where the leading run of digits stops. */
  function DigitsEnd(s: string): (n: nat)
    ensures n <= |s| && AllDigits(s[..n]) && (n < |s| ==> !IsDigit(s[n]))
  {
    if s == "" || !IsDigit(s[0]) then 0
    else
      var n := 1 + DigitsEnd(s[1..]);
      assert forall i :: 1 <= i < n ==> s[i] == s[1..][i - 1];
      n
  }

  lemma DigitsEndIs(s: string, n: nat)
    requires n <= |s| && AllDigits(s[..n]) && (n < |s| ==> !IsDigit(s[n]))
    ensures DigitsEnd(s) == n
  {
    var m := DigitsEnd(s);
    forall i | 0 <= i < n ensures IsDigit(s[i]) {
      assert s[..n][i] == s[i];
    }
    forall i | 0 <= i < m ensures IsDigit(s[i]) {
      assert s[..m][i] == s[i];
    }
  }

  /** `strconv.ParseInt(s, 10, 64)` on text without a sign. */
  function ParseDigits(s: string): Option<nat> {
    if s == "" || !AllDigits(s) || Value(s) > MAX_INT64 then None else Some(Value(s))
  }

  /** `strconv.Atoi`: an optional sign, then digits, within 64 bits. */
  function Atoi(s: string): Option<int> {
    if s != "" && s[0] == '-' then
      if s[1..] == "" || !AllDigits(s[1..]) || Value(s[1..]) > MAX_INT64 + 1 then None else Some(0 - Value(s[1..]))
    else
      var digits := if s != "" && s[0] == '+' then s[1..] else s;
      match ParseDigits(digits)
      case None => None
      case Some(n) => Some(n)
  }
}
