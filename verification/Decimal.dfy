/** Decimal printing, as `strconv.Itoa` and the `%d` verb do it, and its inverse. */
module Decimal {

  function DigitChar(d: nat): char
    requires d < 10
  {
    ('0' as int + d) as char
  }

  predicate IsDigit(c: char) {
    '0' <= c <= '9'
  }

  predicate AllDigits(s: string) {
    forall i :: 0 <= i < |s| ==> IsDigit(s[i])
  }

  function Print(n: nat): (s: string)
    ensures s != "" && AllDigits(s)
  {
    if n < 10 then [DigitChar(n)] else Print(n / 10) + [DigitChar(n % 10)]
  }

  /** `strconv.Itoa`. */
  function Itoa(n: int): string {
    if n < 0 then "-" + Print(-n) else Print(n)
  }

  function Parse(s: string): nat
    requires AllDigits(s)
  {
    if s == "" then 0 else 10 * Parse(s[..|s| - 1]) + (s[|s| - 1] as int - '0' as int)
  }

  function Zeros(n: nat): string {
    seq(n, _ => '0')
  }

  lemma {:induction false} ParseZeros(n: nat)
    ensures Parse(Zeros(n)) == 0
  {
    if n > 0 {
      assert Zeros(n)[..n - 1] == Zeros(n - 1);
      ParseZeros(n - 1);
    }
  }

  /** Parsing undoes printing, with or without leading zeros. */
  lemma {:induction false} ParsePrint(zeros: nat, n: nat)
    ensures AllDigits(Zeros(zeros) + Print(n))
    ensures Parse(Zeros(zeros) + Print(n)) == n
  {
    var s := Zeros(zeros) + Print(n);
    if n < 10 {
      assert s[..|s| - 1] == Zeros(zeros);
      ParseZeros(zeros);
    } else {
      assert s[..|s| - 1] == Zeros(zeros) + Print(n / 10);
      ParsePrint(zeros, n / 10);
    }
  }

  /** A number printed with at least `width` digits. */
  function Pad(n: nat, width: nat): string {
    if |Print(n)| < width then Zeros(width - |Print(n)|) + Print(n) else Print(n)
  }

  lemma ParsePad(n: nat, width: nat)
    ensures AllDigits(Pad(n, width)) && Parse(Pad(n, width)) == n
  {
    ParsePrint(if |Print(n)| < width then width - |Print(n)| else 0, n);
    assert Zeros(0) + Print(n) == Print(n);
  }
}
