/** Auto-generated interface names: a prefix followed by a decimal counter. */
module Naming {

  function Digit(n: nat): char
    requires n < 10
  {
    "0123456789"[n]
  }

  /** `%d` on a counter. */
  function Decimal(n: nat): (s: string)
    ensures s != ""
  {
    if n < 10 then [Digit(n)] else Decimal(n / 10) + [Digit(n % 10)]
  }

  function Value(s: string): nat {
    if s == "" then 0 else Value(s[..|s| - 1]) * 10 + DigitValue(s[|s| - 1])
  }

  function DigitValue(c: char): nat {
    if '0' <= c <= '9' then c as int - '0' as int else 0
  }

  /** Printing a counter can be undone. */
  lemma {:induction false} DecimalRoundTrip(n: nat)
    ensures Value(Decimal(n)) == n
  {
    if n < 10 {
      assert DigitValue(Digit(n)) == n;
      assert [Digit(n)][..0] == "";
    } else {
      DecimalRoundTrip(n / 10);
      assert DigitValue(Digit(n % 10)) == n % 10;
      assert Decimal(n)[..|Decimal(n)| - 1] == Decimal(n / 10);
    }
  }

  lemma DecimalDigits()
    ensures Decimal(0) == "0" && Decimal(7) == "7" && Decimal(120) == "120"
  {
    assert Decimal(12) == Decimal(1) + [Digit(2)] && Decimal(120) == Decimal(12) + [Digit(0)];
  }

  function AutoName(prefix: string, index: nat): string { prefix + Decimal(index) }

  /** The first names of a node with prefix "net". */
  lemma AutoNameExamples()
    ensures AutoName("net", 0) == "net0" && AutoName("net", 120) == "net120"
  {
    DecimalDigits();
  }

  lemma AutoNamesDiffer(prefix: string, i: nat, j: nat)
    ensures AutoName(prefix, i) == AutoName(prefix, j) ==> i == j
  {
    if AutoName(prefix, i) == AutoName(prefix, j) {
      assert AutoName(prefix, i)[|prefix|..] == Decimal(i);
      assert AutoName(prefix, j)[|prefix|..] == Decimal(j);
      DecimalRoundTrip(i);
      DecimalRoundTrip(j);
    }
  }
}
