/** Text as the sources build it: joined at separators, numbers in zero-padded decimal. */
module Texts {

  predicate IsSpace(c: char) {
    c in " \t\n\r"
  }

  /** `not text.strip()` */
  predicate Blank(text: string) {
    forall i | 0 <= i < |text| :: IsSpace(text[i])
  }

  lemma SplitAt(a: string, x: string, b: string, y: string, separator: char)
    requires separator !in a && separator !in b && a + [separator] + x == b + [separator] + y
    ensures a == b && x == y
  {
    var s, t := a + [separator] + x, b + [separator] + y;
    assert s[|a|] == separator && t[|b|] == separator;
    assert forall i | 0 <= i < |a| :: s[i] == a[i];
    assert forall i | 0 <= i < |b| :: t[i] == b[i];
    assert |a| == |b|;
    assert a == s[..|a|] && b == t[..|b|];
    assert x == s[|a| + 1..] && y == t[|b| + 1..];
  }

  lemma SplitAtLast(a: string, x: string, b: string, y: string, separator: char)
    requires separator !in x && separator !in y && a + [separator] + x == b + [separator] + y
    ensures a == b && x == y
  {
    var s, t := a + [separator] + x, b + [separator] + y;
    assert s[|a|] == separator && t[|b|] == separator;
    assert forall i | |a| < i < |s| :: s[i] == x[i - |a| - 1];
    assert forall i | |b| < i < |t| :: t[i] == y[i - |b| - 1];
    assert |a| == |b|;
    assert a == s[..|a|] && b == t[..|b|];
    assert x == s[|a| + 1..] && y == t[|b| + 1..];
  }

  function Digit(d: nat): char
    requires d < 10
  {
    ('0' as int + d) as char
  }

  predicate IsDigit(c: char) {
    '0' <= c <= '9'
  }

  function DigitValue(c: char): nat
    requires IsDigit(c)
  {
    c as int - '0' as int
  }

  function Decimal(n: nat): string {
    if n < 10 then [Digit(n)] else Decimal(n / 10) + [Digit(n % 10)]
  }

  function Zeros(n: nat): string {
    if n == 0 then "" else "0" + Zeros(n - 1)
  }

  /** `{n:0width}` */
  function Padded(n: nat, width: nat): string {
    var digits := Decimal(n);
    if |digits| >= width then digits else Zeros(width - |digits|) + digits
  }

  /** The number a text of digits stands for. */
  function Value(s: string): nat
    requires forall i | 0 <= i < |s| :: IsDigit(s[i])
  {
    if s == "" then 0 else Value(s[..|s| - 1]) * 10 + DigitValue(s[|s| - 1])
  }

  lemma {:induction false} DecimalValue(n: nat)
    ensures forall i | 0 <= i < |Decimal(n)| :: IsDigit(Decimal(n)[i])
    ensures Value(Decimal(n)) == n && Decimal(n) != ""
  {
    if n < 10 {
      assert Decimal(n)[..0] == "";
    } else {
      DecimalValue(n / 10);
      assert Decimal(n)[..|Decimal(n)| - 1] == Decimal(n / 10);
    }
  }

  lemma {:induction false} ZerosValue(n: nat, s: string)
    requires forall i | 0 <= i < |s| :: IsDigit(s[i])
    ensures |Zeros(n)| == n && (forall i | 0 <= i < n :: Zeros(n)[i] == '0')
    ensures forall i | 0 <= i < n + |s| :: IsDigit((Zeros(n) + s)[i])
    ensures Value(Zeros(n) + s) == Value(s)
    decreases |s|, n
  {
    if s == "" {
      if n > 0 {
        ZerosValue(n - 1, "");
        ZerosLast(n);
        assert (Zeros(n) + s)[..n - 1] == Zeros(n - 1) + "";
      }
    } else {
      ZerosValue(n, s[..|s| - 1]);
      assert (Zeros(n) + s)[..n + |s| - 1] == Zeros(n) + s[..|s| - 1];
    }
  }

  lemma {:induction false} ZerosLast(n: nat)
    requires n > 0
    ensures Zeros(n) == Zeros(n - 1) + "0" && |Zeros(n - 1)| == n - 1
  {
    if n > 1 { ZerosLast(n - 1); }
  }

  lemma PaddedValue(n: nat, width: nat)
    ensures forall i | 0 <= i < |Padded(n, width)| :: IsDigit(Padded(n, width)[i])
    ensures Value(Padded(n, width)) == n && |Padded(n, width)| >= width
  {
    DecimalValue(n);
    if |Decimal(n)| < width {
      ZerosValue(width - |Decimal(n)|, Decimal(n));
    }
  }
}
