/** Decimal numerals as JavaScript prints and reads them: `String(n)`, `padStart`, `Number(digits)`. */
module Decimal {
  predicate IsDigit(ch: char) {
    '0' <= ch <= '9'
  }

  predicate AllDigits(s: string) {
    forall i :: 0 <= i < |s| ==> IsDigit(s[i])
  }

  function DigitChar(d: nat): char
    requires d < 10
  {
    ('0' as int + d) as char
  }

  function DigitValue(ch: char): nat
    requires IsDigit(ch)
  {
    ch as int - '0' as int
  }

  function Digits(n: nat): (s: string)
    ensures |s| > 0 && AllDigits(s)
  {
    if n < 10 then [DigitChar(n)] else Digits(n / 10) + [DigitChar(n % 10)]
  }

  function Print(n: int): string {
    if n < 0 then "-" + Digits(-n) else Digits(n)
  }

  /** `padStart(width, "0")`. */
  function PadStart(s: string, width: nat): (p: string)
    ensures |p| == if |s| < width then width else |s|
    decreases width - |s|
  {
    if |s| < width then PadStart("0" + s, width) else s
  }

  function Value(s: string): nat
    requires AllDigits(s)
  {
    if s == "" then 0 else 10 * Value(s[..|s| - 1]) + DigitValue(s[|s| - 1])
  }

  lemma {:induction false} ValueOfDigits(n: nat)
    ensures Value(Digits(n)) == n
  {
    if n < 10 {
      assert Digits(n)[..0] == "";
    } else {
      ValueOfDigits(n / 10);
      assert Digits(n)[..|Digits(n)| - 1] == Digits(n / 10);
    }
  }

  lemma {:induction false} DigitsLength(n: nat, k: nat, bound: nat)
    requires k > 0 && bound == Power10(k)
    ensures |Digits(n)| <= k <==> n < bound
    decreases k
  {
    if k == 1 {
      assert Power10(0) == 1;
    } else {
      if n >= 10 {
        DigitsLength(n / 10, k - 1, Power10(k - 1));
      } else {
        Power10Grows(k - 1);
      }
    }
  }

  ghost function Power10(k: nat): nat {
    if k == 0 then 1 else 10 * Power10(k - 1)
  }

  lemma {:induction false} Power10Grows(k: nat)
    ensures Power10(k) >= 1
  {
    if k > 0 {
      Power10Grows(k - 1);
    }
  }

  lemma FourDigits(n: nat)
    ensures |Digits(n)| == 4 <==> 1000 <= n <= 9999
  {
    assert Power10(3) == 10 * Power10(2) == 100 * Power10(1) == 1000 * Power10(0) == 1000;
    assert Power10(4) == 10 * Power10(3);
    DigitsLength(n, 4, Power10(4));
    DigitsLength(n, 3, Power10(3));
  }

  lemma {:induction false} ValueIsInjective(s: string, t: string)
    requires AllDigits(s) && AllDigits(t) && |s| == |t| && Value(s) == Value(t)
    ensures s == t
    decreases |s|
  {
    if s != "" {
      var a, b := s[..|s| - 1], t[..|t| - 1];
      assert DigitValue(s[|s| - 1]) == Value(s) % 10 == DigitValue(t[|t| - 1]);
      ValueIsInjective(a, b);
      assert s == a + [s[|s| - 1]] && t == b + [t[|t| - 1]];
    }
  }

  lemma {:induction false} ValueBound(s: string)
    requires AllDigits(s)
    ensures Value(s) < Power10(|s|)
    decreases |s|
  {
    if s != "" {
      ValueBound(s[..|s| - 1]);
    }
  }

  lemma PrintIsInjective(m: int, n: int)
    ensures Print(m) == Print(n) ==> m == n
  {
    var p, q := if m < 0 then -m else m, if n < 0 then -n else n;
    ValueOfDigits(p);
    ValueOfDigits(q);
    assert Digits(p)[0] != '-' && Digits(q)[0] != '-';
    if m < 0 && n < 0 {
      assert Print(m)[1..] == Digits(p) && Print(n)[1..] == Digits(q);
    }
  }

  /** Two digits are what a number below 100 pads to. */
  lemma Padded(n: nat)
    requires n < 100
    ensures var p := PadStart(Digits(n), 2); |p| == 2 && AllDigits(p) && Value(p) == n
  {
    var p := PadStart(Digits(n), 2);
    if n < 10 {
      assert Digits(n) == [DigitChar(n)];
      assert "0" + Digits(n) == [DigitChar(0), DigitChar(n)];
      assert p == PadStart("0" + Digits(n), 2);
    } else {
      assert Digits(n / 10) == [DigitChar(n / 10)];
      assert p == Digits(n);
    }
    assert p == [DigitChar(n / 10), DigitChar(n % 10)];
    assert p[..1] == [DigitChar(n / 10)] && p[..1][..0] == "";
    assert Value(p[..1]) == n / 10;
  }
}
