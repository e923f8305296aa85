/**
 * Python's number formatting as the metric sentence uses it, on fixed-point
 * values: an amount is an integer count of hundredths, so `f"{x:.2f}"` is
 * `Fixed2` and `f"{x:,.2f}"` (thousands separated by commas) is `Money`.
 * `str(i)` for an integer is `IntToString`. Each format is paired with the
 * reading `SignedValue` that recovers the amount from the text.
 */
module Format {

  predicate IsDigit(c: char) {
    '0' <= c <= '9'
  }

  function Abs(x: int): nat {
    if x < 0 then -x else x
  }

  function DigitChar(d: nat): char
    requires d < 10
  {
    ('0' as int + d) as char
  }

  /** The decimal digits of `n`, without leading zeros. */
  function Digits(n: nat): (s: string)
    ensures |s| >= 1 && IsDigit(s[0])
    ensures forall i :: 0 <= i < |s| ==> IsDigit(s[i])
  {
    if n < 10 then [DigitChar(n)] else Digits(n / 10) + [DigitChar(n % 10)]
  }

  /** Exactly two digits, with a leading zero where needed. */
  function Pad2(n: nat): string
    requires n < 100
  {
    [DigitChar(n / 10), DigitChar(n % 10)]
  }

  /** Exactly three digits, with leading zeros where needed. */
  function Pad3(n: nat): string
    requires n < 1000
  {
    [DigitChar(n / 100), DigitChar(n / 10 % 10), DigitChar(n % 10)]
  }

  /** The digits of `n` in groups of three separated by commas, as the `,` option prints them. */
  function Grouped(n: nat): (s: string)
    ensures |s| >= 1 && IsDigit(s[0])
  {
    if n < 1000 then Digits(n) else Grouped(n / 1000) + "," + Pad3(n % 1000)
  }

  /** `f"{x:.2f}"` for the non-negative amount of `n` hundredths. */
  function Fixed2(n: nat): string {
    Digits(n / 100) + "." + Pad2(n % 100)
  }

  /** `f"{x:,.2f}"` for the amount of `c` hundredths: a minus sign only for a negative amount. */
  function Money(c: int): string {
    (if c < 0 then "-" else "") + Grouped(Abs(c) / 100) + "." + Pad2(Abs(c) % 100)
  }

  /** `str(i)`. */
  function IntToString(i: int): string {
    if i < 0 then "-" + Digits(-i) else Digits(i)
  }

  // ---------------------------------------------------------------------
  // Reading a formatted number back

  function DigitValue(c: char): nat {
    if IsDigit(c) then c as int - '0' as int else 0
  }

  function Pow10(k: nat): nat {
    if k == 0 then 1 else 10 * Pow10(k - 1)
  }

  /** The number of digit characters in `s`. */
  function DigitCount(s: string): nat {
    if s == [] then 0
    else DigitCount(s[..|s| - 1]) + (if IsDigit(s[|s| - 1]) then 1 else 0)
  }

  /** The digits of `s` read as one decimal numeral; separators ',' and '.' contribute nothing. */
  function Value(s: string): nat {
    if s == [] then 0
    else if IsDigit(s[|s| - 1]) then 10 * Value(s[..|s| - 1]) + DigitValue(s[|s| - 1])
    else Value(s[..|s| - 1])
  }

  /** `Value`, negated when the text starts with a minus sign. */
  function SignedValue(s: string): int {
    if s != [] && s[0] == '-' then -(Value(s[1..]) as int) else Value(s)
  }

  /** Reading a concatenation: the digits of `b` shift those of `a` to the left. */
  lemma {:induction false} ValueConcat(a: string, b: string)
    ensures Value(a + b) == Value(a) * Pow10(DigitCount(b)) + Value(b)
    decreases |b|
  {
    if b == [] {
      assert a + b == a;
    } else {
      var b' := b[..|b| - 1];
      var x := b[|b| - 1];
      assert (a + b)[..|a + b| - 1] == a + b';
      assert (a + b)[|a + b| - 1] == x;
      ValueConcat(a, b');
      var p := Pow10(DigitCount(b'));
      if IsDigit(x) {
        assert Pow10(DigitCount(b)) == 10 * p;
        ShiftDigit(Value(a), p, Value(b'), DigitValue(x));
      }
    }
  }

  lemma ShiftDigit(a: nat, p: nat, b: nat, d: nat)
    ensures 10 * (a * p + b) + d == a * (10 * p) + (10 * b + d)
  {
  }

  /** The digits of `n` read back give `n`; every character counts as a digit. */
  lemma {:induction false} DigitsValue(n: nat)
    ensures Value(Digits(n)) == n
    ensures DigitCount(Digits(n)) == |Digits(n)|
    decreases n
  {
    if n >= 10 {
      var s := Digits(n);
      assert s[..|s| - 1] == Digits(n / 10);
      DigitsValue(n / 10);
    }
  }

  lemma DigitCharValue(d: nat)
    requires d < 10
    ensures IsDigit(DigitChar(d)) && DigitValue(DigitChar(d)) == d
  {
  }

  /** A comma followed by three padded digits reads as their value. */
  lemma GroupValue(m: nat)
    requires m < 1000
    ensures Value("," + Pad3(m)) == m && DigitCount("," + Pad3(m)) == 3
  {
    var g := "," + Pad3(m);
    DigitCharValue(m / 100);
    DigitCharValue(m / 10 % 10);
    DigitCharValue(m % 10);
    assert g[..3][..2] == g[..2];
    assert g[..2][..1] == g[..1];
    assert g[..1][..0] == [];
    assert g[..1] == [','] && !IsDigit(',');
    assert Value(g[..1]) == Value([]) == 0;
    assert DigitCount(g[..1]) == DigitCount([]) == 0;
    assert Value(g[..2]) == m / 100;
    assert Value(g[..3]) == 10 * (m / 100) + m / 10 % 10;
    assert DigitCount(g[..2]) == 1 && DigitCount(g[..3]) == 2;
    assert g[..4] == g;
  }

  /** A decimal point followed by two padded digits reads as their value. */
  lemma CentsValue(m: nat)
    requires m < 100
    ensures Value("." + Pad2(m)) == m && DigitCount("." + Pad2(m)) == 2
  {
    var g := "." + Pad2(m);
    DigitCharValue(m / 10);
    DigitCharValue(m % 10);
    assert g[..2][..1] == g[..1];
    assert g[..1][..0] == [];
    assert g[..1] == ['.'] && !IsDigit('.');
    assert Value(g[..1]) == Value([]) == 0;
    assert DigitCount(g[..1]) == DigitCount([]) == 0;
    assert Value(g[..2]) == m / 10;
    assert g[..3] == g;
  }

  /** Digit grouping loses nothing: the grouped text reads back as `n`. */
  lemma {:induction false} GroupedValue(n: nat)
    ensures Value(Grouped(n)) == n
    decreases n
  {
    if n < 1000 {
      DigitsValue(n);
    } else {
      GroupedValue(n / 1000);
      GroupValue(n % 1000);
      ValueConcat(Grouped(n / 1000), "," + Pad3(n % 1000));
      assert Grouped(n) == Grouped(n / 1000) + ("," + Pad3(n % 1000));
    }
  }

  /**
   * The shape the `,` option prints: a first group of one to three digits,
   * then groups of a comma and exactly three digits.
   */
  predicate WellGrouped(s: string)
    decreases |s|
  {
    || (1 <= |s| <= 3 && forall i :: 0 <= i < |s| ==> IsDigit(s[i]))
    || (&& |s| >= 5 && s[|s| - 4] == ','
        && IsDigit(s[|s| - 3]) && IsDigit(s[|s| - 2]) && IsDigit(s[|s| - 1])
        && WellGrouped(s[..|s| - 4]))
  }

  /** A number below 1000 has at most three digits. */
  lemma DigitsShort(n: nat)
    requires n < 1000
    ensures |Digits(n)| <= 3
  {
    if n >= 10 {
      assert |Digits(n)| == |Digits(n / 10)| + 1;
      if n >= 100 {
        assert |Digits(n / 10)| == |Digits(n / 100)| + 1;
      }
    }
  }

  /** No leading zero: the digits start with '0' only for zero itself. */
  lemma {:induction false} DigitsNoLeadingZero(n: nat)
    ensures Digits(n)[0] == '0' <==> n == 0
    decreases n
  {
    if n >= 10 {
      DigitsNoLeadingZero(n / 10);
      assert Digits(n)[0] == Digits(n / 10)[0];
    }
  }

  /** The grouped digits have the comma-separated shape, and start with '0' only for zero. */
  lemma {:induction false} GroupedShape(n: nat)
    ensures WellGrouped(Grouped(n))
    ensures Grouped(n)[0] == '0' <==> n == 0
    decreases n
  {
    DigitsNoLeadingZero(n);
    if n < 1000 {
      DigitsShort(n);
    } else {
      var g, t := Grouped(n / 1000), Pad3(n % 1000);
      var s := Grouped(n);
      GroupedShape(n / 1000);
      DigitCharValue(n % 1000 / 100);
      DigitCharValue(n % 1000 / 10 % 10);
      DigitCharValue(n % 1000 % 10);
      assert s == g + [','] + t;
      assert s[..|s| - 4] == g;
      assert s[0] == g[0];
    }
  }

  /**
   * `Fixed2` is digits only (no sign, no commas) up to a point and exactly two
   * decimals, has a leading zero only when the whole part is 0, and reads
   * back as the amount.
   */
  lemma Fixed2Value(n: nat)
    ensures var s := Fixed2(n);
      |s| >= 4 && s[|s| - 3] == '.' && IsDigit(s[|s| - 2]) && IsDigit(s[|s| - 1])
      && (forall i :: 0 <= i < |s| - 3 ==> IsDigit(s[i]))
      && (s[0] == '0' ==> |s| == 4)
      && SignedValue(s) == n
  {
    var s := Fixed2(n);
    DigitsNoLeadingZero(n / 100);
    assert s[..|s| - 3] == Digits(n / 100);
    assert s[0] == Digits(n / 100)[0];
    DigitsValue(n / 100);
    CentsValue(n % 100);
    assert s == Digits(n / 100) + ("." + Pad2(n % 100));
    ValueConcat(Digits(n / 100), "." + Pad2(n % 100));
  }

  /**
   * `Money` ends in a point and exactly two decimals, starts with a minus sign
   * exactly when the amount is negative, and reads back as the amount.
   */
  lemma MoneyValue(c: int)
    ensures var s := Money(c);
      |s| >= 4 && s[|s| - 3] == '.' && IsDigit(s[|s| - 2]) && IsDigit(s[|s| - 1])
      && (s[0] == '-' <==> c < 0)
      && SignedValue(s) == c
  {
    var a := Abs(c);
    var body := Grouped(a / 100) + "." + Pad2(a % 100);
    AmountValue(a);
    if c < 0 {
      assert Money(c) == "-" + body;
      assert Money(c)[1..] == body;
    } else {
      assert Money(c) == body;
    }
  }

  /**
   * The unsigned part of `Money`: comma-grouped digits with a leading zero
   * only when the whole part is 0, then a point and two decimals; it reads
   * back as `a`.
   */
  lemma AmountValue(a: nat)
    ensures var b := Grouped(a / 100) + "." + Pad2(a % 100);
      |b| >= 4 && IsDigit(b[0]) && b[|b| - 3] == '.' && IsDigit(b[|b| - 2]) && IsDigit(b[|b| - 1])
      && WellGrouped(b[..|b| - 3])
      && (b[0] == '0' ==> |b| == 4)
      && Value(b) == a
  {
    AmountShape(a);
    GroupedValue(a / 100);
    CentsValue(a % 100);
    assert Grouped(a / 100) + "." + Pad2(a % 100) == Grouped(a / 100) + ("." + Pad2(a % 100));
    ValueConcat(Grouped(a / 100), "." + Pad2(a % 100));
  }

  lemma AmountShape(a: nat)
    ensures var b := Grouped(a / 100) + "." + Pad2(a % 100);
      |b| >= 4 && WellGrouped(b[..|b| - 3]) && (b[0] == '0' ==> |b| == 4)
  {
    var g := Grouped(a / 100);
    var b := g + "." + Pad2(a % 100);
    GroupedShape(a / 100);
    assert b[..|b| - 3] == g;
    assert b[0] == g[0];
  }

  /** `str(i)` reads back as `i`. */
  lemma IntToStringValue(i: int)
    ensures SignedValue(IntToString(i)) == i
  {
    if i < 0 {
      DigitsValue(-i);
      assert IntToString(i)[1..] == Digits(-i);
    } else {
      DigitsValue(i);
    }
  }
}
