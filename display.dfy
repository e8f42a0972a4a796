/** The display form of report values, `f"{x:,.2f}"`: an optional minus
    sign, the integer part with a comma between groups of three digits, a
    point and exactly two decimals. Values are exact reals, rounded to the
    nearest hundredth with halves going up; `ParseAmount` reads a rendered
    value back and serves as the formatter's inverse. */
module Display {

  function Abs(x: real): real
  {
    if x < 0.0 then -x else x
  }

  /** The nearest integer to `y`, halves rounded up. */
  function RoundHalfUp(y: real): (n: int)
    ensures y - 0.5 < n as real <= y + 0.5
  {
    (y + 0.5).Floor
  }

  predicate IsDigit(ch: char)
  {
    '0' <= ch <= '9'
  }

  predicate AllDigits(s: string)
  {
    forall i :: 0 <= i < |s| ==> IsDigit(s[i])
  }

  function DigitChar(d: nat): char
    requires d < 10
  {
    ('0' as int + d) as char
  }

  function DigitValue(ch: char): nat
  {
    if IsDigit(ch) then ch as int - '0' as int else 0
  }

  /** The decimal numeral of `n`, without leading zeros. */
  function Digits(n: nat): string
    decreases n
  {
    if n < 10 then [DigitChar(n)] else Digits(n / 10) + [DigitChar(n % 10)]
  }

  /** Exactly three digits, with leading zeros: a group after a comma. */
  function Group(k: nat): string
    requires k < 1000
  {
    [DigitChar(k / 100), DigitChar(k / 10 % 10), DigitChar(k % 10)]
  }

  /** The numeral of `n` with a comma before every group of three digits. */
  function Grouped(n: nat): string
    decreases n
  {
    if n < 1000 then Digits(n) else Grouped(n / 1000) + "," + Group(n % 1000)
  }

  /** A non-negative number of hundredths, with two decimals. */
  function Cents(c: nat): string
  {
    Grouped(c / 100) + "." + [DigitChar(c % 100 / 10), DigitChar(c % 10)]
  }

  /** `f"{x:,.2f}"`. A negative value keeps its sign even when it rounds
      to zero ("-0.00"), as Python prints it. */
  function Format(x: real): string
  {
    (if x < 0.0 then "-" else "") + Cents(RoundHalfUp(Abs(x) * 100.0))
  }

  /** Drops the separators ',' and '.' from a rendered value. */
  function Strip(s: string): string
  {
    if s == [] then []
    else (if s[0] == ',' || s[0] == '.' then [] else [s[0]]) + Strip(s[1..])
  }

  /** The number a string of digits denotes. */
  function ReadDigits(s: string): nat
  {
    if s == [] then 0 else ReadDigits(s[..|s| - 1]) * 10 + DigitValue(s[|s| - 1])
  }

  /** Reads a rendered value back: sign, then all digits as hundredths. */
  function ParseAmount(s: string): real
  {
    if |s| > 0 && s[0] == '-' then -(ReadDigits(Strip(s[1..])) as real / 100.0)
    else ReadDigits(Strip(s)) as real / 100.0
  }

  /** Digits in groups of three separated by commas; the first group has
      one to three digits. */
  predicate IsGrouped(s: string)
    decreases |s|
  {
    if |s| <= 3 then 1 <= |s| && AllDigits(s)
    else s[|s| - 4] == ',' && AllDigits(s[|s| - 3..]) && IsGrouped(s[..|s| - 4])
  }

  /** The text `,.2f` produces: an optional minus sign, a grouped integer
      part without leading zeros, a point and exactly two digits. */
  predicate IsAmountText(s: string)
  {
    var body := if |s| > 0 && s[0] == '-' then s[1..] else s;
    && |body| >= 4
    && IsGrouped(body[..|body| - 3])
    && body[|body| - 3] == '.'
    && AllDigits(body[|body| - 2..])
    && (body[0] == '0' ==> |body| == 4)
  }

  lemma {:induction false} StripAppend(a: string, b: string)
    ensures Strip(a + b) == Strip(a) + Strip(b)
  {
    if a != [] {
      assert (a + b)[0] == a[0] && (a + b)[1..] == a[1..] + b;
      StripAppend(a[1..], b);
      var head := if a[0] == ',' || a[0] == '.' then [] else [a[0]];
      assert Strip(a + b) == head + Strip(a[1..] + b);
      assert Strip(a) == head + Strip(a[1..]);
      assert head + (Strip(a[1..]) + Strip(b)) == (head + Strip(a[1..])) + Strip(b);
    } else {
      assert a + b == b;
    }
  }

  lemma {:induction false} StripDigits(s: string)
    requires AllDigits(s)
    ensures Strip(s) == s
  {
    if s != [] {
      StripDigits(s[1..]);
    }
  }

  /** The numeral has one to three digits below 1000, and starts with a
      non-zero digit unless it is "0". */
  lemma {:induction false} DigitsShape(n: nat)
    ensures 1 <= |Digits(n)| && AllDigits(Digits(n))
    ensures n < 10 ==> |Digits(n)| == 1
    ensures n < 100 ==> |Digits(n)| <= 2
    ensures n < 1000 ==> |Digits(n)| <= 3
    ensures Digits(n)[0] == '0' ==> n == 0
    decreases n
  {
    if n >= 10 {
      DigitsShape(n / 10);
    }
  }

  /** Reading a numeral gives back its number. */
  lemma {:induction false} DigitsValue(n: nat)
    ensures ReadDigits(Digits(n)) == n
    decreases n
  {
    if n >= 10 {
      DigitsValue(n / 10);
      var s := Digits(n);
      assert s[..|s| - 1] == Digits(n / 10);
    }
  }

  lemma ReadDigitsGroup(a: string, k: nat)
    requires k < 1000
    ensures ReadDigits(a + Group(k)) == ReadDigits(a) * 1000 + k
  {
    var x, y, z := k / 100, k / 10 % 10, k % 10;
    var s1 := a + [DigitChar(x)];
    var s2 := s1 + [DigitChar(y)];
    var s3 := s2 + [DigitChar(z)];
    assert s3 == a + Group(k);
    assert s1[..|s1| - 1] == a;
    assert s2[..|s2| - 1] == s1;
    assert s3[..|s3| - 1] == s2;
    assert ReadDigits(s1) == ReadDigits(a) * 10 + x;
    assert ReadDigits(s2) == ReadDigits(s1) * 10 + y;
    assert ReadDigits(s3) == ReadDigits(s2) * 10 + z;
    assert k == x * 100 + y * 10 + z;
  }

  /** Grouping only inserts separators: without them the digits read back
      as the number. */
  lemma {:induction false} GroupedValue(n: nat)
    ensures ReadDigits(Strip(Grouped(n))) == n
    decreases n
  {
    if n < 1000 {
      DigitsShape(n);
      StripDigits(Digits(n));
      DigitsValue(n);
    } else {
      var g := Grouped(n / 1000);
      GroupedValue(n / 1000);
      StripAppend(g + ",", Group(n % 1000));
      StripAppend(g, ",");
      StripDigits(Group(n % 1000));
      assert Strip(g + ",") == Strip(g);
      ReadDigitsGroup(Strip(g), n % 1000);
    }
  }

  /** The grouping is well formed and has no leading zero. */
  lemma {:induction false} GroupedShape(n: nat)
    ensures IsGrouped(Grouped(n))
    ensures IsDigit(Grouped(n)[0])
    ensures Grouped(n)[0] == '0' ==> n == 0
    decreases n
  {
    DigitsShape(n);
    if n >= 1000 {
      GroupedShape(n / 1000);
      var g, s := Grouped(n / 1000), Grouped(n);
      assert s[|s| - 4] == ',' && s[|s| - 3..] == Group(n % 1000);
      assert s[..|s| - 4] == g;
      assert s[0] == g[0];
    }
  }

  lemma CentsValue(c: nat)
    ensures ReadDigits(Strip(Cents(c))) == c
  {
    var g, tail := Grouped(c / 100), [DigitChar(c % 100 / 10), DigitChar(c % 10)];
    assert Cents(c) == (g + ".") + tail;
    StripAppend(g + ".", tail);
    StripAppend(g, ".");
    StripDigits(tail);
    assert Strip(g + ".") == Strip(g);
    GroupedValue(c / 100);
    var s := Strip(g) + tail;
    assert s[..|s| - 1] == Strip(g) + [tail[0]];
    assert s[..|s| - 1][..|s| - 2] == Strip(g);
  }

  lemma CentsShape(c: nat)
    ensures IsAmountText(Cents(c))
    ensures Cents(c)[0] != '-'
  {
    var g, s := Grouped(c / 100), Cents(c);
    GroupedShape(c / 100);
    DigitsShape(c / 100);
    assert |g| >= 1;
    assert s[..|s| - 3] == g;
    assert s[0] == g[0];
    assert g[0] == '0' ==> |g| == 1 by {
      if c / 100 == 0 {
        assert g == Digits(0);
      }
    }
  }

  /** Reading a rendered value back gives the value rounded to hundredths,
      with its sign. */
  lemma FormatValue(x: real)
    ensures ParseAmount(Format(x))
         == (if x < 0.0 then -1.0 else 1.0) * RoundHalfUp(Abs(x) * 100.0) as real / 100.0
  {
    var c: nat := RoundHalfUp(Abs(x) * 100.0);
    var s := Cents(c);
    CentsValue(c);
    CentsShape(c);
    if x < 0.0 {
      assert Format(x) == "-" + s;
      assert Format(x)[1..] == s;
      assert ParseAmount(Format(x)) == -(c as real / 100.0);
    } else {
      assert Format(x) == s;
      assert ParseAmount(s) == c as real / 100.0;
    }
  }

  /** Every value renders in the `,.2f` shape. */
  lemma FormatShape(x: real)
    ensures IsAmountText(Format(x))
  {
    var c: nat := RoundHalfUp(Abs(x) * 100.0);
    var s := Cents(c);
    CentsShape(c);
    if x < 0.0 {
      assert Format(x) == "-" + s;
      assert Format(x)[1..] == s;
    } else {
      assert Format(x) == s;
    }
  }

  /** A value that is a whole number of hundredths renders exactly. */
  lemma FormatExact(c: int)
    ensures ParseAmount(Format(c as real / 100.0)) == c as real / 100.0
  {
    var x := c as real / 100.0;
    var k := if c < 0 then -c else c;
    assert Abs(x) * 100.0 == k as real;
    var n := RoundHalfUp(k as real);
    assert k as real - 0.5 < n as real <= k as real + 0.5;
    assert n == k;
    FormatValue(x);
    assert ParseAmount(Format(x)) == (if x < 0.0 then -1.0 else 1.0) * k as real / 100.0;
  }

  /** Rendering is off by at most half a hundredth. */
  lemma FormatError(x: real)
    ensures -0.005 <= ParseAmount(Format(x)) - x <= 0.005
  {
    FormatValue(x);
  }
}
