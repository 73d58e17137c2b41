/**
 * The few pieces of java.lang that the modelled code relies on: 32-bit `int`
 * arithmetic, the decimal and hexadecimal renderings of `Integer`, and the
 * exceptions the modelled code can raise.
 */
module JavaLang {

  const IntMin: int := -0x8000_0000
  const IntMax: int := 0x7fff_ffff

  /** The values of Java's `int`. */
  predicate IsInt(x: int) {
    IntMin <= x <= IntMax
  }

  /** Java `int` arithmetic: the mathematical result, wrapped to 32 bits two's complement. */
  function Wrap(x: int): (r: int)
    ensures IsInt(r)
    ensures IsInt(x) ==> r == x
    ensures (x - r) % 0x1_0000_0000 == 0
  {
    (x - IntMin) % 0x1_0000_0000 + IntMin
  }

  /** `Integer.min` / `Math.min`. */
  function Min(a: int, b: int): int {
    if a <= b then a else b
  }

  /** `Integer.max` / `Math.max`. */
  function Max(a: int, b: int): int {
    if a >= b then a else b
  }

  /** The exceptions the modelled code can throw. */
  datatype Exception =
    | IllegalArgumentException   // Random.nextInt with a bound that is not positive
    | NegativeArraySizeException // `new T[n]` with n < 0

  /** Characters `Integer.toString` and `Integer.toHexString` write for a digit. */
  predicate IsDigitChar(c: char) {
    '0' <= c <= '9' || 'a' <= c <= 'f'
  }

  /** The lower-case digit character for d, as Java's `Character.forDigit(d, 16)`. */
  function DigitChar(d: nat): (c: char)
    requires d < 16
    ensures IsDigitChar(c)
  {
    if d < 10 then (48 + d) as char else (87 + d) as char
  }

  /** The digit a lower-case digit character stands for, as `Character.digit(c, 16)`. */
  function DigitValue(c: char): (d: nat)
    requires IsDigitChar(c)
    ensures d < 16
  {
    if c <= '9' then c as int - 48 else c as int - 87
  }

  lemma DigitValueOfDigitChar(d: nat)
    requires d < 16
    ensures DigitValue(DigitChar(d)) == d
  {
  }

  /** The digits of n in the given base, most significant first, without leading zeros. */
  function Digits(n: nat, base: nat): (r: string)
    requires 2 <= base <= 16
    ensures 1 <= |r|
    ensures forall c :: c in r ==> IsDigitChar(c)
    decreases n
  {
    if n < base then [DigitChar(n)] else Digits(n / base, base) + [DigitChar(n % base)]
  }

  /** A positive number's decimal digits have no leading zero. */
  lemma {:induction false} DecimalNoLeadingZero(n: nat)
    ensures n > 0 ==> Digits(n, 10)[0] != '0'
    decreases n
  {
    if n >= 10 {
      DecimalNoLeadingZero(n / 10);
      assert Digits(n, 10) == Digits(n / 10, 10) + [DigitChar(n % 10)];
    }
  }

  lemma DigitsStartWithDigit(n: nat, base: nat)
    requires 2 <= base <= 16
    ensures IsDigitChar(Digits(n, base)[0])
  {
    assert Digits(n, base)[0] in Digits(n, base);
  }

  /** Decimal digits are among `0` .. `9`: no letter of the hexadecimal alphabet. */
  lemma {:induction false} DecimalDigitsOnly(n: nat)
    ensures forall c :: c in Digits(n, 10) ==> '0' <= c <= '9'
    ensures forall k :: 0 <= k < |Digits(n, 10)| ==> Digits(n, 10)[k] <= '9'
    decreases n
  {
    if n >= 10 {
      DecimalDigitsOnly(n / 10);
      assert Digits(n, 10) == Digits(n / 10, 10) + [DigitChar(n % 10)];
    }
  }

  /** `Integer.toString(x)`, which is also what `"..." + x` appends. */
  function IntToString(x: int): (r: string)
    ensures forall c :: c in r ==> c == '-' || '0' <= c <= '9'
  {
    DecimalDigitsOnly(if x < 0 then -x else x);
    if x < 0 then "-" + Digits(-x, 10) else Digits(x, 10)
  }

  /** `Integer.toHexString(n)` for a non-negative n. */
  function ToHexString(n: nat): (r: string)
    ensures forall c :: c in r ==> IsDigitChar(c)
  {
    Digits(n, 16)
  }

  /**
   * The number a string of digits denotes in the given base, as
   * `Integer.parseInt(s, base)`, which accepts only digits below the base.
   */
  function DigitsValue(s: string, base: nat): nat
    requires forall k :: 0 <= k < |s| ==> IsDigitChar(s[k]) && DigitValue(s[k]) < base
  {
    if |s| == 0 then 0 else DigitsValue(s[..|s| - 1], base) * base + DigitValue(s[|s| - 1])
  }

  /** Reading the decimal digits of n back gives n. */
  lemma {:induction false} DecimalRoundTrip(n: nat)
    ensures (DecimalDigitsOnly(n); DigitsValue(Digits(n, 10), 10) == n)
    decreases n
  {
    DecimalDigitsOnly(n);
    var s := Digits(n, 10);
    if n < 10 {
      DigitValueOfDigitChar(n);
    } else {
      var p := Digits(n / 10, 10);
      assert s == p + [DigitChar(n % 10)];
      assert s[..|s| - 1] == p;
      DecimalRoundTrip(n / 10);
      DigitValueOfDigitChar(n % 10);
    }
  }

  /** Reading the hexadecimal digits of n back gives n: `toHexString` denotes n in base 16. */
  lemma {:induction false} HexRoundTrip(n: nat)
    ensures DigitsValue(ToHexString(n), 16) == n
    decreases n
  {
    var s := Digits(n, 16);
    if n < 16 {
      DigitValueOfDigitChar(n);
    } else {
      var p := Digits(n / 16, 16);
      assert s == p + [DigitChar(n % 16)];
      assert s[..|s| - 1] == p;
      HexRoundTrip(n / 16);
      DigitValueOfDigitChar(n % 16);
    }
  }

  /** Different numbers have different decimal digits. */
  lemma DecimalInjective(a: nat, b: nat)
    requires Digits(a, 10) == Digits(b, 10)
    ensures a == b
  {
    DecimalRoundTrip(a);
    DecimalRoundTrip(b);
  }

  /** Different ints have different decimal renderings. */
  lemma IntToStringInjective(x: int, y: int)
    requires IntToString(x) == IntToString(y)
    ensures x == y
  {
    if x < 0 && y < 0 {
      assert Digits(-x, 10) == IntToString(x)[1..] == IntToString(y)[1..] == Digits(-y, 10);
      DecimalInjective(-x, -y);
    } else if x >= 0 && y >= 0 {
      DecimalInjective(x, y);
    } else {
      // Exactly one rendering starts with '-', which no digit string contains.
      DigitsStartWithDigit(if x < 0 then y else x, 10);
    }
  }
}
