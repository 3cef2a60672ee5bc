/**
 * The two JavaScript number conversions the product email uses, on
 * integral values: `toFixed(2)` and `parseInt` without a radix.
 */
module Numbers {
  import opened Schema

  function DigitChar(d: nat): (c: char)
    requires d < 10
    ensures '0' <= c <= '9'
  {
    ('0' as int + d) as char
  }

  /** The decimal digits of `n`, without leading zeros. */
  function Digits(n: nat): (s: string)
    ensures |s| >= 1 && (s[0] == '0' ==> n == 0 && |s| == 1)
    ensures forall i :: 0 <= i < |s| ==> '0' <= s[i] <= '9'
    decreases n
  {
    if n < 10 then [DigitChar(n)] else Digits(n / 10) + [DigitChar(n % 10)]
  }

  /** `String(n)` for an integral `n`. */
  function Decimal(n: int): string {
    if n < 0 then "-" + Digits(-n) else Digits(n)
  }

  /** `n.toFixed(2)` for an integral `n`: its decimal form with two zero decimals. */
  function ToFixed2(n: int): string {
    Decimal(n) + ".00"
  }

  /** The characters `parseInt` skips before the number (the ASCII and BOM ones and the line separators). */
  predicate IsSpace(c: char) {
    c == ' ' || c == '\t' || c == '\n' || c == '\r' || c == '\U{B}' || c == '\U{C}'
    || c == '\U{A0}' || c == '\U{FEFF}' || c == '\U{2028}' || c == '\U{2029}'
  }

  /** The value of `c` as a digit in `radix` (10 or 16), if it is one. */
  function DigitValue(c: char, radix: nat): (v: Option<nat>)
    ensures v.Some? ==> v.value < radix
  {
    if '0' <= c <= '9' && (c as int - '0' as int) < radix then Some(c as int - '0' as int)
    else if radix == 16 && 'a' <= c <= 'f' then Some(c as int - 'a' as int + 10)
    else if radix == 16 && 'A' <= c <= 'F' then Some(c as int - 'A' as int + 10)
    else None
  }

  /** The length of the longest prefix of `s` made of digits in `radix`. */
  function DigitRun(s: string, radix: nat): (n: nat)
    ensures n <= |s|
    ensures forall i :: 0 <= i < n ==> DigitValue(s[i], radix).Some?
    ensures n < |s| ==> DigitValue(s[n], radix).None?
  {
    if s == [] || DigitValue(s[0], radix).None? then 0 else 1 + DigitRun(s[1..], radix)
  }

  /** The value of a string of digits in `radix`, most significant first. */
  function ValueOf(s: string, radix: nat): nat
    requires forall i :: 0 <= i < |s| ==> DigitValue(s[i], radix).Some?
  {
    if s == [] then 0 else ValueOf(s[..|s| - 1], radix) * radix + DigitValue(s[|s| - 1], radix).value
  }

  function SkipSpaces(s: string): (r: string)
    ensures |r| <= |s| && r == s[|s| - |r|..]
    ensures r != [] ==> !IsSpace(r[0])
  {
    if s != [] && IsSpace(s[0]) then SkipSpaces(s[1..]) else s
  }

  /** `SkipSpaces` drops white space and nothing else. */
  lemma {:induction false} SkipSpacesDropsOnlySpace(s: string)
    ensures forall i :: 0 <= i < |s| - |SkipSpaces(s)| ==> IsSpace(s[i])
  {
    if s != [] && IsSpace(s[0]) {
      SkipSpacesDropsOnlySpace(s[1..]);
      assert forall i :: 1 <= i < |s| - |SkipSpaces(s)| ==> s[i] == s[1..][i - 1];
    }
  }

  predicate HexPrefix(s: string) {
    |s| >= 2 && s[0] == '0' && (s[1] == 'x' || s[1] == 'X')
  }

  /** The value of the longest digit prefix of `s`; no digit at all is `NaN`. */
  function Run(s: string, radix: nat): (v: Option<nat>)
    ensures v.None? <==> DigitRun(s, radix) == 0
  {
    var n := DigitRun(s, radix);
    if n == 0 then None else Some(ValueOf(s[..n], radix))
  }

  /** The digits after the sign: a `0x` or `0X` prefix selects radix 16. */
  function Unsigned(s: string): Option<nat> {
    if HexPrefix(s) then Run(s[2..], 16) else Run(s, 10)
  }

  /** `parseInt(s)`: `None` stands for `NaN`. */
  function ParseInt(s: string): Option<int> {
    var t := SkipSpaces(s);
    var negative := t != [] && t[0] == '-';
    var unsigned := if t != [] && (t[0] == '-' || t[0] == '+') then t[1..] else t;
    match Unsigned(unsigned)
    case None => None
    case Some(v) => Some(if negative then -(v as int) else v)
  }

  lemma {:induction false} DigitsValue(n: nat)
    ensures forall i :: 0 <= i < |Digits(n)| ==> DigitValue(Digits(n)[i], 10).Some?
    ensures ValueOf(Digits(n), 10) == n
    decreases n
  {
    var s := Digits(n);
    if n >= 10 {
      DigitsValue(n / 10);
      assert s[..|s| - 1] == Digits(n / 10);
    }
  }

  lemma {:induction false} WholeRun(s: string, radix: nat)
    requires forall i :: 0 <= i < |s| ==> DigitValue(s[i], radix).Some?
    ensures DigitRun(s, radix) == |s|
  {
    if s != [] {
      assert DigitValue(s[0], radix).Some?;
      WholeRun(s[1..], radix);
    }
  }

  /** A non-empty string of digits is read whole. */
  lemma RunOfDigits(s: string, radix: nat)
    requires s != [] && forall i :: 0 <= i < |s| ==> DigitValue(s[i], radix).Some?
    ensures Run(s, radix) == Some(ValueOf(s, radix))
  {
    WholeRun(s, radix);
    assert s[..|s|] == s;
  }

  lemma UnsignedDigits(n: nat)
    ensures Unsigned(Digits(n)) == Some(n)
  {
    assert !HexPrefix(Digits(n));
    DigitsValue(n);
    RunOfDigits(Digits(n), 10);
  }

  lemma ParseDigits(m: nat)
    ensures ParseInt(Digits(m)) == Some(m)
  {
    var s := Digits(m);
    assert !IsSpace(s[0]) && s[0] != '-' && s[0] != '+';
    assert SkipSpaces(s) == s;
    UnsignedDigits(m);
  }

  lemma ParseNegativeDigits(m: nat)
    ensures ParseInt("-" + Digits(m)) == Some(-(m as int))
  {
    var s := "-" + Digits(m);
    assert !IsSpace(s[0]);
    assert SkipSpaces(s) == s;
    assert s[1..] == Digits(m);
    UnsignedDigits(m);
  }

  /** `parseInt` reads back what `String` wrote: `parseInt(String(n)) == n` for every integer. */
  lemma ParseDecimal(n: int)
    ensures ParseInt(Decimal(n)) == Some(n)
  {
    var m: nat := if n < 0 then -n else n;
    if n < 0 {
      ParseNegativeDigits(m);
      assert Decimal(n) == "-" + Digits(m);
    } else {
      ParseDigits(m);
      assert Decimal(n) == Digits(m);
    }
  }
}
