/**
 * The PHP scalar rules the plugin relies on: `empty()` on a string setting,
 * the `(int)` cast of a string, the decimal spelling of an integer, and the
 * key PHP stores when a string is used as an array key.
 */
module PhpScalar {
  import opened PhpArray

  /** The characters PHP skips before a number: space, tab, LF, CR, VT and FF. */
  predicate IsSpace(c: char)
  {
    c == ' ' || c == '\t' || c == '\n' || c == '\r' || c == 11 as char || c == 12 as char
  }

  predicate IsDigit(c: char)
  {
    '0' <= c <= '9'
  }

  predicate AllDigits(s: string)
  {
    forall i :: 0 <= i < |s| ==> IsDigit(s[i])
  }

  /** The length of the longest prefix of `s` made of digits. */
  function DigitRun(s: string): (n: nat)
    ensures n <= |s| && AllDigits(s[..n])
    ensures n < |s| ==> !IsDigit(s[n])
  {
    if s != [] && IsDigit(s[0]) then 1 + DigitRun(s[1..]) else 0
  }

  /** The length of the longest prefix of `s` made of whitespace. */
  function SpaceRun(s: string): (n: nat)
    ensures n <= |s|
    ensures forall i :: 0 <= i < n ==> IsSpace(s[i])
    ensures n < |s| ==> !IsSpace(s[n])
  {
    if s != [] && IsSpace(s[0]) then 1 + SpaceRun(s[1..]) else 0
  }

  function DigitValue(c: char): nat
    requires IsDigit(c)
  {
    c as int - '0' as int
  }

  /** The number a string of decimal digits spells. */
  function DigitsValue(d: string): nat
    requires AllDigits(d)
  {
    if d == [] then 0 else 10 * DigitsValue(d[..|d| - 1]) + DigitValue(d[|d| - 1])
  }

  function Pow10(e: nat): (p: nat)
    ensures p >= 1
  {
    if e == 0 then 1 else 10 * Pow10(e - 1)
  }

  /**
   * The exponent of a numeric string, read from what follows its mantissa:
   * `e` or `E`, an optional sign and at least one digit; 0 when `rest` does
   * not start that way.
   */
  function ExponentOf(rest: string): int
  {
    if |rest| >= 2 && (rest[0] == 'e' || rest[0] == 'E') then
      var signed := rest[1] == '-' || rest[1] == '+';
      var digits := if signed then rest[2..] else rest[1..];
      var n := DigitRun(digits);
      if n == 0 then 0
      else if rest[1] == '-' then 0 - DigitsValue(digits[..n])
      else DigitsValue(digits[..n])
    else 0
  }

  /**
   * PHP's `(int)` cast of a string: leading whitespace is skipped, then the
   * longest numeric prefix (an optional sign, digits, an optional fraction,
   * an optional exponent) is read and truncated toward zero. A string with no
   * numeric prefix casts to 0.
   */
  function IntCast(s: string): int
  {
    var t := s[SpaceRun(s)..];
    var neg := |t| > 0 && t[0] == '-';
    var u := if |t| > 0 && (t[0] == '-' || t[0] == '+') then t[1..] else t;
    var whole := u[..DigitRun(u)];
    var afterWhole := u[DigitRun(u)..];
    var dot := |afterWhole| > 0 && afterWhole[0] == '.';
    var frac := if dot then afterWhole[1..][..DigitRun(afterWhole[1..])] else [];
    var rest := if dot then afterWhole[1..][DigitRun(afterWhole[1..])..] else afterWhole;
    if whole == [] && frac == [] then 0
    else
      var m := DigitsValue(whole + frac);
      var scale := ExponentOf(rest) - |frac|;
      var magnitude := if scale >= 0 then m * Pow10(scale) else m / Pow10(-scale);
      if neg then -magnitude else magnitude
  }

  function DigitChar(d: nat): (c: char)
    requires d < 10
    ensures IsDigit(c) && DigitValue(c) == d
  {
    ('0' as int + d) as char
  }

  /** The decimal spelling of a natural number, without leading zeros. */
  function NatToString(n: nat): (s: string)
    ensures s != [] && AllDigits(s)
  {
    if n < 10 then [DigitChar(n)] else NatToString(n / 10) + [DigitChar(n % 10)]
  }

  /** The decimal spelling PHP gives an integer, as in `(string) $n`. */
  function IntToString(n: int): string
  {
    if n < 0 then "-" + NatToString(-n) else NatToString(n)
  }

  lemma {:induction false} NatToStringValue(n: nat)
    ensures DigitsValue(NatToString(n)) == n
  {
    if n >= 10 {
      NatToStringValue(n / 10);
      var s := NatToString(n);
      assert s[..|s| - 1] == NatToString(n / 10);
    }
  }

  /** Casting the decimal spelling of an integer back to int gives that integer. */
  lemma IntCastOfIntToString(n: int)
    ensures IntCast(IntToString(n)) == n
  {
    var s := IntToString(n);
    var d := NatToString(if n < 0 then -n else n);
    NatToStringValue(if n < 0 then -n else n);
    assert DigitRun(d) == |d|;
    assert s[0] == '-' || IsDigit(s[0]);
    assert SpaceRun(s) == 0;
    assert s[SpaceRun(s)..] == s;
    if n < 0 {
      assert s[1..] == d;
    }
    assert d[..|d|] == d && d + [] == d;
  }

  /** A string containing no digit at all casts to 0. */
  lemma IntCastWithoutDigits(s: string)
    requires forall i :: 0 <= i < |s| ==> !IsDigit(s[i])
    ensures IntCast(s) == 0
  {
    var t := s[SpaceRun(s)..];
    var u := if |t| > 0 && (t[0] == '-' || t[0] == '+') then t[1..] else t;
    assert forall i :: 0 <= i < |u| ==> !IsDigit(u[i]);
    assert DigitRun(u) == 0;
    var afterWhole := u[DigitRun(u)..];
    if |afterWhole| > 0 && afterWhole[0] == '.' {
      assert DigitRun(afterWhole[1..]) == 0;
    }
  }

  /** The range of PHP's 64-bit integers, the only integers an array key can hold. */
  const PhpIntMin: int := -0x8000_0000_0000_0000
  const PhpIntMax: int := 0x7FFF_FFFF_FFFF_FFFF

  /**
   * The key PHP stores when the string `s` is used as an array key: an
   * integer key when `s` is an integer written the canonical decimal way
   * (no sign but a leading `-`, no leading zeros, no spaces) that fits in
   * 64 bits, otherwise the string itself.
   */
  function KeyOf(s: string): (k: Key)
    ensures k.Int? ==> IntToString(k.n) == s && PhpIntMin <= k.n <= PhpIntMax
    ensures k.Str? ==> k.s == s
  {
    var n := IntCast(s);
    if IntToString(n) == s && PhpIntMin <= n <= PhpIntMax then Int(n) else Str(s)
  }

  /** The decimal spelling of a 64-bit integer is stored as that integer key. */
  lemma KeyOfIntToString(n: int)
    requires PhpIntMin <= n <= PhpIntMax
    ensures KeyOf(IntToString(n)) == Int(n)
  {
    IntCastOfIntToString(n);
  }

  /** The decimal spelling of an integer outside 64 bits stays a string key. */
  lemma KeyOfOutOfRange(n: int)
    requires n < PhpIntMin || PhpIntMax < n
    ensures KeyOf(IntToString(n)) == Str(IntToString(n))
  {
    IntCastOfIntToString(n);
  }

  /**
   * PHP's `empty($settings[$key])` where the settings hold strings: true for
   * an absent key and for the strings "" and "0".
   */
  function IsEmptySetting(settings: Array<string>, key: Key): bool
  {
    match Get(settings, key)
    case None => true
    case Some(v) => v == "" || v == "0"
  }
}
