/** The few pieces of java.lang the core relies on: String.trim, decimal
    rendering of integers (Integer.toString, and "%.0f" of an integral
    value), Integer.parseInt in radix 10, and the int range. */
module JavaText {

  datatype Option<T> = None | Some(value: T)

  /** Java int (32-bit two's complement) bounds. */
  const IntMin: int := -0x8000_0000
  const IntMax: int := 0x7fff_ffff

  predicate IsInt32(x: int) {
    IntMin <= x <= IntMax
  }

  predicate IsDigit(c: char) {
    '0' <= c <= '9'
  }

  predicate AllDigits(s: string) {
    forall i :: 0 <= i < |s| ==> IsDigit(s[i])
  }

  function DigitValue(c: char): (d: nat)
    requires IsDigit(c)
    ensures d < 10
  {
    c as int - '0' as int
  }

  function DigitChar(d: nat): (c: char)
    requires d < 10
    ensures IsDigit(c) && DigitValue(c) == d
  {
    ('0' as int + d) as char
  }

  /** Value of a string of decimal digits, most significant first. */
  function DigitsValue(s: string): nat
    requires AllDigits(s)
  {
    if s == [] then 0 else DigitsValue(s[..|s| - 1]) * 10 + DigitValue(s[|s| - 1])
  }

  /** Decimal digits of a natural number, without leading zeros. Its
      meaning is stated by NatToStringDigits, kept apart so that code
      merely mentioning a rendering does not carry the digit facts. */
  function NatToString(n: nat): (s: string)
    ensures 1 <= |s|
  {
    if n < 10 then [DigitChar(n)] else NatToString(n / 10) + [DigitChar(n % 10)]
  }

  /** The rendering is all digits and reads back as n; one digit exactly
      for n below 10. */
  lemma {:induction false} NatToStringDigits(n: nat)
    ensures AllDigits(NatToString(n)) && DigitsValue(NatToString(n)) == n
    ensures n < 10 <==> |NatToString(n)| == 1
  {
    var s := NatToString(n);
    if n >= 10 {
      var prefix := NatToString(n / 10);
      NatToStringDigits(n / 10);
      assert s == prefix + [DigitChar(n % 10)];
      assert s[..|s| - 1] == prefix;
      assert DigitsValue(s) == DigitsValue(prefix) * 10 + n % 10;
    }
  }

  /** Integer.toString(x), also what "%.0f" prints for an integral value. */
  function IntToString(x: int): (s: string)
    ensures 1 <= |s|
  {
    if x < 0 then "-" + NatToString(-x) else NatToString(x)
  }

  /** A '-' exactly for negative numbers, then the digits of |x|. */
  lemma IntToStringDigits(x: int)
    ensures var s := IntToString(x);
            IsDigit(s[|s| - 1])
            && (s[0] == '-' <==> x < 0)
            && (x < 0 ==> AllDigits(s[1..]) && DigitsValue(s[1..]) == -x)
            && (x >= 0 ==> AllDigits(s) && DigitsValue(s) == x)
  {
    var s := IntToString(x);
    if x < 0 {
      NatToStringDigits(-x);
      assert s[1..] == NatToString(-x);
      assert s[|s| - 1] == s[1..][|s| - 2];
    } else {
      NatToStringDigits(x);
    }
  }

  /** String.trim: a character is whitespace here when its code is at most U+0020. */
  predicate IsTrimmed(c: char) {
    c <= ' '
  }

  function TrimStart(s: string): (r: string)
    ensures |r| <= |s|
  {
    if s != [] && IsTrimmed(s[0]) then TrimStart(s[1..]) else s
  }

  function TrimEnd(s: string): (r: string)
    ensures |r| <= |s|
  {
    if s != [] && IsTrimmed(s[|s| - 1]) then TrimEnd(s[..|s| - 1]) else s
  }

  /** String.trim: the longest infix without whitespace at either end. Its
      meaning is stated by TrimSpec. */
  function Trim(s: string): (r: string)
    ensures |r| <= |s|
  {
    TrimEnd(TrimStart(s))
  }

  lemma {:induction false} TrimStartSpec(s: string)
    ensures var r := TrimStart(s);
            r == s[|s| - |r|..]
            && (forall i :: 0 <= i < |s| - |r| ==> IsTrimmed(s[i]))
            && (r != [] ==> !IsTrimmed(r[0]))
  {
    if s != [] && IsTrimmed(s[0]) {
      TrimStartSpec(s[1..]);
      var r := TrimStart(s);
      forall i | 0 <= i < |s| - |r| ensures IsTrimmed(s[i]) {
        if i > 0 {
          assert s[i] == s[1..][i - 1];
        }
      }
    }
  }

  lemma {:induction false} TrimEndSpec(s: string)
    ensures var r := TrimEnd(s);
            r == s[..|r|]
            && (forall i :: |r| <= i < |s| ==> IsTrimmed(s[i]))
            && (r != [] ==> !IsTrimmed(r[|r| - 1]))
  {
    if s != [] && IsTrimmed(s[|s| - 1]) {
      TrimEndSpec(s[..|s| - 1]);
      var r := TrimEnd(s);
      forall i | |r| <= i < |s| ensures IsTrimmed(s[i]) {
        if i < |s| - 1 {
          assert s[i] == s[..|s| - 1][i];
        }
      }
    }
  }

  /** trim keeps a contiguous part of s (a prefix of what TrimStart leaves,
      which is a suffix of s), removes nothing but whitespace, leaves no
      whitespace at either end, and is empty exactly when s is all
      whitespace. */
  lemma TrimSpec(s: string)
    ensures var t, r := TrimStart(s), Trim(s);
            t == s[|s| - |t|..] && r == t[..|r|]
            && (forall i :: 0 <= i < |s| - |t| ==> IsTrimmed(s[i]))
            && (forall i :: |r| <= i < |t| ==> IsTrimmed(t[i]))
            && (r != [] ==> !IsTrimmed(r[0]) && !IsTrimmed(r[|r| - 1]))
            && (r == [] <==> forall i :: 0 <= i < |s| ==> IsTrimmed(s[i]))
  {
    var t := TrimStart(s);
    var r := TrimEnd(t);
    TrimStartSpec(s);
    TrimEndSpec(t);
    var k := |s| - |t|;
    if r != [] {
      assert r[0] == t[0];
      assert !IsTrimmed(s[k]);
    }
  }

  /** A string with no whitespace at either end is left as it is. */
  lemma TrimUnchanged(s: string)
    requires s != [] && !IsTrimmed(s[0]) && !IsTrimmed(s[|s| - 1])
    ensures Trim(s) == s
  {
  }

  /** Integer.parseInt(s, 10): an optional '-' or '+' and at least one
      decimal digit, whose value fits in an int; anything else throws
      NumberFormatException, modelled as None. */
  function ParseInt(s: string): (r: Option<int>)
    ensures r.Some? ==> IsInt32(r.value)
    ensures r.Some? ==> s != [] && IsDigit(s[|s| - 1])
  {
    if s == [] then None
    else
      var signed := s[0] == '-' || s[0] == '+';
      var digits := if signed then s[1..] else s;
      if digits == [] || !AllDigits(digits) then None
      else
        var v: int := if s[0] == '-' then 0 - DigitsValue(digits) as int else DigitsValue(digits);
        if IsInt32(v) then Some(v) else None
  }

  /** The text after an optional leading '-' or '+'. */
  function Unsigned(s: string): (d: string)
    ensures |d| <= |s|
  {
    if s != [] && (s[0] == '-' || s[0] == '+') then s[1..] else s
  }

  /** An optional sign followed by one or more ASCII digits. */
  predicate SignedDigits(s: string) {
    Unsigned(s) != [] && AllDigits(Unsigned(s))
  }

  /** The value such a text denotes: its digits, negated after a '-'. */
  function SignedValue(s: string): int
    requires SignedDigits(s)
  {
    if s[0] == '-' then 0 - DigitsValue(Unsigned(s)) as int else DigitsValue(Unsigned(s))
  }

  /** parseInt succeeds with v exactly when the text is an optional sign
      and at least one digit, denoting v, and v fits in an int; an empty
      text, a lone sign, any other character or an overflow is an error. */
  lemma ParseIntSpec(s: string, v: int)
    ensures ParseInt(s) == Some(v) <==> SignedDigits(s) && SignedValue(s) == v && IsInt32(v)
    ensures ParseInt(s) == None <==> !SignedDigits(s) || !IsInt32(SignedValue(s))
  {
  }

  /** A sign (or none) put before a run of digits: leading zeros and a '+'
      do not change the value. */
  lemma ParseIntOfDigits(sign: string, digits: string)
    requires sign == "" || sign == "-" || sign == "+"
    requires digits != [] && AllDigits(digits)
    ensures var v := if sign == "-" then 0 - DigitsValue(digits) as int else DigitsValue(digits);
            ParseInt(sign + digits) == if IsInt32(v) then Some(v) else None
  {
    var s := sign + digits;
    if sign == "" {
      assert s == digits && IsDigit(s[0]);
    } else {
      assert s[0] == sign[0] && s[1..] == digits;
    }
  }

  /** "+0080" is 80; an empty text, a lone sign and a leading blank are
      errors. */
  lemma ParseIntExamples()
    ensures ParseInt("+0080") == Some(80)
    ensures ParseInt("") == None && ParseInt("-") == None && ParseInt(" 1") == None
  {
    var d := "0080";
    assert d[..3] == "008" && d[..3][..2] == "00" && d[..3][..2][..1] == "0";
    assert DigitsValue("0") == 0 && DigitsValue("00") == 0;
    assert DigitsValue("008") == 8 && DigitsValue(d) == 80;
    assert "+0080" == "+" + d;
    ParseIntOfDigits("+", d);
  }

  /** Parsing what Integer.toString printed gives the number back. */
  lemma ParseIntToString(x: int)
    requires IsInt32(x)
    ensures ParseInt(IntToString(x)) == Some(x)
  {
    var s := IntToString(x);
    IntToStringDigits(x);
    if x >= 0 {
      assert s[0] != '-' && s[0] != '+' by { assert IsDigit(s[0]); }
    }
  }

  /** Integer.parseInt(Integer.toString(x).trim()) == x: a rendering has no
      whitespace at either end to trim. */
  lemma ParseTrimmedToString(x: int)
    requires IsInt32(x)
    ensures Trim(IntToString(x)) == IntToString(x)
    ensures ParseInt(Trim(IntToString(x))) == Some(x)
  {
    var s := IntToString(x);
    IntToStringChars(x, 0);
    IntToStringChars(x, |s| - 1);
    TrimUnchanged(s);
    ParseIntToString(x);
  }

  /** A decimal rendering holds no line break. */
  lemma IntToStringSingleLine(x: int)
    ensures '\n' !in IntToString(x) && '\r' !in IntToString(x)
  {
    var s := IntToString(x);
    forall i | 0 <= i < |s| ensures s[i] != '\n' && s[i] != '\r' {
      IntToStringChars(x, i);
    }
  }

  /** A decimal rendering never holds a character other than '-' and digits. */
  lemma IntToStringChars(x: int, i: int)
    requires 0 <= i < |IntToString(x)|
    ensures IsDigit(IntToString(x)[i]) || IntToString(x)[i] == '-'
  {
    var s := IntToString(x);
    IntToStringDigits(x);
    if x < 0 && i > 0 {
      assert s[i] == s[1..][i - 1];
    }
  }
}
