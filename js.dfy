/**
 * The JavaScript built-ins whose behaviour the route handlers depend on:
 * truthiness of request values (`!x`), `parseInt` without a radix, the
 * decimal rendering of an integral number in a template string,
 * `Math.round` and `String.prototype.toLowerCase`.
 */
module Js {
  import opened Wrappers

  // Truthiness of the request values the handlers test with `!x`: an
  // absent value, the empty string and the number 0 are all falsy.
  predicate TruthyString(x: Option<string>) { x.Some? && x.value != "" }
  predicate TruthyInt(x: Option<int>) { x.Some? && x.value != 0 }
  predicate TruthyReal(x: Option<real>) { x.Some? && x.value != 0.0 }

  /** The white space and line terminators `parseInt` skips before the number. */
  predicate IsSpace(c: char) {
    || c == ' ' || c == '\t' || c == '\n' || c == '\r'
    || c as int == 0x0B || c as int == 0x0C || c as int == 0xA0 || c as int == 0x1680
    || 0x2000 <= c as int <= 0x200A || c as int == 0x2028 || c as int == 0x2029
    || c as int == 0x202F || c as int == 0x205F || c as int == 0x3000 || c as int == 0xFEFF
  }

  /** `s` without its leading white space. */
  function TrimStart(s: string): (r: string)
    ensures |r| <= |s| && r == s[|s| - |r|..]
    ensures r == [] || !IsSpace(r[0])
    ensures forall i :: 0 <= i < |s| - |r| ==> IsSpace(s[i])
  {
    if s != [] && IsSpace(s[0]) then TrimStart(s[1..]) else s
  }

  /** The value of `c` as a digit of base 36, or 36 when `c` is no digit at all. */
  function DigitValue(c: char): (d: nat)
    ensures d <= 36
  {
    if '0' <= c <= '9' then c as int - '0' as int
    else if 'a' <= c <= 'z' then c as int - 'a' as int + 10
    else if 'A' <= c <= 'Z' then c as int - 'A' as int + 10
    else 36
  }

  predicate IsDigitIn(c: char, radix: nat) { DigitValue(c) < radix }

  /** The length of the longest prefix of `s` made of digits of `radix`. */
  function DigitRun(s: string, radix: nat): (n: nat)
    ensures n <= |s|
    ensures forall i :: 0 <= i < n ==> IsDigitIn(s[i], radix)
    ensures n < |s| ==> !IsDigitIn(s[n], radix)
  {
    if s != [] && IsDigitIn(s[0], radix) then 1 + DigitRun(s[1..], radix) else 0
  }

  /** The number the digits `ds` denote in base `radix`, most significant first. */
  function DigitsValue(ds: string, radix: nat): int
  {
    if ds == [] then 0 else DigitsValue(ds[..|ds| - 1], radix) * radix + DigitValue(ds[|ds| - 1])
  }

  /**
   * `parseInt(s)` with no radix: skip leading white space, take an optional
   * sign, read base 16 after a `0x`/`0X` prefix and base 10 otherwise, and
   * stop at the first character that is not a digit; `None` is NaN, the
   * answer when no digit follows.
   */
  function ParseInt(s: string): Option<int>
  {
    ParseSigned(TrimStart(s))
  }

  function ParseSigned(t: string): Option<int>
  {
    if t != [] && t[0] == '-' then
      match ParseUnsigned(t[1..])
      case None => None
      case Some(v) => Some(-v)
    else if t != [] && t[0] == '+' then ParseUnsigned(t[1..])
    else ParseUnsigned(t)
  }

  function ParseUnsigned(u: string): Option<int>
  {
    var hex := |u| >= 2 && u[0] == '0' && (u[1] == 'x' || u[1] == 'X');
    var radix := if hex then 16 else 10;
    var digits := if hex then u[2..] else u;
    var n := DigitRun(digits, radix);
    if n == 0 then None else Some(DigitsValue(digits[..n], radix))
  }

  function DigitChar(d: nat): (c: char)
    requires d < 10
    ensures DigitValue(c) == d
  {
    ('0' as int + d) as char
  }

  /** The decimal digits of `n`, with no leading zero. */
  function NatToString(n: nat): (s: string)
    ensures |s| >= 1
  {
    if n < 10 then [DigitChar(n)] else NatToString(n / 10) + [DigitChar(n % 10)]
  }

  /** How a template string renders an integral number: an optional minus sign, then its digits. */
  function NumberToString(n: int): string
  {
    if n < 0 then "-" + NatToString(-n) else NatToString(n)
  }

  /** `Math.round(x)`: the nearest integer, halves rounded up. */
  function Round(x: real): (r: int)
    ensures r as real <= x + 0.5 < r as real + 1.0
  {
    (x + 0.5).Floor
  }

  function LowerChar(c: char): char
  {
    if 'A' <= c <= 'Z' then (c as int - 'A' as int + 'a' as int) as char else c
  }

  /** `s.toLowerCase()`, for the ASCII letters the station labels use. */
  function ToLowerCase(s: string): (r: string)
    ensures |r| == |s|
    ensures forall i :: 0 <= i < |s| ==> r[i] == LowerChar(s[i])
  {
    seq(|s|, i requires 0 <= i < |s| => LowerChar(s[i]))
  }

  lemma {:induction false} NatToStringIsDigits(n: nat)
    ensures forall i :: 0 <= i < |NatToString(n)| ==> IsDigitIn(NatToString(n)[i], 10)
  {
    if n >= 10 {
      NatToStringIsDigits(n / 10);
    }
  }

  lemma {:induction false} NatToStringNoLeadingZero(n: nat)
    ensures n >= 10 ==> |NatToString(n)| >= 2 && NatToString(n)[0] != '0'
  {
    if n >= 10 {
      var m := n / 10;
      if m >= 10 {
        NatToStringNoLeadingZero(m);
      } else {
        assert NatToString(m) == [DigitChar(m)];
      }
      assert NatToString(n)[0] == NatToString(m)[0];
    }
  }

  lemma {:induction false} NatToStringValue(n: nat)
    ensures DigitsValue(NatToString(n), 10) == n
  {
    var s := NatToString(n);
    if n < 10 {
      assert s[..0] == [];
    } else {
      NatToStringValue(n / 10);
      assert s[..|s| - 1] == NatToString(n / 10);
    }
  }

  lemma ParseUnsignedOfNatToString(m: nat)
    ensures ParseUnsigned(NatToString(m)) == Some(m)
  {
    var u := NatToString(m);
    NatToStringIsDigits(m);
    NatToStringNoLeadingZero(m);
    NatToStringValue(m);
    assert DigitRun(u, 10) == |u|;
    assert u[..|u|] == u;
  }

  lemma NatToStringFirstIsDigit(m: nat)
    ensures '0' <= NatToString(m)[0] <= '9'
  {
    NatToStringIsDigits(m);
  }

  /** A value that begins with a decimal digit has no white space or sign to skip. */
  lemma ParseIntOfDigitStart(s: string)
    requires s != [] && '0' <= s[0] <= '9'
    ensures ParseInt(s) == ParseUnsigned(s)
  {
    assert !IsSpace(s[0]);
    assert TrimStart(s) == s;
  }

  /** Reading back a rendered integer gives the integer: `parseInt(String(n)) == n`. */
  lemma ParseIntOfNumberToString(n: int)
    ensures ParseInt(NumberToString(n)) == Some(n)
  {
    var m: nat := if n < 0 then -n else n;
    var s := NumberToString(n);
    ParseUnsignedOfNatToString(m);
    if n < 0 {
      assert s == "-" + NatToString(m);
      assert !IsSpace(s[0]);
      assert TrimStart(s) == s;
      assert s[1..] == NatToString(m);
    } else {
      NatToStringFirstIsDigit(m);
      ParseIntOfDigitStart(s);
    }
  }

  lemma ParseUnsignedWithoutDigits(u: string)
    requires forall i :: 0 <= i < |u| ==> !IsDigitIn(u[i], 10)
    ensures ParseUnsigned(u) == None
  {
    if u != [] {
      assert !IsDigitIn(u[0], 10);
    }
  }

  /** A value without a single decimal digit is NaN to `parseInt`. */
  lemma ParseIntWithoutDigits(s: string)
    requires forall i :: 0 <= i < |s| ==> !IsDigitIn(s[i], 10)
    ensures ParseInt(s) == None
  {
    var t := TrimStart(s);
    assert t == s[|s| - |t|..];
    var u := if t != [] && (t[0] == '-' || t[0] == '+') then t[1..] else t;
    assert u == s[|s| - |u|..];
    ParseUnsignedWithoutDigits(u);
  }

  /** The digit run of digits followed by a non-digit ends exactly there. */
  lemma {:induction false} DigitRunStopsAtTail(u: string, t: string, radix: nat)
    requires forall i :: 0 <= i < |u| ==> IsDigitIn(u[i], radix)
    requires t == [] || !IsDigitIn(t[0], radix)
    ensures DigitRun(u + t, radix) == |u|
  {
    if u == [] {
      assert u + t == t;
    } else {
      assert (u + t)[1..] == u[1..] + t;
      DigitRunStopsAtTail(u[1..], t, radix);
    }
  }

  lemma ParseUnsignedWithTail(m: nat, t: string)
    requires m >= 1
    requires t == [] || !IsDigitIn(t[0], 10)
    ensures ParseUnsigned(NatToString(m) + t) == Some(m)
  {
    var u := NatToString(m);
    var s := u + t;
    NatToStringIsDigits(m);
    NatToStringNoLeadingZero(m);
    NatToStringValue(m);
    assert s[0] != '0' by {
      if m < 10 {
        assert u == [DigitChar(m)];
      }
    }
    DigitRunStopsAtTail(u, t, 10);
    assert s[..|u|] == u;
  }

  /**
   * `parseInt` stops at the first character that is no digit, so a
   * positive integer followed by any such text still reads as itself.
   */
  lemma ParseIntIgnoresTail(n: int, t: string)
    requires n >= 1
    requires t == [] || !IsDigitIn(t[0], 10)
    ensures ParseInt(NumberToString(n) + t) == Some(n)
  {
    var s := NatToString(n) + t;
    NatToStringFirstIsDigit(n);
    ParseUnsignedWithTail(n, t);
    assert s[0] == NatToString(n)[0];
    ParseIntOfDigitStart(s);
  }
}
