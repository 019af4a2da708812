/** Text handling the firmware's command dispatcher relies on: Python's
    `str.strip()`, `str(int)` and a small signed-decimal stand-in for `int()`. */
module Text {

  datatype Option<T> = None | Some(value: T)

  /** The ASCII characters `str.strip()` removes: space, tab, LF, CR, VT, FF. */
  predicate IsSpace(c: char) {
    c == ' ' || c == '\t' || c == '\n' || c == '\r' || c as int == 11 || c as int == 12
  }

  predicate IsDigit(c: char) {
    '0' <= c <= '9'
  }

  predicate AllDigits(s: string) {
    forall k :: 0 <= k < |s| ==> IsDigit(s[k])
  }

  predicate StartsWith(s: string, prefix: string) {
    |prefix| <= |s| && s[..|prefix|] == prefix
  }

  /** `s` with its leading whitespace removed. */
  function TrimStart(s: string): (r: string)
    ensures |r| <= |s| && r == s[|s| - |r|..]
    ensures forall k :: 0 <= k < |s| - |r| ==> IsSpace(s[k])
    ensures r == [] || !IsSpace(r[0])
  {
    if s != [] && IsSpace(s[0]) then TrimStart(s[1..]) else s
  }

  /** `s` with its trailing whitespace removed. */
  function TrimEnd(s: string): (r: string)
    ensures |r| <= |s| && r == s[..|r|]
    ensures forall k :: |r| <= k < |s| ==> IsSpace(s[k])
    ensures r == [] || !IsSpace(r[|r| - 1])
  {
    if s != [] && IsSpace(s[|s| - 1]) then TrimEnd(s[..|s| - 1]) else s
  }

  /** Python's `s.strip()`. */
  function Strip(s: string): (r: string)
    ensures r == [] || (!IsSpace(r[0]) && !IsSpace(r[|r| - 1]))
  {
    TrimEnd(TrimStart(s))
  }

  /** A string that neither starts nor ends with whitespace is its own strip. */
  lemma StripNoSpace(s: string)
    requires s == [] || (!IsSpace(s[0]) && !IsSpace(s[|s| - 1]))
    ensures Strip(s) == s
  {
  }

  lemma StripIdempotent(s: string)
    ensures Strip(Strip(s)) == Strip(s)
  {
    StripNoSpace(Strip(s));
  }

  function DigitChar(d: nat): (c: char)
    requires d < 10
    ensures IsDigit(c) && c as int - '0' as int == d
  {
    ('0' as int + d) as char
  }

  /** Python's `str(n)` for a non-negative integer: decimal, no leading zero. */
  function NatToString(n: nat): (r: string)
    ensures |r| >= 1 && AllDigits(r)
    ensures r[0] == '0' ==> n == 0
    decreases n
  {
    if n < 10 then [DigitChar(n)] else NatToString(n / 10) + [DigitChar(n % 10)]
  }

  /** Python's `str(i)`: a minus sign before the magnitude when negative. */
  function IntToString(i: int): (r: string)
    ensures |r| >= 1 && !IsSpace(r[0]) && !IsSpace(r[|r| - 1])
    ensures (r[0] == '-') == (i < 0)
    ensures forall k :: 0 <= k < |r| ==> r[k] == '-' || IsDigit(r[k])
  {
    if i < 0 then "-" + NatToString(-i) else NatToString(i)
  }

  /** The value of a string of decimal digits, leading zeros allowed. */
  function DigitsValue(s: string): nat
    requires AllDigits(s)
  {
    if s == [] then 0 else DigitsValue(s[..|s| - 1]) * 10 + (s[|s| - 1] as int - '0' as int)
  }

  /** The signed-decimal subset of Python's `int(s)`: surrounding whitespace,
      an optional `+` or `-`, then one or more decimal digits. */
  function ParseInt(s: string): (r: Option<int>)
    ensures r.Some? ==> |Strip(s)| >= 1
    ensures r.Some? && r.value < 0 ==> Strip(s)[0] == '-'
  {
    var t := Strip(s);
    if |t| >= 2 && (t[0] == '-' || t[0] == '+') && AllDigits(t[1..]) then
      Some(if t[0] == '-' then -(DigitsValue(t[1..]) as int) else DigitsValue(t[1..]) as int)
    else if |t| >= 1 && AllDigits(t) then
      Some(DigitsValue(t))
    else
      None
  }

  lemma {:induction false} DigitsValueOfNat(n: nat)
    ensures DigitsValue(NatToString(n)) == n
    decreases n
  {
    if n >= 10 {
      var s := NatToString(n);
      assert s[..|s| - 1] == NatToString(n / 10);
      DigitsValueOfNat(n / 10);
    }
  }

  /** Parsing what `str` prints gives the number back. */
  lemma ParseIntToString(i: int)
    ensures ParseInt(IntToString(i)) == Some(i)
  {
    StripNoSpace(IntToString(i));
    if i < 0 {
      ParseNegative(i);
    } else {
      ParseNonNegative(i);
    }
  }

  lemma ParseNegative(i: int)
    requires i < 0 && Strip(IntToString(i)) == IntToString(i)
    ensures ParseInt(IntToString(i)) == Some(i)
  {
    var s := IntToString(i);
    var m := NatToString(-i);
    assert s == "-" + m;
    assert s[1..] == m;
    assert |s| >= 2 && s[0] == '-' && AllDigits(s[1..]);
    DigitsValueOfNat(-i);
  }

  lemma ParseNonNegative(i: int)
    requires i >= 0 && Strip(IntToString(i)) == IntToString(i)
    ensures ParseInt(IntToString(i)) == Some(i)
  {
    var s := IntToString(i);
    assert s == NatToString(i);
    assert IsDigit(s[0]);
    DigitsValueOfNat(i);
  }

  /** The digits `d` without their leading zeros, keeping the last digit. */
  function DropZeros(d: string): (r: string)
    ensures |r| <= |d| && r == d[|d| - |r|..]
    ensures forall k :: 0 <= k < |d| - |r| ==> d[k] == '0'
    ensures |d| >= 1 ==> |r| >= 1 && (|r| == 1 || r[0] != '0')
  {
    if |d| >= 2 && d[0] == '0' then DropZeros(d[1..]) else d
  }

  /** The usual spelling of a signed decimal: no `+`, no leading zeros, and
      `-0` written `0`. */
  function Canonical(t: string): string {
    if |t| >= 1 && t[0] == '-' then
      var m := DropZeros(t[1..]);
      if m == "0" then "0" else "-" + m
    else if |t| >= 1 && t[0] == '+' then DropZeros(t[1..])
    else DropZeros(t)
  }

  /** Whatever `int()` accepts denotes the number it returns: written the
      usual way, the accepted text is `str` of that number. With
      `ParseIntToString` this says `int()` reads every signed decimal as the
      number it denotes, `" +05"` as 5 and `"-0"` as 0 included. */
  lemma ParseIntCanonical(s: string, n: int)
    requires ParseInt(s) == Some(n)
    ensures Canonical(Strip(s)) == IntToString(n)
  {
    var t := Strip(s);
    if |t| >= 2 && (t[0] == '-' || t[0] == '+') && AllDigits(t[1..]) {
      SignedCanonical(t, n);
    } else {
      UnsignedCanonical(t, n);
    }
  }

  lemma UnsignedCanonical(t: string, n: int)
    requires |t| >= 1 && AllDigits(t) && n == DigitsValue(t)
    ensures Canonical(t) == IntToString(n)
  {
    assert IsDigit(t[0]) && t[0] != '-' && t[0] != '+';
    assert Canonical(t) == DropZeros(t);
    CanonicalDigits(t);
  }

  lemma SignedCanonical(t: string, n: int)
    requires |t| >= 2 && (t[0] == '-' || t[0] == '+') && AllDigits(t[1..])
    requires n == if t[0] == '-' then -(DigitsValue(t[1..]) as int) else DigitsValue(t[1..]) as int
    ensures Canonical(t) == IntToString(n)
  {
    var v := DigitsValue(t[1..]);
    CanonicalDigits(t[1..]);
    if t[0] == '-' {
      if v == 0 {
        assert NatToString(0) == "0";
      } else {
        assert NatToString(v)[0] != '0';
      }
    }
  }

  /** Without its leading zeros a digit string is `str` of its value. */
  lemma CanonicalDigits(d: string)
    requires AllDigits(d) && |d| >= 1
    ensures DropZeros(d) == NatToString(DigitsValue(d))
  {
    var m := DropZeros(d);
    assert AllDigits(m) by {
      forall k | 0 <= k < |m| ensures IsDigit(m[k]) {
        assert m[k] == d[|d| - |m| + k];
      }
    }
    ZerosValue(d);
    NatToStringOfDigits(m);
  }

  /** Leading zeros add nothing to the value. */
  lemma {:induction false} ZerosValue(d: string)
    requires AllDigits(d)
    ensures AllDigits(DropZeros(d)) && DigitsValue(DropZeros(d)) == DigitsValue(d)
    decreases |d|
  {
    if |d| >= 2 && d[0] == '0' {
      ZerosValue(d[1..]);
      LeadingZero(d);
    }
  }

  lemma {:induction false} LeadingZero(d: string)
    requires AllDigits(d) && |d| >= 1 && d[0] == '0'
    ensures DigitsValue(d) == DigitsValue(d[1..])
    decreases |d|
  {
    if |d| > 1 {
      var p := d[..|d| - 1];
      LeadingZero(p);
      assert p[1..] == d[1..][..|d| - 2];
    }
  }

  /** A digit string that does not start with 0 is positive. */
  lemma {:induction false} LeadingNonZero(d: string)
    requires AllDigits(d) && |d| >= 1 && d[0] != '0'
    ensures DigitsValue(d) >= 1
    decreases |d|
  {
    if |d| > 1 {
      LeadingNonZero(d[..|d| - 1]);
    }
  }

  /** A digit string without leading zeros is what `str` prints for its
      value. */
  lemma {:induction false} NatToStringOfDigits(d: string)
    requires AllDigits(d) && |d| >= 1 && (|d| == 1 || d[0] != '0')
    ensures NatToString(DigitsValue(d)) == d
    decreases |d|
  {
    var v := DigitsValue(d);
    var last := d[|d| - 1] as int - '0' as int;
    if |d| == 1 {
      assert d[..|d| - 1] == [];
      assert DigitsValue(d) == DigitsValue(d[..|d| - 1]) * 10 + last;
      assert DigitChar(v) == d[0];
    } else {
      var p := d[..|d| - 1];
      NatToStringOfDigits(p);
      LeadingNonZero(p);
      assert v == DigitsValue(p) * 10 + last;
      assert v / 10 == DigitsValue(p) && v % 10 == last;
      assert DigitChar(last) == d[|d| - 1];
      assert d == p + [d[|d| - 1]];
    }
  }
}
