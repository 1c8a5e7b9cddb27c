/** The string handling the dashboard relies on: `parseInt` on the target
    temperature field, `toString` of a whole number, and `toUpperCase` of a
    status name. */
module Text {
  import opened Base

  predicate IsDigit(c: char) { '0' <= c <= '9' }

  function DigitValue(c: char): (r: nat)
    requires IsDigit(c)
    ensures r < 10
  {
    c as int - '0' as int
  }

  function DigitChar(d: nat): (c: char)
    requires d < 10
    ensures IsDigit(c) && DigitValue(c) == d
  {
    ('0' as int + d) as char
  }

  predicate AllDigits(s: string) {
    forall i :: 0 <= i < |s| ==> IsDigit(s[i])
  }

  /** The white space `parseInt` skips before the number (the ASCII part of
      ECMAScript's StrWhiteSpaceChar). */
  predicate IsSpace(c: char) {
    c == ' ' || c == '\t' || c == '\n' || c == '\r' || c == '\U{000B}' || c == '\U{000C}'
  }

  function TrimStart(s: string): (r: string)
    ensures |r| <= |s| && r == s[|s| - |r|..]
    ensures |r| > 0 ==> !IsSpace(r[0])
    ensures forall i :: 0 <= i < |s| - |r| ==> IsSpace(s[i])
  {
    if |s| > 0 && IsSpace(s[0]) then TrimStart(s[1..]) else s
  }

  /** Length of the run of decimal digits at the start of `s`. */
  function DigitRun(s: string): (n: nat)
    ensures n <= |s|
    ensures AllDigits(s[..n])
    ensures n < |s| ==> !IsDigit(s[n])
  {
    if |s| > 0 && IsDigit(s[0]) then 1 + DigitRun(s[1..]) else 0
  }

  /** The value of a string of decimal digits, most significant first. */
  function DigitsValue(d: string): nat
    requires AllDigits(d)
  {
    if |d| == 0 then 0 else DigitsValue(d[..|d| - 1]) * 10 + DigitValue(d[|d| - 1])
  }

  /** `parseInt(s)` with radix 10: skip leading white space, read an optional
      sign and the longest run of digits after it; `None` (NaN) when that run
      is empty. Whatever follows the digits is ignored. */
  function ParseInt(s: string): (r: Option<int>)
    ensures r.Some? <==> var body := Unsigned(TrimStart(s)); |body| > 0 && IsDigit(body[0])
    ensures r.Some? && r.value < 0 ==> TrimStart(s)[0] == '-'
  {
    var t := TrimStart(s);
    match LeadingNumber(Unsigned(t))
    case None => None
    case Some(v) => Some(if |t| > 0 && t[0] == '-' then -(v as int) else v)
  }

  /** The value of the digit run at the start of `body`, if there is one. */
  function LeadingNumber(body: string): Option<nat>
  {
    var n := DigitRun(body);
    if n == 0 then None else Some(DigitsValue(body[..n]))
  }

  /** `t` without its leading sign, if any. */
  function Unsigned(t: string): string
  {
    if |t| > 0 && (t[0] == '-' || t[0] == '+') then t[1..] else t
  }

  /** Decimal rendering of a natural number, no leading zeros. */
  function ShowNat(n: nat): (r: string)
    ensures |r| > 0 && AllDigits(r)
  {
    if n < 10 then [DigitChar(n)] else ShowNat(n / 10) + [DigitChar(n % 10)]
  }

  /** `n.toString()` for a whole number. */
  function Show(n: int): (r: string)
    ensures |r| > 0
    ensures n >= 0 ==> AllDigits(r) && DigitsValue(r) == n
    ensures n < 0 ==> r[0] == '-' && AllDigits(r[1..]) && DigitsValue(r[1..]) == -n
  {
    if n < 0 then
      var d := ShowNat(-n);
      DigitsValueOfShowNat(-n);
      assert ("-" + d)[1..] == d;
      "-" + d
    else
      DigitsValueOfShowNat(n);
      ShowNat(n)
  }

  lemma {:induction false} DigitsValueOfShowNat(n: nat)
    ensures DigitsValue(ShowNat(n)) == n
  {
    if n >= 10 {
      var s := ShowNat(n);
      assert s[..|s| - 1] == ShowNat(n / 10);
      DigitsValueOfShowNat(n / 10);
    }
  }

  /** A digit run stops exactly where the digits stop. */
  lemma {:induction false} DigitRunOfDigits(d: string, rest: string)
    requires AllDigits(d)
    requires |rest| == 0 || !IsDigit(rest[0])
    ensures DigitRun(d + rest) == |d|
  {
    if |d| > 0 {
      assert (d + rest)[1..] == d[1..] + rest;
      DigitRunOfDigits(d[1..], rest);
    } else {
      assert d + rest == rest;
    }
  }

  /** A run of digits followed by a non-digit parses to the run's value. */
  lemma LeadingNumberOfDigits(d: string, rest: string)
    requires |d| > 0 && AllDigits(d)
    requires |rest| == 0 || !IsDigit(rest[0])
    ensures LeadingNumber(d + rest) == Some(DigitsValue(d))
  {
    DigitRunOfDigits(d, rest);
    assert (d + rest)[..|d|] == d;
  }

  /** Text that starts with a digit is parsed from its first character. */
  lemma ParseIntUnsigned(body: string)
    requires |body| > 0 && IsDigit(body[0])
    ensures ParseInt(body) == LeadingNumber(body)
  {
    assert !IsSpace(body[0]);
    assert TrimStart(body) == body;
    assert body[0] != '-' && body[0] != '+';
    assert Unsigned(body) == body;
  }

  /** A minus sign in front of a number negates it. */
  lemma ParseIntNegated(s: string, v: nat)
    requires |s| > 1 && s[0] == '-' && IsDigit(s[1])
    requires LeadingNumber(s[1..]) == Some(v)
    ensures ParseInt(s) == Some(-(v as int))
  {
    assert TrimStart(s) == s;
    assert Unsigned(s) == s[1..];
  }

  lemma ParseIntOfShow(n: int, rest: string)
    requires |rest| == 0 || !IsDigit(rest[0])
    ensures ParseInt(Show(n) + rest) == Some(n)
  {
    if n < 0 {
      ParseIntOfShowNegative(n, rest);
    } else {
      ParseIntOfShowNat(n, rest);
      ParseIntUnsigned(ShowNat(n) + rest);
      assert Show(n) == ShowNat(n);
    }
  }

  lemma ParseIntOfShowNegative(n: int, rest: string)
    requires n < 0
    requires |rest| == 0 || !IsDigit(rest[0])
    ensures ParseInt(Show(n) + rest) == Some(n)
  {
    var m: nat := -n;
    var s := Show(n) + rest;
    assert s[0] == '-';
    assert s[1..] == ShowNat(m) + rest;
    ParseIntOfShowNat(m, rest);
    ParseIntNegated(s, m);
  }

  lemma ParseIntOfShowNat(m: nat, rest: string)
    requires |rest| == 0 || !IsDigit(rest[0])
    ensures var body := ShowNat(m) + rest;
      |body| > 0 && IsDigit(body[0]) && LeadingNumber(body) == Some(m)
  {
    var digits := ShowNat(m);
    DigitsValueOfShowNat(m);
    var body := digits + rest;
    assert IsDigit(digits[0]);
    assert body[0] == digits[0];
    LeadingNumberOfDigits(digits, rest);
    ParseIntUnsigned(body);
  }

  /** Text with no digit at all never parses. */
  lemma ParseIntWithoutDigits(s: string)
    requires forall i :: 0 <= i < |s| ==> !IsDigit(s[i])
    ensures ParseInt(s) == None
  {
    var t := TrimStart(s);
    var body := Unsigned(t);
    assert body == s[|s| - |body|..];
    if |body| > 0 {
      assert body[0] == s[|s| - |body|];
    }
  }

  function UpperChar(c: char): (u: char)
    ensures !('a' <= u <= 'z')
    ensures !('a' <= c <= 'z') ==> u == c
  {
    if 'a' <= c <= 'z' then (c as int - 32) as char else c
  }

  /** `s.toUpperCase()` on ASCII letters. */
  function ToUpper(s: string): (r: string)
    ensures |r| == |s|
    ensures forall i :: 0 <= i < |r| ==> !('a' <= r[i] <= 'z')
    ensures forall i :: 0 <= i < |r| ==> r[i] == UpperChar(s[i])
  {
    if |s| == 0 then "" else [UpperChar(s[0])] + ToUpper(s[1..])
  }

  /** Upper-casing twice is upper-casing once. */
  lemma ToUpperIdempotent(s: string)
    ensures ToUpper(ToUpper(s)) == ToUpper(s)
  {
  }
}
