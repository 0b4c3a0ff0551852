/**
 The three pieces of Python string handling the handlers rely on: `str(n)` of
 an integer (used to build callback data and a fallback e-mail address),
 `int(t)` of a string (used to read an id back) and `t.split(sep)[-1]` (the
 last field of a separated string).
 */
module TextFormat {
  import opened Wrappers

  predicate IsDigit(c: char) {
    '0' <= c <= '9'
  }

  predicate AllDigits(t: string) {
    forall i :: 0 <= i < |t| ==> IsDigit(t[i])
  }

  function DigitChar(d: int): (c: char)
    requires 0 <= d < 10
    ensures IsDigit(c)
  {
    "0123456789"[d]
  }

  function DigitValue(c: char): (d: int)
    requires IsDigit(c)
    ensures 0 <= d < 10
  {
    c as int - '0' as int
  }

  lemma {:induction false} DigitValueOfDigitChar(d: int)
    requires 0 <= d < 10
    ensures DigitValue(DigitChar(d)) == d
  {
  }

  /** The decimal digits of a natural number, most significant first, without
      leading zeros. */
  function NatToDecimal(n: nat): (t: string)
    ensures |t| >= 1 && AllDigits(t)
    ensures |t| > 1 ==> t[0] != '0'
  {
    if n < 10 then [DigitChar(n)] else NatToDecimal(n / 10) + [DigitChar(n % 10)]
  }

  /** Python's `str(n)` for an integer. */
  function IntToDecimal(n: int): (t: string)
    ensures |t| >= 1
    ensures t[0] == '-' <==> n < 0
    ensures n >= 0 ==> AllDigits(t)
    ensures n < 0 ==> |t| >= 2 && AllDigits(t[1..])
    ensures '_' !in t
  {
    if n < 0 then "-" + NatToDecimal(-n) else NatToDecimal(n)
  }

  /** The value of a run of decimal digits (0 for empty text). */
  function DecimalValue(t: string): nat
    requires AllDigits(t)
  {
    if |t| == 0 then 0 else DecimalValue(t[..|t| - 1]) * 10 + DigitValue(t[|t| - 1])
  }

  /** Reading back the digits of `n` gives `n`. */
  lemma {:induction false} DecimalRoundTrip(n: nat)
    ensures DecimalValue(NatToDecimal(n)) == n
  {
    var t := NatToDecimal(n);
    if n < 10 {
      DigitValueOfDigitChar(n);
    } else {
      var front := NatToDecimal(n / 10);
      assert t == front + [DigitChar(n % 10)];
      assert t[..|t| - 1] == front;
      DecimalRoundTrip(n / 10);
      DigitValueOfDigitChar(n % 10);
    }
  }

  /** The characters Python's `int()` ignores around a number (ASCII subset). */
  predicate IsSpace(c: char) {
    c == ' ' || c == '\t' || c == '\n' || c == '\r' || c == '\U{B}' || c == '\U{C}'
  }

  function TrimStart(t: string): (r: string)
    ensures |r| > 0 ==> !IsSpace(r[0])
  {
    if |t| > 0 && IsSpace(t[0]) then TrimStart(t[1..]) else t
  }

  function TrimEnd(t: string): (r: string)
    ensures |r| > 0 ==> !IsSpace(r[|r| - 1])
  {
    if |t| > 0 && IsSpace(t[|t| - 1]) then TrimEnd(t[..|t| - 1]) else t
  }

  /** Python's `int(t)` on ASCII text: surrounding whitespace, an optional
      sign and at least one decimal digit; anything else raises, modelled as
      `None`. */
  function ParseInt(t: string): (r: Option<int>)
    ensures r.Some? ==> |t| > 0
    ensures |t| > 0 && AllDigits(t) ==> r == Some(DecimalValue(t))
    ensures |t| > 1 && t[0] == '-' && AllDigits(t[1..]) ==> r == Some(-(DecimalValue(t[1..]) as int))
    ensures |t| > 0 && !IsSpace(t[0]) && !IsSpace(t[|t| - 1]) && t[0] != '-' && t[0] != '+' && !AllDigits(t) ==> r.None?
  {
    ParseSigned(TrimEnd(TrimStart(t)))
  }

  /** An optional sign followed by at least one decimal digit, and nothing else. */
  function ParseSigned(u: string): (r: Option<int>)
    ensures r.Some? ==> |u| > 0
  {
    if |u| > 0 && (u[0] == '-' || u[0] == '+') then
      var digits := u[1..];
      if |digits| > 0 && AllDigits(digits) then
        var magnitude: int := DecimalValue(digits);
        Some(if u[0] == '-' then -magnitude else magnitude)
      else None
    else if |u| > 0 && AllDigits(u) then Some(DecimalValue(u))
    else None
  }

  /** `int(str(n)) == n` for a non-negative `n`. */
  lemma {:induction false} NonNegativeRoundTrip(n: nat)
    ensures ParseInt(IntToDecimal(n)) == Some(n)
  {
    DecimalRoundTrip(n);
  }

  /** A minus sign followed by digits reads as the negated digits' value. */
  lemma {:induction false} NegatedDigits(digits: string)
    requires |digits| > 0 && AllDigits(digits)
    ensures ParseInt("-" + digits) == Some(-(DecimalValue(digits) as int))
  {
    assert ("-" + digits)[1..] == digits;
  }

  /** `int(str(n)) == n` for a negative `n`. */
  lemma {:induction false} NegativeRoundTrip(n: int)
    requires n < 0
    ensures ParseInt(IntToDecimal(n)) == Some(n)
  {
    var m: nat := -n;
    var digits := NatToDecimal(m);
    assert IntToDecimal(n) == "-" + digits;
    NegatedDigits(digits);
    DecimalRoundTrip(m);
  }

  /** `int(str(n)) == n` for every integer `n`. */
  lemma {:induction false} IntRoundTrip(n: int)
    ensures ParseInt(IntToDecimal(n)) == Some(n)
  {
    if n < 0 {
      NegativeRoundTrip(n);
    } else {
      NonNegativeRoundTrip(n);
    }
  }

  /** `t.split(sep)[-1]`: the longest suffix of `t` free of `sep`. */
  function LastField(t: string, sep: char): (r: string)
    ensures sep !in r
    ensures |r| <= |t| && r == t[|t| - |r|..]
    ensures |r| < |t| ==> t[|t| - |r| - 1] == sep
  {
    if |t| == 0 || t[|t| - 1] == sep then []
    else LastField(t[..|t| - 1], sep) + [t[|t| - 1]]
  }

  /** Joining a prefix that ends in the separator to a separator-free field
      and splitting again recovers the field. */
  lemma {:induction false} LastFieldAfterSeparator(prefix: string, field: string, sep: char)
    requires |prefix| > 0 && prefix[|prefix| - 1] == sep
    requires sep !in field
    ensures LastField(prefix + field, sep) == field
  {
    var t := prefix + field;
    if |field| == 0 {
      assert t == prefix;
    } else {
      var front := field[..|field| - 1];
      assert t[..|t| - 1] == prefix + front;
      assert t[|t| - 1] == field[|field| - 1];
      LastFieldAfterSeparator(prefix, front, sep);
      assert field == front + [field[|field| - 1]];
    }
  }
}
