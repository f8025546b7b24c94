/** Decimal text for the numbers the ledger writes into rows: Python's str() of an int,
    of a bool, and of a float amount, with the matching int() and float() parsers. */
module Numbers {
  import opened Base
  import Text

  /** A money amount in hundredths (cents). Python holds amounts as floats; the model
      keeps those with at most two decimals, exactly. */
  type Cents = int

  predicate IsDigit(c: char) {
    '0' <= c <= '9'
  }

  predicate AllDigits(s: string) {
    forall k :: 0 <= k < |s| ==> IsDigit(s[k])
  }

  function DigitChar(d: nat): (c: char)
    requires d < 10
    ensures IsDigit(c)
  {
    ('0' as int + d) as char
  }

  function DigitValue(c: char): nat
    requires IsDigit(c)
  {
    c as int - '0' as int
  }

  /** The value of a run of decimal digits, most significant first. */
  function DigitsValue(s: string): nat
    requires AllDigits(s)
    decreases |s|
  {
    if |s| == 0 then 0 else DigitsValue(s[..|s| - 1]) * 10 + DigitValue(s[|s| - 1])
  }

  /** `str(n)` for a non-negative int: its decimal digits, no leading zeros. */
  function ShowNat(n: nat): (s: string)
    ensures |s| > 0 && AllDigits(s)
    decreases n
  {
    if n < 10 then [DigitChar(n)] else ShowNat(n / 10) + [DigitChar(n % 10)]
  }

  /** Reads an unsigned run of one or more digits. */
  function ParseNat(s: string): (r: Option<nat>)
    ensures r.Some? <==> |s| > 0 && AllDigits(s)
  {
    if |s| > 0 && AllDigits(s) then Some(DigitsValue(s)) else None
  }

  lemma {:induction false} DigitsOfShowNat(n: nat)
    ensures DigitsValue(ShowNat(n)) == n
    decreases n
  {
    var s := ShowNat(n);
    if n >= 10 {
      assert s[..|s| - 1] == ShowNat(n / 10);
      DigitsOfShowNat(n / 10);
    }
  }

  /** Reading back the digits of `n` gives `n`. */
  lemma ParseShowNat(n: nat)
    ensures ParseNat(ShowNat(n)) == Some(n)
  {
    DigitsOfShowNat(n);
  }

  /** `str(i)` for an int: an optional minus sign, then the digits of |i|. */
  function ShowInt(i: int): (s: string)
    ensures |s| > 0 && Text.Trimmed(s)
    ensures forall k :: 0 <= k < |s| ==> IsDigit(s[k]) || s[k] == '-'
  {
    if i < 0 then "-" + ShowNat(-i) else ShowNat(i)
  }

  /** `int(s)` on an already stripped cell: an optional sign, then one or more digits. */
  function ParseInt(s: string): (r: Option<int>)
    ensures r.Some? ==> |s| > 0
  {
    if |s| > 0 && s[0] == '-' then
      match ParseNat(s[1..])
      case Some(n) => Some(-(n as int))
      case None => None
    else if |s| > 0 && s[0] == '+' then
      match ParseNat(s[1..])
      case Some(n) => Some(n)
      case None => None
    else
      match ParseNat(s)
      case Some(n) => Some(n)
      case None => None
  }

  /** Reading back `str(i)` gives `i`. */
  lemma ParseShowInt(i: int)
    ensures ParseInt(ShowInt(i)) == Some(i)
  {
    if i < 0 {
      assert ShowInt(i)[1..] == ShowNat(-i);
      ParseShowNat(-i);
    } else {
      ParseShowNat(i);
    }
  }

  /** `str(b)` for a bool. */
  function ShowBool(b: bool): string {
    if b then "True" else "False"
  }

  /** The decimal places of an amount as `repr` prints them: one digit when the
      second is zero, so 1250 shows as "12.5" and 35000 as "350.0". */
  function FractionText(frac: nat): (s: string)
    requires frac < 100
    ensures 1 <= |s| <= 2 && AllDigits(s)
  {
    if frac % 10 == 0 then [DigitChar(frac / 10)] else [DigitChar(frac / 10), DigitChar(frac % 10)]
  }

  /** The hundredths written by up to two decimal places ("5" is 50, "05" is 5). */
  function FractionValue(p: string): (v: nat)
    requires |p| <= 2 && AllDigits(p)
    ensures v < 100
  {
    if |p| == 0 then 0
    else if |p| == 1 then 10 * DigitValue(p[0])
    else 10 * DigitValue(p[0]) + DigitValue(p[1])
  }

  /** `str(x)` of a non-negative float amount with at most two decimals: the whole
      part, a point, and at least one decimal. */
  function UnsignedAmountText(m: nat): (s: string)
    ensures |s| > 0 && IsDigit(s[0])
    ensures forall k :: 0 <= k < |s| ==> IsDigit(s[k]) || s[k] == '.'
  {
    ShowNat(m / 100) + "." + FractionText(m % 100)
  }

  /** `str(x)` of a float amount `x` that has at most two decimals. */
  function ShowAmount(c: Cents): (s: string)
    ensures |s| > 0
    ensures forall k :: 0 <= k < |s| ==> IsDigit(s[k]) || s[k] == '-' || s[k] == '.'
  {
    if c < 0 then "-" + UnsignedAmountText(-c) else UnsignedAmountText(c)
  }

  /** The unsigned part of a float literal: digits, optionally a point and at most two
      decimals, with at least one digit in all. */
  function ParseUnsignedAmount(s: string): (r: Option<nat>)
  {
    var parts := Text.Split(s, '.');
    if |parts| == 1 then
      match ParseNat(parts[0])
      case Some(n) => Some(n * 100)
      case None => None
    else if |parts| == 2 && AllDigits(parts[0]) && AllDigits(parts[1])
         && |parts[0]| + |parts[1]| > 0 && |parts[1]| <= 2 then
      Some(DigitsValue(parts[0]) * 100 + FractionValue(parts[1]))
    else None
  }

  /** `float(s)`, restricted to literals with at most two decimals: an optional sign,
      then the unsigned part. */
  function ParseAmount(s: string): (r: Option<Cents>)
    ensures r.Some? ==> |s| > 0
  {
    if |s| > 0 && (s[0] == '-' || s[0] == '+') then
      match ParseUnsignedAmount(s[1..])
      case Some(n) => Some(if s[0] == '-' then -(n as int) else n as int)
      case None => None
    else
      match ParseUnsignedAmount(s)
      case Some(n) => Some(n)
      case None => None
  }

  lemma UnsignedAmountRoundTrip(m: nat)
    ensures ParseUnsignedAmount(UnsignedAmountText(m)) == Some(m)
  {
    var whole, frac := ShowNat(m / 100), FractionText(m % 100);
    assert '.' !in whole && '.' !in frac;
    Text.SplitAfter(whole, frac, '.');
    Text.SplitNone(frac, '.');
    assert whole + "." + frac == whole + ['.'] + frac;
    DigitsOfShowNat(m / 100);
  }

  /** Reading back the text of an amount gives the amount. */
  lemma ParseShowAmount(c: Cents)
    ensures ParseAmount(ShowAmount(c)) == Some(c)
  {
    var m := if c < 0 then -c else c;
    UnsignedAmountRoundTrip(m);
    SignedAmount(UnsignedAmountText(m), m);
  }

  /** An unsigned literal starting with a digit reads the same alone and after '-'. */
  lemma SignedAmount(s: string, n: nat)
    requires |s| > 0 && IsDigit(s[0]) && ParseUnsignedAmount(s) == Some(n)
    ensures ParseAmount(s) == Some(n) && ParseAmount("-" + s) == Some(-(n as int))
  {
    assert ("-" + s)[1..] == s;
  }
}
