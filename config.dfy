/**
 * Resolution of the per-minute request limit (api/api.go:185-198): the value
 * of REQUESTS_PER_MINUTE_LIMIT is passed in as a string; an empty or
 * unparsable value falls back to DefaultLimit, any parsed integer is used as
 * it is, without a positivity check.
 */
module Config {
  import opened Wrappers

  const DefaultLimit: int := 10

  /** Range of Go's 64-bit `int`; strconv.Atoi reports a range error outside it. */
  const MinInt: int := -0x8000_0000_0000_0000
  const MaxInt: int := 0x7fff_ffff_ffff_ffff

  predicate IsDigit(c: char) {
    '0' <= c <= '9'
  }

  predicate AllDigits(s: string) {
    forall i :: 0 <= i < |s| ==> IsDigit(s[i])
  }

  /** The value of a string of decimal digits, most significant first. */
  function DigitsValue(s: string): nat
    requires AllDigits(s)
    decreases |s|
  {
    if s == [] then 0 else DigitsValue(s[..|s| - 1]) * 10 + (s[|s| - 1] as int - '0' as int)
  }

  /**
   * strconv.Atoi: an optional '+' or '-', then one or more decimal digits,
   * and a value that fits the 64-bit range; anything else is an error.
   */
  function Atoi(s: string): (r: Option<int>)
    ensures r.Some? ==> MinInt <= r.value <= MaxInt
    ensures r.Some? ==> |s| > 0 && IsDigit(s[|s| - 1])
    ensures r.Some? ==> forall i :: 0 < i < |s| ==> IsDigit(s[i])
    ensures r.Some? ==> s[0] == '+' || s[0] == '-' || IsDigit(s[0])
    ensures r.Some? && 0 < |s| && IsDigit(s[0]) ==> r.value >= 0
  {
    var negative := |s| > 0 && s[0] == '-';
    var digits := if |s| > 0 && (s[0] == '+' || s[0] == '-') then s[1..] else s;
    if digits == [] || !AllDigits(digits) then None
    else
      var magnitude: int := DigitsValue(digits);
      var v := if negative then -magnitude else magnitude;
      if MinInt <= v <= MaxInt then Some(v) else None
  }

  /** The decimal form of a natural number (the inverse that Atoi is checked against). */
  function FormatNat(n: nat): (s: string)
    ensures |s| > 0 && AllDigits(s)
    decreases n
  {
    if n < 10 then [('0' as int + n) as char]
    else FormatNat(n / 10) + [('0' as int + n % 10) as char]
  }

  function FormatInt(n: int): string {
    if n < 0 then "-" + FormatNat(-n) else FormatNat(n)
  }

  lemma {:induction false} DigitsValueOfFormat(n: nat)
    ensures DigitsValue(FormatNat(n)) == n
    decreases n
  {
    var s := FormatNat(n);
    if n >= 10 {
      DigitsValueOfFormat(n / 10);
      assert s[..|s| - 1] == FormatNat(n / 10);
    }
  }

  /** A bare digit string, leading zeros included, has the value of its digits. */
  lemma AtoiUnsigned(d: string)
    requires |d| > 0 && AllDigits(d) && DigitsValue(d) <= MaxInt
    ensures Atoi(d) == Some(DigitsValue(d) as int)
  {
    assert IsDigit(d[0]);
  }

  /** An explicit '+' changes nothing. */
  lemma AtoiPlus(d: string)
    requires |d| > 0 && AllDigits(d) && DigitsValue(d) <= MaxInt
    ensures Atoi("+" + d) == Some(DigitsValue(d) as int)
  {
    assert ("+" + d)[1..] == d;
  }

  /** A '-' negates the value of the digits; "-0" is 0. */
  lemma AtoiMinus(d: string)
    requires |d| > 0 && AllDigits(d) && MinInt <= -(DigitsValue(d) as int)
    ensures Atoi("-" + d) == Some(-(DigitsValue(d) as int))
  {
    assert ("-" + d)[1..] == d;
  }

  /**
   * Every spelling Atoi accepts, canonical or not ("+5", "007", "-0"), has
   * the value its digits give, negated after a '-'.
   */
  lemma AtoiOfDigits(sign: string, d: string)
    requires sign == "" || sign == "+" || sign == "-"
    requires |d| > 0 && AllDigits(d)
    requires MinInt <= (if sign == "-" then -(DigitsValue(d) as int) else DigitsValue(d) as int) <= MaxInt
    ensures Atoi(sign + d) == Some(if sign == "-" then -(DigitsValue(d) as int) else DigitsValue(d) as int)
  {
    if sign == "" {
      assert sign + d == d;
      AtoiUnsigned(d);
    } else if sign == "+" {
      AtoiPlus(d);
    } else {
      AtoiMinus(d);
    }
  }

  /**
   * A sign and digits whose value lies outside Go's 64-bit `int` is refused
   * (strconv.Atoi's range error), and the limit then falls back to the
   * default.
   */
  lemma AtoiOutOfRange(sign: string, d: string)
    requires sign == "" || sign == "+" || sign == "-"
    requires |d| > 0 && AllDigits(d)
    requires !(MinInt <= (if sign == "-" then -(DigitsValue(d) as int) else DigitsValue(d) as int) <= MaxInt)
    ensures Atoi(sign + d) == None
    ensures ResolveLimit(sign + d) == DefaultLimit
  {
    if sign == "" {
      assert sign + d == d;
      assert IsDigit(d[0]);
    } else {
      assert (sign + d)[1..] == d;
    }
  }

  /** Every value of Go's `int` survives a trip through its decimal form. */
  lemma AtoiOfFormat(n: int)
    requires MinInt <= n <= MaxInt
    ensures Atoi(FormatInt(n)) == Some(n)
  {
    if n < 0 {
      DigitsValueOfFormat(-n);
      AtoiMinus(FormatNat(-n));
    } else {
      DigitsValueOfFormat(n);
      AtoiUnsigned(FormatNat(n));
    }
  }

  /** The limit the throttle check compares against. */
  function ResolveLimit(env: string): (limit: int)
    ensures MinInt <= limit <= MaxInt
    ensures env == "" ==> limit == DefaultLimit
    ensures Atoi(env).None? ==> limit == DefaultLimit
    ensures Atoi(env).Some? ==> limit == Atoi(env).value
  {
    if env == "" then DefaultLimit
    else match Atoi(env)
      case None => DefaultLimit
      case Some(v) => v
  }

  /** Any integer setting is taken literally, zero and negative ones included. */
  lemma ResolveLimitOfSetting(n: int)
    requires MinInt <= n <= MaxInt
    ensures ResolveLimit(FormatInt(n)) == n
  {
    AtoiOfFormat(n);
  }

  /** Settings that are not decimal integers fall back to the default. */
  lemma ResolveLimitFallsBack()
    ensures ResolveLimit("") == DefaultLimit
    ensures ResolveLimit("ten") == DefaultLimit
    ensures ResolveLimit("-") == DefaultLimit
  {
    assert !IsDigit('t');
  }
}
