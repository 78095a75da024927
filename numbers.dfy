/**
 * Decimal text to number, as `str::parse::<f32>` reads it, with the value kept as an
 * exact `real` (no rounding to single precision). The accepted grammar is Rust's:
 *   sign? ( digits | digits '.' digits? | '.' digits ) ( ('e' | 'E') sign? digits )?
 * The words `inf`, `infinity` and `nan` are not modelled (they have no `real` value).
 */
module Numbers {
  import opened Wrappers
  import opened Text

  predicate IsDigit(c: char) {
    '0' <= c <= '9'
  }

  predicate AllDigits(s: string) {
    forall i :: 0 <= i < |s| ==> IsDigit(s[i])
  }

  predicate HasDigit(s: string) {
    exists i :: 0 <= i < |s| && IsDigit(s[i])
  }

  function DigitValue(c: char): (d: nat)
    requires IsDigit(c)
    ensures d < 10
  {
    c as int - '0' as int
  }

  /** The value of a string of decimal digits, most significant first (0 for the empty string). */
  function DigitsValue(s: string): nat
    requires AllDigits(s)
  {
    if s == [] then 0 else DigitsValue(s[..|s| - 1]) * 10 + DigitValue(s[|s| - 1])
  }

  function Pow10(n: nat): (p: nat)
    ensures p >= 1
  {
    if n == 0 then 1 else 10 * Pow10(n - 1)
  }

  /** 10 to the power `e`, for any integer `e`. */
  function Scale(e: int): real {
    if e >= 0 then Pow10(e) as real else 1.0 / Pow10(-e) as real
  }

  predicate IsSign(c: char) {
    c == '+' || c == '-'
  }

  predicate IsExponentMark(c: char) {
    c == 'e' || c == 'E'
  }

  /** The text before the first exponent mark, and the text after it when there is one. */
  function SplitExponent(s: string): (r: (string, Option<string>))
    ensures forall i :: 0 <= i < |r.0| ==> !IsExponentMark(r.0[i])
    ensures r.1.None? ==> r.0 == s
    ensures r.1.Some? ==> |r.0| < |s| && IsExponentMark(s[|r.0|]) && s == r.0 + [s[|r.0|]] + r.1.value
  {
    if s == [] then ([], None)
    else if IsExponentMark(s[0]) then ([], Some(s[1..]))
    else
      var (m, e) := SplitExponent(s[1..]);
      ([s[0]] + m, e)
  }

  /** The value of `whole '.' fraction`. */
  function DecimalValue(whole: string, fraction: string): real
    requires AllDigits(whole) && AllDigits(fraction)
  {
    DigitsValue(whole) as real + DigitsValue(fraction) as real / Pow10(|fraction|) as real
  }

  /** `digits | digits '.' digits? | '.' digits`, with its value. */
  function ParseMantissa(s: string): (r: Option<real>)
    ensures r.Some? ==> HasDigit(s)
  {
    var (whole, fraction) := SplitFirst(s, '.');
    if !AllDigits(whole) then None
    else
      match fraction
      case None =>
        if whole == [] then None
        else
          assert IsDigit(s[0]);
          Some(DigitsValue(whole) as real)
      case Some(f) =>
        if !AllDigits(f) || (whole == [] && f == []) then None
        else
          assert whole != [] ==> IsDigit(s[0]);
          assert whole == [] ==> IsDigit(s[1]);
          Some(DecimalValue(whole, f))
  }

  /** `sign? digits`, with its value. */
  function ParseExponent(s: string): Option<int> {
    if |s| > 0 && IsSign(s[0]) then
      if s[1..] == [] || !AllDigits(s[1..]) then None
      else if s[0] == '-' then Some(-(DigitsValue(s[1..]) as int))
      else Some(DigitsValue(s[1..]) as int)
    else if s == [] || !AllDigits(s) then None
    else Some(DigitsValue(s) as int)
  }

  function ParseUnsignedFloat(s: string): (r: Option<real>)
    ensures r.Some? ==> HasDigit(s)
  {
    var (mantissa, exponent) := SplitExponent(s);
    var m :- ParseMantissa(mantissa);
    assert HasDigit(s) by {
      var i :| 0 <= i < |mantissa| && IsDigit(mantissa[i]);
      assert s[i] == mantissa[i];
    }
    match exponent
    case None => Some(m)
    case Some(e) =>
      var x :- ParseExponent(e);
      Some(m * Scale(x))
  }

  /** `str::parse::<f32>` on finite decimal text, exactly; `None` for text Rust rejects. */
  function ParseFloat(s: string): (r: Option<real>)
    ensures r.Some? ==> HasDigit(s)
  {
    if |s| > 0 && IsSign(s[0]) then
      match ParseUnsignedFloat(s[1..])
      case None => None
      case Some(v) =>
        assert HasDigit(s) by {
          var i :| 0 <= i < |s[1..]| && IsDigit(s[1..][i]);
          assert s[i + 1] == s[1..][i];
        }
        Some(if s[0] == '-' then -v else v)
    else ParseUnsignedFloat(s)
  }

  /** The decimal digits of a natural number, without leading zeros ("0" for zero). */
  function NatText(n: nat): (s: string)
    ensures s != [] && AllDigits(s)
    decreases n
  {
    if n < 10 then [('0' as int + n) as char]
    else NatText(n / 10) + [('0' as int + n % 10) as char]
  }

  lemma {:induction false} NatTextValue(n: nat)
    ensures DigitsValue(NatText(n)) == n
    decreases n
  {
    var s := NatText(n);
    if n >= 10 {
      NatTextValue(n / 10);
      assert s[..|s| - 1] == NatText(n / 10);
    }
  }

  /** Every natural number written in decimal parses back to itself. */
  lemma NatTextParses(n: nat)
    ensures ParseFloat(NatText(n)) == Some(n as real)
  {
    var s := NatText(n);
    NatTextValue(n);
    assert !IsSign(s[0]);
    assert SplitExponent(s) == (s, None) by {
      NoMarkSplitsWhole(s);
    }
    assert SplitFirst(s, '.') == (s, None) by {
      NoDotSplitsWhole(s);
    }
  }

  lemma {:induction false} NoMarkSplitsWhole(s: string)
    requires forall i :: 0 <= i < |s| ==> !IsExponentMark(s[i])
    ensures SplitExponent(s) == (s, None)
  {
    if s != [] {
      NoMarkSplitsWhole(s[1..]);
      assert [s[0]] + s[1..] == s;
    }
  }

  lemma {:induction false} NoDotSplitsWhole(s: string)
    requires AllDigits(s)
    ensures SplitFirst(s, '.') == (s, None)
  {
    if s != [] {
      NoDotSplitsWhole(s[1..]);
      assert [s[0]] + s[1..] == s;
    }
  }

  /** Digits followed by a letter that is neither '.' nor an exponent mark are no number. */
  lemma DigitsThenLetter(digits: string, c: char)
    requires digits != [] && AllDigits(digits) && !IsDigit(c) && c != '.' && !IsExponentMark(c)
    ensures ParseFloat(digits + [c]) == None
  {
    var s := digits + [c];
    assert !IsSign(s[0]) && s[|digits|] == c;
    NoMarkSplitsWhole(s);
    assert '.' !in s;
  }

  /** A numeral with a fraction, `digits '.' digits`, parses to its exact decimal value. */
  lemma DecimalParses(whole: string, fraction: string)
    requires whole != [] && AllDigits(whole) && AllDigits(fraction)
    ensures ParseFloat(whole + "." + fraction) == Some(DecimalValue(whole, fraction))
  {
    var s := whole + "." + fraction;
    assert s[0] == whole[0] && !IsSign(s[0]);
    assert forall i :: 0 <= i < |s| ==> IsDigit(s[i]) || s[i] == '.';
    var v := DecimalValue(whole, fraction);
    NoMarkSplitsWhole(s);
    assert '.' !in whole;
    SplitFirstAtFirst(whole, '.', fraction);
    assert ParseMantissa(s) == Some(v);
    assert ParseUnsignedFloat(s) == Some(v);
  }
}
