/**
 * Lengths: `PixelValue`, `CssMetric`, `PixelValue::to_pixels` and `parse_pixel_value`
 * (src/css_parser.rs:12-31, 146-171).
 */
module Lengths {
  import opened Wrappers
  import opened Numbers

  /** `EM_HEIGHT`: the font size an `em` resolves against. */
  const EmHeight: real := 16.0

  datatype Metric = Px | Em

  datatype PixelValue = PixelValue(metric: Metric, number: real) {
    /** `PixelValue::to_pixels`. */
    function ToPixels(): real {
      match metric
      case Px => number
      case Em => number * EmHeight
    }
  }

  /** `CssBorderRadiusParseError`; the detail inside Rust's `ParseFloatError` is not modelled. */
  datatype LengthError = TooManyValues(input: string) | InvalidComponent(component: string) | ValueParseErr

  /** The characters `parse_pixel_value` counts as part of the number: `is_numeric()` on ASCII, and '.'. */
  predicate IsNumberChar(c: char) {
    IsDigit(c) || c == '.'
  }

  /** The index of the last number character among the first `n` characters, or 0 when there is none. */
  function LastNumberChar(s: string, n: nat): (k: nat)
    requires n <= |s|
    ensures n > 0 ==> k < n
    ensures forall i :: k < i < n ==> !IsNumberChar(s[i])
    ensures n > 0 && !IsNumberChar(s[k]) ==> k == 0
  {
    if n == 0 then 0
    else if IsNumberChar(s[n - 1]) then n - 1
    else LastNumberChar(s, n - 1)
  }

  function UnitText(m: Metric): string {
    match m
    case Px => "px"
    case Em => "em"
  }

  /**
   * What `parse_pixel_value` returns: the unit is the text after the last number character
   * (after the first character when there is none), the number is the text before it.
   */
  function PixelValueOf(input: string): Result<PixelValue, LengthError>
    requires input != []
  {
    var split := LastNumberChar(input, |input|) + 1;
    var unit := input[split..];
    if unit == "px" || unit == "em" then
      match ParseFloat(input[..split])
      case None => Err(ValueParseErr)
      case Some(n) => Ok(PixelValue(if unit == "px" then Px else Em, n))
    else
      Err(InvalidComponent(input[split - 1..]))
  }

  /** `parse_pixel_value`: scan for the last number character, then read unit and number. */
  method ParsePixelValue(input: string) returns (r: Result<PixelValue, LengthError>)
    requires input != []
    ensures r == PixelValueOf(input)
  {
    var splitPos := 0;
    for idx := 0 to |input|
      invariant splitPos == LastNumberChar(input, idx)
    {
      if IsNumberChar(input[idx]) {
        splitPos := idx;
      }
    }
    splitPos := splitPos + 1;

    var unit := input[splitPos..];
    var metric;
    if unit == "px" {
      metric := Px;
    } else if unit == "em" {
      metric := Em;
    } else {
      return Err(InvalidComponent(input[splitPos - 1..]));
    }

    var number := ParseFloat(input[..splitPos]);
    if number.None? {
      return Err(ValueParseErr);
    }
    return Ok(PixelValue(metric, number.value));
  }

  /** `parse_pixel_value(t)?.to_pixels()`. */
  function Pixels(t: string): Result<real, LengthError>
    requires t != []
  {
    var v :- PixelValueOf(t);
    Ok(v.ToPixels())
  }

  /** A single length never reports `TooManyValues`; only a whole radius declaration does. */
  lemma PixelsNeverTooMany(t: string)
    requires t != []
    ensures Pixels(t).Err? ==> !Pixels(t).error.TooManyValues?
  {
  }

  /** A unit preceded by a number character is read as that unit, with the text before it as the number. */
  lemma UnitAfterNumber(s: string, m: Metric)
    requires |s| >= 3 && s[|s| - 2..] == UnitText(m) && IsNumberChar(s[|s| - 3])
    ensures PixelValueOf(s) == match ParseFloat(s[..|s| - 2])
                               case None => Err(ValueParseErr)
                               case Some(n) => Ok(PixelValue(m, n))
  {
    assert s[|s| - 1] == UnitText(m)[1] && s[|s| - 2] == UnitText(m)[0];
    var k := LastNumberChar(s, |s|);
    assert k == |s| - 3;
    assert s[k + 1..] == UnitText(m);
  }

  /**
   * A length parses exactly when it is a number ending in a digit or '.', followed by
   * `px` or `em`; the number is read from everything before the unit.
   */
  lemma PixelValueOfIff(s: string, m: Metric, n: real)
    requires s != []
    ensures PixelValueOf(s) == Ok(PixelValue(m, n)) <==>
            |s| >= 3 && s[|s| - 2..] == UnitText(m) && IsNumberChar(s[|s| - 3]) && ParseFloat(s[..|s| - 2]) == Some(n)
  {
    if PixelValueOf(s) == Ok(PixelValue(m, n)) {
      var k := LastNumberChar(s, |s|);
      assert |s| == k + 3;
    }
    if |s| >= 3 && s[|s| - 2..] == UnitText(m) && IsNumberChar(s[|s| - 3]) {
      UnitAfterNumber(s, m);
    }
  }

  /** Without any number character the unit is read after the first character, and an error carries the whole input. */
  lemma NoNumberIsError(s: string)
    requires s != []
    requires forall i :: 0 <= i < |s| ==> !IsNumberChar(s[i])
    ensures PixelValueOf(s) == if s[1..] == "px" || s[1..] == "em" then Err(ValueParseErr) else Err(InvalidComponent(s))
  {
    assert LastNumberChar(s, |s|) == 0;
    assert s[0..] == s;
    assert !HasDigit(s[..1]);
  }

  /** The unit is `px` or `em` and nothing else; any other unit is an `InvalidComponent` error. */
  lemma OnlyPxAndEm(s: string)
    requires s != []
    ensures PixelValueOf(s).Ok? ==> EndsWithUnit(s)
    ensures !EndsWithUnit(s) ==> PixelValueOf(s).Err? && PixelValueOf(s).error.InvalidComponent?
  {
    var k := LastNumberChar(s, |s|);
    var unit := s[k + 1..];
    if unit == "px" || unit == "em" {
      assert s == s[..k + 1] + unit;
      assert s[|s| - 2..] == unit;
    }
  }

  predicate EndsWithUnit(s: string) {
    |s| >= 2 && (s[|s| - 2..] == "px" || s[|s| - 2..] == "em")
  }

  /** The source's example "15px". */
  lemma FifteenPixels()
    ensures PixelValueOf("15px") == Ok(PixelValue(Px, 15.0))
  {
    assert NatText(15) == "15";
    NatTextParses(15);
    UnitAfterNumber("15px", Px);
    assert "15px"[..2] == "15";
  }

  /** The source's example "1.2em", which resolves to 19.2 pixels. */
  lemma OnePointTwoEm()
    ensures PixelValueOf("1.2em") == Ok(PixelValue(Em, 1.2))
    ensures PixelValue(Em, 1.2).ToPixels() == 19.2
  {
    UnitAfterNumber("1.2em", Em);
    assert "1.2em"[..3] == "1" + "." + "2";
    DecimalParses("1", "2");
    assert "1"[..0] == [] && "2"[..0] == [];
  }

  /** The source's example of a text without a number: the error carries all of it. */
  lemma NotALength()
    ensures PixelValueOf("aslkfdjasdflk") == Err(InvalidComponent("aslkfdjasdflk"))
  {
    NoNumberIsError("aslkfdjasdflk");
  }

  /** A decimal numeral followed by "px" is that many pixels. */
  lemma LengthOfNat(n: nat, s: string)
    requires s == NatText(n) + "px"
    ensures s != [] && Pixels(s) == Ok(n as real)
  {
    assert s[..|s| - 2] == NatText(n) && s[|s| - 2..] == "px" && IsNumberChar(s[|s| - 3]);
    UnitAfterNumber(s, Px);
    NatTextParses(n);
  }

  // The whole-pixel values of the source's examples.

  lemma Fifteen()
    ensures Pixels("15px") == Ok(15.0)
  {
    assert NatText(15) == "15";
    LengthOfNat(15, "15px");
  }

  lemma Fifty()
    ensures Pixels("50px") == Ok(50.0)
  {
    assert NatText(50) == "50";
    LengthOfNat(50, "50px");
  }

  lemma Thirty()
    ensures Pixels("30px") == Ok(30.0)
  {
    assert NatText(30) == "30";
    LengthOfNat(30, "30px");
  }

  lemma Ten()
    ensures Pixels("10px") == Ok(10.0)
  {
    assert NatText(10) == "10";
    LengthOfNat(10, "10px");
  }

  lemma Five()
    ensures Pixels("5px") == Ok(5.0)
  {
    assert NatText(5) == "5";
    LengthOfNat(5, "5px");
  }
}
