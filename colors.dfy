/**
 * CSS colours (src/css_parser.rs:172-422): a leading '#' selects the hexadecimal forms
 * RGB, RGBA, RRGGBB and RRGGBBAA; anything else is looked up in the named-colour table.
 */
module Colors {
  import opened Wrappers
  import opened Text
  import opened ColorTable

  newtype byte = x: int | 0 <= x < 256

  /** webrender's `ColorU`: four 8-bit channels. */
  datatype Color = Color(r: byte, g: byte, b: byte, a: byte)

  /** The colour a border gets when its declaration names none. */
  const Black: Color := Color(0, 0, 0, 255)

  datatype ColorError =
    | InvalidColor(text: string)
    | InvalidColorComponent(component: char)
    | ValueParseErr

  /**
   * How a colour word is read. The box-shadow and gradient parsers read colours with
   * `ParseColor`; what is proved about them is stated for any colour reader, since nothing
   * in those proofs depends on which.
   */
  type ColorReader = string -> Result<Color, ColorError>

  predicate IsHexDigit(c: char) {
    '0' <= c <= '9' || 'a' <= c <= 'f' || 'A' <= c <= 'F'
  }

  predicate AllHex(s: string) {
    forall i :: 0 <= i < |s| ==> IsHexDigit(s[i])
  }

  function HexDigitValue(c: char): (d: nat)
    requires IsHexDigit(c)
    ensures d < 16
  {
    if '0' <= c <= '9' then c as nat - '0' as nat
    else if 'a' <= c <= 'f' then c as nat - 'a' as nat + 10
    else c as nat - 'A' as nat + 10
  }

  /** `from_hex`: one hexadecimal digit, or the offending character. */
  function FromHex(c: char): Result<nat, ColorError> {
    if IsHexDigit(c) then Ok(HexDigitValue(c)) else Err(InvalidColorComponent(c))
  }

  /** A digit of the short forms stands for itself repeated: "E" is 0xEE. */
  function Doubled(c: char): Result<byte, ColorError> {
    var d :- FromHex(c);
    Ok((d * 16 + d) as byte)
  }

  /** The value of a string of hexadecimal digits, most significant first. */
  function HexValue(s: string): nat
    requires AllHex(s)
  {
    if s == [] then 0 else HexValue(s[..|s| - 1]) * 16 + HexDigitValue(s[|s| - 1])
  }

  const U32Limit: nat := 0x1_0000_0000

  /**
   * `u32::from_str_radix(s, 16)`: an optional '+', then one or more hexadecimal digits
   * whose value fits in 32 bits.
   */
  function FromStrRadix16(s: string): (r: Option<nat>)
    ensures r.Some? ==> r.value < U32Limit
  {
    var digits := if |s| > 0 && s[0] == '+' then s[1..] else s;
    if digits == [] || !AllHex(digits) || HexValue(digits) >= U32Limit then None
    else Some(HexValue(digits))
  }

  /** `(v >> shift) & 255`, for the shifts the long forms use. */
  function Channel(v: nat, shift: nat): byte
    requires shift in {0, 8, 16, 24}
  {
    var divisor := if shift == 0 then 1 else if shift == 8 then 0x100 else if shift == 16 then 0x1_0000 else 0x100_0000;
    ((v / divisor) % 256) as byte
  }

  /**
   * `parse_color_no_hash`: the text after '#'. Only the lengths 3, 4, 6 and 8 are colours,
   * and only they produce an error other than `InvalidColor`.
   */
  function ParseColorNoHash(input: string): (r: Result<Color, ColorError>)
    ensures r == Err(InvalidColor(input)) <==> |input| !in {3, 4, 6, 8}
    ensures r.Ok? && |input| in {3, 6} ==> r.value.a == 255
  {
    if |input| == 3 then
      var r :- Doubled(input[0]);
      var g :- Doubled(input[1]);
      var b :- Doubled(input[2]);
      Ok(Color(r, g, b, 255))
    else if |input| == 4 then
      var r :- Doubled(input[0]);
      var g :- Doubled(input[1]);
      var b :- Doubled(input[2]);
      var a :- Doubled(input[3]);
      Ok(Color(r, g, b, a))
    else if |input| == 6 then
      match FromStrRadix16(input)
      case None => Err(ValueParseErr)
      case Some(v) => Ok(Color(Channel(v, 16), Channel(v, 8), Channel(v, 0), 255))
    else if |input| == 8 then
      match FromStrRadix16(input)
      case None => Err(ValueParseErr)
      case Some(v) => Ok(Color(Channel(v, 24), Channel(v, 16), Channel(v, 8), Channel(v, 0)))
    else
      Err(InvalidColor(input))
  }

  /** `parse_color_builtin`: the first table row spelling the name, then its hex literal. */
  function ParseColorBuiltin(input: string): (r: Result<Color, ColorError>)
    ensures Lookup(input).None? ==> r == Err(InvalidColor(input))
  {
    match Lookup(input)
    case None => Err(InvalidColor(input))
    case Some(hex) => ParseColorNoHash(hex)
  }

  /** `parse_css_color`. */
  function ParseColor(input: string): (r: Result<Color, ColorError>)
    ensures StartsWith(input, "#") ==> r == ParseColorNoHash(input[1..])
    ensures !StartsWith(input, "#") ==> r == ParseColorBuiltin(input)
  {
    if StartsWith(input, "#") then ParseColorNoHash(input[1..]) else ParseColorBuiltin(input)
  }

  // ---------------------------------------------------------------------------
  // The short forms

  /** The channel a short-form digit stands for: 17 times its value. */
  function Short(c: char): byte
    requires IsHexDigit(c)
  {
    (17 * HexDigitValue(c)) as byte
  }

  lemma ShortFormChannels(s: string)
    requires |s| == 3 || |s| == 4
    requires AllHex(s)
    ensures ParseColorNoHash(s) == Ok(Color(Short(s[0]), Short(s[1]), Short(s[2]), if |s| == 4 then Short(s[3]) else 255))
  {
  }

  /** A short form reports its first character that is not a hexadecimal digit. */
  lemma ShortFormFirstBadDigit(s: string, j: nat)
    requires |s| == 3 || |s| == 4
    requires j < |s| && !IsHexDigit(s[j])
    requires forall k :: 0 <= k < j ==> IsHexDigit(s[k])
    ensures ParseColorNoHash(s) == Err(InvalidColorComponent(s[j]))
  {
  }

  // ---------------------------------------------------------------------------
  // The long forms

  /** The byte spelled by the two digits at `i` and `i + 1`. */
  function Pair(s: string, i: nat): byte
    requires i + 1 < |s| && IsHexDigit(s[i]) && IsHexDigit(s[i + 1])
  {
    (16 * HexDigitValue(s[i]) + HexDigitValue(s[i + 1])) as byte
  }

  lemma DivModBy(q: nat, rem: nat, m: nat)
    requires m in {0x100, 0x1_0000, 0x100_0000}
    requires rem < m
    ensures (q * m + rem) / m == q && (q * m + rem) % m == rem
  {
    if m == 0x100 {
    } else if m == 0x1_0000 {
    } else {
    }
  }

  /** Reading one more digit multiplies the value so far by sixteen. */
  lemma HexValueStep(s: string, k: nat)
    requires AllHex(s) && 0 < k <= |s|
    ensures HexValue(s[..k]) == HexValue(s[..k - 1]) * 16 + HexDigitValue(s[k - 1])
  {
    assert s[..k][..k - 1] == s[..k - 1];
  }

  lemma SixDigitValue(s: string)
    requires |s| == 6 && AllHex(s)
    ensures HexValue(s) == (Pair(s, 0) as nat * 0x100 + Pair(s, 2) as nat) * 0x100 + Pair(s, 4) as nat
  {
    assert s[..0] == [];
    HexValueStep(s, 1);
    HexValueStep(s, 2);
    HexValueStep(s, 3);
    HexValueStep(s, 4);
    HexValueStep(s, 5);
    HexValueStep(s, 6);
    assert s[..6] == s;
  }

  lemma EightDigitValue(s: string)
    requires |s| == 8 && AllHex(s)
    ensures HexValue(s) == ((Pair(s, 0) as nat * 0x100 + Pair(s, 2) as nat) * 0x100 + Pair(s, 4) as nat) * 0x100 + Pair(s, 6) as nat
  {
    assert s[..0] == [];
    HexValueStep(s, 1);
    HexValueStep(s, 2);
    HexValueStep(s, 3);
    HexValueStep(s, 4);
    HexValueStep(s, 5);
    HexValueStep(s, 6);
    HexValueStep(s, 7);
    HexValueStep(s, 8);
    assert s[..8] == s;
  }

  /** The shifts of the long forms take a packed word apart into its four bytes. */
  lemma ChannelsOfWord(r: nat, g: nat, b: nat, a: nat)
    requires r < 256 && g < 256 && b < 256 && a < 256
    ensures Channel(((r * 0x100 + g) * 0x100 + b) * 0x100 + a, 24) as nat == r
    ensures Channel(((r * 0x100 + g) * 0x100 + b) * 0x100 + a, 16) as nat == g
    ensures Channel(((r * 0x100 + g) * 0x100 + b) * 0x100 + a, 8) as nat == b
    ensures Channel(((r * 0x100 + g) * 0x100 + b) * 0x100 + a, 0) as nat == a
  {
    var v := ((r * 0x100 + g) * 0x100 + b) * 0x100 + a;
    assert v == r * 0x100_0000 + (g * 0x1_0000 + b * 0x100 + a);
    DivModBy(r, g * 0x1_0000 + b * 0x100 + a, 0x100_0000);
    DivModBy(0, r, 0x100);
    assert v == (r * 0x100 + g) * 0x1_0000 + (b * 0x100 + a);
    DivModBy(r * 0x100 + g, b * 0x100 + a, 0x1_0000);
    DivModBy(r, g, 0x100);
    DivModBy((r * 0x100 + g) * 0x100 + b, a, 0x100);
    DivModBy(r * 0x100 + g, b, 0x100);
  }

  /** Six digits are three byte pairs, red first, with an opaque alpha. */
  lemma SixDigitChannels(s: string)
    requires |s| == 6 && AllHex(s)
    ensures ParseColorNoHash(s) == Ok(Color(Pair(s, 0), Pair(s, 2), Pair(s, 4), 255))
  {
    var r, g, b := Pair(s, 0) as nat, Pair(s, 2) as nat, Pair(s, 4) as nat;
    SixDigitValue(s);
    assert HexValue(s) == ((0 * 0x100 + r) * 0x100 + g) * 0x100 + b;
    ChannelsOfWord(0, r, g, b);
    assert FromStrRadix16(s) == Some(HexValue(s));
  }

  /** Eight digits are four byte pairs, red first and alpha last. */
  lemma EightDigitChannels(s: string)
    requires |s| == 8 && AllHex(s)
    ensures ParseColorNoHash(s) == Ok(Color(Pair(s, 0), Pair(s, 2), Pair(s, 4), Pair(s, 6)))
  {
    EightDigitValue(s);
    ChannelsOfWord(Pair(s, 0) as nat, Pair(s, 2) as nat, Pair(s, 4) as nat, Pair(s, 6) as nat);
    assert FromStrRadix16(s) == Some(HexValue(s));
  }

  /** The long forms accept what `from_str_radix` accepts: a leading '+' is skipped. */
  lemma LeadingPlusAccepted()
    ensures ParseColorNoHash("+FFFFF") == Ok(Color(0x0F, 0xFF, 0xFF, 255))
  {
    var s := "+FFFFF";
    assert s[1..] == "FFFFF";
    assert HexValue("FFFFF") == 0xFFFFF by {
      assert "FFFFF"[..4] == "FFFF" && "FFFF"[..3] == "FFF" && "FFF"[..2] == "FF" && "FF"[..1] == "F";
      assert "F"[..0] == [];
    }
    assert FromStrRadix16(s) == Some(0xFFFFF);
  }

  /** A long form with a character `from_str_radix` refuses fails with `ValueParseErr`. */
  lemma LongFormRejectsNonDigit(s: string, j: nat)
    requires |s| == 6 || |s| == 8
    requires 0 < j < |s| && !IsHexDigit(s[j])
    ensures ParseColorNoHash(s) == Err(ValueParseErr)
  {
    var digits := if s[0] == '+' then s[1..] else s;
    if s[0] == '+' {
      assert digits[j - 1] == s[j];
    } else {
      assert digits[j] == s[j];
    }
  }

  // ---------------------------------------------------------------------------
  // Printing a colour and reading it back

  function HexChar(d: nat): (c: char)
    requires d < 16
    ensures IsHexDigit(c) && HexDigitValue(c) == d
  {
    "0123456789ABCDEF"[d]
  }

  /** The two upper-case digits of a byte. */
  function HexByte(b: byte): (s: string)
    ensures |s| == 2 && AllHex(s)
  {
    [HexChar(b as nat / 16), HexChar(b as nat % 16)]
  }

  /** The RRGGBBAA spelling of a colour. */
  function Hex8(c: Color): (s: string)
    ensures |s| == 8 && AllHex(s)
  {
    HexByte(c.r) + HexByte(c.g) + HexByte(c.b) + HexByte(c.a)
  }

  /** The RRGGBB spelling of a colour, which drops its alpha. */
  function Hex6(c: Color): (s: string)
    ensures |s| == 6 && AllHex(s)
  {
    HexByte(c.r) + HexByte(c.g) + HexByte(c.b)
  }

  lemma PairOfHexByte(s: string, i: nat, b: byte)
    requires i + 1 < |s| && s[i..i + 2] == HexByte(b)
    ensures IsHexDigit(s[i]) && IsHexDigit(s[i + 1]) && Pair(s, i) == b
  {
    assert s[i] == HexByte(b)[0] && s[i + 1] == HexByte(b)[1];
  }

  /** Every colour reads back from its RRGGBBAA spelling, with or without the '#'. */
  lemma Hex8RoundTrip(c: Color)
    ensures ParseColorNoHash(Hex8(c)) == Ok(c)
    ensures ParseColor("#" + Hex8(c)) == Ok(c)
  {
    var s := Hex8(c);
    PairOfHexByte(s, 0, c.r);
    PairOfHexByte(s, 2, c.g);
    PairOfHexByte(s, 4, c.b);
    PairOfHexByte(s, 6, c.a);
    EightDigitChannels(s);
    assert ("#" + s)[1..] == s;
  }

  /** An opaque colour reads back from its RRGGBB spelling. */
  lemma Hex6RoundTrip(c: Color)
    requires c.a == 255
    ensures ParseColorNoHash(Hex6(c)) == Ok(c)
    ensures ParseColor("#" + Hex6(c)) == Ok(c)
  {
    var s := Hex6(c);
    PairOfHexByte(s, 0, c.r);
    PairOfHexByte(s, 2, c.g);
    PairOfHexByte(s, 4, c.b);
    SixDigitChannels(s);
    assert ("#" + s)[1..] == s;
  }

  // ---------------------------------------------------------------------------
  // Named colours

  /** Both spellings of a row name the colour of its hex literal. */
  lemma NamedColorSpellings(i: nat)
    requires NamesDistinct()
    requires i < RowCount
    ensures ParseColorBuiltin(Row(i).camel) == ParseColorNoHash(Row(i).hex)
    ensures ParseColorBuiltin(Row(i).hyphen) == ParseColorNoHash(Row(i).hex)
  {
    SpellingsSelectTheirRow(i);
  }

  lemma AliceBlueHex()
    ensures ParseColorNoHash("F0F8FF") == Ok(Color(0xF0, 0xF8, 0xFF, 255))
  {
    var s := "F0F8FF";
    assert Pair(s, 0) == 0xF0 && Pair(s, 2) == 0xF8 && Pair(s, 4) == 0xFF;
    SixDigitChannels(s);
  }

  /** The first row, reached by either spelling without any distinctness assumption. */
  lemma AliceBlue()
    ensures ParseColor("AliceBlue") == Ok(Color(0xF0, 0xF8, 0xFF, 255))
    ensures ParseColor("alice-blue") == Ok(Color(0xF0, 0xF8, 0xFF, 255))
  {
    assert Row(0) == NamedColor("AliceBlue", "alice-blue", "F0F8FF");
    assert "AliceBlue"[..1] == "A" && "alice-blue"[..1] == "a";
    AliceBlueHex();
  }

  lemma OpaqueWhiteHex()
    ensures ParseColorNoHash("FFFFFFFF") == Ok(Color(255, 255, 255, 255))
  {
    var s := "FFFFFFFF";
    assert Pair(s, 0) == 0xFF && Pair(s, 2) == 0xFF && Pair(s, 4) == 0xFF && Pair(s, 6) == 0xFF;
    EightDigitChannels(s);
  }

  /** The last row: "transparent" is white with a full alpha, not a transparent colour. */
  lemma TransparentIsOpaqueWhite()
    requires NamesDistinct()
    ensures ParseColor("transparent") == Ok(Color(255, 255, 255, 255))
  {
    assert Row(148) == NamedColor("Transparent", "transparent", "FFFFFFFF");
    NamedColorSpellings(148);
    assert "transparent"[..1] == "t";
    OpaqueWhiteHex();
  }

  /** The source's example of a six-digit colour. */
  lemma SixDigitExample()
    ensures ParseColor("#F0F8FF") == Ok(Color(240, 248, 255, 255))
  {
    var s := "F0F8FF";
    assert "#F0F8FF"[1..] == s;
    assert Pair(s, 0) == 240 && Pair(s, 2) == 248 && Pair(s, 4) == 255;
    SixDigitChannels(s);
  }

  /** The source's example of an eight-digit colour, whose last pair is the alpha. */
  lemma EightDigitExample()
    ensures ParseColor("#F0F8FF00") == Ok(Color(240, 248, 255, 0))
  {
    var s := "F0F8FF00";
    assert "#F0F8FF00"[1..] == s;
    assert Pair(s, 0) == 240 && Pair(s, 2) == 248 && Pair(s, 4) == 255 && Pair(s, 6) == 0;
    EightDigitChannels(s);
  }

  /** The source's example of a three-digit colour. */
  lemma ShortFormExample()
    ensures ParseColor("#EEE") == Ok(Color(238, 238, 238, 255))
  {
    assert "#EEE"[1..] == "EEE";
    ShortFormChannels("EEE");
  }

  /** The grey of the source's box-shadow examples: 0x88 is 136 in each channel. */
  lemma GreyExample()
    ensures ParseColor("#888888") == Ok(Color(136, 136, 136, 255))
  {
    var s := "888888";
    assert "#888888"[1..] == s;
    assert Pair(s, 0) == 136 && Pair(s, 2) == 136 && Pair(s, 4) == 136;
    SixDigitChannels(s);
  }
}
