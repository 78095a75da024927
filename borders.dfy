/**
 * Borders: `parse_css_border_radius` (src/css_parser.rs:76-143), `parse_css_border` and
 * `parse_border_style` (src/css_parser.rs:425-495).
 */
module Borders {
  import opened Wrappers
  import opened Text
  import opened Numbers
  import opened Lengths
  import opened Colors

  /** webrender's `LayoutSize`. */
  datatype Size = Size(width: real, height: real)

  /** A corner rounded by the same radius in both directions. */
  function Square(radius: real): Size {
    Size(radius, radius)
  }

  /** webrender's `BorderRadius`. */
  datatype BorderRadius = BorderRadius(topLeft: Size, topRight: Size, bottomLeft: Size, bottomRight: Size)

  /** `BorderRadius::uniform`. */
  function Uniform(radius: real): BorderRadius {
    BorderRadius(Square(radius), Square(radius), Square(radius), Square(radius))
  }

  /** `BorderRadius::zero`. */
  const ZeroRadius: BorderRadius := Uniform(0.0)

  datatype Corner = TopLeft | TopRight | BottomRight | BottomLeft

  function CornerSize(radius: BorderRadius, c: Corner): Size {
    match c
    case TopLeft => radius.topLeft
    case TopRight => radius.topRight
    case BottomRight => radius.bottomRight
    case BottomLeft => radius.bottomLeft
  }

  /**
   * The CSS shorthand rule for one to four values: which value a corner takes. Values are
   * listed top-left, top-right, bottom-right, bottom-left; a missing bottom-left copies
   * top-right, and a missing top-right or bottom-right copies top-left.
   */
  function ShorthandIndex(n: nat, c: Corner): (k: nat)
    requires 1 <= n <= 4
    ensures k < n
    ensures n == 4 ==> k == match c case TopLeft => 0 case TopRight => 1 case BottomRight => 2 case BottomLeft => 3
  {
    match c
    case TopLeft => 0
    case TopRight => if n >= 2 then 1 else 0
    case BottomRight => if n >= 3 then 2 else 0
    case BottomLeft => if n == 4 then 3 else if n >= 2 then 1 else 0
  }

  /**
   * `parse_css_border_radius`: one to four whitespace-separated lengths, read left to right;
   * any other count is `TooManyValues` of the whole input. A failing length's error is
   * returned as it is.
   */
  function ParseBorderRadius(input: string): (r: Result<BorderRadius, LengthError>)
    ensures r == Err(TooManyValues(input)) <==> !(1 <= |Words(input)| <= 4)
  {
    RadiusOfWords(input, Words(input))
  }

  /** The radius for the words `ts` of `input`. */
  function RadiusOfWords(input: string, ts: seq<string>): (r: Result<BorderRadius, LengthError>)
    requires forall k :: 0 <= k < |ts| ==> ts[k] != []
    ensures r == Err(TooManyValues(input)) <==> !(1 <= |ts| <= 4)
  {
    if |ts| == 1 then
      PixelsNeverTooMany(ts[0]);
      var all :- Pixels(ts[0]);
      Ok(Uniform(all))
    else if |ts| == 2 then
      PixelsNeverTooMany(ts[0]);
      PixelsNeverTooMany(ts[1]);
      var topLeftBottomRight :- Pixels(ts[0]);
      var topRightBottomLeft :- Pixels(ts[1]);
      Ok(BorderRadius(Square(topLeftBottomRight), Square(topRightBottomLeft), Square(topRightBottomLeft), Square(topLeftBottomRight)))
    else if |ts| == 3 then
      PixelsNeverTooMany(ts[0]);
      PixelsNeverTooMany(ts[1]);
      PixelsNeverTooMany(ts[2]);
      var topLeft :- Pixels(ts[0]);
      var topRightBottomLeft :- Pixels(ts[1]);
      var bottomRight :- Pixels(ts[2]);
      Ok(BorderRadius(Square(topLeft), Square(topRightBottomLeft), Square(topRightBottomLeft), Square(bottomRight)))
    else if |ts| == 4 then
      PixelsNeverTooMany(ts[0]);
      PixelsNeverTooMany(ts[1]);
      PixelsNeverTooMany(ts[2]);
      PixelsNeverTooMany(ts[3]);
      var topLeft :- Pixels(ts[0]);
      var topRight :- Pixels(ts[1]);
      var bottomRight :- Pixels(ts[2]);
      var bottomLeft :- Pixels(ts[3]);
      Ok(BorderRadius(Square(topLeft), Square(topRight), Square(bottomLeft), Square(bottomRight)))
    else
      Err(TooManyValues(input))
  }

  /** When every length reads, each corner is the square of the value the shorthand rule gives it. */
  lemma RadiusFollowsShorthand(input: string, ts: seq<string>)
    requires forall k :: 0 <= k < |ts| ==> ts[k] != []
    requires 1 <= |ts| <= 4
    requires forall k :: 0 <= k < |ts| ==> Pixels(ts[k]).Ok?
    ensures RadiusOfWords(input, ts).Ok?
    ensures forall c: Corner :: CornerSize(RadiusOfWords(input, ts).value, c) == Square(Pixels(ts[ShorthandIndex(|ts|, c)]).value)
  {
    var px := seq(|ts|, k requires 0 <= k < |ts| => Pixels(ts[k]).value);
    assert forall k :: 0 <= k < |ts| ==> Pixels(ts[k]) == Ok(px[k]);
    var r := RadiusOfWords(input, ts);
    if |ts| == 1 {
      assert r == Ok(Uniform(px[0]));
    } else if |ts| == 2 {
      assert r == Ok(BorderRadius(Square(px[0]), Square(px[1]), Square(px[1]), Square(px[0])));
    } else if |ts| == 3 {
      assert r == Ok(BorderRadius(Square(px[0]), Square(px[1]), Square(px[1]), Square(px[2])));
    } else {
      assert r == Ok(BorderRadius(Square(px[0]), Square(px[1]), Square(px[3]), Square(px[2])));
    }
  }

  /** The lengths are read left to right: the first one that fails decides the error. */
  lemma RadiusFirstError(input: string, ts: seq<string>, j: nat)
    requires forall k :: 0 <= k < |ts| ==> ts[k] != []
    requires 1 <= |ts| <= 4 && j < |ts|
    requires forall k :: 0 <= k < j ==> Pixels(ts[k]).Ok?
    requires Pixels(ts[j]).Err?
    ensures RadiusOfWords(input, ts) == Err(Pixels(ts[j]).error)
  {
    var p0 := Pixels(ts[0]);
    var p1 := if |ts| > 1 then Pixels(ts[1]) else p0;
    var p2 := if |ts| > 2 then Pixels(ts[2]) else p0;
    var p3 := if |ts| > 3 then Pixels(ts[3]) else p0;
    if j == 0 {
      assert p0.Err?;
    } else if j == 1 {
      assert p0.Ok? && p1.Err?;
    } else if j == 2 {
      assert p0.Ok? && p1.Ok? && p2.Err?;
    } else {
      assert p0.Ok? && p1.Ok? && p2.Ok? && p3.Err?;
    }
  }

  /** The source's examples of one to four radius values. */
  lemma OneRadiusExample()
    ensures ParseBorderRadius("15px") == Ok(Uniform(15.0))
  {
    Fifteen();
    WordsOfUnwords(["15px"]);
    assert Unwords(["15px"]) == "15px";
    assert RadiusOfWords("15px", ["15px"]) == Ok(Uniform(15.0));
  }

  lemma TwoRadiiExample()
    ensures ParseBorderRadius("15px 50px") == Ok(BorderRadius(Square(15.0), Square(50.0), Square(50.0), Square(15.0)))
  {
    Fifteen();
    Fifty();
    ExampleWords();
    assert RadiusOfWords("15px 50px", ["15px", "50px"]) == Ok(BorderRadius(Square(15.0), Square(50.0), Square(50.0), Square(15.0)));
  }

  lemma ThreeRadiiExample()
    ensures ParseBorderRadius("15px 50px 30px") == Ok(BorderRadius(Square(15.0), Square(50.0), Square(50.0), Square(30.0)))
  {
    ExampleWords();
    Fifteen();
    Fifty();
    Thirty();
    assert RadiusOfWords("15px 50px 30px", ["15px", "50px", "30px"])
      == Ok(BorderRadius(Square(15.0), Square(50.0), Square(50.0), Square(30.0)));
  }

  lemma FourRadiiExample()
    ensures ParseBorderRadius("15px 50px 30px 5px") == Ok(BorderRadius(Square(15.0), Square(50.0), Square(5.0), Square(30.0)))
  {
    ExampleWords();
    FourRadii();
  }

  lemma FourRadii()
    ensures RadiusOfWords("15px 50px 30px 5px", ["15px", "50px", "30px", "5px"])
      == Ok(BorderRadius(Square(15.0), Square(50.0), Square(5.0), Square(30.0)))
  {
    Fifteen();
    Fifty();
    Thirty();
    Five();
  }

  lemma ExampleWords()
    ensures Words("15px 50px") == ["15px", "50px"]
    ensures Words("15px 50px 30px") == ["15px", "50px", "30px"]
    ensures Words("15px 50px 30px 5px") == ["15px", "50px", "30px", "5px"]
  {
    assert Unwords(["15px", "50px"]) == "15px 50px";
    WordsOfUnwords(["15px", "50px"]);
    assert Unwords(["15px", "50px", "30px"]) == "15px 50px 30px";
    WordsOfUnwords(["15px", "50px", "30px"]);
    assert Unwords(["15px", "50px", "30px", "5px"]) == "15px 50px 30px 5px";
    WordsOfUnwords(["15px", "50px", "30px", "5px"]);
  }

  // ---------------------------------------------------------------------------
  // Border styles

  /** webrender's `BorderStyle`. */
  datatype BorderStyle = StyleNone | Solid | Double | Dotted | Dashed | Hidden | Groove | Ridge | Inset | Outset

  datatype BorderError =
    | InvalidBorderStyle(style: string)
    | InvalidBorderDeclaration(declaration: string)
    | ThicknessParseError(length: LengthError)
    | BorderColorError(color: ColorError)

  /** The CSS keyword of a style. */
  function StyleKeyword(s: BorderStyle): string {
    match s
    case StyleNone => "none"
    case Solid => "solid"
    case Double => "double"
    case Dotted => "dotted"
    case Dashed => "dashed"
    case Hidden => "hidden"
    case Groove => "groove"
    case Ridge => "ridge"
    case Inset => "inset"
    case Outset => "outset"
  }

  /** `parse_border_style`: exactly the ten lower-case keywords. */
  function ParseBorderStyle(input: string): Result<BorderStyle, BorderError> {
    match input
    case "none" => Ok(StyleNone)
    case "solid" => Ok(Solid)
    case "double" => Ok(Double)
    case "dotted" => Ok(Dotted)
    case "dashed" => Ok(Dashed)
    case "hidden" => Ok(Hidden)
    case "groove" => Ok(Groove)
    case "ridge" => Ok(Ridge)
    case "inset" => Ok(Inset)
    case "outset" => Ok(Outset)
    case _ => Err(InvalidBorderStyle(input))
  }

  /** A word is a style exactly when it is that style's keyword; any other word is reported back. */
  lemma StyleKeywordRoundTrip(input: string, s: BorderStyle)
    ensures ParseBorderStyle(StyleKeyword(s)) == Ok(s)
    ensures ParseBorderStyle(input) == Ok(s) <==> input == StyleKeyword(s)
    ensures ParseBorderStyle(input).Err? ==> ParseBorderStyle(input) == Err(InvalidBorderStyle(input))
  {
  }

  // ---------------------------------------------------------------------------
  // Borders

  /** webrender's `BorderWidths`. */
  datatype BorderWidths = BorderWidths(top: real, left: real, right: real, bottom: real)

  /** webrender's `BorderSide`; the colour stays in 8-bit channels. */
  datatype BorderSide = BorderSide(color: Color, style: BorderStyle)

  /** webrender's `NormalBorder`, the only kind of `BorderDetails` built here. */
  datatype NormalBorder = NormalBorder(top: BorderSide, left: BorderSide, right: BorderSide, bottom: BorderSide, radius: BorderRadius)

  /** The same thickness and the same side all round, with square corners. */
  function SameAllRound(thickness: real, style: BorderStyle, color: Color): (BorderWidths, NormalBorder) {
    var side := BorderSide(color, style);
    (BorderWidths(thickness, thickness, thickness, thickness), NormalBorder(side, side, side, side, ZeroRadius))
  }

  /** A border with one thickness on all four edges, one side on all four, and no rounding. */
  predicate IsUniform(b: (BorderWidths, NormalBorder)) {
    var (w, d) := b;
    && w.left == w.top && w.right == w.top && w.bottom == w.top
    && d.left == d.top && d.right == d.top && d.bottom == d.top
    && d.radius == ZeroRadius
  }

  /**
   * `parse_css_border`: either a lone style (one pixel, black), or thickness, style and colour
   * in that order; any other number of words is an invalid declaration.
   */
  function ParseBorder(input: string): (r: Result<(BorderWidths, NormalBorder), BorderError>)
    ensures r.Ok? ==> IsUniform(r.value)
    ensures r == Err(InvalidBorderDeclaration(input)) <==> |Words(input)| !in {1, 3}
  {
    var ts := Words(input);
    if |ts| == 1 then
      var style :- ParseBorderStyle(ts[0]);
      Ok(SameAllRound(1.0, style, Black))
    else if |ts| == 3 then
      var thickness :- Pixels(ts[0]).MapError(e => ThicknessParseError(e));
      var style :- ParseBorderStyle(ts[1]);
      var color :- ParseColor(ts[2]).MapError(e => BorderColorError(e));
      Ok(SameAllRound(thickness, style, color))
    else
      Err(InvalidBorderDeclaration(input))
  }

  /** A lone word is a style: the border is one pixel wide and black, or the word is reported. */
  lemma LoneStyleBorder(input: string)
    requires |Words(input)| == 1
    ensures ParseBorder(input).Ok? <==> ParseBorderStyle(Words(input)[0]).Ok?
    ensures ParseBorder(input).Ok? ==>
      var (w, d) := ParseBorder(input).value;
      w.top == 1.0 && d.top == BorderSide(Black, ParseBorderStyle(Words(input)[0]).value)
    ensures ParseBorder(input).Err? ==> ParseBorder(input) == Err(InvalidBorderStyle(Words(input)[0]))
  {
  }

  /** Three words are thickness, style and colour, and the border is built from all three. */
  lemma ThreePartBorder(input: string)
    requires |Words(input)| == 3
    ensures ParseBorder(input).Ok? <==>
      var ts := Words(input);
      Pixels(ts[0]).Ok? && ParseBorderStyle(ts[1]).Ok? && ParseColor(ts[2]).Ok?
    ensures ParseBorder(input).Ok? ==>
      var ts := Words(input);
      var (w, d) := ParseBorder(input).value;
      w.top == Pixels(ts[0]).value && d.top == BorderSide(ParseColor(ts[2]).value, ParseBorderStyle(ts[1]).value)
  {
  }

  /** The three parts are read left to right, and each failure names the part that failed. */
  lemma ThicknessReadFirst(input: string)
    requires |Words(input)| == 3 && Pixels(Words(input)[0]).Err?
    ensures ParseBorder(input) == Err(ThicknessParseError(Pixels(Words(input)[0]).error))
  {
  }

  lemma StyleReadSecond(input: string)
    requires |Words(input)| == 3 && Pixels(Words(input)[0]).Ok?
    requires ParseBorderStyle(Words(input)[1]).Err?
    ensures ParseBorder(input) == Err(InvalidBorderStyle(Words(input)[1]))
  {
    StyleKeywordRoundTrip(Words(input)[1], Solid);
  }

  lemma ColorReadLast(input: string)
    requires |Words(input)| == 3 && Pixels(Words(input)[0]).Ok? && ParseBorderStyle(Words(input)[1]).Ok?
    requires ParseColor(Words(input)[2]).Err?
    ensures ParseBorder(input) == Err(BorderColorError(ParseColor(Words(input)[2]).error))
  {
  }

  lemma DoubleBorderExample()
    ensures ParseBorder("double") == Ok(SameAllRound(1.0, Double, Black))
  {
    WordsOfUnwords(["double"]);
    assert Unwords(["double"]) == "double";
  }
}
