/**
 * Gradient directions and shapes (src/css_parser.rs:698-733, 991-1083): the corner algebra
 * of `DirectionCorner`, `parse_direction`, `parse_direction_corner` and `parse_shape`.
 */
module Directions {
  import opened Wrappers
  import opened Text
  import opened Numbers

  /** The four edges and the four corners of a rectangle. */
  datatype DirectionCorner = Right | Left | Top | Bottom | TopRight | TopLeft | BottomRight | BottomLeft {
    predicate IsEdge() {
      this == Right || this == Left || this == Top || this == Bottom
    }

    /** Right and left. */
    predicate IsSide() {
      this == Right || this == Left
    }

    /** Top and bottom. */
    predicate IsEnd() {
      this == Top || this == Bottom
    }
  }

  /** `DirectionCorner::opposite`: the edge or corner across the rectangle. */
  function Opposite(c: DirectionCorner): (o: DirectionCorner)
    ensures o != c
    ensures o.IsSide() == c.IsSide() && o.IsEnd() == c.IsEnd() && o.IsEdge() == c.IsEdge()
  {
    match c
    case Right => Left
    case Left => Right
    case Top => Bottom
    case Bottom => Top
    case TopRight => BottomLeft
    case BottomLeft => TopRight
    case TopLeft => BottomRight
    case BottomRight => TopLeft
  }

  /** `DirectionCorner::combine`: a side and an end, in either order, meet at a corner. */
  function Combine(a: DirectionCorner, b: DirectionCorner): (r: Option<DirectionCorner>)
    ensures r.Some? ==> !r.value.IsEdge()
  {
    match (a, b)
    case (Right, Top) => Some(TopRight)
    case (Top, Right) => Some(TopRight)
    case (Left, Top) => Some(TopLeft)
    case (Top, Left) => Some(TopLeft)
    case (Right, Bottom) => Some(BottomRight)
    case (Bottom, Right) => Some(BottomRight)
    case (Left, Bottom) => Some(BottomLeft)
    case (Bottom, Left) => Some(BottomLeft)
    case _ => None
  }

  lemma OppositeInvolution(c: DirectionCorner)
    ensures Opposite(Opposite(c)) == c
  {
  }

  /** Two directions combine exactly when one is a side and the other an end. */
  lemma CombineIff(a: DirectionCorner, b: DirectionCorner)
    ensures Combine(a, b).Some? <==> (a.IsSide() && b.IsEnd()) || (a.IsEnd() && b.IsSide())
  {
  }

  lemma CombineCommutes(a: DirectionCorner, b: DirectionCorner)
    ensures Combine(a, b) == Combine(b, a)
  {
  }

  /** The corner across from a meeting point is where the two opposite edges meet. */
  lemma OppositeOfCombine(a: DirectionCorner, b: DirectionCorner)
    requires Combine(a, b).Some?
    ensures Combine(Opposite(a), Opposite(b)) == Some(Opposite(Combine(a, b).value))
  {
  }

  // ---------------------------------------------------------------------------
  // Keywords

  datatype DirectionCornerError = InvalidDirection(word: string)

  /** `parse_direction_corner`: only the four edges have keywords. */
  function ParseDirectionCorner(input: string): (r: Result<DirectionCorner, DirectionCornerError>) {
    match input
    case "right" => Ok(Right)
    case "left" => Ok(Left)
    case "top" => Ok(Top)
    case "bottom" => Ok(Bottom)
    case _ => Err(InvalidDirection(input))
  }

  /** The keyword of an edge. */
  function EdgeKeyword(c: DirectionCorner): string
    requires c.IsEdge()
  {
    match c
    case Right => "right"
    case Left => "left"
    case Top => "top"
    case Bottom => "bottom"
  }

  /** Every edge is read back from its keyword, every other word is refused, and no corner is ever read. */
  lemma DirectionCornerKeywords(input: string, c: DirectionCorner)
    ensures c.IsEdge() ==> ParseDirectionCorner(EdgeKeyword(c)) == Ok(c)
    ensures ParseDirectionCorner(input).Ok? ==> ParseDirectionCorner(input).value.IsEdge()
    ensures ParseDirectionCorner(input).Ok? ==> EdgeKeyword(ParseDirectionCorner(input).value) == input
    ensures ParseDirectionCorner(input).Err? ==> ParseDirectionCorner(input) == Err(InvalidDirection(input))
  {
  }

  datatype Shape = Ellipse | Circle

  datatype ShapeError = InvalidShape(word: string)

  /** `parse_shape`. */
  function ParseShape(input: string): (r: Result<Shape, ShapeError>)
    ensures r.Ok? <==> input == "circle" || input == "ellipse"
    ensures r.Err? ==> r == Err(InvalidShape(input))
  {
    match input
    case "circle" => Ok(Circle)
    case "ellipse" => Ok(Ellipse)
    case _ => Err(InvalidShape(input))
  }

  // ---------------------------------------------------------------------------
  // Directions

  /** `Direction`: an angle in degrees, or a line from one edge or corner to another. */
  datatype Direction = Angle(degrees: real) | FromTo(from: DirectionCorner, to: DirectionCorner)

  datatype DirectionError =
    | DirectionTextError(text: string)
    | InvalidArguments(text: string)
    | ParseFloatError
    | CornerError(corner: DirectionCornerError)

  /** `std::f32::consts::PI`, the single-precision value nearest to pi, written out exactly. */
  const F32Pi: real := 3.1415927410125732421875

  /** A number, with a failure reported as `DirectionError::ParseFloat`. */
  function Number(t: string): Result<real, DirectionError> {
    match ParseFloat(t)
    case None => Err(ParseFloatError)
    case Some(x) => Ok(x)
  }

  function Corner(t: string): Result<DirectionCorner, DirectionError> {
    ParseDirectionCorner(t).MapError(e => CornerError(e))
  }

  /**
   * `parse_direction`: the first word ending in "deg" is that many degrees and one ending in
   * "rad" is the number times 180 times pi, as the source computes it; otherwise the first
   * word must be "to", followed by one edge, or by two that meet at a corner. The line runs
   * from the opposite edge or corner to the one named. The source's branch for "grad" is
   * never taken, as every word ending in "grad" ends in "rad".
   */
  function ParseDirection(input: string): (r: Result<Direction, DirectionError>) {
    var ts := Words(input);
    if ts == [] then Err(DirectionTextError(input))
    else if EndsWith(ts[0], "deg") then
      var x :- Number(TextBefore(ts[0], "deg"));
      Ok(Angle(x))
    else if EndsWith(ts[0], "rad") then
      var x :- Number(TextBefore(ts[0], "rad"));
      Ok(Angle(x * 180.0 * F32Pi))
    else if ts[0] != "to" then Err(InvalidArguments(input))
    else if |ts| == 1 then Err(DirectionTextError(input))
    else
      var end :- Corner(ts[1]);
      if |ts| == 2 then Ok(FromTo(Opposite(end), end))
      else if |ts| == 3 then
        var other :- Corner(ts[2]);
        match Combine(end, other)
        case None => Err(DirectionTextError(input))
        case Some(corner) => Ok(FromTo(Opposite(corner), corner))
      else Err(InvalidArguments(input))
  }

  /** A first word that is neither an angle nor "to" makes the arguments invalid. */
  lemma NeitherAngleNorTo(input: string)
    requires Words(input) != [] && Words(input)[0] != "to"
    requires !EndsWith(Words(input)[0], "deg") && !EndsWith(Words(input)[0], "rad")
    ensures ParseDirection(input) == Err(InvalidArguments(input))
  {
  }

  /** "to" and one edge: from the opposite edge to that one. */
  lemma ToEdge(input: string, c: DirectionCorner)
    requires c.IsEdge() && Words(input) == ["to", EdgeKeyword(c)]
    ensures ParseDirection(input) == Ok(FromTo(Opposite(c), c))
  {
    DirectionCornerKeywords(EdgeKeyword(c), c);
    assert !EndsWith("to", "deg") && !EndsWith("to", "rad");
  }

  /** "to" and two edges: to the corner where they meet, or an error when they do not meet. */
  lemma ToCorner(input: string, a: DirectionCorner, b: DirectionCorner)
    requires a.IsEdge() && b.IsEdge() && Words(input) == ["to", EdgeKeyword(a), EdgeKeyword(b)]
    ensures Combine(a, b).Some? ==> ParseDirection(input) == Ok(FromTo(Opposite(Combine(a, b).value), Combine(a, b).value))
    ensures Combine(a, b).None? ==> ParseDirection(input) == Err(DirectionTextError(input))
  {
    DirectionCornerKeywords(EdgeKeyword(a), a);
    DirectionCornerKeywords(EdgeKeyword(b), b);
    assert !EndsWith("to", "deg") && !EndsWith("to", "rad");
  }

  /** "to" followed by more than two words is invalid once the first of them is an edge. */
  lemma ToTooMany(input: string)
    requires |Words(input)| > 3 && Words(input)[0] == "to" && Corner(Words(input)[1]).Ok?
    ensures ParseDirection(input) == Err(InvalidArguments(input))
  {
    assert !EndsWith("to", "deg") && !EndsWith("to", "rad");
  }

  /** No words at all, or "to" with nothing after it, is the plain error carrying the input. */
  lemma MissingWords(input: string)
    requires Words(input) == [] || Words(input) == ["to"]
    ensures ParseDirection(input) == Err(DirectionTextError(input))
  {
    assert !EndsWith("to", "deg") && !EndsWith("to", "rad");
  }

  /** "to" followed by a word that names no edge fails with that word, whatever follows it. */
  lemma ToUnknownEdge(input: string)
    requires |Words(input)| >= 2 && Words(input)[0] == "to"
    requires ParseDirectionCorner(Words(input)[1]).Err?
    ensures ParseDirection(input) == Err(CornerError(InvalidDirection(Words(input)[1])))
  {
    assert !EndsWith("to", "deg") && !EndsWith("to", "rad");
    DirectionCornerKeywords(Words(input)[1], Top);
  }

  /** A whole number of degrees is that angle. */
  lemma DegreesAngle(n: nat, input: string)
    requires Words(input) != [] && Words(input)[0] == NatText(n) + "deg"
    ensures ParseDirection(input) == Ok(Angle(n as real))
  {
    var w := NatText(n) + "deg";
    NatTextValue(n);
    assert w[|w| - 3..] == "deg";
    assert TextBefore(w, "deg") == NatText(n) by {
      TextBeforeDigits(NatText(n), "deg");
    }
    NatTextParses(n);
  }

  /** The text before a pattern that starts with a letter, after digits only, is those digits. */
  lemma {:induction false} TextBeforeDigits(digits: string, pattern: string)
    requires AllDigits(digits) && pattern != [] && !IsDigit(pattern[0])
    ensures TextBefore(digits + pattern, pattern) == digits
  {
    var s := digits + pattern;
    if digits == [] {
      assert s[..|pattern|] == pattern;
    } else {
      assert s[..|pattern|] != pattern by {
        assert s[0] == digits[0];
      }
      assert s[1..] == digits[1..] + pattern;
      TextBeforeDigits(digits[1..], pattern);
    }
  }

  /** A whole number of radians is multiplied by 180 and by pi, as the source does. */
  lemma RadiansAngle(n: nat, input: string)
    requires Words(input) != [] && Words(input)[0] == NatText(n) + "rad"
    ensures ParseDirection(input) == Ok(Angle(n as real * 180.0 * F32Pi))
  {
    var w := NatText(n) + "rad";
    NatTextValue(n);
    assert w[|w| - 3..] == "rad";
    assert w[|w| - 3..] != "deg";
    assert TextBefore(w, "rad") == NatText(n) by {
      TextBeforeDigits(NatText(n), "rad");
    }
    NatTextParses(n);
  }

  /** In a numeral followed by "grad", the text before "rad" is the numeral and the "g". */
  lemma GradBeforeRad(d: string)
    requires AllDigits(d)
    ensures TextBefore(d + "grad", "rad") == d + "g"
  {
    var w := d + "grad";
    forall i | 0 <= i < |d| + 1
      ensures !StartsWith(w[i..], "rad")
    {
      assert w[i..][0] == w[i];
    }
    assert w[|d| + 1..] == "rad";
    TextBeforeAt(w, "rad", |d| + 1);
    assert w[..|d| + 1] == d + "g";
  }

  /** Gradians never parse: "Ngrad" ends with "rad", so it is read as radians, and "Ng" is no number. */
  lemma GradiansNeverParse(n: nat, input: string)
    requires Words(input) != [] && Words(input)[0] == NatText(n) + "grad"
    ensures ParseDirection(input) == Err(ParseFloatError)
  {
    var d := NatText(n);
    var w := d + "grad";
    assert w[|w| - 3..] == "rad" && w[|w| - 3..] != "deg";
    GradBeforeRad(d);
    DigitsThenLetter(d, 'g');
  }

  /** The source's example "to bottom right": from the top left corner to the bottom right one. */
  lemma ToBottomRightExample()
    ensures ParseDirection("to bottom right") == Ok(FromTo(TopLeft, BottomRight))
  {
    ToBottomRightWords();
    ToBottomRightRead("to bottom right");
  }

  lemma ToBottomRightRead(input: string)
    requires Words(input) == ["to", "bottom", "right"]
    ensures ParseDirection(input) == Ok(FromTo(TopLeft, BottomRight))
  {
    assert EdgeKeyword(Bottom) == "bottom" && EdgeKeyword(Right) == "right";
    ToCorner(input, Bottom, Right);
  }

  lemma ToBottomRightWords()
    ensures Words("to bottom right") == ["to", "bottom", "right"]
  {
    ToBottomRightText();
    WordsOfUnwords(["to", "bottom", "right"]);
  }

  lemma ToBottomRightText()
    ensures Unwords(["to", "bottom", "right"]) == "to bottom right"
  {
    assert "to bottom right" == "to" + " " + ("bottom" + " " + "right");
  }

  lemma FiftyDegreesExample()
    ensures ParseDirection("50deg") == Ok(Angle(50.0))
  {
    FiftyDegreesWords();
    FiftyDegreesRead("50deg");
  }

  lemma FiftyDegreesRead(input: string)
    requires Words(input) == ["50deg"]
    ensures ParseDirection(input) == Ok(Angle(50.0))
  {
    assert NatText(50) + "deg" == "50deg" by {
      assert NatText(50) == "50";
    }
    DegreesAngle(50, input);
  }

  lemma FiftyDegreesWords()
    ensures Words("50deg") == ["50deg"]
  {
    assert Unwords(["50deg"]) == "50deg";
    WordsOfUnwords(["50deg"]);
  }
}
