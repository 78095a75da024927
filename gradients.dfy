/**
 * CSS gradients (src/css_parser.rs:751-968): `linear-gradient(...)`, `radial-gradient(...)` and
 * their repeating forms. The text between the brackets is a comma-separated list: an optional
 * direction (linear) or shape (radial), then the colour stops. Stops that name no offset get one
 * from a pass over the stop array that spreads them between the offsets around them.
 */
module Gradients {
  import opened Wrappers
  import opened Text
  import opened Numbers
  import opened Colors
  import opened Directions

  // ---------------------------------------------------------------------------
  // Colour stops

  /** `GradientStopPre`: a colour and, when the stop names one, its offset. */
  datatype GradientStop = GradientStop(offset: Option<real>, color: Color)

  /** `CssGradientStopParseError`. */
  datatype StopError =
    | StopTextError(text: string)
    | StopColorError(error: ColorError)

  /**
   * `parse_percentage`: the number written before the last '%'. The number is not divided by
   * 100, and whatever follows the last '%' is dropped.
   */
  function ParsePercentage(input: string): (r: Option<real>)
    ensures r.Some? ==> '%' in input
  {
    match SplitLast(input, '%').1
    case None => None
    case Some(before) => ParseFloat(before)
  }

  /** The text before the last '%' is what is read as the number. */
  lemma PercentageBeforeLastSign(before: string, after: string)
    requires '%' !in after
    ensures ParsePercentage(before + "%" + after) == ParseFloat(before)
  {
    SplitLastAtLast(before, '%', after);
  }

  /** "10%" is read as 10, not 0.1. */
  lemma PercentageOfNat(n: nat, after: string)
    requires '%' !in after
    ensures ParsePercentage(NatText(n) + "%" + after) == Some(n as real)
  {
    PercentageBeforeLastSign(NatText(n), after);
    NatTextParses(n);
  }

  /**
   * `parse_gradient_stop`: the first word is the colour, the second (when there is one) the
   * offset; an offset that does not read as a percentage is simply absent. Later words are
   * ignored.
   */
  function ParseGradientStop(paint: ColorReader, input: string): (r: Result<GradientStop, StopError>)
    ensures r.Ok? <==> Words(input) != [] && paint(Words(input)[0]).Ok?
    ensures Words(input) == [] ==> r == Err(StopTextError(input))
    ensures r.Err? && Words(input) != [] ==> r.error.StopColorError? && paint(Words(input)[0]) == Err(r.error.error)
    ensures r.Ok? ==> paint(Words(input)[0]) == Ok(r.value.color)
    ensures r.Ok? && |Words(input)| == 1 ==> r.value.offset.None?
  {
    var ts := Words(input);
    if ts == [] then Err(StopTextError(input))
    else
      match paint(ts[0])
      case Err(e) => Err(StopColorError(e))
      case Ok(c) => Ok(GradientStop(if |ts| == 1 then None else ParsePercentage(ts[1]), c))
  }

  /** A stop whose second word is a percentage has that number as its offset. */
  lemma StopWithPercentage(paint: ColorReader, input: string, n: nat, c: Color)
    requires |Words(input)| >= 2 && Words(input)[1] == NatText(n) + "%"
    requires paint(Words(input)[0]) == Ok(c)
    ensures ParseGradientStop(paint, input) == Ok(GradientStop(Some(n as real), c))
  {
    assert NatText(n) + "%" == NatText(n) + "%" + "";
    PercentageOfNat(n, "");
  }

  /** The stops in item order; the first stop that fails to parse decides the error. */
  function ParseStops(paint: ColorReader, items: seq<string>): (r: Result<seq<GradientStop>, StopError>)
    ensures r.Ok? <==> forall i :: 0 <= i < |items| ==> ParseGradientStop(paint, items[i]).Ok?
    ensures r.Ok? ==> |r.value| == |items|
    ensures r.Ok? ==> forall i :: 0 <= i < |items| ==> ParseGradientStop(paint, items[i]) == Ok(r.value[i])
    decreases |items|
  {
    if items == [] then Ok([])
    else
      match ParseGradientStop(paint, items[0])
      case Err(e) => Err(e)
      case Ok(first) =>
        match ParseStops(paint, items[1..])
        case Err(e) => Err(e)
        case Ok(rest) =>
          assert forall i :: 1 <= i < |items| ==> items[i] == items[1..][i - 1];
          Ok([first] + rest)
  }

  lemma {:induction false} ParseStopsFirstError(paint: ColorReader, items: seq<string>, j: nat)
    requires j < |items|
    requires forall i :: 0 <= i < j ==> ParseGradientStop(paint, items[i]).Ok?
    requires ParseGradientStop(paint, items[j]).Err?
    ensures ParseStops(paint, items) == Err(ParseGradientStop(paint, items[j]).error)
    decreases j
  {
    if j > 0 {
      assert forall i :: 0 <= i < j - 1 ==> items[1..][i] == items[i + 1];
      ParseStopsFirstError(paint, items[1..], j - 1);
    }
  }

  /** When every item parses, the stops are exactly their parses, in order. */
  lemma {:induction false} ParseStopsAllParse(paint: ColorReader, items: seq<string>, stops: seq<GradientStop>)
    requires |stops| == |items|
    requires forall i :: 0 <= i < |items| ==> ParseGradientStop(paint, items[i]) == Ok(stops[i])
    ensures ParseStops(paint, items) == Ok(stops)
    decreases |items|
  {
    if items != [] {
      assert forall i :: 0 <= i < |items| - 1 ==> items[1..][i] == items[i + 1] && stops[1..][i] == stops[i + 1];
      ParseStopsAllParse(paint, items[1..], stops[1..]);
      assert ParseGradientStop(paint, items[0]) == Ok(stops[0]);
      assert [stops[0]] + stops[1..] == stops;
    }
  }

  // ---------------------------------------------------------------------------
  // Filling in the missing offsets: the specification

  /** The index of the last stop before `i` that has an offset, or -1 when there is none. */
  function PrevAnchor(s: seq<GradientStop>, i: nat): (p: int)
    requires i <= |s|
    ensures -1 <= p < i
    ensures p >= 0 ==> s[p].offset.Some?
    ensures forall k :: p < k < i ==> s[k].offset.None?
  {
    if i == 0 then -1 else if s[i - 1].offset.Some? then i - 1 else PrevAnchor(s, i - 1)
  }

  /** The index of the first stop at or after `i` that has an offset, or |s| when there is none. */
  function NextAnchor(s: seq<GradientStop>, i: nat): (q: nat)
    requires i <= |s|
    ensures i <= q <= |s|
    ensures q < |s| ==> s[q].offset.Some?
    ensures forall k :: i <= k < q ==> s[k].offset.None?
    decreases |s| - i
  {
    if i == |s| then |s| else if s[i].offset.Some? then i else NextAnchor(s, i + 1)
  }

  /** The offset a run of unset stops starts from: the anchor before it, or 0 at the start of the list. */
  function StartValue(s: seq<GradientStop>, p: int): real
    requires -1 <= p < |s| && (p >= 0 ==> s[p].offset.Some?)
  {
    if p < 0 then 0.0 else s[p].offset.value
  }

  /** The offset a run of unset stops ends at: the anchor after it, or 1 at the end of the list. */
  function EndValue(s: seq<GradientStop>, q: nat): real
    requires q <= |s| && (q < |s| ==> s[q].offset.Some?)
  {
    if q == |s| then 1.0 else s[q].offset.value
  }

  /** The distance between neighbours in a run of `m` unset stops that goes from `a` to `b`. */
  function RunStep(a: real, b: real, m: nat): real
    requires m >= 2
  {
    (b - a) / (m - 1) as real
  }

  /**
   * The offset of the k-th (from 0) of m unset stops going from `a` to `b`: the first gets `a`,
   * each later one a step more than the one before.
   */
  function RunValue(a: real, b: real, m: nat, k: nat): real
    requires 1 <= m && k < m
  {
    if k == 0 then a else RunValue(a, b, m, k - 1) + RunStep(a, b, m)
  }

  /** The k-th stop of a run sits k steps from its start. */
  lemma {:induction false} RunValueClosed(a: real, b: real, m: nat, k: nat)
    requires 2 <= m && k < m
    ensures RunValue(a, b, m, k) == a + k as real * RunStep(a, b, m)
  {
    if k > 0 {
      RunValueClosed(a, b, m, k - 1);
      var d := RunStep(a, b, m);
      assert (k - 1) as real * d + d == k as real * d;
    }
  }

  /** The last stop of a run of two or more lands on `b`. */
  lemma RunValueLast(a: real, b: real, m: nat)
    requires 2 <= m
    ensures RunValue(a, b, m, m - 1) == b
  {
    RunValueClosed(a, b, m, m - 1);
    StepsSpanRun(a, b, (m - 1) as real);
  }

  lemma StepsSpanRun(a: real, b: real, n: real)
    requires n > 0.0
    ensures n * ((b - a) / n) == b - a
  {
  }

  /** A rising run stays between its two ends. */
  lemma RunValueBetween(a: real, b: real, m: nat, k: nat)
    requires 1 <= m && k < m && a <= b
    ensures a <= RunValue(a, b, m, k) <= b
  {
    if m >= 2 {
      RunValueClosed(a, b, m, k);
      var d := RunStep(a, b, m);
      StepsSpanRun(a, b, (m - 1) as real);
      assert 0.0 <= d;
      assert k as real * d <= (m - 1) as real * d;
    }
  }

  /** The offset stop `i` ends up with: its own, or the value of its place in its run. */
  function FilledOffset(s: seq<GradientStop>, i: nat): real
    requires i < |s|
  {
    match s[i].offset
    case Some(x) => x
    case None =>
      var p := PrevAnchor(s, i);
      var q := NextAnchor(s, i);
      RunValue(StartValue(s, p), EndValue(s, q), q - p - 1, i - p - 1)
  }

  /** The stops after the pass. */
  function Normalized(s: seq<GradientStop>): (r: seq<GradientStop>)
    ensures |r| == |s|
  {
    seq(|s|, i requires 0 <= i < |s| => GradientStop(Some(FilledOffset(s, i)), s[i].color))
  }

  /** After the pass every stop has an offset; colours, order and given offsets are kept. */
  lemma NormalizedKeepsStops(s: seq<GradientStop>)
    ensures forall i :: 0 <= i < |s| ==> Normalized(s)[i].offset.Some? && Normalized(s)[i].color == s[i].color
    ensures forall i :: 0 <= i < |s| && s[i].offset.Some? ==> Normalized(s)[i] == s[i]
  {
  }

  /** Stops p+1 .. q-1 have no offset; p is an anchor or -1, q an anchor or |s|. */
  predicate IsRun(s: seq<GradientStop>, p: int, q: nat) {
    -1 <= p < q <= |s| && (p >= 0 ==> s[p].offset.Some?) && (q < |s| ==> s[q].offset.Some?) &&
    forall k :: p < k < q ==> s[k].offset.None?
  }

  /** Every unset stop of a run looks back to the run's start and ahead to its end. */
  lemma {:induction false} RunAnchors(s: seq<GradientStop>, p: int, q: nat, i: nat)
    requires IsRun(s, p, q) && p < i < q
    ensures PrevAnchor(s, i) == p && NextAnchor(s, i) == q
  {
    var p' := PrevAnchor(s, i);
    var q' := NextAnchor(s, i);
    assert p >= 0 ==> s[p].offset.Some?;
    assert p' >= 0 ==> s[p'].offset.Some?;
    assert q < |s| ==> s[q].offset.Some?;
    assert q' < |s| ==> s[q'].offset.Some?;
  }

  /** The k-th unset stop of a run gets the k-th value of the run. */
  lemma {:induction false} FilledInRun(s: seq<GradientStop>, p: int, q: nat, i: nat)
    requires IsRun(s, p, q) && p < i < q
    ensures FilledOffset(s, i) == RunValue(StartValue(s, p), EndValue(s, q), q - p - 1, i - p - 1)
  {
    RunAnchors(s, p, q, i);
    assert s[i].offset.None?;
  }

  lemma {:induction false} NormalizedAt(s: seq<GradientStop>, i: nat)
    requires i < |s|
    ensures Normalized(s)[i] == GradientStop(Some(FilledOffset(s, i)), s[i].color)
  {
  }

  /** The first unset stop of a run takes the offset before it (0 at the start of the list). */
  lemma {:induction false} RunStartsAtAnchor(s: seq<GradientStop>, p: int, q: nat)
    requires IsRun(s, p, q) && p + 1 < q
    ensures Normalized(s)[p + 1].offset == Some(StartValue(s, p))
  {
    FilledInRun(s, p, q, p + 1);
    NormalizedAt(s, p + 1);
  }

  /** The last unset stop of a run of two or more takes the offset after it (1 at the end of the list). */
  lemma {:induction false} RunEndsAtAnchor(s: seq<GradientStop>, p: int, q: nat)
    requires IsRun(s, p, q) && q - p - 1 >= 2
    ensures Normalized(s)[q - 1].offset == Some(EndValue(s, q))
  {
    FilledInRun(s, p, q, q - 1);
    NormalizedAt(s, q - 1);
    RunValueLast(StartValue(s, p), EndValue(s, q), q - p - 1);
  }

  /** Neighbours in a run of two or more are (b − a)/(m − 1) apart. */
  lemma {:induction false} RunEvenlySpaced(s: seq<GradientStop>, p: int, q: nat, i: nat)
    requires IsRun(s, p, q) && q - p - 1 >= 2 && p < i && i + 1 < q
    ensures Normalized(s)[i + 1].offset.value - Normalized(s)[i].offset.value
         == RunStep(StartValue(s, p), EndValue(s, q), q - p - 1)
  {
    FilledInRun(s, p, q, i);
    FilledInRun(s, p, q, i + 1);
    NormalizedAt(s, i);
    NormalizedAt(s, i + 1);
  }

  /** When a run rises (a ≤ b), its stops stay between its two ends. */
  lemma {:induction false} RunBetweenAnchors(s: seq<GradientStop>, p: int, q: nat, i: nat)
    requires IsRun(s, p, q) && p < i < q
    requires StartValue(s, p) <= EndValue(s, q)
    ensures StartValue(s, p) <= Normalized(s)[i].offset.value <= EndValue(s, q)
  {
    FilledInRun(s, p, q, i);
    NormalizedAt(s, i);
    RunValueBetween(StartValue(s, p), EndValue(s, q), q - p - 1, i - p - 1);
  }

  /** A second pass changes nothing. */
  lemma {:induction false} NormalizedIdempotent(s: seq<GradientStop>)
    ensures Normalized(Normalized(s)) == Normalized(s)
  {
    var r := Normalized(s);
    assert forall i :: 0 <= i < |r| ==> Normalized(r)[i] == r[i];
  }

  // ---------------------------------------------------------------------------
  // Filling in the missing offsets: the pass over the stop array

  /**
   * What the pass carries into stop `i` as `increase_stop_cnt`: the step of the previous stop's
   * run, when that stop had no offset and its run has two or more stops.
   */
  function StepAfter(s: seq<GradientStop>, i: nat): Option<real>
    requires i <= |s|
  {
    if i == 0 || s[i - 1].offset.Some? then None
    else
      var p := PrevAnchor(s, i - 1);
      var q := NextAnchor(s, i - 1);
      if q - p - 1 < 2 then None else Some(RunStep(StartValue(s, p), EndValue(s, q), q - p - 1))
  }

  /**
   * The offset-normalisation loop of `parse_css_background`: one pass over the stops that
   * carries the last offset written and the step of the current run.
   */
  method NormalizeOffsets(stops: array<GradientStop>)
    modifies stops
    ensures stops[..] == Normalized(old(stops[..]))
  {
    ghost var s := stops[..];
    ghost var target := Normalized(s);
    var lastStop := 0.0;
    var increase: Option<real> := None;
    for i := 0 to stops.Length
      invariant forall k :: 0 <= k < i ==> stops[k] == target[k]
      invariant forall k :: i <= k < stops.Length ==> stops[k] == s[k]
      invariant lastStop == if i == 0 then 0.0 else FilledOffset(s, i - 1)
      invariant increase == StepAfter(s, i)
    {
      NormalizedAt(s, i);
      lastStop, increase := NormalizeStop(stops, i, lastStop, increase, s);
    }
  }

  /**
   * One turn of the pass: gives stop `i` its offset and returns the new `last_stop` and
   * `increase_stop_cnt`. The look-ahead count excludes stop `i`; the step it divides by that
   * count is kept only when the count is positive.
   */
  method NormalizeStop(stops: array<GradientStop>, i: nat, lastStop: real, increase: Option<real>, ghost s: seq<GradientStop>)
    returns (lastStop': real, increase': Option<real>)
    requires |s| == stops.Length && i < stops.Length
    requires forall k :: i <= k < stops.Length ==> stops[k] == s[k]
    requires lastStop == if i == 0 then 0.0 else FilledOffset(s, i - 1)
    requires increase == StepAfter(s, i)
    modifies stops
    ensures stops[i] == GradientStop(Some(FilledOffset(s, i)), s[i].color)
    ensures forall k :: 0 <= k < stops.Length && k != i ==> stops[k] == old(stops[k])
    ensures lastStop' == FilledOffset(s, i)
    ensures increase' == StepAfter(s, i + 1)
  {
    match stops[i].offset {
      case Some(x) =>
        lastStop', increase' := x, None;
      case None =>
        if increase.Some? {
          ContinueRun(s, i);
          lastStop', increase' := lastStop + increase.value, increase;
          stops[i] := stops[i].(offset := Some(lastStop'));
        } else {
          StartRun(s, i);
          var nextCount, nextValue := LookAheadCount(stops, i);
          LookAhead(s, i, i + 1 + nextCount);
          var b := if nextValue.Some? then nextValue.value else 1.0;
          RunStartStep(s, i, nextCount);
          assert b == EndValue(s, i + 1 + nextCount);
          lastStop' := lastStop;
          increase' := if nextCount == 0 then None else Some((b - lastStop) / nextCount as real);
          // The source's `next_count == 1 && len - i == 1` case cannot arise.
          assert !(nextCount == 1 && stops.Length - i == 1);
          stops[i] := stops[i].(offset := Some(if i == 0 then 0.0 else lastStop));
        }
    }
  }

  /** A stop that carries a step on from its unset predecessor continues that run. */
  lemma {:induction false} ContinueRun(s: seq<GradientStop>, i: nat)
    requires i < |s| && s[i].offset.None? && StepAfter(s, i).Some?
    ensures StepAfter(s, i + 1) == StepAfter(s, i)
    ensures FilledOffset(s, i) == FilledOffset(s, i - 1) + StepAfter(s, i).value
  {
    var p := PrevAnchor(s, i - 1);
    var q := NextAnchor(s, i - 1);
    assert IsRun(s, p, q);
    RunAnchors(s, p, q, i);
    assert FilledOffset(s, i) == RunValue(StartValue(s, p), EndValue(s, q), q - p - 1, i - p - 1);
  }

  /** Two unset neighbours are in one run of two or more, so a step is carried from the first to the second. */
  lemma {:induction false} UnsetPairCarriesStep(s: seq<GradientStop>, i: nat)
    requires 0 < i < |s|
    ensures s[i - 1].offset.None? && s[i].offset.None? ==> StepAfter(s, i).Some?
  {
    var p := PrevAnchor(s, i - 1);
    var q := NextAnchor(s, i - 1);
    assert q < |s| ==> s[q].offset.Some?;
  }

  /** An unset stop that carries no step starts its run, whose start value the pass holds. */
  lemma {:induction false} StartRun(s: seq<GradientStop>, i: nat)
    requires i < |s| && s[i].offset.None? && StepAfter(s, i).None?
    ensures PrevAnchor(s, i) == i - 1
    ensures StartValue(s, i - 1) == if i == 0 then 0.0 else FilledOffset(s, i - 1)
    ensures FilledOffset(s, i) == StartValue(s, i - 1)
  {
    if i > 0 {
      UnsetPairCarriesStep(s, i);
    }
  }

  /** The step a run's first stop hands on: the distance to the run's end over the number of stops left. */
  lemma {:induction false} RunStartStep(s: seq<GradientStop>, i: nat, n: nat)
    requires i < |s| && s[i].offset.None?
    requires PrevAnchor(s, i) == i - 1 && NextAnchor(s, i) == i + 1 + n
    ensures StepAfter(s, i + 1) == if n == 0 then None else Some((EndValue(s, i + 1 + n) - StartValue(s, i - 1)) / n as real)
  {
    assert (i + 1 + n) - (i - 1) - 1 - 1 == n;
  }

  /**
   * The look-ahead of the pass: how many stops after stop `i` have no offset before the next
   * one that has, and that one's offset (none when the list ends first).
   */
  method LookAheadCount(stops: array<GradientStop>, i: nat) returns (nextCount: nat, nextValue: Option<real>)
    requires i < stops.Length
    ensures i + 1 + nextCount <= stops.Length
    ensures forall k :: i < k < i + 1 + nextCount ==> stops[k].offset.None?
    ensures nextValue.Some? <==> i + 1 + nextCount < stops.Length
    ensures nextValue.Some? ==> stops[i + 1 + nextCount].offset == nextValue
  {
    nextCount := 0;
    nextValue := None;
    var j := i + 1;
    while j < stops.Length
      invariant i + 1 <= j <= stops.Length
      invariant nextCount == j - i - 1 && nextValue.None?
      invariant forall k :: i < k < j ==> stops[k].offset.None?
    {
      if stops[j].offset.Some? {
        nextValue := stops[j].offset;
        break;
      }
      nextCount := nextCount + 1;
      j := j + 1;
    }
  }

  /** The look-ahead stops at the next anchor, or at the end of the list. */
  lemma {:induction false} LookAhead(s: seq<GradientStop>, i: nat, j: nat)
    requires i < j <= |s| && s[i].offset.None?
    requires forall k :: i < k < j ==> s[k].offset.None?
    requires j < |s| ==> s[j].offset.Some?
    ensures NextAnchor(s, i) == j
  {
    var q := NextAnchor(s, i);
    assert q < |s| ==> s[q].offset.Some?;
    assert j < |s| ==> s[j].offset.Some?;
  }

  // ---------------------------------------------------------------------------
  // The background value

  /** webrender's `ExtendMode`: whether the gradient stops at its ends or repeats. */
  datatype ExtendMode = Clamp | Repeat

  /** The four gradient functions. */
  datatype GradientKind = LinearGradient | RepeatingLinearGradient | RadialGradient | RepeatingRadialGradient {
    predicate IsLinear() {
      this == LinearGradient || this == RepeatingLinearGradient
    }

    function Extend(): ExtendMode {
      if this == LinearGradient || this == RadialGradient then Clamp else Repeat
    }
  }

  /** The CSS function name of each kind. */
  function KindName(k: GradientKind): string {
    match k
    case LinearGradient => "linear-gradient"
    case RepeatingLinearGradient => "repeating-linear-gradient"
    case RadialGradient => "radial-gradient"
    case RepeatingRadialGradient => "repeating-radial-gradient"
  }

  /** The kind a function name selects; any other name selects none. */
  function GradientKindOf(name: string): (r: Option<GradientKind>)
    ensures r.Some? ==> KindName(r.value) == name
  {
    match name
    case "linear-gradient" => Some(LinearGradient)
    case "repeating-linear-gradient" => Some(RepeatingLinearGradient)
    case "radial-gradient" => Some(RadialGradient)
    case "repeating-radial-gradient" => Some(RepeatingRadialGradient)
    case _ => None
  }

  /** Every kind is selected by its own name. */
  lemma KindNamesSelectTheirKind(k: GradientKind)
    ensures GradientKindOf(KindName(k)) == Some(k)
    ensures '(' !in KindName(k)
  {
  }

  /** `ParsedGradient` with `LinearGradientPreInfo` and `RadialGradientPreInfo`. */
  datatype ParsedGradient =
    | Linear(direction: Direction, extendMode: ExtendMode, stops: seq<GradientStop>)
    | Radial(shape: Shape, extendMode: ExtendMode, stops: seq<GradientStop>)

  /** `CssBackgroundParseError`. */
  datatype BackgroundError =
    | Error(text: string)
    | InvalidBackground(text: string)
    | UnclosedGradient(text: string)
    | NoDirection(text: string)
    | TooFewGradientStops(text: string)
    | DirectionParseError(directionError: DirectionError)
    | GradientParseError(stopError: StopError)
    | ShapeParseError(shapeError: ShapeError)

  /**
   * The kind of gradient and the comma-separated items between its brackets: the name runs up to
   * the first '(' and the items up to the last ')'; whatever follows that ')' is dropped.
   */
  function GradientItems(input: string): (r: Result<(GradientKind, seq<string>), BackgroundError>)
    ensures r.Ok? ==> |r.value.1| >= 1
    ensures r.Err? ==> r.error.InvalidBackground? || r.error.UnclosedGradient?
  {
    var (name, rest) := SplitFirst(input, '(');
    match GradientKindOf(name)
    case None => Err(InvalidBackground(name))
    case Some(kind) =>
      match rest
      case None => Err(InvalidBackground(input))
      case Some(inner) =>
        match SplitLast(inner, ')').1
        case None => Err(UnclosedGradient(input))
        case Some(contents) => Ok((kind, Split(contents, ',')))
  }

  /** A gradient name, '(', the items and ')': the items are split at every ','; text after the ')' is dropped. */
  lemma GradientItemsOf(k: GradientKind, contents: string, tail: string)
    requires ')' !in tail
    ensures GradientItems(KindName(k) + "(" + contents + ")" + tail) == Ok((k, Split(contents, ',')))
  {
    KindNamesSelectTheirKind(k);
    var inner := contents + ")" + tail;
    assert KindName(k) + "(" + contents + ")" + tail == KindName(k) + ['('] + inner;
    SplitFirstAtFirst(KindName(k), '(', inner);
    SplitLastAtLast(contents, ')', tail);
  }

  /** Text with no '(' is not a gradient, whatever it says. */
  lemma NoOpeningBracket(input: string)
    requires '(' !in input
    ensures GradientItems(input) == Err(InvalidBackground(input))
  {
  }

  /** An unknown function name is reported on its own. */
  lemma UnknownGradientName(name: string, rest: string)
    requires '(' !in name && GradientKindOf(name).None?
    ensures GradientItems(name + "(" + rest) == Err(InvalidBackground(name))
  {
    SplitFirstAtFirst(name, '(', rest);
  }

  /** A gradient whose brackets are never closed. */
  lemma NoClosingBracket(k: GradientKind, inner: string)
    requires ')' !in inner
    ensures GradientItems(KindName(k) + "(" + inner) == Err(UnclosedGradient(KindName(k) + "(" + inner))
  {
    KindNamesSelectTheirKind(k);
    SplitFirstAtFirst(KindName(k), '(', inner);
  }

  /** Whether the first item is the gradient's direction (linear) or shape (radial) rather than a stop. */
  predicate HasPrefix(kind: GradientKind, first: string) {
    if kind.IsLinear() then ParseDirection(first).Ok? else ParseShape(first).Ok?
  }

  /** The items that are colour stops. */
  function StopItems(kind: GradientKind, items: seq<string>): seq<string>
    requires |items| >= 1
  {
    if HasPrefix(kind, items[0]) then items[1..] else items
  }

  /**
   * The parsed gradient of a kind: a linear one takes the direction its first item names, or
   * top-to-bottom; a radial one the shape, or an ellipse.
   */
  function GradientOf(kind: GradientKind, first: string, stops: seq<GradientStop>): (g: ParsedGradient)
    ensures g.Linear? <==> kind.IsLinear()
    ensures g.extendMode == kind.Extend() && g.stops == stops
    ensures g.Linear? && ParseDirection(first).Ok? ==> g.direction == ParseDirection(first).value
    ensures g.Linear? && ParseDirection(first).Err? ==> g.direction == FromTo(Top, Bottom)
    ensures g.Radial? && ParseShape(first).Ok? ==> g.shape == ParseShape(first).value
    ensures g.Radial? && ParseShape(first).Err? ==> g.shape == Ellipse
  {
    if kind.IsLinear() then
      Linear(if ParseDirection(first).Ok? then ParseDirection(first).value else FromTo(Top, Bottom), kind.Extend(), stops)
    else
      Radial(if ParseShape(first).Ok? then ParseShape(first).value else Ellipse, kind.Extend(), stops)
  }

  /** `parse_css_background`, with colours read by `paint`. */
  function BackgroundWith(paint: ColorReader, input: string): (r: Result<ParsedGradient, BackgroundError>)
    ensures r.Ok? ==> GradientItems(input).Ok?
    ensures r.Ok? ==> r.value.Linear? == GradientItems(input).value.0.IsLinear()
    ensures r.Ok? ==> r.value.extendMode == GradientItems(input).value.0.Extend()
    ensures r.Ok? ==> |r.value.stops| >= 2 && forall i :: 0 <= i < |r.value.stops| ==> r.value.stops[i].offset.Some?
    ensures r.Err? ==> r.error.InvalidBackground? || r.error.UnclosedGradient? || r.error.TooFewGradientStops? || r.error.GradientParseError?
  {
    match GradientItems(input)
    case Err(e) => Err(e)
    case Ok((kind, items)) =>
      var stopItems := StopItems(kind, items);
      if |stopItems| < 2 then Err(TooFewGradientStops(input))
      else
        match ParseStops(paint, stopItems)
        case Err(e) => Err(GradientParseError(e))
        case Ok(stops) =>
          NormalizedKeepsStops(stops);
          Ok(GradientOf(kind, items[0], Normalized(stops)))
  }

  /** `parse_css_background` with CSS colours. */
  function BackgroundOf(input: string): Result<ParsedGradient, BackgroundError> {
    BackgroundWith(ParseColor, input)
  }

  /** Fewer than two stops once the direction or shape is set aside is an error, and the only cause of it. */
  lemma TooFewStopsIff(paint: ColorReader, input: string)
    ensures BackgroundWith(paint, input) == Err(TooFewGradientStops(input))
        <==> GradientItems(input).Ok? &&
             (var (kind, items) := GradientItems(input).value;
              |items| - (if HasPrefix(kind, items[0]) then 1 else 0) < 2)
  {
  }

  /** Each stop of the result is the matching stop item's colour, with that item's offset when it gave one. */
  lemma BackgroundStops(paint: ColorReader, input: string, i: nat)
    requires BackgroundWith(paint, input).Ok?
    requires i < |BackgroundWith(paint, input).value.stops|
    ensures var (kind, items) := GradientItems(input).value;
            var item := StopItems(kind, items)[i];
            var stop := BackgroundWith(paint, input).value.stops[i];
            ParseGradientStop(paint, item).Ok? &&
            stop.color == ParseGradientStop(paint, item).value.color &&
            (ParseGradientStop(paint, item).value.offset.Some? ==> stop.offset == ParseGradientStop(paint, item).value.offset)
  {
    var (kind, items) := GradientItems(input).value;
    var stops := ParseStops(paint, StopItems(kind, items)).value;
    NormalizedKeepsStops(stops);
  }

  /** The first stop item that does not parse decides the error. */
  lemma BackgroundFirstBadStop(paint: ColorReader, input: string, j: nat)
    requires GradientItems(input).Ok?
    requires var (kind, items) := GradientItems(input).value;
             var stopItems := StopItems(kind, items);
             2 <= |stopItems| && j < |stopItems| &&
             (forall i :: 0 <= i < j ==> ParseGradientStop(paint, stopItems[i]).Ok?) &&
             ParseGradientStop(paint, stopItems[j]).Err?
    ensures var (kind, items) := GradientItems(input).value;
            BackgroundWith(paint, input) == Err(GradientParseError(ParseGradientStop(paint, StopItems(kind, items)[j]).error))
  {
    var (kind, items) := GradientItems(input).value;
    ParseStopsFirstError(paint, StopItems(kind, items), j);
  }

  /**
   * The loop of `parse_css_background` that pushes the stops onto `color_stops` in item order,
   * giving up at the first item that does not parse.
   */
  method PushStops(paint: ColorReader, stopItems: seq<string>) returns (r: Result<seq<GradientStop>, StopError>)
    ensures r == ParseStops(paint, stopItems)
  {
    var pushed: seq<GradientStop> := [];
    for i := 0 to |stopItems|
      invariant |pushed| == i
      invariant forall k :: 0 <= k < i ==> ParseGradientStop(paint, stopItems[k]) == Ok(pushed[k])
    {
      var stop := ParseGradientStop(paint, stopItems[i]);
      if stop.Err? {
        ParseStopsFirstError(paint, stopItems, i);
        return Err(stop.error);
      }
      pushed := pushed + [stop.value];
    }
    ParseStopsAllParse(paint, stopItems, pushed);
    return Ok(pushed);
  }

  /** The result once the stops have parsed: the gradient with the normalised stops. */
  lemma BackgroundOfStops(paint: ColorReader, input: string, kind: GradientKind, items: seq<string>, stops: seq<GradientStop>)
    requires GradientItems(input) == Ok((kind, items))
    requires |StopItems(kind, items)| >= 2 && ParseStops(paint, StopItems(kind, items)) == Ok(stops)
    ensures BackgroundWith(paint, input) == Ok(GradientOf(kind, items[0], Normalized(stops)))
  {
  }

  /**
   * `parse_css_background` as the source runs it: the stops are pushed in item order, giving up
   * at the first that does not parse, and then given their offsets in place.
   */
  method ParseBackground(paint: ColorReader, input: string) returns (r: Result<ParsedGradient, BackgroundError>)
    ensures r == BackgroundWith(paint, input)
  {
    var parts := GradientItems(input);
    if parts.Err? {
      return Err(parts.error);
    }
    var kind, items := parts.value.0, parts.value.1;
    var stopItems := StopItems(kind, items);
    if |stopItems| < 2 {
      return Err(TooFewGradientStops(input));
    }
    var pushed := PushStops(paint, stopItems);
    if pushed.Err? {
      return Err(GradientParseError(pushed.error));
    }
    var s := pushed.value;
    var stops := new GradientStop[|s|](k requires 0 <= k < |s| => s[k]);
    assert stops[..] == s;
    NormalizeOffsets(stops);
    BackgroundOfStops(paint, input, kind, items, s);
    return Ok(GradientOf(kind, items[0], stops[..]));
  }

  // ---------------------------------------------------------------------------
  // Examples: the pass

  /** Two stops without offsets go from 0 to 1. */
  lemma TwoUnsetStopsExample(c1: Color, c2: Color)
    ensures Normalized([GradientStop(None, c1), GradientStop(None, c2)])
         == [GradientStop(Some(0.0), c1), GradientStop(Some(1.0), c2)]
  {
    var s := [GradientStop(None, c1), GradientStop(None, c2)];
    assert IsRun(s, -1, 2);
    RunStartsAtAnchor(s, -1, 2);
    RunEndsAtAnchor(s, -1, 2);
    NormalizedAt(s, 0);
    NormalizedAt(s, 1);
  }

  /** Three go 0, 0.5, 1. */
  lemma ThreeUnsetStopsExample(c1: Color, c2: Color, c3: Color)
    ensures Normalized([GradientStop(None, c1), GradientStop(None, c2), GradientStop(None, c3)])
         == [GradientStop(Some(0.0), c1), GradientStop(Some(0.5), c2), GradientStop(Some(1.0), c3)]
  {
    var s := [GradientStop(None, c1), GradientStop(None, c2), GradientStop(None, c3)];
    assert IsRun(s, -1, 3);
    RunStartsAtAnchor(s, -1, 3);
    RunEvenlySpaced(s, -1, 3, 0);
    RunEndsAtAnchor(s, -1, 3);
    NormalizedAt(s, 0);
    NormalizedAt(s, 1);
    NormalizedAt(s, 2);
  }

  /** Four go in thirds (the source's single-precision arithmetic gives 0.33333334 and 0.6666667). */
  lemma FourUnsetStopsExample(c1: Color, c2: Color, c3: Color, c4: Color)
    ensures Normalized([GradientStop(None, c1), GradientStop(None, c2), GradientStop(None, c3), GradientStop(None, c4)])
         == [GradientStop(Some(0.0), c1), GradientStop(Some(1.0 / 3.0), c2), GradientStop(Some(2.0 / 3.0), c3), GradientStop(Some(1.0), c4)]
  {
    var s := [GradientStop(None, c1), GradientStop(None, c2), GradientStop(None, c3), GradientStop(None, c4)];
    assert IsRun(s, -1, 4);
    RunStartsAtAnchor(s, -1, 4);
    RunEvenlySpaced(s, -1, 4, 0);
    RunEvenlySpaced(s, -1, 4, 1);
    RunEndsAtAnchor(s, -1, 4);
    NormalizedAt(s, 0);
    NormalizedAt(s, 1);
    NormalizedAt(s, 2);
    NormalizedAt(s, 3);
  }

  /**
   * Two offsets then two unset stops: the first of those takes the anchor before it and the last
   * the end of the list (1), whatever the offsets were; with offsets 10 and 50 that gives 10, 50,
   * 50, 1, since percentages are not divided by 100.
   */
  lemma AnchoredThenUnsetExample(a: real, b: real, c1: Color, c2: Color, c3: Color, c4: Color)
    ensures Normalized([GradientStop(Some(a), c1), GradientStop(Some(b), c2), GradientStop(None, c3), GradientStop(None, c4)])
         == [GradientStop(Some(a), c1), GradientStop(Some(b), c2), GradientStop(Some(b), c3), GradientStop(Some(1.0), c4)]
  {
    var s := [GradientStop(Some(a), c1), GradientStop(Some(b), c2), GradientStop(None, c3), GradientStop(None, c4)];
    assert IsRun(s, 1, 4);
    RunStartsAtAnchor(s, 1, 4);
    RunEndsAtAnchor(s, 1, 4);
    NormalizedAt(s, 0);
    NormalizedAt(s, 1);
    NormalizedAt(s, 2);
    NormalizedAt(s, 3);
  }

  // ---------------------------------------------------------------------------
  // Examples: whole backgrounds, for any colour reader that gives the colour words these colours

  lemma OneWord(w: string)
    requires w != [] && HasNoWhitespace(w)
    ensures Words(w) == [w] && Words(" " + w) == [w]
  {
    WordsOfUnwords([w]);
    WordsAfterSpace(w);
  }

  lemma TwoWords(w1: string, w2: string)
    requires w1 != [] && HasNoWhitespace(w1) && w2 != [] && HasNoWhitespace(w2)
    ensures Words(" " + w1 + " " + w2) == [w1, w2]
  {
    assert Unwords([w1, w2]) == w1 + " " + w2;
    WordsOfUnwords([w1, w2]);
    WordsAfterSpace(w1 + " " + w2);
    assert " " + w1 + " " + w2 == " " + (w1 + " " + w2);
  }

  /** A word that can stand alone as a gradient item. */
  predicate PlainWord(w: string) {
    w != [] && HasNoWhitespace(w) && ',' !in w
  }

  /** An item that is the colour word `w`, possibly after a space. */
  predicate ColorItem(item: string, w: string) {
    PlainWord(w) && (item == w || item == " " + w)
  }

  /** An item " w n%". */
  predicate PercentItem(item: string, w: string, n: nat) {
    PlainWord(w) && item == " " + w + " " + NatText(n) + "%"
  }

  /** A colour item is a stop in that colour with no offset. */
  lemma ColorStop(paint: ColorReader, item: string, w: string, c: Color)
    requires ColorItem(item, w) && paint(w) == Ok(c)
    ensures ParseGradientStop(paint, item) == Ok(GradientStop(None, c))
  {
    OneWord(w);
  }

  /** A percentage item is a stop in that colour at that offset. */
  lemma PercentStop(paint: ColorReader, item: string, w: string, n: nat, c: Color)
    requires PercentItem(item, w, n) && paint(w) == Ok(c)
    ensures ',' !in item
    ensures ParseGradientStop(paint, item) == Ok(GradientStop(Some(n as real), c))
  {
    var t := NatText(n) + "%";
    assert forall i :: 0 <= i < |t| - 1 ==> IsDigit(t[i]);
    assert item == " " + w + " " + t;
    TwoWords(w, t);
    StopWithPercentage(paint, item, n, c);
  }

  /** A gradient written as its name and its items joined by commas. */
  lemma ItemsOf(k: GradientKind, parts: seq<string>)
    requires |parts| >= 1 && forall i :: 0 <= i < |parts| ==> ',' !in parts[i]
    ensures GradientItems(KindName(k) + "(" + Join(parts, ',') + ")") == Ok((k, parts))
  {
    var contents := Join(parts, ',');
    assert KindName(k) + "(" + contents + ")" == KindName(k) + "(" + contents + ")" + "";
    GradientItemsOf(k, contents, "");
    SplitJoin(parts, ',');
  }

  /** A first item that is a colour word is no direction. */
  lemma ColorIsNoDirection(w: string)
    requires w != [] && HasNoWhitespace(w) && w != "to"
    requires !EndsWith(w, "deg") && !EndsWith(w, "rad")
    ensures ParseDirection(w).Err?
  {
    OneWord(w);
    NeitherAngleNorTo(w);
  }

  /** A gradient written as its name and comma-separated items, whose stop items parse to `stops`. */
  lemma BackgroundFromParts(paint: ColorReader, k: GradientKind, parts: seq<string>, stops: seq<GradientStop>)
    requires |parts| >= 1 && forall i :: 0 <= i < |parts| ==> ',' !in parts[i]
    requires |StopItems(k, parts)| >= 2 && ParseStops(paint, StopItems(k, parts)) == Ok(stops)
    ensures BackgroundWith(paint, KindName(k) + "(" + Join(parts, ',') + ")") == Ok(GradientOf(k, parts[0], Normalized(stops)))
  {
    ItemsOf(k, parts);
  }

  /** Colour items parse to stops in their colours, with no offsets. */
  lemma ColorStops(paint: ColorReader, items: seq<string>, words: seq<string>, stops: seq<GradientStop>)
    requires |items| == |words| == |stops|
    requires forall i :: 0 <= i < |items| ==> ColorItem(items[i], words[i]) && paint(words[i]) == Ok(stops[i].color)
    requires forall i :: 0 <= i < |stops| ==> stops[i].offset.None?
    ensures forall i :: 0 <= i < |items| ==> ',' !in items[i]
    ensures ParseStops(paint, items) == Ok(stops)
  {
    forall i | 0 <= i < |items|
      ensures ParseGradientStop(paint, items[i]) == Ok(stops[i])
    {
      ColorStop(paint, items[i], words[i], stops[i].color);
    }
    ParseStopsAllParse(paint, items, stops);
  }

  /** Two percentage items then two colour items. */
  lemma TwoPercentsTwoColorStops(paint: ColorReader, i1: string, i2: string, i3: string, i4: string,
                                 w1: string, w2: string, w3: string, w4: string, n1: nat, n2: nat,
                                 c1: Color, c2: Color, c3: Color, c4: Color)
    requires PercentItem(i1, w1, n1) && PercentItem(i2, w2, n2) && ColorItem(i3, w3) && ColorItem(i4, w4)
    requires paint(w1) == Ok(c1) && paint(w2) == Ok(c2) && paint(w3) == Ok(c3) && paint(w4) == Ok(c4)
    ensures ',' !in i1 && ',' !in i2 && ',' !in i3 && ',' !in i4
    ensures ParseStops(paint, [i1, i2, i3, i4])
         == Ok([GradientStop(Some(n1 as real), c1), GradientStop(Some(n2 as real), c2), GradientStop(None, c3), GradientStop(None, c4)])
  {
    PercentStop(paint, i1, w1, n1, c1);
    PercentStop(paint, i2, w2, n2, c2);
    ColorStop(paint, i3, w3, c3);
    ColorStop(paint, i4, w4, c4);
    ParseStopsAllParse(paint, [i1, i2, i3, i4],
      [GradientStop(Some(n1 as real), c1), GradientStop(Some(n2 as real), c2), GradientStop(None, c3), GradientStop(None, c4)]);
  }

  /** Two colour items and nothing else: the first colour at 0, the second at 1. */
  lemma TwoColorsOnly(paint: ColorReader, k: GradientKind, i1: string, i2: string, w1: string, w2: string, c1: Color, c2: Color)
    requires ColorItem(i1, w1) && ColorItem(i2, w2) && !HasPrefix(k, i1)
    requires paint(w1) == Ok(c1) && paint(w2) == Ok(c2)
    ensures BackgroundWith(paint, KindName(k) + "(" + (i1 + "," + i2) + ")")
         == Ok(GradientOf(k, i1, [GradientStop(Some(0.0), c1), GradientStop(Some(1.0), c2)]))
  {
    JoinOfTwo(i1, i2);
    var stops := [GradientStop(None, c1), GradientStop(None, c2)];
    ColorStops(paint, [i1, i2], [w1, w2], stops);
    BackgroundFromParts(paint, k, [i1, i2], stops);
    TwoUnsetStopsExample(c1, c2);
  }

  /** Four colour items and nothing else: the colours at 0, 1/3, 2/3 and 1. */
  lemma FourColorsOnly(paint: ColorReader, k: GradientKind, i1: string, i2: string, i3: string, i4: string,
                       w1: string, w2: string, w3: string, w4: string, c1: Color, c2: Color, c3: Color, c4: Color)
    requires ColorItem(i1, w1) && ColorItem(i2, w2) && ColorItem(i3, w3) && ColorItem(i4, w4) && !HasPrefix(k, i1)
    requires paint(w1) == Ok(c1) && paint(w2) == Ok(c2) && paint(w3) == Ok(c3) && paint(w4) == Ok(c4)
    ensures BackgroundWith(paint, KindName(k) + "(" + (i1 + "," + (i2 + "," + (i3 + "," + i4))) + ")")
         == Ok(GradientOf(k, i1, [GradientStop(Some(0.0), c1), GradientStop(Some(1.0 / 3.0), c2),
                                  GradientStop(Some(2.0 / 3.0), c3), GradientStop(Some(1.0), c4)]))
  {
    var stops := [GradientStop(None, c1), GradientStop(None, c2), GradientStop(None, c3), GradientStop(None, c4)];
    JoinOfFour(i1, i2, i3, i4);
    ColorStops(paint, [i1, i2, i3, i4], [w1, w2, w3, w4], stops);
    BackgroundFromParts(paint, k, [i1, i2, i3, i4], stops);
    FourUnsetStopsExample(c1, c2, c3, c4);
  }

  /** A direction or shape item then two colour items: the first colour at 0, the second at 1. */
  lemma PrefixThenTwoColors(paint: ColorReader, k: GradientKind, d: string, i1: string, i2: string,
                            w1: string, w2: string, c1: Color, c2: Color)
    requires ',' !in d && HasPrefix(k, d)
    requires ColorItem(i1, w1) && ColorItem(i2, w2)
    requires paint(w1) == Ok(c1) && paint(w2) == Ok(c2)
    ensures BackgroundWith(paint, KindName(k) + "(" + (d + "," + (i1 + "," + i2)) + ")")
         == Ok(GradientOf(k, d, [GradientStop(Some(0.0), c1), GradientStop(Some(1.0), c2)]))
  {
    JoinOfThree(d, i1, i2);
    var stops := [GradientStop(None, c1), GradientStop(None, c2)];
    assert StopItems(k, [d, i1, i2]) == [i1, i2];
    ColorStops(paint, [i1, i2], [w1, w2], stops);
    BackgroundFromParts(paint, k, [d, i1, i2], stops);
    TwoUnsetStopsExample(c1, c2);
  }

  /** A direction or shape item then three colour items: the colours at 0, 0.5 and 1. */
  lemma PrefixThenThreeColors(paint: ColorReader, k: GradientKind, d: string, i1: string, i2: string, i3: string,
                              w1: string, w2: string, w3: string, c1: Color, c2: Color, c3: Color)
    requires ',' !in d && HasPrefix(k, d)
    requires ColorItem(i1, w1) && ColorItem(i2, w2) && ColorItem(i3, w3)
    requires paint(w1) == Ok(c1) && paint(w2) == Ok(c2) && paint(w3) == Ok(c3)
    ensures BackgroundWith(paint, KindName(k) + "(" + (d + "," + (i1 + "," + (i2 + "," + i3))) + ")")
         == Ok(GradientOf(k, d, [GradientStop(Some(0.0), c1), GradientStop(Some(0.5), c2), GradientStop(Some(1.0), c3)]))
  {
    JoinOfFour(d, i1, i2, i3);
    var stops := [GradientStop(None, c1), GradientStop(None, c2), GradientStop(None, c3)];
    assert StopItems(k, [d, i1, i2, i3]) == [i1, i2, i3];
    ColorStops(paint, [i1, i2, i3], [w1, w2, w3], stops);
    BackgroundFromParts(paint, k, [d, i1, i2, i3], stops);
    ThreeUnsetStopsExample(c1, c2, c3);
  }

  /** A shape or direction, two stops with percentages, then two colour items. */
  lemma PrefixThenTwoPercentsTwoColors(paint: ColorReader, k: GradientKind, d: string, i1: string, i2: string, i3: string, i4: string,
                                       w1: string, w2: string, w3: string, w4: string, n1: nat, n2: nat,
                                       c1: Color, c2: Color, c3: Color, c4: Color)
    requires ',' !in d && HasPrefix(k, d)
    requires PercentItem(i1, w1, n1) && PercentItem(i2, w2, n2) && ColorItem(i3, w3) && ColorItem(i4, w4)
    requires paint(w1) == Ok(c1) && paint(w2) == Ok(c2) && paint(w3) == Ok(c3) && paint(w4) == Ok(c4)
    ensures BackgroundWith(paint, KindName(k) + "(" + (d + "," + (i1 + "," + (i2 + "," + (i3 + "," + i4)))) + ")")
         == Ok(GradientOf(k, d, [GradientStop(Some(n1 as real), c1), GradientStop(Some(n2 as real), c2),
                                 GradientStop(Some(n2 as real), c3), GradientStop(Some(1.0), c4)]))
  {
    var stops := [GradientStop(Some(n1 as real), c1), GradientStop(Some(n2 as real), c2), GradientStop(None, c3), GradientStop(None, c4)];
    JoinOfFive(d, i1, i2, i3, i4);
    assert StopItems(k, [d, i1, i2, i3, i4]) == [i1, i2, i3, i4];
    TwoPercentsTwoColorStops(paint, i1, i2, i3, i4, w1, w2, w3, w4, n1, n2, c1, c2, c3, c4);
    BackgroundFromParts(paint, k, [d, i1, i2, i3, i4], stops);
    AnchoredThenUnsetExample(n1 as real, n2 as real, c1, c2, c3, c4);
  }

  lemma JoinOfTwo(a: string, b: string)
    ensures Join([a, b], ',') == a + "," + b
  {
    assert [a, b][1..] == [b];
  }

  lemma JoinOfThree(a: string, b: string, c: string)
    ensures Join([a, b, c], ',') == a + "," + (b + "," + c)
  {
    assert [a, b, c][1..] == [b, c];
    JoinOfTwo(b, c);
  }

  lemma JoinOfFour(a: string, b: string, c: string, d: string)
    ensures Join([a, b, c, d], ',') == a + "," + (b + "," + (c + "," + d))
  {
    assert [a, b, c, d][1..] == [b, c, d];
    JoinOfThree(b, c, d);
  }

  lemma JoinOfFive(a: string, b: string, c: string, d: string, e: string)
    ensures Join([a, b, c, d, e], ',') == a + "," + (b + "," + (c + "," + (d + "," + e)))
  {
    assert [a, b, c, d, e][1..] == [b, c, d, e];
    JoinOfFour(b, c, d, e);
  }

  // The gradients of the source's tests, read with any colour reader that reads their colour words.

  /** "linear-gradient(red, yellow)": top to bottom, red at 0 and yellow at 1. */
  lemma LinearTwoColorsExample(paint: ColorReader, red: Color, yellow: Color)
    requires paint("red") == Ok(red) && paint("yellow") == Ok(yellow)
    ensures BackgroundWith(paint, "linear-gradient(red, yellow)")
         == Ok(Linear(FromTo(Top, Bottom), Clamp, [GradientStop(Some(0.0), red), GradientStop(Some(1.0), yellow)]))
  {
    LinearTwoColorsText();
    LinearTwoColorsItems();
    RedIsNoDirection();
    TwoColorsOnly(paint, LinearGradient, "red", " yellow", "red", "yellow", red, yellow);
  }

  lemma LinearTwoColorsItems()
    ensures ColorItem("red", "red") && ColorItem(" yellow", "yellow")
  {
  }

  /** "red" does not start a linear gradient's direction. */
  lemma RedIsNoDirection()
    ensures !HasPrefix(LinearGradient, "red")
  {
    ColorIsNoDirection("red");
  }

  lemma LinearTwoColorsText()
    ensures KindName(LinearGradient) + "(" + ("red" + "," + " yellow") + ")"
         == "linear-gradient(red, yellow)"
  {
  }


  /** "linear-gradient(red, lime, blue, yellow)": the four colours at 0, 1/3, 2/3 and 1. */
  lemma LinearFourColorsExample(paint: ColorReader, red: Color, lime: Color, blue: Color, yellow: Color)
    requires paint("red") == Ok(red) && paint("lime") == Ok(lime) && paint("blue") == Ok(blue) && paint("yellow") == Ok(yellow)
    ensures BackgroundWith(paint, "linear-gradient(red, lime, blue, yellow)")
         == Ok(Linear(FromTo(Top, Bottom), Clamp, [GradientStop(Some(0.0), red), GradientStop(Some(1.0 / 3.0), lime),
                                                   GradientStop(Some(2.0 / 3.0), blue), GradientStop(Some(1.0), yellow)]))
  {
    LinearFourColorsText();
    LinearFourColorsItems();
    RedIsNoDirection();
    FourColorsOnly(paint, LinearGradient, "red", " lime", " blue", " yellow", "red", "lime", "blue", "yellow", red, lime, blue, yellow);
  }

  lemma LinearFourColorsItems()
    ensures ColorItem("red", "red") && ColorItem(" lime", "lime") && ColorItem(" blue", "blue") && ColorItem(" yellow", "yellow")
  {
  }

  lemma LinearFourColorsText()
    ensures KindName(LinearGradient) + "(" + ("red" + "," + (" lime" + "," + (" blue" + "," + " yellow"))) + ")"
         == "linear-gradient(red, lime, blue, yellow)"
  {
  }


  /** "repeating-linear-gradient(50deg, blue, yellow, #00FF00)": at 50 degrees, repeating, the colours at 0, 0.5 and 1. */
  lemma RepeatingAngleExample(paint: ColorReader, blue: Color, yellow: Color, green: Color)
    requires paint("blue") == Ok(blue) && paint("yellow") == Ok(yellow) && paint("#00FF00") == Ok(green)
    ensures BackgroundWith(paint, "repeating-linear-gradient(50deg, blue, yellow, #00FF00)")
         == Ok(Linear(Angle(50.0), Repeat, [GradientStop(Some(0.0), blue), GradientStop(Some(0.5), yellow), GradientStop(Some(1.0), green)]))
  {
    RepeatingAngleText();
    RepeatingAngleItems();
    FiftyDegreesPrefix();
    PrefixThenThreeColors(paint, RepeatingLinearGradient, "50deg", " blue", " yellow", " #00FF00",
                          "blue", "yellow", "#00FF00", blue, yellow, green);
  }

  lemma RepeatingAngleItems()
    ensures ColorItem(" blue", "blue") && ColorItem(" yellow", "yellow") && ColorItem(" #00FF00", "#00FF00")
  {
  }

  lemma FiftyDegreesPrefix()
    ensures ',' !in "50deg" && HasPrefix(RepeatingLinearGradient, "50deg") && ParseDirection("50deg") == Ok(Angle(50.0))
  {
    FiftyDegreesExample();
  }

  lemma RepeatingAngleText()
    ensures KindName(RepeatingLinearGradient) + "(" + ("50deg" + "," + (" blue" + "," + (" yellow" + "," + " #00FF00"))) + ")"
         == "repeating-linear-gradient(50deg, blue, yellow, #00FF00)"
  {
  }


  /** "linear-gradient(to bottom right, red, yellow)": from the top left to the bottom right corner. */
  lemma ToCornerExample(paint: ColorReader, red: Color, yellow: Color)
    requires paint("red") == Ok(red) && paint("yellow") == Ok(yellow)
    ensures BackgroundWith(paint, "linear-gradient(to bottom right, red, yellow)")
         == Ok(Linear(FromTo(TopLeft, BottomRight), Clamp, [GradientStop(Some(0.0), red), GradientStop(Some(1.0), yellow)]))
  {
    ToCornerText();
    ToCornerItems();
    ToBottomRightPrefix();
    PrefixThenTwoColors(paint, LinearGradient, "to bottom right", " red", " yellow", "red", "yellow", red, yellow);
  }

  lemma ToCornerItems()
    ensures ColorItem(" red", "red") && ColorItem(" yellow", "yellow")
  {
  }

  lemma ToBottomRightPrefix()
    ensures ',' !in "to bottom right" && HasPrefix(LinearGradient, "to bottom right")
    ensures ParseDirection("to bottom right") == Ok(FromTo(TopLeft, BottomRight))
  {
    assert "to bottom right" == "to " + "bottom " + "right";
    assert ',' !in "to " && ',' !in "bottom " && ',' !in "right";
    ToBottomRightExample();
  }

  lemma ToCornerText()
    ensures KindName(LinearGradient) + "(" + ("to bottom right" + "," + (" red" + "," + " yellow")) + ")"
         == "linear-gradient(to bottom right, red, yellow)"
  {
  }


  /** "radial-gradient(circle, lime, blue, yellow)": a circle, the colours at 0, 0.5 and 1. */
  lemma CircleExample(paint: ColorReader, lime: Color, blue: Color, yellow: Color)
    requires paint("lime") == Ok(lime) && paint("blue") == Ok(blue) && paint("yellow") == Ok(yellow)
    ensures BackgroundWith(paint, "radial-gradient(circle, lime, blue, yellow)")
         == Ok(Radial(Circle, Clamp, [GradientStop(Some(0.0), lime), GradientStop(Some(0.5), blue), GradientStop(Some(1.0), yellow)]))
  {
    CircleText();
    CircleItems();
    PrefixThenThreeColors(paint, RadialGradient, "circle", " lime", " blue", " yellow", "lime", "blue", "yellow", lime, blue, yellow);
  }

  lemma CircleItems()
    ensures ',' !in "circle" && HasPrefix(RadialGradient, "circle")
    ensures ColorItem(" lime", "lime") && ColorItem(" blue", "blue") && ColorItem(" yellow", "yellow")
  {
  }

  lemma CircleText()
    ensures KindName(RadialGradient) + "(" + ("circle" + "," + (" lime" + "," + (" blue" + "," + " yellow"))) + ")"
         == "radial-gradient(circle, lime, blue, yellow)"
  {
  }


  /**
   * "repeating-radial-gradient(circle, red 10%, blue 50%, lime, yellow)": the offsets come out as
   * 10, 50, 50 and 1 (the source's own test expects 0.1, 0.5, 0.75 and 1).
   */
  lemma RepeatingCirclePercentsExample(paint: ColorReader, red: Color, blue: Color, lime: Color, yellow: Color)
    requires paint("red") == Ok(red) && paint("blue") == Ok(blue) && paint("lime") == Ok(lime) && paint("yellow") == Ok(yellow)
    ensures BackgroundWith(paint, "repeating-radial-gradient(circle, red 10%, blue 50%, lime, yellow)")
         == Ok(Radial(Circle, Repeat, [GradientStop(Some(10.0), red), GradientStop(Some(50.0), blue),
                                       GradientStop(Some(50.0), lime), GradientStop(Some(1.0), yellow)]))
  {
    RepeatingCirclePercentsText();
    RepeatingCirclePercentsItems();
    PrefixThenTwoPercentsTwoColors(paint, RepeatingRadialGradient, "circle", " red 10%", " blue 50%", " lime", " yellow",
                                   "red", "blue", "lime", "yellow", 10, 50, red, blue, lime, yellow);
  }

  lemma RepeatingCirclePercentsItems()
    ensures ',' !in "circle" && HasPrefix(RepeatingRadialGradient, "circle")
    ensures PercentItem(" red 10%", "red", 10) && PercentItem(" blue 50%", "blue", 50)
    ensures ColorItem(" lime", "lime") && ColorItem(" yellow", "yellow")
  {
    assert NatText(10) == "10" && NatText(50) == "50";
  }

  lemma RepeatingCirclePercentsText()
    ensures KindName(RepeatingRadialGradient) + "(" + ("circle" + "," + (" red 10%" + "," + (" blue 50%" + "," + (" lime" + "," + " yellow")))) + ")"
         == "repeating-radial-gradient(circle, red 10%, blue 50%, lime, yellow)"
  {
  }

}
