/**
 * Box shadows: `parse_css_box_shadow` (src/css_parser.rs:498-617).
 *
 * The source fills a mutable shadow record branch by branch, one branch per token count.
 * `ShadowOfWords` states the same grammar as a table: for each count, and for whether the
 * last word is a clip keyword, the role each word plays; `ReadWords` reads the words in
 * their roles, left to right, as the source's iterator does.
 */
module BoxShadows {
  import opened Wrappers
  import opened Text
  import opened Lengths
  import opened Colors

  /** webrender's `BoxShadowClipMode`. */
  datatype ClipMode = Outset | Inset

  /** `BoxShadowPreDisplayItem`, with the offset vector as two numbers. */
  datatype BoxShadow = BoxShadow(offsetX: real, offsetY: real, color: Color, blurRadius: real, spreadRadius: real, clipMode: ClipMode)

  /** The record the source starts from: no offset, black, no blur or spread, outset. */
  const DefaultShadow: BoxShadow := BoxShadow(0.0, 0.0, Black, 0.0, 0.0, Outset)

  datatype ShadowError =
    | InvalidSingleStatement(statement: string)
    | TooManyComponents(declaration: string)
    | ShadowValueError(length: LengthError)
    | ShadowColorError(color: ColorError)

  /** The role a word plays in a declaration. */
  datatype Role = HorizontalOffset | VerticalOffset | BlurRadius | SpreadRadius | ShadowColor | ClipKeyword | Unread {
    predicate IsLength() {
      this == HorizontalOffset || this == VerticalOffset || this == BlurRadius || this == SpreadRadius
    }

    /** Whether a word in this role is parsed at all. */
    predicate IsRead() {
      IsLength() || this == ShadowColor
    }
  }

  predicate IsClipKeyword(t: string) {
    t == "inset" || t == "outset"
  }

  /**
   * The roles of the words of a declaration of `count` words, two to six, when the last word
   * is or is not a clip keyword. A keyword is only ever looked at, never parsed, and so is
   * the sixth word of six.
   */
  function Roles(count: nat, keyword: bool): (roles: seq<Role>)
    requires 2 <= count <= 6
    ensures |roles| == count
    ensures roles[0] == HorizontalOffset && roles[1] == VerticalOffset
  {
    if count == 2 then [HorizontalOffset, VerticalOffset]
    else if count == 3 then
      if keyword then [HorizontalOffset, VerticalOffset, ClipKeyword]
      else [HorizontalOffset, VerticalOffset, ShadowColor]
    else if count == 4 then
      if keyword then [HorizontalOffset, VerticalOffset, ShadowColor, ClipKeyword]
      else [HorizontalOffset, VerticalOffset, BlurRadius, ShadowColor]
    else if count == 5 then
      if keyword then [HorizontalOffset, VerticalOffset, BlurRadius, ShadowColor, ClipKeyword]
      else [HorizontalOffset, VerticalOffset, BlurRadius, SpreadRadius, ShadowColor]
    else
      [HorizontalOffset, VerticalOffset, BlurRadius, SpreadRadius, ShadowColor, if keyword then ClipKeyword else Unread]
  }

  /** No role occurs twice among the words of a declaration, and the last word is the only one that may go unread. */
  lemma RolesDistinct(count: nat, keyword: bool)
    requires 2 <= count <= 6
    ensures forall i, j :: 0 <= i < j < count ==> Roles(count, keyword)[i] != Roles(count, keyword)[j]
    ensures forall i :: 0 <= i < count - 1 ==> Roles(count, keyword)[i].IsRead()
    ensures (Roles(count, keyword)[count - 1].IsRead()) <==> (count < 6 && !(keyword && count > 2))
  {
  }

  /** A length, with a failure reported as a shadow value error. */
  function Length(t: string): Result<real, ShadowError>
    requires t != []
  {
    Pixels(t).MapError(e => ShadowValueError(e))
  }


  /** A colour, with a failure reported as a shadow colour error. */
  function ShadowColorOf(paint: ColorReader, t: string): Result<Color, ShadowError> {
    paint(t).MapError(e => ShadowColorError(e))
  }

  /** The field a length role fills. */
  function LengthField(s: BoxShadow, role: Role): real {
    match role
    case HorizontalOffset => s.offsetX
    case VerticalOffset => s.offsetY
    case BlurRadius => s.blurRadius
    case SpreadRadius => s.spreadRadius
    case _ => 0.0
  }

  /** `s` with the field of a length role set to `x`. */
  function WithLength(s: BoxShadow, role: Role, x: real): BoxShadow {
    match role
    case HorizontalOffset => s.(offsetX := x)
    case VerticalOffset => s.(offsetY := x)
    case BlurRadius => s.(blurRadius := x)
    case SpreadRadius => s.(spreadRadius := x)
    case _ => s
  }

  predicate NoEmptyWord(ts: seq<string>) {
    forall i :: 0 <= i < |ts| ==> ts[i] != []
  }

  /** One role per word, and no word empty (as `split_whitespace` guarantees). */
  predicate Readable(roles: seq<Role>, ts: seq<string>) {
    |roles| == |ts| && NoEmptyWord(ts)
  }

  /** Reads one word in its role into the record: what one statement of a source arm does. */
  function ReadOne(paint: ColorReader, shadow: BoxShadow, role: Role, t: string): Result<BoxShadow, ShadowError>
    requires t != []
  {
    if role.IsLength() then
      var x :- Length(t);
      Ok(WithLength(shadow, role, x))
    else if role == ShadowColor then
      var c :- ShadowColorOf(paint, t);
      Ok(shadow.(color := c))
    else
      Ok(shadow)
  }

  /** Reads the words from index `k` on, left to right, each in its role; the first failure is the result. */
  function ReadWords(paint: ColorReader, shadow: BoxShadow, roles: seq<Role>, ts: seq<string>, k: nat): Result<BoxShadow, ShadowError>
    requires Readable(roles, ts) && k <= |ts|
    decreases |ts| - k, 1
  {
    if k == |ts| then Ok(shadow) else ReadWord(paint, shadow, roles, ts, k)
  }

  /** Reads word `k` into the record, then the words after it. */
  function ReadWord(paint: ColorReader, shadow: BoxShadow, roles: seq<Role>, ts: seq<string>, k: nat): Result<BoxShadow, ShadowError>
    requires Readable(roles, ts) && k < |ts|
    decreases |ts| - k, 0
  {
    var next :- ReadOne(paint, shadow, roles[k], ts[k]);
    ReadWords(paint, next, roles, ts, k + 1)
  }

  /** One step of the reading: the word at `k`, then the rest. */
  lemma Step(paint: ColorReader, shadow: BoxShadow, roles: seq<Role>, ts: seq<string>, k: nat)
    requires Readable(roles, ts) && k < |ts|
    ensures ReadWords(paint, shadow, roles, ts, k) ==
              (var next :- ReadOne(paint, shadow, roles[k], ts[k]); ReadWords(paint, next, roles, ts, k + 1))
  {
  }

  /** The clip mode: inset exactly when there are more than two words and the last is "inset". */
  function ClipOf(ts: seq<string>): ClipMode {
    if |ts| > 2 && ts[|ts| - 1] == "inset" then Inset else Outset
  }

  /** The roles of the words of a declaration of two to six words. */
  function DeclarationRoles(ts: seq<string>): (roles: seq<Role>)
    requires 2 <= |ts| <= 6
    ensures |roles| == |ts|
  {
    Roles(|ts|, IsClipKeyword(ts[|ts| - 1]))
  }

  /**
   * The result for the words `ts` of `input`: "none" alone is no shadow, any other single
   * word is an error, two to six words are read by their roles, anything else is too many.
   */
  function ShadowOfWords(paint: ColorReader, input: string, ts: seq<string>): Result<Option<BoxShadow>, ShadowError>
    requires NoEmptyWord(ts)
  {
    var n := |ts|;
    if n == 1 then
      if ts[0] == "none" then Ok(None) else Err(InvalidSingleStatement(input))
    else if 2 <= n <= 6 then
      var shadow :- ReadWords(paint, DefaultShadow.(clipMode := ClipOf(ts)), DeclarationRoles(ts), ts, 0);
      Ok(Some(shadow))
    else
      Err(TooManyComponents(input))
  }

  function ShadowOf(input: string): Result<Option<BoxShadow>, ShadowError> {
    ShadowOfWords(ParseColor, input, Words(input))
  }

  // ---------------------------------------------------------------------------
  // The source's procedure

  /** `parse_css_box_shadow`: sniff the clip keyword, then fill the record by token count. */
  method ParseBoxShadow(input: string) returns (r: Result<Option<BoxShadow>, ShadowError>)
    ensures r == ShadowOf(input)
  {
    var tokens := Words(input);
    var count := |tokens|;
    var shadow := DefaultShadow;

    var lastVal: Option<string> := if count > 0 then Some(tokens[count - 1]) else None;
    var isInset := lastVal == Some("inset") || lastVal == Some("outset");

    if count > 2 && isInset {
      var l := lastVal.value;
      if l == "outset" {
        shadow := shadow.(clipMode := Outset);
      } else if l == "inset" {
        shadow := shadow.(clipMode := Inset);
      }
    }
    assert count >= 2 ==> shadow == DefaultShadow.(clipMode := ClipOf(tokens));

    match count {
    case 1 =>
      if tokens[0] == "none" {
        return Ok(None);
      }
      return Err(InvalidSingleStatement(input));
    case 2 =>
      shadow :- ReadOffsets(ParseColor, shadow, tokens, Roles(2, isInset));
    case 3 =>
      shadow :- FillThree(ParseColor, shadow, tokens, isInset);
    case 4 =>
      shadow :- FillFour(ParseColor, shadow, tokens, isInset);
    case 5 =>
      shadow :- FillFive(ParseColor, shadow, tokens, isInset);
    case 6 =>
      shadow :- FillSix(ParseColor, shadow, tokens, isInset);
    case _ =>
      return Err(TooManyComponents(input));
    }
    return Ok(Some(shadow));
  }

  /** The two offsets every arm of the source reads first. */
  method ReadOffsets(paint: ColorReader, start: BoxShadow, tokens: seq<string>, ghost roles: seq<Role>) returns (r: Result<BoxShadow, ShadowError>)
    requires 2 <= |tokens| && Readable(roles, tokens) && roles[0] == HorizontalOffset && roles[1] == VerticalOffset
    ensures (match r case Err(e) => Err(e) case Ok(s) => ReadWords(paint, s, roles, tokens, 2))
            == ReadWords(paint, start, roles, tokens, 0)
    ensures |tokens| == 2 ==> r == ReadWords(paint, start, roles, tokens, 0)
  {
    Step(paint, start, roles, tokens, 0);
    var h :- Length(tokens[0]);
    Step(paint, start.(offsetX := h), roles, tokens, 1);
    var v :- Length(tokens[1]);
    return Ok(start.(offsetX := h, offsetY := v));
  }

  /** Three words: the offsets, then a colour unless the last word is a clip keyword. */
  method FillThree(paint: ColorReader, start: BoxShadow, tokens: seq<string>, isInset: bool) returns (r: Result<BoxShadow, ShadowError>)
    requires |tokens| == 3 && NoEmptyWord(tokens)
    ensures r == ReadWords(paint, start, Roles(3, isInset), tokens, 0)
  {
    ghost var roles := Roles(3, isInset);
    var shadow :- ReadOffsets(paint, start, tokens, roles);
    Step(paint, shadow, roles, tokens, 2);
    if !isInset {
      var color :- ShadowColorOf(paint, tokens[2]);
      shadow := shadow.(color := color);
    }
    return Ok(shadow);
  }

  /** Four words: the offsets, a blur unless the last word is a clip keyword, then the next word as a colour. */
  method FillFour(paint: ColorReader, start: BoxShadow, tokens: seq<string>, isInset: bool) returns (r: Result<BoxShadow, ShadowError>)
    requires |tokens| == 4 && NoEmptyWord(tokens)
    ensures r == ReadWords(paint, start, Roles(4, isInset), tokens, 0)
  {
    ghost var roles := Roles(4, isInset);
    var shadow :- ReadOffsets(paint, start, tokens, roles);
    var next := 2;
    if !isInset {
      Step(paint, shadow, roles, tokens, 2);
      var blur :- Length(tokens[2]);
      shadow := shadow.(blurRadius := blur);
      next := 3;
    }
    Step(paint, shadow, roles, tokens, next);
    var color :- ShadowColorOf(paint, tokens[next]);
    shadow := shadow.(color := color);
    if isInset {
      Step(paint, shadow, roles, tokens, 3);
    }
    return Ok(shadow);
  }

  /** Five words: the offsets, a blur, a spread unless the last word is a clip keyword, then a colour. */
  method FillFive(paint: ColorReader, start: BoxShadow, tokens: seq<string>, isInset: bool) returns (r: Result<BoxShadow, ShadowError>)
    requires |tokens| == 5 && NoEmptyWord(tokens)
    ensures r == ReadWords(paint, start, Roles(5, isInset), tokens, 0)
  {
    ghost var roles := Roles(5, isInset);
    var shadow :- ReadOffsets(paint, start, tokens, roles);
    Step(paint, shadow, roles, tokens, 2);
    var blur :- Length(tokens[2]);
    shadow := shadow.(blurRadius := blur);
    var next := 3;
    if !isInset {
      Step(paint, shadow, roles, tokens, 3);
      var spread :- Length(tokens[3]);
      shadow := shadow.(spreadRadius := spread);
      next := 4;
    }
    Step(paint, shadow, roles, tokens, next);
    var color :- ShadowColorOf(paint, tokens[next]);
    shadow := shadow.(color := color);
    if isInset {
      Step(paint, shadow, roles, tokens, 4);
    }
    return Ok(shadow);
  }

  /** Six words: the offsets, a blur, a spread and a colour; the sixth word is not read. */
  method FillSix(paint: ColorReader, start: BoxShadow, tokens: seq<string>, isInset: bool) returns (r: Result<BoxShadow, ShadowError>)
    requires |tokens| == 6 && NoEmptyWord(tokens)
    ensures r == ReadWords(paint, start, Roles(6, isInset), tokens, 0)
  {
    ghost var roles := Roles(6, isInset);
    var shadow :- ReadOffsets(paint, start, tokens, roles);
    Step(paint, shadow, roles, tokens, 2);
    var blur :- Length(tokens[2]);
    shadow := shadow.(blurRadius := blur);
    Step(paint, shadow, roles, tokens, 3);
    var spread :- Length(tokens[3]);
    shadow := shadow.(spreadRadius := spread);
    Step(paint, shadow, roles, tokens, 4);
    var color :- ShadowColorOf(paint, tokens[4]);
    shadow := shadow.(color := color);
    Step(paint, shadow, roles, tokens, 5);
    return Ok(shadow);
  }

  // ---------------------------------------------------------------------------
  // What a reading does

  /** Why a word cannot be read in its role, if it cannot. */
  function Failure(paint: ColorReader, role: Role, t: string): (f: Option<ShadowError>)
    requires t != []
  {
    if role.IsLength() then
      match Length(t)
      case Err(e) => Some(e)
      case Ok(_) => None
    else if role == ShadowColor then
      match ShadowColorOf(paint, t)
      case Err(e) => Some(e)
      case Ok(_) => None
    else None
  }

  /** A reading in which no word from `k` on fails in its role succeeds. */
  lemma {:induction false} ReadWordsSucceeds(paint: ColorReader, shadow: BoxShadow, roles: seq<Role>, ts: seq<string>, k: nat)
    requires Readable(roles, ts) && k <= |ts|
    requires forall j :: k <= j < |ts| ==> Failure(paint, roles[j], ts[j]).None?
    ensures ReadWords(paint, shadow, roles, ts, k).Ok?
    decreases |ts| - k
  {
    if k < |ts| {
      var next := ReadOne(paint, shadow, roles[k], ts[k]);
      assert next.Ok? by {
        assert Failure(paint, roles[k], ts[k]).None?;
      }
      ReadWordsSucceeds(paint, next.value, roles, ts, k + 1);
    }
  }

  /** A reading that succeeds could read every word from `k` on in its role. */
  lemma {:induction false} ReadWordsSucceededAll(paint: ColorReader, shadow: BoxShadow, roles: seq<Role>, ts: seq<string>, k: nat, j: nat)
    requires Readable(roles, ts) && k <= j < |ts|
    requires ReadWords(paint, shadow, roles, ts, k).Ok?
    ensures Failure(paint, roles[j], ts[j]).None?
    decreases j - k
  {
    if k < j {
      ReadWordsSucceededAll(paint, ReadOne(paint, shadow, roles[k], ts[k]).value, roles, ts, k + 1, j);
    }
  }

  /** A failing reading reports the failure of its first failing word. */
  lemma {:induction false} ReadWordsFirstFailure(paint: ColorReader, shadow: BoxShadow, roles: seq<Role>, ts: seq<string>, k: nat, j: nat)
    requires Readable(roles, ts) && k <= j < |ts|
    requires Failure(paint, roles[j], ts[j]).Some?
    requires forall i :: k <= i < j ==> Failure(paint, roles[i], ts[i]).None?
    ensures ReadWords(paint, shadow, roles, ts, k) == Err(Failure(paint, roles[j], ts[j]).value)
    decreases j - k
  {
    Step(paint, shadow, roles, ts, k);
    if k < j {
      ReadWordsFirstFailure(paint, ReadOne(paint, shadow, roles[k], ts[k]).value, roles, ts, k + 1, j);
    }
  }

  /** A failing reading fails on a value or on a colour, never for the declaration's shape. */
  lemma {:induction false} ReadWordsErrors(paint: ColorReader, shadow: BoxShadow, roles: seq<Role>, ts: seq<string>, k: nat)
    requires Readable(roles, ts) && k <= |ts|
    ensures ReadWords(paint, shadow, roles, ts, k).Err? ==>
              ReadWords(paint, shadow, roles, ts, k).error.ShadowValueError? || ReadWords(paint, shadow, roles, ts, k).error.ShadowColorError?
    decreases |ts| - k
  {
    if k < |ts| && ReadOne(paint, shadow, roles[k], ts[k]).Ok? {
      ReadWordsErrors(paint, ReadOne(paint, shadow, roles[k], ts[k]).value, roles, ts, k + 1);
    }
  }

  /** `r` with its record's clip mode set to `m`. */
  function WithClip(r: Result<BoxShadow, ShadowError>, m: ClipMode): Result<BoxShadow, ShadowError> {
    match r
    case Err(e) => Err(e)
    case Ok(s) => Ok(s.(clipMode := m))
  }

  /** A reading never touches the clip mode: starting from another clip mode gives the same result with that clip mode. */
  lemma {:induction false} ReadWordsOtherClip(paint: ColorReader, shadow: BoxShadow, m: ClipMode, roles: seq<Role>, ts: seq<string>, k: nat)
    requires Readable(roles, ts) && k <= |ts|
    ensures ReadWords(paint, shadow.(clipMode := m), roles, ts, k) == WithClip(ReadWords(paint, shadow, roles, ts, k), m)
    decreases |ts| - k
  {
    if k < |ts| {
      var r := ReadOne(paint, shadow, roles[k], ts[k]);
      if r.Ok? {
        assert ReadOne(paint, shadow.(clipMode := m), roles[k], ts[k]) == Ok(r.value.(clipMode := m));
        ReadWordsOtherClip(paint, r.value, m, roles, ts, k + 1);
      }
    }
  }

  /** A reading that succeeds keeps the clip mode it started with. */
  lemma {:induction false} ReadWordsKeepsClip(paint: ColorReader, shadow: BoxShadow, roles: seq<Role>, ts: seq<string>, k: nat)
    requires Readable(roles, ts) && k <= |ts|
    requires ReadWords(paint, shadow, roles, ts, k).Ok?
    ensures ReadWords(paint, shadow, roles, ts, k).value.clipMode == shadow.clipMode
    decreases |ts| - k
  {
    if k < |ts| {
      ReadWordsKeepsClip(paint, ReadOne(paint, shadow, roles[k], ts[k]).value, roles, ts, k + 1);
    }
  }

  /** Word `j` is the last one from `k` on that plays `role`. */
  predicate LastAt(roles: seq<Role>, k: nat, j: int, role: Role) {
    k <= j < |roles| && roles[j] == role && role !in roles[j + 1..]
  }

  /** A length field ends up as the last word read into it, or as it was when no word is. */
  lemma {:induction false} ReadWordsLength(paint: ColorReader, shadow: BoxShadow, roles: seq<Role>, ts: seq<string>, k: nat, role: Role)
    requires Readable(roles, ts) && k <= |ts|
    requires role.IsLength() && ReadWords(paint, shadow, roles, ts, k).Ok?
    ensures role !in roles[k..] ==> LengthField(ReadWords(paint, shadow, roles, ts, k).value, role) == LengthField(shadow, role)
    ensures forall j :: LastAt(roles, k, j, role) ==> Length(ts[j]) == Ok(LengthField(ReadWords(paint, shadow, roles, ts, k).value, role))
    decreases |ts| - k
  {
    if k < |ts| {
      assert roles[k..] == [roles[k]] + roles[k + 1..];
      var next := ReadOne(paint, shadow, roles[k], ts[k]).value;
      ReadWordsLength(paint, next, roles, ts, k + 1, role);
      forall j | LastAt(roles, k, j, role)
        ensures Length(ts[j]) == Ok(LengthField(ReadWords(paint, shadow, roles, ts, k).value, role))
      {
        if j == k {
          assert role !in roles[k + 1..];
        } else {
          assert LastAt(roles, k + 1, j, role);
        }
      }
    }
  }

  /** The colour ends up as the last word read as a colour, or as it was when no word is. */
  lemma {:induction false} ReadWordsColor(paint: ColorReader, shadow: BoxShadow, roles: seq<Role>, ts: seq<string>, k: nat)
    requires Readable(roles, ts) && k <= |ts|
    requires ReadWords(paint, shadow, roles, ts, k).Ok?
    ensures ShadowColor !in roles[k..] ==> ReadWords(paint, shadow, roles, ts, k).value.color == shadow.color
    ensures forall j :: LastAt(roles, k, j, ShadowColor) ==>
              ShadowColorOf(paint, ts[j]) == Ok(ReadWords(paint, shadow, roles, ts, k).value.color)
    decreases |ts| - k
  {
    if k < |ts| {
      assert roles[k..] == [roles[k]] + roles[k + 1..];
      var next := ReadOne(paint, shadow, roles[k], ts[k]).value;
      ReadWordsColor(paint, next, roles, ts, k + 1);
      forall j | LastAt(roles, k, j, ShadowColor)
        ensures ShadowColorOf(paint, ts[j]) == Ok(ReadWords(paint, shadow, roles, ts, k).value.color)
      {
        if j > k {
          assert LastAt(roles, k + 1, j, ShadowColor);
        }
      }
    }
  }

  /** From `k` on, two readings read the same words in the same roles; the words they do not read may differ. */
  predicate SameReadWords(roles: seq<Role>, ts: seq<string>, roles': seq<Role>, ts': seq<string>, k: nat)
    requires |roles| == |ts| == |roles'| == |ts'|
  {
    forall i :: k <= i < |ts| ==>
      if roles[i].IsRead() || roles'[i].IsRead() then roles[i] == roles'[i] && ts[i] == ts'[i] else true
  }

  /** Words that are not read, and the roles they are not read in, do not change the result. */
  lemma {:induction false} ReadWordsIgnoresUnread(paint: ColorReader, shadow: BoxShadow, roles: seq<Role>, ts: seq<string>,
                                                  roles': seq<Role>, ts': seq<string>, k: nat)
    requires Readable(roles, ts) && Readable(roles', ts') && |ts| == |ts'| && k <= |ts|
    requires SameReadWords(roles, ts, roles', ts', k)
    ensures ReadWords(paint, shadow, roles, ts, k) == ReadWords(paint, shadow, roles', ts', k)
    decreases |ts| - k
  {
    if k < |ts| {
      assert ReadOne(paint, shadow, roles[k], ts[k]) == ReadOne(paint, shadow, roles'[k], ts'[k]);
      if ReadOne(paint, shadow, roles[k], ts[k]).Ok? {
        ReadWordsIgnoresUnread(paint, ReadOne(paint, shadow, roles[k], ts[k]).value, roles, ts, roles', ts', k + 1);
      }
    }
  }

  // ---------------------------------------------------------------------------
  // What a declaration gives

  /** "none" alone, and nothing else, is no shadow. */
  lemma NoShadowIff(input: string)
    ensures ShadowOf(input) == Ok(None) <==> Words(input) == ["none"]
  {
  }

  /** A single word other than "none" is an invalid statement, and nothing else is. */
  lemma SingleStatementIff(input: string)
    ensures ShadowOf(input) == Err(InvalidSingleStatement(input)) <==> |Words(input)| == 1 && Words(input)[0] != "none"
  {
    var ts := Words(input);
    if 2 <= |ts| <= 6 {
      ReadWordsErrors(ParseColor, DefaultShadow.(clipMode := ClipOf(ts)), DeclarationRoles(ts), ts, 0);
    }
  }

  /** No words or more than six are too many components, and nothing else is. */
  lemma TooManyComponentsIff(input: string)
    ensures ShadowOf(input) == Err(TooManyComponents(input)) <==> |Words(input)| == 0 || |Words(input)| > 6
  {
    var ts := Words(input);
    if 2 <= |ts| <= 6 {
      ReadWordsErrors(ParseColor, DefaultShadow.(clipMode := ClipOf(ts)), DeclarationRoles(ts), ts, 0);
    }
  }

  /** Two to six words make a shadow exactly when every word read can be read in its role. */
  lemma ShadowOkIff(paint: ColorReader, input: string, ts: seq<string>)
    requires NoEmptyWord(ts) && 2 <= |ts| <= 6
    ensures ShadowOfWords(paint, input, ts).Ok? <==>
              forall j :: 0 <= j < |ts| ==> Failure(paint, DeclarationRoles(ts)[j], ts[j]).None?
    ensures ShadowOfWords(paint, input, ts).Ok? ==> ShadowOfWords(paint, input, ts).value.Some?
  {
    var roles, start := DeclarationRoles(ts), DefaultShadow.(clipMode := ClipOf(ts));
    if forall j :: 0 <= j < |ts| ==> Failure(paint, roles[j], ts[j]).None? {
      ReadWordsSucceeds(paint, start, roles, ts, 0);
    }
    if ShadowOfWords(paint, input, ts).Ok? {
      forall j | 0 <= j < |ts|
        ensures Failure(paint, roles[j], ts[j]).None?
      {
        ReadWordsSucceededAll(paint, start, roles, ts, 0, j);
      }
    }
  }

  /** The first word that cannot be read in its role decides the error. */
  lemma ShadowFirstError(paint: ColorReader, input: string, ts: seq<string>, j: nat)
    requires NoEmptyWord(ts) && 2 <= |ts| <= 6 && j < |ts|
    requires Failure(paint, DeclarationRoles(ts)[j], ts[j]).Some?
    requires forall i :: 0 <= i < j ==> Failure(paint, DeclarationRoles(ts)[i], ts[i]).None?
    ensures ShadowOfWords(paint, input, ts) == Err(Failure(paint, DeclarationRoles(ts)[j], ts[j]).value)
  {
    ReadWordsFirstFailure(paint, DefaultShadow.(clipMode := ClipOf(ts)), DeclarationRoles(ts), ts, 0, j);
  }

  /** A shadow is inset exactly when it has more than two words and the last is "inset". */
  lemma ShadowClip(paint: ColorReader, input: string, ts: seq<string>)
    requires NoEmptyWord(ts) && ShadowOfWords(paint, input, ts).Ok? && ShadowOfWords(paint, input, ts).value.Some?
    ensures ShadowOfWords(paint, input, ts).value.value.clipMode == ClipOf(ts)
  {
    ReadWordsKeepsClip(paint, DefaultShadow.(clipMode := ClipOf(ts)), DeclarationRoles(ts), ts, 0);
  }

  /**
   * Each length of a shadow is the word read into it, and is zero when no word is; the colour
   * is the word read as a colour, and black when no word is.
   */
  lemma ShadowFields(paint: ColorReader, input: string, ts: seq<string>)
    requires NoEmptyWord(ts) && 2 <= |ts| <= 6
    requires ShadowOfWords(paint, input, ts).Ok? && ShadowOfWords(paint, input, ts).value.Some?
    ensures var s, roles := ShadowOfWords(paint, input, ts).value.value, DeclarationRoles(ts);
            && (forall j :: 0 <= j < |ts| && roles[j].IsLength() ==> Length(ts[j]) == Ok(LengthField(s, roles[j])))
            && (forall role: Role :: role.IsLength() && role !in roles ==> LengthField(s, role) == 0.0)
            && (forall j :: 0 <= j < |ts| && roles[j] == ShadowColor ==> ShadowColorOf(paint, ts[j]) == Ok(s.color))
            && (ShadowColor !in roles ==> s.color == Black)
  {
    var roles, start := DeclarationRoles(ts), DefaultShadow.(clipMode := ClipOf(ts));
    var s := ShadowOfWords(paint, input, ts).value.value;
    assert roles[0..] == roles;
    RolesDistinct(|ts|, IsClipKeyword(ts[|ts| - 1]));
    forall j | 0 <= j < |ts| && roles[j].IsRead()
      ensures LastAt(roles, 0, j, roles[j])
    {
      assert roles[j] !in roles[j + 1..];
    }
    forall role: Role | role.IsLength()
      ensures role !in roles ==> LengthField(s, role) == 0.0
      ensures forall j :: 0 <= j < |ts| && roles[j] == role ==> Length(ts[j]) == Ok(LengthField(s, role))
    {
      ReadWordsLength(paint, start, roles, ts, 0, role);
    }
    ReadWordsColor(paint, start, roles, ts, 0);
  }

  /** `r` with the clip mode of its shadow, if it has one, set to `m`. */
  function Reclipped(r: Result<Option<BoxShadow>, ShadowError>, m: ClipMode): Result<Option<BoxShadow>, ShadowError> {
    match r
    case Ok(Some(s)) => Ok(Some(s.(clipMode := m)))
    case _ => r
  }

  /** A clip keyword is looked at, never read: the other keyword in its place changes the clip mode only. */
  lemma KeywordOnlySetsClip(paint: ColorReader, input: string, ts: seq<string>, w: string)
    requires NoEmptyWord(ts) && 3 <= |ts| <= 6 && IsClipKeyword(ts[|ts| - 1]) && IsClipKeyword(w)
    ensures NoEmptyWord(ts[|ts| - 1 := w])
    ensures ShadowOfWords(paint, input, ts[|ts| - 1 := w]) == Reclipped(ShadowOfWords(paint, input, ts), ClipOf(ts[|ts| - 1 := w]))
  {
    var us := ts[|ts| - 1 := w];
    LastWordUnread(paint, input, ts, us);
  }

  /** The sixth of six words is never read: any word in its place changes at most the clip mode. */
  lemma SixthWordUnread(paint: ColorReader, input: string, ts: seq<string>, w: string)
    requires NoEmptyWord(ts) && |ts| == 6 && w != []
    ensures NoEmptyWord(ts[5 := w])
    ensures ShadowOfWords(paint, input, ts[5 := w]) == Reclipped(ShadowOfWords(paint, input, ts), ClipOf(ts[5 := w]))
  {
    LastWordUnread(paint, input, ts, ts[5 := w]);
  }

  /** Two declarations that differ in their last word only, which neither reads, differ at most in the clip mode. */
  lemma LastWordUnread(paint: ColorReader, input: string, ts: seq<string>, us: seq<string>)
    requires NoEmptyWord(ts) && NoEmptyWord(us) && 3 <= |ts| == |us| <= 6 && ts[..|ts| - 1] == us[..|us| - 1]
    requires !DeclarationRoles(ts)[|ts| - 1].IsRead() && !DeclarationRoles(us)[|us| - 1].IsRead()
    ensures ShadowOfWords(paint, input, us) == Reclipped(ShadowOfWords(paint, input, ts), ClipOf(us))
  {
    var n := |ts|;
    var roles, roles' := DeclarationRoles(ts), DeclarationRoles(us);
    var start := DefaultShadow.(clipMode := ClipOf(ts));
    forall i | 0 <= i < n - 1
      ensures roles[i] == roles'[i] && ts[i] == us[i]
    {
      assert ts[i] == ts[..n - 1][i];
    }
    assert SameReadWords(roles, ts, roles', us, 0);
    ReadWordsIgnoresUnread(paint, start.(clipMode := ClipOf(us)), roles, ts, roles', us, 0);
    ReadWordsOtherClip(paint, start, ClipOf(us), roles, ts, 0);
  }

  // ---------------------------------------------------------------------------
  // Each token count and keyword, word by word

  /** Two to six words are read in the roles their count and last word give them. */
  lemma ShadowReadsWords(paint: ColorReader, input: string, ts: seq<string>)
    requires NoEmptyWord(ts) && 2 <= |ts| <= 6
    ensures ShadowOfWords(paint, input, ts)
      == (var shadow :- ReadWords(paint, DefaultShadow.(clipMode := ClipOf(ts)), DeclarationRoles(ts), ts, 0); Ok(Some(shadow)))
  {
  }

  /** A word read as a length sets the field of its role. */
  lemma ReadLength(paint: ColorReader, s: BoxShadow, roles: seq<Role>, ts: seq<string>, k: nat, x: real)
    requires Readable(roles, ts) && k < |ts| && roles[k].IsLength() && Pixels(ts[k]) == Ok(x)
    ensures ReadWords(paint, s, roles, ts, k) == ReadWords(paint, WithLength(s, roles[k], x), roles, ts, k + 1)
  {
  }

  /** A word read as a colour sets the colour. */
  lemma ReadColor(paint: ColorReader, s: BoxShadow, roles: seq<Role>, ts: seq<string>, k: nat, c: Color)
    requires Readable(roles, ts) && k < |ts| && roles[k] == ShadowColor && paint(ts[k]) == Ok(c)
    ensures ReadWords(paint, s, roles, ts, k) == ReadWords(paint, s.(color := c), roles, ts, k + 1)
  {
  }

  /** A word that is not read leaves the shadow as it is. */
  lemma ReadUnread(paint: ColorReader, s: BoxShadow, roles: seq<Role>, ts: seq<string>, k: nat)
    requires Readable(roles, ts) && k < |ts| && !roles[k].IsRead()
    ensures ReadWords(paint, s, roles, ts, k) == ReadWords(paint, s, roles, ts, k + 1)
  {
  }

  /** The first two words are always the offsets. */
  lemma ReadsOffsets(paint: ColorReader, s: BoxShadow, roles: seq<Role>, ts: seq<string>, x: real, y: real)
    requires Readable(roles, ts) && |ts| >= 2 && roles[0] == HorizontalOffset && roles[1] == VerticalOffset
    requires Pixels(ts[0]) == Ok(x) && Pixels(ts[1]) == Ok(y)
    ensures ReadWords(paint, s, roles, ts, 0) == ReadWords(paint, s.(offsetX := x, offsetY := y), roles, ts, 2)
  {
    ReadLength(paint, s, roles, ts, 0, x);
    ReadLength(paint, s.(offsetX := x), roles, ts, 1, y);
  }

  /** Blur then spread radius, as the third and fourth words of a long declaration. */
  lemma ReadsRadii(paint: ColorReader, s: BoxShadow, roles: seq<Role>, ts: seq<string>, z: real, w: real)
    requires Readable(roles, ts) && |ts| >= 4 && roles[2] == BlurRadius && roles[3] == SpreadRadius
    requires Pixels(ts[2]) == Ok(z) && Pixels(ts[3]) == Ok(w)
    ensures ReadWords(paint, s, roles, ts, 2) == ReadWords(paint, s.(blurRadius := z, spreadRadius := w), roles, ts, 4)
  {
    ReadLength(paint, s, roles, ts, 2, z);
    ReadLength(paint, s.(blurRadius := z), roles, ts, 3, w);
  }

  /** Two words: the offsets, with the defaults for everything else. */
  lemma OffsetsShadow(paint: ColorReader, input: string, ts: seq<string>, x: real, y: real)
    requires |ts| == 2 && NoEmptyWord(ts)
    requires Pixels(ts[0]) == Ok(x) && Pixels(ts[1]) == Ok(y)
    ensures ShadowOfWords(paint, input, ts) == Ok(Some(DefaultShadow.(offsetX := x, offsetY := y)))
  {
    var roles := [HorizontalOffset, VerticalOffset];
    assert DeclarationRoles(ts) == roles && ClipOf(ts) == Outset;
    ShadowReadsWords(paint, input, ts);
    ReadsOffsets(paint, DefaultShadow, roles, ts, x, y);
  }

  /** Three words ending in a colour: the offsets and the colour. */
  lemma OffsetsColorShadow(paint: ColorReader, input: string, ts: seq<string>, x: real, y: real, col: Color)
    requires |ts| == 3 && NoEmptyWord(ts) && !IsClipKeyword(ts[2])
    requires Pixels(ts[0]) == Ok(x) && Pixels(ts[1]) == Ok(y) && paint(ts[2]) == Ok(col)
    ensures ShadowOfWords(paint, input, ts) == Ok(Some(DefaultShadow.(offsetX := x, offsetY := y, color := col)))
  {
    var roles := [HorizontalOffset, VerticalOffset, ShadowColor];
    assert DeclarationRoles(ts) == roles && ClipOf(ts) == Outset;
    ShadowReadsWords(paint, input, ts);
    ReadsOffsets(paint, DefaultShadow, roles, ts, x, y);
    ReadColor(paint, DefaultShadow.(offsetX := x, offsetY := y), roles, ts, 2, col);
  }

  /** Three words ending in a keyword: the offsets and the clip mode the keyword names. */
  lemma OffsetsKeywordShadow(paint: ColorReader, input: string, ts: seq<string>, x: real, y: real)
    requires |ts| == 3 && NoEmptyWord(ts) && IsClipKeyword(ts[2])
    requires Pixels(ts[0]) == Ok(x) && Pixels(ts[1]) == Ok(y)
    ensures ShadowOfWords(paint, input, ts)
      == Ok(Some(DefaultShadow.(offsetX := x, offsetY := y, clipMode := if ts[2] == "inset" then Inset else Outset)))
  {
    var roles := [HorizontalOffset, VerticalOffset, ClipKeyword];
    var s0 := DefaultShadow.(clipMode := ClipOf(ts));
    assert DeclarationRoles(ts) == roles;
    ShadowReadsWords(paint, input, ts);
    ReadsOffsets(paint, s0, roles, ts, x, y);
    ReadUnread(paint, s0.(offsetX := x, offsetY := y), roles, ts, 2);
  }

  /** Four words ending in a colour: the offsets, the blur radius and the colour. */
  lemma BlurColorShadow(paint: ColorReader, input: string, ts: seq<string>, x: real, y: real, z: real, col: Color)
    requires |ts| == 4 && NoEmptyWord(ts) && !IsClipKeyword(ts[3])
    requires Pixels(ts[0]) == Ok(x) && Pixels(ts[1]) == Ok(y) && Pixels(ts[2]) == Ok(z) && paint(ts[3]) == Ok(col)
    ensures ShadowOfWords(paint, input, ts)
      == Ok(Some(DefaultShadow.(offsetX := x, offsetY := y, blurRadius := z, color := col)))
  {
    var roles := [HorizontalOffset, VerticalOffset, BlurRadius, ShadowColor];
    assert DeclarationRoles(ts) == roles && ClipOf(ts) == Outset;
    ShadowReadsWords(paint, input, ts);
    ReadsOffsets(paint, DefaultShadow, roles, ts, x, y);
    ReadLength(paint, DefaultShadow.(offsetX := x, offsetY := y), roles, ts, 2, z);
    ReadColor(paint, DefaultShadow.(offsetX := x, offsetY := y, blurRadius := z), roles, ts, 3, col);
  }

  /** Four words ending in a keyword: the third word is the colour, and no blur radius is read. */
  lemma ColorKeywordShadow(paint: ColorReader, input: string, ts: seq<string>, x: real, y: real, col: Color)
    requires |ts| == 4 && NoEmptyWord(ts) && IsClipKeyword(ts[3])
    requires Pixels(ts[0]) == Ok(x) && Pixels(ts[1]) == Ok(y) && paint(ts[2]) == Ok(col)
    ensures ShadowOfWords(paint, input, ts)
      == Ok(Some(DefaultShadow.(offsetX := x, offsetY := y, color := col, clipMode := if ts[3] == "inset" then Inset else Outset)))
  {
    var roles := [HorizontalOffset, VerticalOffset, ShadowColor, ClipKeyword];
    var s0 := DefaultShadow.(clipMode := ClipOf(ts));
    assert DeclarationRoles(ts) == roles;
    ShadowReadsWords(paint, input, ts);
    ReadsOffsets(paint, s0, roles, ts, x, y);
    ReadColor(paint, s0.(offsetX := x, offsetY := y), roles, ts, 2, col);
    ReadUnread(paint, s0.(offsetX := x, offsetY := y, color := col), roles, ts, 3);
  }

  /** Five words ending in a colour: the offsets, the blur and spread radii and the colour. */
  lemma SpreadColorShadow(paint: ColorReader, input: string, ts: seq<string>, x: real, y: real, z: real, w: real, col: Color)
    requires |ts| == 5 && NoEmptyWord(ts) && !IsClipKeyword(ts[4])
    requires Pixels(ts[0]) == Ok(x) && Pixels(ts[1]) == Ok(y) && Pixels(ts[2]) == Ok(z) && Pixels(ts[3]) == Ok(w)
    requires paint(ts[4]) == Ok(col)
    ensures ShadowOfWords(paint, input, ts)
      == Ok(Some(DefaultShadow.(offsetX := x, offsetY := y, blurRadius := z, spreadRadius := w, color := col)))
  {
    var roles := [HorizontalOffset, VerticalOffset, BlurRadius, SpreadRadius, ShadowColor];
    assert DeclarationRoles(ts) == roles && ClipOf(ts) == Outset;
    ShadowReadsWords(paint, input, ts);
    ReadsOffsets(paint, DefaultShadow, roles, ts, x, y);
    ReadsRadii(paint, DefaultShadow.(offsetX := x, offsetY := y), roles, ts, z, w);
    ReadColor(paint, DefaultShadow.(offsetX := x, offsetY := y, blurRadius := z, spreadRadius := w), roles, ts, 4, col);
  }

  /** Five words ending in a keyword: the offsets, the blur radius and the colour; no spread radius is read. */
  lemma BlurColorKeywordShadow(paint: ColorReader, input: string, ts: seq<string>, x: real, y: real, z: real, col: Color)
    requires |ts| == 5 && NoEmptyWord(ts) && IsClipKeyword(ts[4])
    requires Pixels(ts[0]) == Ok(x) && Pixels(ts[1]) == Ok(y) && Pixels(ts[2]) == Ok(z) && paint(ts[3]) == Ok(col)
    ensures ShadowOfWords(paint, input, ts)
      == Ok(Some(DefaultShadow.(offsetX := x, offsetY := y, blurRadius := z, color := col,
                                clipMode := if ts[4] == "inset" then Inset else Outset)))
  {
    var roles := [HorizontalOffset, VerticalOffset, BlurRadius, ShadowColor, ClipKeyword];
    var s0 := DefaultShadow.(clipMode := ClipOf(ts));
    assert DeclarationRoles(ts) == roles;
    ShadowReadsWords(paint, input, ts);
    ReadsOffsets(paint, s0, roles, ts, x, y);
    ReadLength(paint, s0.(offsetX := x, offsetY := y), roles, ts, 2, z);
    ReadColor(paint, s0.(offsetX := x, offsetY := y, blurRadius := z), roles, ts, 3, col);
    ReadUnread(paint, s0.(offsetX := x, offsetY := y, blurRadius := z, color := col), roles, ts, 4);
  }

  /** Six words: four lengths and the colour; the sixth word only decides the clip mode. */
  lemma SixWordShadow(paint: ColorReader, input: string, ts: seq<string>, x: real, y: real, z: real, w: real, col: Color)
    requires |ts| == 6 && NoEmptyWord(ts)
    requires Pixels(ts[0]) == Ok(x) && Pixels(ts[1]) == Ok(y) && Pixels(ts[2]) == Ok(z) && Pixels(ts[3]) == Ok(w)
    requires paint(ts[4]) == Ok(col)
    ensures ShadowOfWords(paint, input, ts)
      == Ok(Some(DefaultShadow.(offsetX := x, offsetY := y, blurRadius := z, spreadRadius := w, color := col,
                                clipMode := if ts[5] == "inset" then Inset else Outset)))
  {
    var roles := DeclarationRoles(ts);
    SixRoles(IsClipKeyword(ts[5]));
    SixWordsRead(paint, ts, roles, DefaultShadow.(clipMode := ClipOf(ts)), x, y, z, w, col);
    ShadowReadsWords(paint, input, ts);
  }

  lemma SixRoles(keyword: bool)
    ensures var roles := Roles(6, keyword);
      roles[2] == BlurRadius && roles[3] == SpreadRadius && roles[4] == ShadowColor && !roles[5].IsRead()
  {
  }

  lemma SixWordsRead(paint: ColorReader, ts: seq<string>, roles: seq<Role>, s0: BoxShadow, x: real, y: real, z: real, w: real, col: Color)
    requires |ts| == 6 && NoEmptyWord(ts) && |roles| == 6
    requires roles[0] == HorizontalOffset && roles[1] == VerticalOffset && roles[2] == BlurRadius && roles[3] == SpreadRadius
    requires roles[4] == ShadowColor && !roles[5].IsRead()
    requires Pixels(ts[0]) == Ok(x) && Pixels(ts[1]) == Ok(y) && Pixels(ts[2]) == Ok(z) && Pixels(ts[3]) == Ok(w)
    requires paint(ts[4]) == Ok(col)
    ensures ReadWords(paint, s0, roles, ts, 0)
      == Ok(s0.(offsetX := x, offsetY := y, blurRadius := z, spreadRadius := w, color := col))
  {
    ReadsOffsets(paint, s0, roles, ts, x, y);
    ReadsRadii(paint, s0.(offsetX := x, offsetY := y), roles, ts, z, w);
    ReadColor(paint, s0.(offsetX := x, offsetY := y, blurRadius := z, spreadRadius := w), roles, ts, 4, col);
    ReadUnread(paint, s0.(offsetX := x, offsetY := y, blurRadius := z, spreadRadius := w, color := col), roles, ts, 5);
  }

  // ---------------------------------------------------------------------------
  // The source's examples
  //
  // Each longer example goes in three steps: the text splits into its words (`...Words`), the
  // words are named one by one (`...OfWords`), and the lemma for that word count reads them
  // (`...OfFacts`).

  const Grey: Color := Color(136, 136, 136, 255)

  lemma NoneExample()
    ensures ShadowOf("none") == Ok(None)
  {
    assert Unwords(["none"]) == "none";
    WordsOfUnwords(["none"]);
  }

  /** The offsets alone, with the defaults for the rest. */
  lemma OffsetsExample()
    ensures ShadowOf("5px 10px") == Ok(Some(DefaultShadow.(offsetX := 5.0, offsetY := 10.0)))
  {
    OffsetsWords();
    Five();
    Ten();
    OffsetsShadow(ParseColor, "5px 10px", ["5px", "10px"], 5.0, 10.0);
  }

  lemma OffsetsWords()
    ensures Words("5px 10px") == ["5px", "10px"]
  {
    OffsetsText();
    WordsOfUnwords(["5px", "10px"]);
  }

  lemma OffsetsText()
    ensures Unwords(["5px", "10px"]) == "5px 10px"
  {
  }

  /** A third word that is not a keyword is the colour. */
  lemma ColoredExample()
    ensures ShadowOf("5px 10px #888888") == Ok(Some(DefaultShadow.(offsetX := 5.0, offsetY := 10.0, color := Grey)))
  {
    ColoredWords();
    ColoredOfWords("5px 10px #888888");
  }

  lemma ColoredOfWords(input: string)
    requires Words(input) == ["5px", "10px", "#888888"]
    ensures ShadowOf(input) == Ok(Some(DefaultShadow.(offsetX := 5.0, offsetY := 10.0, color := Grey)))
  {
    ColoredOfFacts(input, Words(input));
  }

  lemma ColoredOfFacts(input: string, ts: seq<string>)
    requires Words(input) == ts && |ts| == 3
    requires ts[0] == "5px" && ts[1] == "10px" && ts[2] == "#888888"
    ensures ShadowOf(input) == Ok(Some(DefaultShadow.(offsetX := 5.0, offsetY := 10.0, color := Grey)))
  {
    GreyExample();
    Five();
    Ten();
    OffsetsColorShadow(ParseColor, input, ts, 5.0, 10.0, Grey);
  }

  lemma ColoredWords()
    ensures Words("5px 10px #888888") == ["5px", "10px", "#888888"]
  {
    ColoredText();
    WordsOfUnwords(["5px", "10px", "#888888"]);
  }

  lemma ColoredText()
    ensures Unwords(["5px", "10px", "#888888"]) == "5px 10px #888888"
  {
  }

  /** A keyword as the third word sets the clip mode. */
  lemma InsetExample()
    ensures ShadowOf("5px 10px inset") == Ok(Some(DefaultShadow.(offsetX := 5.0, offsetY := 10.0, clipMode := Inset)))
  {
    InsetWords();
    Five();
    Ten();
    OffsetsKeywordShadow(ParseColor, "5px 10px inset", ["5px", "10px", "inset"], 5.0, 10.0);
  }

  lemma InsetWords()
    ensures Words("5px 10px inset") == ["5px", "10px", "inset"]
  {
    InsetText();
    WordsOfUnwords(["5px", "10px", "inset"]);
  }

  lemma InsetText()
    ensures Unwords(["5px", "10px", "inset"]) == "5px 10px inset"
  {
  }

  lemma OutsetExample()
    ensures ShadowOf("5px 10px outset") == Ok(Some(DefaultShadow.(offsetX := 5.0, offsetY := 10.0)))
  {
    OutsetWords();
    Five();
    Ten();
    OffsetsKeywordShadow(ParseColor, "5px 10px outset", ["5px", "10px", "outset"], 5.0, 10.0);
  }

  lemma OutsetWords()
    ensures Words("5px 10px outset") == ["5px", "10px", "outset"]
  {
    OutsetText();
    WordsOfUnwords(["5px", "10px", "outset"]);
  }

  lemma OutsetText()
    ensures Unwords(["5px", "10px", "outset"]) == "5px 10px outset"
  {
  }

  /** Four words without a keyword: a blur radius, then the colour. */
  lemma BlurredExample()
    ensures ShadowOf("5px 10px 5px #888888") == Ok(Some(DefaultShadow.(offsetX := 5.0, offsetY := 10.0, color := Grey, blurRadius := 5.0)))
  {
    BlurredWords();
    BlurredOfWords("5px 10px 5px #888888");
  }

  lemma BlurredOfWords(input: string)
    requires Words(input) == ["5px", "10px", "5px", "#888888"]
    ensures ShadowOf(input) == Ok(Some(DefaultShadow.(offsetX := 5.0, offsetY := 10.0, color := Grey, blurRadius := 5.0)))
  {
    BlurredOfFacts(input, Words(input));
  }

  lemma BlurredOfFacts(input: string, ts: seq<string>)
    requires Words(input) == ts && |ts| == 4
    requires ts[0] == "5px" && ts[1] == "10px" && ts[2] == "5px" && ts[3] == "#888888"
    ensures ShadowOf(input) == Ok(Some(DefaultShadow.(offsetX := 5.0, offsetY := 10.0, color := Grey, blurRadius := 5.0)))
  {
    GreyExample();
    Five();
    Ten();
    BlurColorShadow(ParseColor, input, ts, 5.0, 10.0, 5.0, Grey);
  }

  lemma BlurredWords()
    ensures Words("5px 10px 5px #888888") == ["5px", "10px", "5px", "#888888"]
  {
    BlurredText();
    WordsOfUnwords(["5px", "10px", "5px", "#888888"]);
  }

  lemma BlurredText()
    ensures Unwords(["5px", "10px", "5px", "#888888"]) == "5px 10px 5px #888888"
  {
  }

  /** Four words with a keyword: the third word is the colour. */
  lemma ColoredInsetExample()
    ensures ShadowOf("5px 10px #888888 inset") == Ok(Some(DefaultShadow.(offsetX := 5.0, offsetY := 10.0, color := Grey, clipMode := Inset)))
  {
    ColoredInsetWords();
    ColoredInsetOfWords("5px 10px #888888 inset");
  }

  lemma ColoredInsetOfWords(input: string)
    requires Words(input) == ["5px", "10px", "#888888", "inset"]
    ensures ShadowOf(input) == Ok(Some(DefaultShadow.(offsetX := 5.0, offsetY := 10.0, color := Grey, clipMode := Inset)))
  {
    ColoredInsetOfFacts(input, Words(input));
  }

  lemma ColoredInsetOfFacts(input: string, ts: seq<string>)
    requires Words(input) == ts && |ts| == 4
    requires ts[0] == "5px" && ts[1] == "10px" && ts[2] == "#888888" && ts[3] == "inset"
    ensures ShadowOf(input) == Ok(Some(DefaultShadow.(offsetX := 5.0, offsetY := 10.0, color := Grey, clipMode := Inset)))
  {
    GreyExample();
    Five();
    Ten();
    ColorKeywordShadow(ParseColor, input, ts, 5.0, 10.0, Grey);
  }

  lemma ColoredInsetWords()
    ensures Words("5px 10px #888888 inset") == ["5px", "10px", "#888888", "inset"]
  {
    ColoredInsetText();
    WordsOfUnwords(["5px", "10px", "#888888", "inset"]);
  }

  lemma ColoredInsetText()
    ensures Unwords(["5px", "10px", "#888888", "inset"]) == "5px 10px #888888 inset"
  {
    assert "5px 10px #888888 inset" == "5px" + " " + ("10px" + " " + ("#888888" + " " + "inset"));
  }

  lemma BlurredInsetExample()
    ensures ShadowOf("5px 10px 5px #888888 inset") == Ok(Some(DefaultShadow.(offsetX := 5.0, offsetY := 10.0, color := Grey, blurRadius := 5.0, clipMode := Inset)))
  {
    BlurredInsetWords();
    BlurredInsetOfWords("5px 10px 5px #888888 inset");
  }

  lemma BlurredInsetOfWords(input: string)
    requires Words(input) == ["5px", "10px", "5px", "#888888", "inset"]
    ensures ShadowOf(input) == Ok(Some(DefaultShadow.(offsetX := 5.0, offsetY := 10.0, color := Grey, blurRadius := 5.0, clipMode := Inset)))
  {
    BlurredInsetOfFacts(input, Words(input));
  }

  lemma BlurredInsetOfFacts(input: string, ts: seq<string>)
    requires Words(input) == ts && |ts| == 5
    requires ts[0] == "5px" && ts[1] == "10px" && ts[2] == "5px" && ts[3] == "#888888" && ts[4] == "inset"
    ensures ShadowOf(input) == Ok(Some(DefaultShadow.(offsetX := 5.0, offsetY := 10.0, color := Grey, blurRadius := 5.0, clipMode := Inset)))
  {
    GreyExample();
    Five();
    Ten();
    BlurColorKeywordShadow(ParseColor, input, ts, 5.0, 10.0, 5.0, Grey);
  }

  lemma BlurredInsetWords()
    ensures Words("5px 10px 5px #888888 inset") == ["5px", "10px", "5px", "#888888", "inset"]
  {
    BlurredInsetText();
    WordsOfUnwords(["5px", "10px", "5px", "#888888", "inset"]);
  }

  lemma BlurredInsetText()
    ensures Unwords(["5px", "10px", "5px", "#888888", "inset"]) == "5px 10px 5px #888888 inset"
  {
  }

  /** Five words without a keyword: blur, spread, then the colour. */
  lemma SpreadExample()
    ensures ShadowOf("5px 10px 5px 10px #888888") == Ok(Some(DefaultShadow.(offsetX := 5.0, offsetY := 10.0, color := Grey, blurRadius := 5.0, spreadRadius := 10.0)))
  {
    SpreadWords();
    SpreadOfWords("5px 10px 5px 10px #888888");
  }

  lemma SpreadOfWords(input: string)
    requires Words(input) == ["5px", "10px", "5px", "10px", "#888888"]
    ensures ShadowOf(input) == Ok(Some(DefaultShadow.(offsetX := 5.0, offsetY := 10.0, color := Grey, blurRadius := 5.0, spreadRadius := 10.0)))
  {
    SpreadOfFacts(input, Words(input));
  }

  lemma SpreadOfFacts(input: string, ts: seq<string>)
    requires Words(input) == ts && |ts| == 5
    requires ts[0] == "5px" && ts[1] == "10px" && ts[2] == "5px" && ts[3] == "10px" && ts[4] == "#888888"
    ensures ShadowOf(input) == Ok(Some(DefaultShadow.(offsetX := 5.0, offsetY := 10.0, color := Grey, blurRadius := 5.0, spreadRadius := 10.0)))
  {
    GreyExample();
    Five();
    Ten();
    SpreadColorShadow(ParseColor, input, ts, 5.0, 10.0, 5.0, 10.0, Grey);
  }

  lemma SpreadWords()
    ensures Words("5px 10px 5px 10px #888888") == ["5px", "10px", "5px", "10px", "#888888"]
  {
    SpreadText();
    WordsOfUnwords(["5px", "10px", "5px", "10px", "#888888"]);
  }

  lemma SpreadText()
    ensures Unwords(["5px", "10px", "5px", "10px", "#888888"]) == "5px 10px 5px 10px #888888"
  {
    assert "5px 10px 5px 10px #888888" == "5px" + " " + ("10px" + " " + ("5px" + " " + ("10px" + " " + "#888888")));
  }

  lemma SpreadInsetExample()
    ensures ShadowOf("5px 10px 5px 10px #888888 inset") == Ok(Some(DefaultShadow.(offsetX := 5.0, offsetY := 10.0, color := Grey, blurRadius := 5.0, spreadRadius := 10.0, clipMode := Inset)))
  {
    SpreadInsetWords();
    SpreadInsetOfWords("5px 10px 5px 10px #888888 inset");
  }

  lemma SpreadInsetOfWords(input: string)
    requires Words(input) == ["5px", "10px", "5px", "10px", "#888888", "inset"]
    ensures ShadowOf(input) == Ok(Some(DefaultShadow.(offsetX := 5.0, offsetY := 10.0, color := Grey, blurRadius := 5.0, spreadRadius := 10.0, clipMode := Inset)))
  {
    SpreadInsetOfFacts(input, Words(input));
  }

  lemma SpreadInsetOfFacts(input: string, ts: seq<string>)
    requires Words(input) == ts && |ts| == 6
    requires ts[0] == "5px" && ts[1] == "10px" && ts[2] == "5px" && ts[3] == "10px" && ts[4] == "#888888" && ts[5] == "inset"
    ensures ShadowOf(input) == Ok(Some(DefaultShadow.(offsetX := 5.0, offsetY := 10.0, color := Grey, blurRadius := 5.0, spreadRadius := 10.0, clipMode := Inset)))
  {
    GreyExample();
    Five();
    Ten();
    SixWordShadow(ParseColor, input, ts, 5.0, 10.0, 5.0, 10.0, Grey);
  }

  lemma SpreadInsetWords()
    ensures Words("5px 10px 5px 10px #888888 inset") == ["5px", "10px", "5px", "10px", "#888888", "inset"]
  {
    SpreadInsetText();
    WordsOfUnwords(["5px", "10px", "5px", "10px", "#888888", "inset"]);
  }

  lemma SpreadInsetText()
    ensures Unwords(["5px", "10px", "5px", "10px", "#888888", "inset"]) == "5px 10px 5px 10px #888888 inset"
  {
    assert "5px 10px 5px 10px #888888 inset" == "5px" + " " + ("10px" + " " + ("5px" + " " + ("10px" + " " + ("#888888" + " " + "inset"))));
  }
}
