# CSS property parsers

A model of `src/css_parser.rs`, the parsers that turn CSS property values into typed data:
hexadecimal and named colours, `px`/`em` lengths, `border-radius`, `border` and `box-shadow`
declarations, and the four gradient functions accepted for `background`
(`linear-gradient`, `repeating-linear-gradient`, `radial-gradient` and
`repeating-radial-gradient`), including their directions, shapes and colour stops and the pass
that gives every stop an offset.

Every parser splits its input into tokens, branches on the number of tokens and reads them by
position. The model keeps that structure, one module per group of parsers:

- `Wrappers` holds the `Option` and `Result` types.
- `Text` models the Rust string operations the parsers rely on: `split_whitespace`, `split`,
  and `splitn`/`rsplitn` with two pieces.
- `Numbers` models the decimal grammar of `str::parse::<f32>`, read as an exact real.
- `Lengths` models `PixelValue` and `parse_pixel_value`. The character loop is a method,
  proved equal to a function.
- `ColorTable` holds the 149 named colours in source order. `Colors` models `parse_css_color`,
  `parse_color_builtin` and `parse_color_no_hash`.
- `Borders` models `parse_css_border_radius`, `parse_css_border` and `parse_border_style`.
- `BoxShadows` models `parse_css_box_shadow`. The mutable record that the source fills branch
  by branch is a method. It is proved equal to a table giving each word its role, for each
  token count and for whether a clip keyword comes last.
- `Directions` models `DirectionCorner::opposite` and `combine`, `parse_direction`,
  `parse_direction_corner` and `parse_shape`.
- `Gradients` models `parse_gradient_stop`, `parse_percentage` and `parse_css_background`.
  The offset-normalisation loop runs in place on an `array`, as the source's `Vec` does. It is
  proved equal to `Normalized`, a specification that says for each stop which anchors it lies
  between.

Colours are four bytes. Lengths, angles and offsets are `real`. The box-shadow and gradient
parsers are stated for any colour reader (`ColorReader`) and instantiated with `ParseColor`.
Their lemmas therefore hold whatever the colour words mean.

Behaviour of the code that the model follows, some of it unexpected:

- A four-word shadow ending in `inset` or `outset` reads its third word as the colour. No
  blur radius is read.
- A bad `border-radius` component returns the length error unchanged. The error does not say
  which corner it came from.
- `test_parse_radial_gradient_2` expects the offsets 0.1, 0.5, 0.75 and 1. The code yields 10,
  50, 50 and 1: a percentage is not divided by 100, and the first unset stop of a run takes the
  previous anchor's offset.

## Model

| member | source | states |
|---|---|---|
| Text.Words | src/css_parser.rs:513 | `split_whitespace`: every word is non-empty and free of whitespace |
| Text.WordsOfUnwords | src/css_parser.rs:513 | joining words with single spaces and splitting again gives back the same words |
| Text.Split | src/css_parser.rs:790 | `split(',')`: at least one piece, no piece contains the separator, and joining the pieces gives back the input |
| Text.SplitJoin | src/css_parser.rs:790 | splitting a join of separator-free pieces gives back those pieces |
| Text.SplitFirst | src/css_parser.rs:763-764 | `splitn(2, '(')`: the first piece has no separator and, with the rest, rebuilds the input |
| Text.SplitFirstAtFirst | src/css_parser.rs:763-777 | the split is made at the first separator |
| Text.SplitLast | src/css_parser.rs:779-781 | `rsplitn(2, ')')`: the last piece has no separator and, with the rest, rebuilds the input |
| Text.SplitLastAtLast | src/css_parser.rs:779-786 | the split is made at the last separator |
| Text.TextBefore | src/css_parser.rs:1017-1018 | `split(pattern).next()`: the longest prefix in which the pattern does not start, ending where it first starts |
| Text.TextBeforeAt | src/css_parser.rs:1017-1018 | when the pattern first starts at k, the text before it is the first k characters |
| Numbers.ParseFloat | src/css_parser.rs:165 | every finite decimal that parses contains a digit; the digit-free words `inf`, `infinity` and `nan` that Rust also accepts are left out |
| Numbers.NatTextParses | src/css_parser.rs:165 | the decimal numeral of a whole number parses to that number |
| Numbers.DecimalParses | src/css_parser.rs:165 | digits, a '.' and digits parse to the decimal value they write |
| Numbers.DigitsThenLetter | src/css_parser.rs:165 | digits followed by a letter that is neither '.' nor an exponent mark are no number |
| Lengths.ParsePixelValue | src/css_parser.rs:146-171 | the backward character scan returns what `PixelValueOf` states: the unit is the text after the last digit-or-'.', and only `px` and `em` are units |
| Lengths.PixelValueOfIff | src/css_parser.rs:146-171 | a length is `n` pixels or `n` em exactly when the text is a number followed by `px` or `em` and the number reads as `n` |
| Lengths.UnitAfterNumber | src/css_parser.rs:146-171 | with a number before a known unit, the result is that unit and the number, or the float error |
| Lengths.NoNumberIsError | src/css_parser.rs:146-171 | without any digit or '.', the whole input is reported as the invalid component (or a float error when it reads as a bare unit) |
| Lengths.OnlyPxAndEm | src/css_parser.rs:159-170 | only text ending in `px` or `em` is a length; anything else is `InvalidComponent` |
| Lengths.PixelsNeverTooMany | src/css_parser.rs:146-171 | a single length never fails with `TooManyValues` |
| Lengths.FifteenPixels | src/css_parser.rs:1390-1393 | "15px" is 15 pixels |
| Lengths.PixelValue.ToPixels | src/css_parser.rs:25-30 | pixels stay as they are and an em is 16 pixels; `OnePointTwoEm` pins the em case down |
| Lengths.OnePointTwoEm | src/css_parser.rs:1395-1398 | "1.2em" is 1.2 em, which is 19.2 pixels at the 16-pixel em height |
| Lengths.NotALength | src/css_parser.rs:1400-1403 | a word without digits or a unit is reported whole as the invalid component |
| ColorTable.LookupSelectsFirst | src/css_parser.rs:193-343 | a name selects the hex literal of the first row that spells it in either form |
| ColorTable.LookupNothing | src/css_parser.rs:343 | a name no row spells selects nothing |
| ColorTable.LookupMisses | src/css_parser.rs:343 | when nothing is selected, no row spells the name |
| ColorTable.SpellingsSelectTheirRow | src/css_parser.rs:193-342 | both spellings of every row select that row's colour |
| Colors.HexDigitValue | src/css_parser.rs:355-362 | a hexadecimal digit is worth less than 16 |
| Colors.FromStrRadix16 | src/css_parser.rs:403-420 | a value parsed from hexadecimal fits in 32 bits |
| Colors.ParseColorNoHash | src/css_parser.rs:351-422 | the lengths 3, 4, 6 and 8 are the only ones not rejected as `InvalidColor`; the 3- and 6-digit forms are opaque |
| Colors.ShortFormChannels | src/css_parser.rs:365-402 | in the 3- and 4-digit forms each digit `d` is the channel `d * 16 + d`; a fourth digit is alpha, otherwise alpha is 255 |
| Colors.ShortFormFirstBadDigit | src/css_parser.rs:365-402 | in the short forms the first non-hexadecimal character is reported as `InvalidColorComponent` |
| Colors.SixDigitChannels | src/css_parser.rs:403-411 | six digits are RRGGBB, opaque |
| Colors.EightDigitChannels | src/css_parser.rs:412-420 | eight digits are RRGGBBAA |
| Colors.LongFormRejectsNonDigit | src/css_parser.rs:403-420 | in the long forms, a non-hexadecimal character anywhere after the first is `ValueParseErr` |
| Colors.LeadingPlusAccepted | src/css_parser.rs:404 | "+FFFFF" is accepted, as `from_str_radix` takes a leading '+' |
| Colors.Hex8RoundTrip | src/css_parser.rs:412-420 | writing any colour as eight hexadecimal digits, with or without '#', and parsing it gives the colour back |
| Colors.Hex6RoundTrip | src/css_parser.rs:403-411 | the same for six digits and any opaque colour |
| Colors.HexChar | src/css_parser.rs:355-362 | the digit written for a value is a hexadecimal digit worth that value |
| Colors.Hex8 | src/css_parser.rs:412-420 | a colour is written as eight hexadecimal digits |
| Colors.ParseColorBuiltin | src/css_parser.rs:190-343 | a name no row spells is `InvalidColor` |
| Colors.ParseColor | src/css_parser.rs:177-185 | a leading '#' sends the rest to the hexadecimal parser; anything else goes to the name table |
| Colors.NamedColorSpellings | src/css_parser.rs:190-346 | the CamelCase and hyphenated spellings of a row both give that row's hex colour |
| Colors.AliceBlue | src/css_parser.rs:194 | "AliceBlue" and "alice-blue" are both (240, 248, 255, 255) |
| Colors.TransparentIsOpaqueWhite | src/css_parser.rs:342 | "transparent" is (255, 255, 255, 255) |
| Colors.SixDigitExample | src/css_parser.rs:1375-1378 | "#F0F8FF" is (240, 248, 255, 255) |
| Colors.EightDigitExample | src/css_parser.rs:1380-1383 | "#F0F8FF00" is (240, 248, 255, 0) |
| Colors.ShortFormExample | src/css_parser.rs:1385-1388 | "#EEE" is (238, 238, 238, 255) |
| Borders.ShorthandIndex | src/css_parser.rs:82-140 | each corner takes one of the given values; with four values they go top-left, top-right, bottom-right, bottom-left |
| Borders.ParseBorderRadius | src/css_parser.rs:76-143 | `TooManyValues(input)` exactly when there are no words or more than four |
| Borders.RadiusFollowsShorthand | src/css_parser.rs:82-140 | with one to four lengths, every corner is square, with the length the shorthand rule assigns it |
| Borders.RadiusFirstError | src/css_parser.rs:82-140 | the first word that is not a length gives its error, unchanged |
| Borders.OneRadiusExample | src/css_parser.rs:1405-1408 | "15px" rounds all four corners by 15 |
| Borders.TwoRadiiExample | src/css_parser.rs:1410-1418 | "15px 50px": 15 top-left and bottom-right, 50 top-right and bottom-left |
| Borders.ThreeRadiiExample | src/css_parser.rs:1420-1428 | "15px 50px 30px": 15 top-left, 50 top-right and bottom-left, 30 bottom-right |
| Borders.FourRadiiExample | src/css_parser.rs:1430-1436 | "15px 50px 30px 5px": top-left, top-right, bottom-right and bottom-left in that order |
| Borders.ParseBorderStyle | src/css_parser.rs:479-495 | maps each of the ten keywords to its style and reports anything else whole; its meaning is stated by `StyleKeywordRoundTrip` |
| Borders.StyleKeywordRoundTrip | src/css_parser.rs:479-495 | exactly the ten style keywords parse, each to its own style; anything else is `InvalidBorderStyle` of itself |
| Borders.ParseBorder | src/css_parser.rs:428-474 | any border parsed has equal widths, four identical sides and no rounding; `InvalidBorderDeclaration` exactly when there are neither one nor three words |
| Borders.LoneStyleBorder | src/css_parser.rs:436-440 | one word is a style alone: one pixel wide and black |
| Borders.ThreePartBorder | src/css_parser.rs:441-447 | three words are thickness, style and colour |
| Borders.ThicknessReadFirst | src/css_parser.rs:443 | a bad thickness is the error, whatever follows |
| Borders.StyleReadSecond | src/css_parser.rs:444 | with a good thickness, a bad style is the error |
| Borders.ColorReadLast | src/css_parser.rs:445 | with a good thickness and style, a bad colour is the error |
| Borders.DoubleBorderExample | src/css_parser.rs:1218-1243 | "double" is a one-pixel black double border on all sides |
| BoxShadows.Roles | src/css_parser.rs:534-614 | a declaration of two to six words starts with the two offsets |
| BoxShadows.RolesDistinct | src/css_parser.rs:534-614 | no field is read twice, every word but the last is read, and the last goes unread exactly when it is a keyword after the offsets or is the sixth word |
| BoxShadows.ShadowOf | src/css_parser.rs:508-617 | the box-shadow value a declaration denotes; `ShadowOkIff` and `ShadowFields` state when it is a shadow and what its fields hold |
| BoxShadows.ParseBoxShadow | src/css_parser.rs:508-617 | the branch-by-branch procedure returns what the role table states |
| BoxShadows.FillThree | src/css_parser.rs:550-561 | three words are read in their roles |
| BoxShadows.FillFour | src/css_parser.rs:562-575 | four words are read in their roles |
| BoxShadows.FillFive | src/css_parser.rs:576-594 | five words are read in their roles |
| BoxShadows.FillSix | src/css_parser.rs:595-610 | six words are read in their roles |
| BoxShadows.ReadOffsets | src/css_parser.rs:543-548 | the two offsets are read first, stopping at the first error |
| BoxShadows.NoShadowIff | src/css_parser.rs:536-541 | no shadow exactly when the input is the word "none" |
| BoxShadows.SingleStatementIff | src/css_parser.rs:536-541 | `InvalidSingleStatement` exactly for one word that is not "none" |
| BoxShadows.TooManyComponentsIff | src/css_parser.rs:611-613 | `TooManyComponents` exactly for no words or more than six |
| BoxShadows.ShadowOkIff | src/css_parser.rs:542-616 | two to six words give a shadow exactly when every word that is read parses in its role |
| BoxShadows.ShadowFirstError | src/css_parser.rs:542-614 | the first word that does not parse in its role gives the error |
| BoxShadows.ShadowClip | src/css_parser.rs:525-532 | the clip mode is inset exactly when there are more than two words and the last is "inset" |
| BoxShadows.ShadowFields | src/css_parser.rs:514-614 | each length field holds its word's length or keeps its default of 0; the colour is the colour word's, or black |
| BoxShadows.KeywordOnlySetsClip | src/css_parser.rs:525-532 | swapping a trailing "inset" for "outset" changes the clip mode and nothing else |
| BoxShadows.SixthWordUnread | src/css_parser.rs:595-610 | the sixth of six words is never parsed; it only decides the clip mode |
| BoxShadows.LastWordUnread | src/css_parser.rs:525-614 | two declarations that differ only in an unread last word give the same shadow apart from the clip mode |
| BoxShadows.ReadWordsErrors | src/css_parser.rs:542-614 | a failed read is a length error or a colour error |
| BoxShadows.ReadWordsKeepsClip | src/css_parser.rs:542-614 | reading the words never changes the clip mode |
| BoxShadows.ReadWordsIgnoresUnread | src/css_parser.rs:542-614 | words in roles that are not read do not affect the result |
| BoxShadows.OffsetsShadow | src/css_parser.rs:542-548 | any two length words give a shadow with those offsets and every other field at its default |
| BoxShadows.OffsetsColorShadow | src/css_parser.rs:549-561 | two lengths and a third word that is no keyword give those offsets and the third word's colour, outset |
| BoxShadows.OffsetsKeywordShadow | src/css_parser.rs:525-561 | two lengths and a keyword give those offsets, the default colour, and inset exactly when the keyword is "inset" |
| BoxShadows.BlurColorShadow | src/css_parser.rs:562-575 | four words without a trailing keyword are read as offsets, blur radius and colour |
| BoxShadows.ColorKeywordShadow | src/css_parser.rs:562-575 | four words ending in a keyword are read as offsets and colour, with no blur radius |
| BoxShadows.SpreadColorShadow | src/css_parser.rs:576-594 | five words without a trailing keyword are read as offsets, blur and spread radii and colour |
| BoxShadows.BlurColorKeywordShadow | src/css_parser.rs:576-594 | five words ending in a keyword are read as offsets, blur radius and colour, with no spread radius |
| BoxShadows.SixWordShadow | src/css_parser.rs:595-610 | six words are read as four lengths and a colour whatever the sixth word is; it only makes the shadow inset when it is "inset" |
| BoxShadows.NoneExample | src/css_parser.rs:1086-1088 | "none" is no shadow |
| BoxShadows.OffsetsExample | src/css_parser.rs:1091-1099 | "5px 10px" offsets a default shadow |
| BoxShadows.ColoredExample | src/css_parser.rs:1102-1110 | "5px 10px #888888" also sets the colour |
| BoxShadows.InsetExample | src/css_parser.rs:1113-1121 | "5px 10px inset" is an inset shadow |
| BoxShadows.OutsetExample | src/css_parser.rs:1124-1132 | "5px 10px outset" is an outset shadow |
| BoxShadows.BlurredExample | src/css_parser.rs:1135-1143 | "5px 10px 5px #888888" sets the blur radius and the colour |
| BoxShadows.ColoredInsetExample | src/css_parser.rs:1146-1154 | "5px 10px #888888 inset" reads the third word as the colour |
| BoxShadows.BlurredInsetExample | src/css_parser.rs:1157-1165 | "5px 10px 5px #888888 inset" sets blur, colour and inset |
| BoxShadows.SpreadExample | src/css_parser.rs:1168-1176 | "5px 10px 5px 10px #888888" sets blur, spread and colour |
| BoxShadows.SpreadInsetExample | src/css_parser.rs:1179-1187 | "5px 10px 5px 10px #888888 inset" sets all fields |
| Directions.Opposite | src/css_parser.rs:711-723 | the opposite differs from the corner and stays an edge, a side or an end as the corner is |
| Directions.OppositeInvolution | src/css_parser.rs:711-723 | the opposite of the opposite is the corner itself |
| Directions.Combine | src/css_parser.rs:724-733 | two edges only ever combine into a corner |
| Directions.CombineIff | src/css_parser.rs:724-733 | two edges combine exactly when one is left or right and the other top or bottom |
| Directions.CombineCommutes | src/css_parser.rs:724-733 | the order of the two edges does not matter |
| Directions.OppositeOfCombine | src/css_parser.rs:711-733 | the opposite edges combine into the opposite corner |
| Directions.ParseDirectionCorner | src/css_parser.rs:1057-1067 | maps the four edge keywords to their edges and reports anything else whole; its meaning is stated by `DirectionCornerKeywords` |
| Directions.DirectionCornerKeywords | src/css_parser.rs:1057-1067 | exactly the four edge keywords parse, each to its edge; anything else is `InvalidDirection` of itself |
| Directions.ParseShape | src/css_parser.rs:1075-1083 | only "circle" and "ellipse" are shapes; anything else is `InvalidShape` of itself |
| Directions.ParseDirection | src/css_parser.rs:991-1050 | the direction a gradient's first item denotes; `DegreesAngle`, `RadiansAngle`, `GradiansNeverParse`, `ToEdge`, `ToCorner` and the error lemmas around them pin down every branch |
| Directions.NeitherAngleNorTo | src/css_parser.rs:1023-1027 | a first word that is neither an angle nor "to" makes the arguments invalid |
| Directions.MissingWords | src/css_parser.rs:1000-1029 | no words, or "to" alone, is the plain error carrying the input |
| Directions.ToUnknownEdge | src/css_parser.rs:1029-1030 | "to" followed by a word that is not an edge reports that word |
| Directions.ToEdge | src/css_parser.rs:1033-1037 | "to X" runs from the opposite of X to X |
| Directions.ToCorner | src/css_parser.rs:1038-1047 | "to A B" runs from the opposite of the corner A and B make to that corner, or is the plain error when they make none |
| Directions.ToTooMany | src/css_parser.rs:1048 | "to" and an edge followed by more than one word makes the arguments invalid |
| Directions.DegreesAngle | src/css_parser.rs:1017 | "Ndeg" is the angle N |
| Directions.RadiansAngle | src/css_parser.rs:1018 | "Nrad" is the angle N times 180 times single-precision pi, as the code computes it |
| Directions.GradiansNeverParse | src/css_parser.rs:1008-1019 | for every whole number N, "Ngrad" takes the radians branch and "Ng" fails to parse as a number |
| Directions.GradBeforeRad | src/css_parser.rs:1018 | in a numeral followed by "grad", the text before "rad" is the numeral and the "g" |
| Directions.ToBottomRightExample | src/css_parser.rs:1310-1324 | "to bottom right" runs from the top-left corner to the bottom-right corner |
| Directions.FiftyDegreesExample | src/css_parser.rs:1288-1307 | "50deg" is the angle 50 |
| Gradients.ParsePercentage | src/css_parser.rs:958-968 | a percentage is only read from text containing '%' |
| Gradients.PercentageBeforeLastSign | src/css_parser.rs:958-968 | the number is the text before the last '%' |
| Gradients.PercentageOfNat | src/css_parser.rs:958-968 | "N%" is N, not N/100 |
| Gradients.ParseGradientStop | src/css_parser.rs:943-955 | a stop parses exactly when its first word is a colour; no words is the plain error; one word leaves the offset unset |
| Gradients.StopWithPercentage | src/css_parser.rs:951-954 | a colour followed by "N%" is a stop at offset N |
| Gradients.ParseStops | src/css_parser.rs:834-841 | all items parse, each to its own stop, exactly when the stops are produced, in order |
| Gradients.ParseStopsFirstError | src/css_parser.rs:834-841 | the first item that does not parse gives the error |
| Gradients.ParseStopsAllParse | src/css_parser.rs:834-841 | when every item parses, the stops are their results in order |
| Gradients.Normalized | src/css_parser.rs:844-896 | the stops with every missing offset filled in; `NormalizedKeepsStops`, the `Run…` lemmas and `NormalizedIdempotent` state what it keeps and how it fills the runs |
| Gradients.NormalizedKeepsStops | src/css_parser.rs:843-896 | normalising gives every stop an offset and keeps the colours, order and explicit offsets |
| Gradients.RunStartsAtAnchor | src/css_parser.rs:886-892 | the first unset stop of a run takes the previous anchor's offset, or 0 at the start |
| Gradients.RunEndsAtAnchor | src/css_parser.rs:853-883 | in a run of two or more unset stops the last takes the next anchor's offset, or 1 at the end |
| Gradients.RunEvenlySpaced | src/css_parser.rs:853-883 | consecutive stops of such a run are evenly spaced |
| Gradients.RunBetweenAnchors | src/css_parser.rs:843-896 | an unset stop ends up between the anchors around it when those are in order |
| Gradients.NormalizedIdempotent | src/css_parser.rs:843-896 | normalising twice changes nothing more |
| Gradients.NormalizeOffsets | src/css_parser.rs:843-896 | the in-place pass leaves the array holding the normalised stops |
| Gradients.NormalizeStop | src/css_parser.rs:845-894 | one step of the pass sets stop i to its normalised offset, keeps the running offset and step, and leaves the other stops alone |
| Gradients.LookAheadCount | src/css_parser.rs:862-879 | the look-ahead counts the unset stops after i and finds the next anchor's offset, if any |
| Gradients.TwoUnsetStopsExample | src/css_parser.rs:843-896 | two unset stops become 0 and 1 |
| Gradients.ThreeUnsetStopsExample | src/css_parser.rs:843-896 | three unset stops become 0, 0.5 and 1 |
| Gradients.FourUnsetStopsExample | src/css_parser.rs:843-896 | four unset stops become 0, 1/3, 2/3 and 1 |
| Gradients.AnchoredThenUnsetExample | src/css_parser.rs:843-896 | after two anchors a and b, two unset stops become b and 1 |
| Gradients.GradientKindOf | src/css_parser.rs:766-772 | a kind is only selected by its own name |
| Gradients.KindNamesSelectTheirKind | src/css_parser.rs:766-772 | every kind's name selects it |
| Gradients.GradientItems | src/css_parser.rs:763-798 | the bracket contents always split into at least one item, so `NoDirection` never arises; the only errors are `InvalidBackground` and `UnclosedGradient` |
| Gradients.GradientItemsOf | src/css_parser.rs:763-790 | a name, '(', the items and ')' give the kind and the items split at ','; text after the last ')' is dropped |
| Gradients.NoOpeningBracket | src/css_parser.rs:763-777 | text without '(' is `InvalidBackground` of itself |
| Gradients.UnknownGradientName | src/css_parser.rs:766-772 | an unknown function name is `InvalidBackground` of that name |
| Gradients.NoClosingBracket | src/css_parser.rs:779-786 | brackets that are never closed are `UnclosedGradient` |
| Gradients.GradientOf | src/css_parser.rs:807-927 | a linear gradient takes the first item's direction or top-to-bottom, a radial one its shape or an ellipse; plain kinds clamp and repeating kinds repeat |
| Gradients.BackgroundOf | src/css_parser.rs:752-928 | the gradient a background value denotes; `BackgroundWith`, `TooFewStopsIff`, `BackgroundStops` and the error lemmas state what it gives |
| Gradients.BackgroundWith | src/css_parser.rs:752-928 | a parsed gradient has the kind its name gives, at least two stops, and an offset on every stop |
| Gradients.TooFewStopsIff | src/css_parser.rs:823-832 | `TooFewGradientStops` exactly when fewer than two items are left once a direction or shape is set aside |
| Gradients.BackgroundStops | src/css_parser.rs:834-896 | each stop has its item's colour and, when the item gave one, its offset |
| Gradients.BackgroundFirstBadStop | src/css_parser.rs:834-841 | the first stop item that does not parse gives the error |
| Gradients.ParseBackground | src/css_parser.rs:752-928 | the procedure, pushing stops and normalising them in place, returns what `BackgroundWith` states |
| Gradients.PushStops | src/css_parser.rs:834-841 | the loop that pushes one stop per item returns the first failing item's error, or every item's stop in order |
| Gradients.BackgroundOfStops | src/css_parser.rs:834-927 | once the items are split and at least two stops parse, the background is the gradient of the normalised stops |
| Gradients.LinearTwoColorsExample | src/css_parser.rs:1246-1260 | "linear-gradient(red, yellow)" runs top to bottom, clamped, with stops at 0 and 1 |
| Gradients.ToCornerExample | src/css_parser.rs:1310-1324 | "linear-gradient(to bottom right, red, yellow)" runs from top-left to bottom-right |
| Gradients.RepeatingAngleExample | src/css_parser.rs:1288-1307 | "repeating-linear-gradient(50deg, blue, yellow, #00FF00)" is a repeating gradient at 50 degrees with stops at 0, 0.5 and 1 |
| Gradients.LinearFourColorsExample | src/css_parser.rs:1263-1285 | four colours without offsets get 0, 1/3, 2/3 and 1 |
| Gradients.CircleExample | src/css_parser.rs:1327-1346 | "radial-gradient(circle, lime, blue, yellow)" is a clamped circle with stops at 0, 0.5 and 1 |
| Gradients.RepeatingCirclePercentsExample | src/css_parser.rs:1349-1372 | "repeating-radial-gradient(circle, red 10%, blue 50%, lime, yellow)" gets the offsets 10, 50, 50 and 1 |

## Left out

- The conversion of colours to `ColorF` floats (division by 255) is not modelled. Colours stay as four bytes.
- `str::parse::<f32>` is modelled as its decimal grammar read exactly. IEEE single-precision rounding is not modelled, so a third is 1/3 rather than 0.33333334. Neither are the payloads of `ParseFloatError` and of the `ParseIntError` inside `ValueParseErr`.
- `Direction::to_points` and `DirectionCorner::to_point` are float geometry over webrender and euclid rectangles. They are not part of this model.
- webrender's and euclid's types (`BorderRadius`, `BorderWidths`, `BorderDetails`, `LayoutVector2D`, `ExtendMode`, `BoxShadowClipMode`) are replaced by local datatypes carrying the fields the parsers set.
- Input is taken to be ASCII. `char::is_numeric` on non-ASCII digits, byte-index slicing and the `as u8` truncation of non-ASCII characters in the short hex forms are not modelled.
- Numbers.ParseFloat: gives `None` for `inf`, `infinity` and `nan`, which `str::parse::<f32>` accepts, and keeps a number too large for `f32` exact instead of turning it into infinity, because `real` has no infinite or NaN value. So `infdeg` is a float error here but an infinite angle in the source (src/css_parser.rs:1017), `linear-gradient(infdeg, red, blue)` fails here on the stop `infdeg`, and `red nan%` has no offset here but a NaN offset in the source (src/css_parser.rs:966).
- Lengths.ParsePixelValue: requires a non-empty input, because the source panics when it slices an empty one.
- ColorTable.SpellingsSelectTheirRow: requires `NamesDistinct()`, the fact that no two of the table's 298 spellings coincide. It holds of the table but is too large a literal computation to prove here.
- Colors.NamedColorSpellings: requires `NamesDistinct()`, for the same reason.
- Colors.TransparentIsOpaqueWhite: requires `NamesDistinct()`, for the same reason.
- The gradian branch of `parse_direction` is not modelled as a branch, because `ends_with("rad")` is tested first and catches every word ending in "grad". `Directions.GradiansNeverParse` shows what every word `Ngrad` with a whole number N gives.
- The branch of the normalisation loop that fires when `next_count == 1` and `i` is the last index cannot be taken, because the look-ahead past the last stop is empty. The model leaves it out.
- When a run has a single unset stop the source divides by zero and keeps an infinite or NaN step (NaN when the next anchor equals the previous one) that is never read. The model records no step there (`None`).
- The source's `Vec` of stops is modelled as an array created with the number of stop items, which is the capacity the source reserves.
- `CssBackgroundParseError::Error`, `NoDirection`, `DirectionParseError` and `ShapeParseError` are in the model's error type but are never produced, as in the source.
- The box-shadow and gradient examples are stated for any colour reader that gives the colour words the colours named in them. They are not instantiated with the 149-row table, as a literal lookup deep in the table is too large a computation.
- `test_parse_css_border_1` ("5px solid red") is covered by `Borders.ThreePartBorder` but has no literal example, for the same reason.
- Gradients.RepeatingCirclePercentsExample: states the code's offsets 10, 50, 50 and 1, not the 0.1, 0.5, 0.75 and 1 that `test_parse_radial_gradient_2` expects. The test contradicts the code.
