/**
 * The named-colour table of `parse_color_builtin` (src/css_parser.rs:187-346): each row pairs a
 * CamelCase name and its hyphenated lower-case spelling with a hexadecimal colour literal,
 * in the source's order. A name selects the first row that spells it either way, which is
 * the arm Rust's `match` takes.
 */
module ColorTable {
  import opened Wrappers

  datatype NamedColor = NamedColor(camel: string, hyphen: string, hex: string)

  /** The number of rows of the table. */
  const RowCount: nat := 149

  /** Row `i` of the table, in source order; the rows are kept in blocks of ten. */
  function Row(i: nat): NamedColor
    requires i < RowCount
  {
    if i < 10 then Block0(i - 0)
    else if i < 20 then Block1(i - 10)
    else if i < 30 then Block2(i - 20)
    else if i < 40 then Block3(i - 30)
    else if i < 50 then Block4(i - 40)
    else if i < 60 then Block5(i - 50)
    else if i < 70 then Block6(i - 60)
    else if i < 80 then Block7(i - 70)
    else if i < 90 then Block8(i - 80)
    else if i < 100 then Block9(i - 90)
    else if i < 110 then Block10(i - 100)
    else if i < 120 then Block11(i - 110)
    else if i < 130 then Block12(i - 120)
    else if i < 140 then Block13(i - 130)
    else Block14(i - 140)
  }

  function Block0(j: nat): NamedColor
    requires j < 10
  {
    if j == 0 then NamedColor("AliceBlue",            "alice-blue",              "F0F8FF")
    else if j == 1 then NamedColor("AntiqueWhite",         "antique-white",           "FAEBD7")
    else if j == 2 then NamedColor("Aqua",                 "aqua",                    "00FFFF")
    else if j == 3 then NamedColor("Aquamarine",           "aquamarine",              "7FFFD4")
    else if j == 4 then NamedColor("Azure",                "azure",                   "F0FFFF")
    else if j == 5 then NamedColor("Beige",                "beige",                   "F5F5DC")
    else if j == 6 then NamedColor("Bisque",               "bisque",                  "FFE4C4")
    else if j == 7 then NamedColor("Black",                "black",                   "000000")
    else if j == 8 then NamedColor("BlanchedAlmond",       "blanched-almond",         "FFEBCD")
    else NamedColor("Blue",                 "blue",                    "0000FF")
  }

  function Block1(j: nat): NamedColor
    requires j < 10
  {
    if j == 0 then NamedColor("BlueViolet",           "blue-violet",             "8A2BE2")
    else if j == 1 then NamedColor("Brown",                "brown",                   "A52A2A")
    else if j == 2 then NamedColor("BurlyWood",            "burly-wood",              "DEB887")
    else if j == 3 then NamedColor("CadetBlue",            "cadet-blue",              "5F9EA0")
    else if j == 4 then NamedColor("Chartreuse",           "chartreuse",              "7FFF00")
    else if j == 5 then NamedColor("Chocolate",            "chocolate",               "D2691E")
    else if j == 6 then NamedColor("Coral",                "coral",                   "FF7F50")
    else if j == 7 then NamedColor("CornflowerBlue",       "cornflower-blue",         "6495ED")
    else if j == 8 then NamedColor("Cornsilk",             "cornsilk",                "FFF8DC")
    else NamedColor("Crimson",              "crimson",                 "DC143C")
  }

  function Block2(j: nat): NamedColor
    requires j < 10
  {
    if j == 0 then NamedColor("Cyan",                 "cyan",                    "00FFFF")
    else if j == 1 then NamedColor("DarkBlue",             "dark-blue",               "00008B")
    else if j == 2 then NamedColor("DarkCyan",             "dark-cyan",               "008B8B")
    else if j == 3 then NamedColor("DarkGoldenRod",        "dark-golden-rod",         "B8860B")
    else if j == 4 then NamedColor("DarkGray",             "dark-gray",               "A9A9A9")
    else if j == 5 then NamedColor("DarkGrey",             "dark-grey",               "A9A9A9")
    else if j == 6 then NamedColor("DarkGreen",            "dark-green",              "006400")
    else if j == 7 then NamedColor("DarkKhaki",            "dark-khaki",              "BDB76B")
    else if j == 8 then NamedColor("DarkMagenta",          "dark-magenta",            "8B008B")
    else NamedColor("DarkOliveGreen",       "dark-olive-green",        "556B2F")
  }

  function Block3(j: nat): NamedColor
    requires j < 10
  {
    if j == 0 then NamedColor("DarkOrange",           "dark-orange",             "FF8C00")
    else if j == 1 then NamedColor("DarkOrchid",           "dark-orchid",             "9932CC")
    else if j == 2 then NamedColor("DarkRed",              "dark-red",                "8B0000")
    else if j == 3 then NamedColor("DarkSalmon",           "dark-salmon",             "E9967A")
    else if j == 4 then NamedColor("DarkSeaGreen",         "dark-sea-green",          "8FBC8F")
    else if j == 5 then NamedColor("DarkSlateBlue",        "dark-slate-blue",         "483D8B")
    else if j == 6 then NamedColor("DarkSlateGray",        "dark-slate-gray",         "2F4F4F")
    else if j == 7 then NamedColor("DarkSlateGrey",        "dark-slate-grey",         "2F4F4F")
    else if j == 8 then NamedColor("DarkTurquoise",        "dark-turquoise",          "00CED1")
    else NamedColor("DarkViolet",           "dark-violet",             "9400D3")
  }

  function Block4(j: nat): NamedColor
    requires j < 10
  {
    if j == 0 then NamedColor("DeepPink",             "deep-pink",               "FF1493")
    else if j == 1 then NamedColor("DeepSkyBlue",          "deep-sky-blue",           "00BFFF")
    else if j == 2 then NamedColor("DimGray",              "dim-gray",                "696969")
    else if j == 3 then NamedColor("DimGrey",              "dim-grey",                "696969")
    else if j == 4 then NamedColor("DodgerBlue",           "dodger-blue",             "1E90FF")
    else if j == 5 then NamedColor("FireBrick",            "fire-brick",              "B22222")
    else if j == 6 then NamedColor("FloralWhite",          "floral-white",            "FFFAF0")
    else if j == 7 then NamedColor("ForestGreen",          "forest-green",            "228B22")
    else if j == 8 then NamedColor("Fuchsia",              "fuchsia",                 "FF00FF")
    else NamedColor("Gainsboro",            "gainsboro",               "DCDCDC")
  }

  function Block5(j: nat): NamedColor
    requires j < 10
  {
    if j == 0 then NamedColor("GhostWhite",           "ghost-white",             "F8F8FF")
    else if j == 1 then NamedColor("Gold",                 "gold",                    "FFD700")
    else if j == 2 then NamedColor("GoldenRod",            "golden-rod",              "DAA520")
    else if j == 3 then NamedColor("Gray",                 "gray",                    "808080")
    else if j == 4 then NamedColor("Grey",                 "grey",                    "808080")
    else if j == 5 then NamedColor("Green",                "green",                   "008000")
    else if j == 6 then NamedColor("GreenYellow",          "green-yellow",            "ADFF2F")
    else if j == 7 then NamedColor("HoneyDew",             "honey-dew",               "F0FFF0")
    else if j == 8 then NamedColor("HotPink",              "hot-pink",                "FF69B4")
    else NamedColor("IndianRed",            "indian-red",              "CD5C5C")
  }

  function Block6(j: nat): NamedColor
    requires j < 10
  {
    if j == 0 then NamedColor("Indigo",               "indigo",                  "4B0082")
    else if j == 1 then NamedColor("Ivory",                "ivory",                   "FFFFF0")
    else if j == 2 then NamedColor("Khaki",                "khaki",                   "F0E68C")
    else if j == 3 then NamedColor("Lavender",             "lavender",                "E6E6FA")
    else if j == 4 then NamedColor("LavenderBlush",        "lavender-blush",          "FFF0F5")
    else if j == 5 then NamedColor("LawnGreen",            "lawn-green",              "7CFC00")
    else if j == 6 then NamedColor("LemonChiffon",         "lemon-chiffon",           "FFFACD")
    else if j == 7 then NamedColor("LightBlue",            "light-blue",              "ADD8E6")
    else if j == 8 then NamedColor("LightCoral",           "light-coral",             "F08080")
    else NamedColor("LightCyan",            "light-cyan",              "E0FFFF")
  }

  function Block7(j: nat): NamedColor
    requires j < 10
  {
    if j == 0 then NamedColor("LightGoldenRodYellow", "light-golden-rod-yellow", "FAFAD2")
    else if j == 1 then NamedColor("LightGray",            "light-gray",              "D3D3D3")
    else if j == 2 then NamedColor("LightGrey",            "light-grey",              "D3D3D3")
    else if j == 3 then NamedColor("LightGreen",           "light-green",             "90EE90")
    else if j == 4 then NamedColor("LightPink",            "light-pink",              "FFB6C1")
    else if j == 5 then NamedColor("LightSalmon",          "light-salmon",            "FFA07A")
    else if j == 6 then NamedColor("LightSeaGreen",        "light-sea-green",         "20B2AA")
    else if j == 7 then NamedColor("LightSkyBlue",         "light-sky-blue",          "87CEFA")
    else if j == 8 then NamedColor("LightSlateGray",       "light-slate-gray",        "778899")
    else NamedColor("LightSlateGrey",       "light-slate-grey",        "778899")
  }

  function Block8(j: nat): NamedColor
    requires j < 10
  {
    if j == 0 then NamedColor("LightSteelBlue",       "light-steel-blue",        "B0C4DE")
    else if j == 1 then NamedColor("LightYellow",          "light-yellow",            "FFFFE0")
    else if j == 2 then NamedColor("Lime",                 "lime",                    "00FF00")
    else if j == 3 then NamedColor("LimeGreen",            "lime-green",              "32CD32")
    else if j == 4 then NamedColor("Linen",                "linen",                   "FAF0E6")
    else if j == 5 then NamedColor("Magenta",              "magenta",                 "FF00FF")
    else if j == 6 then NamedColor("Maroon",               "maroon",                  "800000")
    else if j == 7 then NamedColor("MediumAquaMarine",     "medium-aqua-marine",      "66CDAA")
    else if j == 8 then NamedColor("MediumBlue",           "medium-blue",             "0000CD")
    else NamedColor("MediumOrchid",         "medium-orchid",           "BA55D3")
  }

  function Block9(j: nat): NamedColor
    requires j < 10
  {
    if j == 0 then NamedColor("MediumPurple",         "medium-purple",           "9370DB")
    else if j == 1 then NamedColor("MediumSeaGreen",       "medium-sea-green",        "3CB371")
    else if j == 2 then NamedColor("MediumSlateBlue",      "medium-slate-blue",       "7B68EE")
    else if j == 3 then NamedColor("MediumSpringGreen",    "medium-spring-green",     "00FA9A")
    else if j == 4 then NamedColor("MediumTurquoise",      "medium-turquoise",        "48D1CC")
    else if j == 5 then NamedColor("MediumVioletRed",      "medium-violet-red",       "C71585")
    else if j == 6 then NamedColor("MidnightBlue",         "midnight-blue",           "191970")
    else if j == 7 then NamedColor("MintCream",            "mint-cream",              "F5FFFA")
    else if j == 8 then NamedColor("MistyRose",            "misty-rose",              "FFE4E1")
    else NamedColor("Moccasin",             "moccasin",                "FFE4B5")
  }

  function Block10(j: nat): NamedColor
    requires j < 10
  {
    if j == 0 then NamedColor("NavajoWhite",          "navajo-white",            "FFDEAD")
    else if j == 1 then NamedColor("Navy",                 "navy",                    "000080")
    else if j == 2 then NamedColor("OldLace",              "old-lace",                "FDF5E6")
    else if j == 3 then NamedColor("Olive",                "olive",                   "808000")
    else if j == 4 then NamedColor("OliveDrab",            "olive-drab",              "6B8E23")
    else if j == 5 then NamedColor("Orange",               "orange",                  "FFA500")
    else if j == 6 then NamedColor("OrangeRed",            "orange-red",              "FF4500")
    else if j == 7 then NamedColor("Orchid",               "orchid",                  "DA70D6")
    else if j == 8 then NamedColor("PaleGoldenRod",        "pale-golden-rod",         "EEE8AA")
    else NamedColor("PaleGreen",            "pale-green",              "98FB98")
  }

  function Block11(j: nat): NamedColor
    requires j < 10
  {
    if j == 0 then NamedColor("PaleTurquoise",        "pale-turquoise",          "AFEEEE")
    else if j == 1 then NamedColor("PaleVioletRed",        "pale-violet-red",         "DB7093")
    else if j == 2 then NamedColor("PapayaWhip",           "papaya-whip",             "FFEFD5")
    else if j == 3 then NamedColor("PeachPuff",            "peach-puff",              "FFDAB9")
    else if j == 4 then NamedColor("Peru",                 "peru",                    "CD853F")
    else if j == 5 then NamedColor("Pink",                 "pink",                    "FFC0CB")
    else if j == 6 then NamedColor("Plum",                 "plum",                    "DDA0DD")
    else if j == 7 then NamedColor("PowderBlue",           "powder-blue",             "B0E0E6")
    else if j == 8 then NamedColor("Purple",               "purple",                  "800080")
    else NamedColor("RebeccaPurple",        "rebecca-purple",          "663399")
  }

  function Block12(j: nat): NamedColor
    requires j < 10
  {
    if j == 0 then NamedColor("Red",                  "red",                     "FF0000")
    else if j == 1 then NamedColor("RosyBrown",            "rosy-brown",              "BC8F8F")
    else if j == 2 then NamedColor("RoyalBlue",            "royal-blue",              "4169E1")
    else if j == 3 then NamedColor("SaddleBrown",          "saddle-brown",            "8B4513")
    else if j == 4 then NamedColor("Salmon",               "salmon",                  "FA8072")
    else if j == 5 then NamedColor("SandyBrown",           "sandy-brown",             "F4A460")
    else if j == 6 then NamedColor("SeaGreen",             "sea-green",               "2E8B57")
    else if j == 7 then NamedColor("SeaShell",             "sea-shell",               "FFF5EE")
    else if j == 8 then NamedColor("Sienna",               "sienna",                  "A0522D")
    else NamedColor("Silver",               "silver",                  "C0C0C0")
  }

  function Block13(j: nat): NamedColor
    requires j < 10
  {
    if j == 0 then NamedColor("SkyBlue",              "sky-blue",                "87CEEB")
    else if j == 1 then NamedColor("SlateBlue",            "slate-blue",              "6A5ACD")
    else if j == 2 then NamedColor("SlateGray",            "slate-gray",              "708090")
    else if j == 3 then NamedColor("SlateGrey",            "slate-grey",              "708090")
    else if j == 4 then NamedColor("Snow",                 "snow",                    "FFFAFA")
    else if j == 5 then NamedColor("SpringGreen",          "spring-green",            "00FF7F")
    else if j == 6 then NamedColor("SteelBlue",            "steel-blue",              "4682B4")
    else if j == 7 then NamedColor("Tan",                  "tan",                     "D2B48C")
    else if j == 8 then NamedColor("Teal",                 "teal",                    "008080")
    else NamedColor("Thistle",              "thistle",                 "D8BFD8")
  }

  function Block14(j: nat): NamedColor
    requires j < 9
  {
    if j == 0 then NamedColor("Tomato",               "tomato",                  "FF6347")
    else if j == 1 then NamedColor("Turquoise",            "turquoise",               "40E0D0")
    else if j == 2 then NamedColor("Violet",               "violet",                  "EE82EE")
    else if j == 3 then NamedColor("Wheat",                "wheat",                   "F5DEB3")
    else if j == 4 then NamedColor("White",                "white",                   "FFFFFF")
    else if j == 5 then NamedColor("WhiteSmoke",           "white-smoke",             "F5F5F5")
    else if j == 6 then NamedColor("Yellow",               "yellow",                  "FFFF00")
    else if j == 7 then NamedColor("YellowGreen",          "yellow-green",            "9ACD32")
    else NamedColor("Transparent",          "transparent",             "FFFFFFFF")
  }

  /** The row lists `name` as one of its two spellings. */
  predicate Spells(row: NamedColor, name: string) {
    name == row.camel || name == row.hyphen
  }

  /** The hex literal of the first row from `i` on that spells `name`. */
  function LookupFrom(name: string, i: nat): Option<string>
    requires i <= RowCount
    decreases RowCount - i, 1
  {
    if i == RowCount then None else LookupAt(name, i)
  }

  /** Row `i`'s literal when the row spells `name`; otherwise the search goes on after it. */
  function LookupAt(name: string, i: nat): Option<string>
    requires i < RowCount
    decreases RowCount - i, 0
  {
    if Spells(Row(i), name) then Some(Row(i).hex) else LookupFrom(name, i + 1)
  }

  /** `parse_color_builtin`'s `match`: the hex literal of the first row that spells `name`. */
  function Lookup(name: string): Option<string> {
    LookupFrom(name, 0)
  }

  /** When row `v` is the first from `i` on to spell the name, the search from `i` selects it. */
  lemma {:induction false} LookupSelectsFirst(name: string, i: nat, v: nat)
    requires i <= v < RowCount && Spells(Row(v), name)
    requires forall k :: i <= k < v ==> !Spells(Row(k), name)
    ensures LookupFrom(name, i) == Some(Row(v).hex)
    decreases v - i
  {
    if i < v {
      assert !Spells(Row(i), name);
      LookupSelectsFirst(name, i + 1, v);
    }
  }

  /** A search from `i` that finds nothing passed no row that spells the name. */
  lemma {:induction false} LookupMisses(name: string, i: nat, k: nat)
    requires i <= k < RowCount && LookupFrom(name, i).None?
    ensures !Spells(Row(k), name)
    decreases k - i
  {
    if i < k {
      LookupMisses(name, i + 1, k);
    }
  }

  /** A search from `i` past rows none of which spells the name finds nothing. */
  lemma {:induction false} LookupNothing(name: string, i: nat)
    requires i <= RowCount
    requires forall k :: i <= k < RowCount ==> !Spells(Row(k), name)
    ensures LookupFrom(name, i) == None
    decreases RowCount - i
  {
    if i < RowCount {
      assert !Spells(Row(i), name);
      LookupNothing(name, i + 1);
    }
  }

  /** No name is spelled by two rows, and no row spells the same name twice. */
  predicate NamesDistinct() {
    && (forall i :: 0 <= i < RowCount ==> Row(i).camel != Row(i).hyphen)
    && (forall i, j :: 0 <= i < j < RowCount ==>
          && Row(i).camel != Row(j).camel && Row(i).camel != Row(j).hyphen
          && Row(i).hyphen != Row(j).camel && Row(i).hyphen != Row(j).hyphen)
  }

  /** When the names are distinct, both spellings of a row select that row's literal. */
  lemma SpellingsSelectTheirRow(i: nat)
    requires NamesDistinct()
    requires i < RowCount
    ensures Lookup(Row(i).camel) == Some(Row(i).hex)
    ensures Lookup(Row(i).hyphen) == Some(Row(i).hex)
  {
    LookupSelectsFirst(Row(i).camel, 0, i);
    LookupSelectsFirst(Row(i).hyphen, 0, i);
  }
}
