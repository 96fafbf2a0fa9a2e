/**
 * The category colour palette: nine preset colours, the rule that marks one of them as
 * selected, and the `#RRGGBB` guard in front of colour parsing that decides whether the
 * preview shows the typed colour or the theme's fallback.
 */
module ColorPalette {
  import opened Wrappers
  import opened Text

  /** A preset: its `#RRGGBB` text and the opaque ARGB colour drawn for it. */
  datatype PresetCategoryColor = PresetCategoryColor(hex: string, argb: nat)

  const PresetCategoryColors: seq<PresetCategoryColor> := [
    PresetCategoryColor("#FF9800", 0xFFFF9800), // orange
    PresetCategoryColor("#F44336", 0xFFF44336), // red
    PresetCategoryColor("#E91E63", 0xFFE91E63), // pink
    PresetCategoryColor("#9C27B0", 0xFF9C27B0), // purple
    PresetCategoryColor("#3F51B5", 0xFF3F51B5), // indigo
    PresetCategoryColor("#03A9F4", 0xFF03A9F4), // light blue
    PresetCategoryColor("#4CAF50", 0xFF4CAF50), // green
    PresetCategoryColor("#CDDC39", 0xFFCDDC39), // lime
    PresetCategoryColor("#795548", 0xFF795548)  // brown
  ]

  /** The alpha part of every colour parsed from `#RRGGBB`: fully opaque. */
  const OpaqueAlpha: nat := 0xFF00_0000

  predicate IsHexDigit(c: char) {
    '0' <= c <= '9' || 'a' <= c <= 'f' || 'A' <= c <= 'F'
  }

  function HexDigitValue(c: char): (v: nat)
    requires IsHexDigit(c)
    ensures v < 16
  {
    if '0' <= c <= '9' then c as nat - '0' as nat
    else if 'a' <= c <= 'f' then c as nat - 'a' as nat + 10
    else c as nat - 'A' as nat + 10
  }

  predicate AllHexDigits(s: string) {
    forall i :: 0 <= i < |s| ==> IsHexDigit(s[i])
  }

  /** The number a string of hex digits denotes, most significant digit first. */
  function HexValue(s: string): nat
    requires AllHexDigits(s)
  {
    if s == [] then 0 else HexValue(s[..|s| - 1]) * 16 + HexDigitValue(s[|s| - 1])
  }

  function Pow16(k: nat): nat {
    if k == 0 then 1 else 16 * Pow16(k - 1)
  }

  lemma SixHexDigits()
    ensures Pow16(6) == 0x100_0000
  {
    assert Pow16(2) == 0x100;
    assert Pow16(4) == 0x1_0000;
  }

  /** Six hex digits denote their weighted sum. */
  lemma HexValueOfSix(s: string)
    requires |s| == 6 && AllHexDigits(s)
    ensures HexValue(s) == ((((HexDigitValue(s[0]) * 16 + HexDigitValue(s[1])) * 16
      + HexDigitValue(s[2])) * 16 + HexDigitValue(s[3])) * 16 + HexDigitValue(s[4])) * 16
      + HexDigitValue(s[5])
  {
    assert s[..1][..0] == [];
    assert HexValue(s[..1]) == HexDigitValue(s[0]);
    assert s[..2][..1] == s[..1] && s[..2][1] == s[1];
    assert HexValue(s[..2]) == HexValue(s[..1]) * 16 + HexDigitValue(s[1]);
    assert s[..3][..2] == s[..2] && s[..3][2] == s[2];
    assert HexValue(s[..3]) == HexValue(s[..2]) * 16 + HexDigitValue(s[2]);
    assert s[..4][..3] == s[..3] && s[..4][3] == s[3];
    assert HexValue(s[..4]) == HexValue(s[..3]) * 16 + HexDigitValue(s[3]);
    assert s[..5][..4] == s[..4] && s[..5][4] == s[4];
    assert HexValue(s[..5]) == HexValue(s[..4]) * 16 + HexDigitValue(s[4]);
    assert s[..|s| - 1] == s[..5];
  }

  /** A seven-character text of '#' and six hex digits passes the guard and parses to the
      opaque colour those digits denote. */
  lemma HexColorLiteral(s: string)
    requires |s| == 7 && s[0] == '#'
    requires IsHexDigit(s[1]) && IsHexDigit(s[2]) && IsHexDigit(s[3])
    requires IsHexDigit(s[4]) && IsHexDigit(s[5]) && IsHexDigit(s[6])
    ensures MatchesHexColor(s)
    ensures HexValue(s[1..]) == ((((HexDigitValue(s[1]) * 16 + HexDigitValue(s[2])) * 16
      + HexDigitValue(s[3])) * 16 + HexDigitValue(s[4])) * 16 + HexDigitValue(s[5])) * 16
      + HexDigitValue(s[6])
  {
    assert AllHexDigits(s[1..]) by {
      forall i | 0 <= i < 6 ensures IsHexDigit(s[1..][i]) {
        assert s[1..][i] == s[i + 1];
      }
    }
    HexValueOfSix(s[1..]);
  }

  /** `k` hex digits denote a number below 16^k. */
  lemma {:induction false} HexValueBound(s: string)
    requires AllHexDigits(s)
    ensures HexValue(s) < Pow16(|s|)
  {
    if s != [] {
      HexValueBound(s[..|s| - 1]);
    }
  }

  /** Two hex digit strings that are equal ignoring case denote the same number. */
  lemma {:induction false} HexValueIgnoresCase(a: string, b: string)
    requires AllHexDigits(a) && AllHexDigits(b) && EqualsIgnoreCase(a, b)
    ensures HexValue(a) == HexValue(b)
  {
    if a != [] {
      var n := |a| - 1;
      assert CharEqualsIgnoreCase(a[n], b[n]);
      assert EqualsIgnoreCase(a[..n], b[..n]) by {
        assert forall i :: 0 <= i < n ==> a[..n][i] == a[i] && b[..n][i] == b[i];
      }
      HexValueIgnoresCase(a[..n], b[..n]);
    }
  }

  /** The regular expression `^#[0-9A-Fa-f]{6}$`, matched against the whole text. */
  predicate MatchesHexColor(s: string) {
    |s| == 7 && s[0] == '#' && AllHexDigits(s[1..])
  }

  /** `parseCategoryColorOrNull`: the trimmed text must match `#RRGGBB`; it then denotes
      the opaque colour with those red, green and blue bytes. Anything else gives null. */
  function ParseCategoryColorOrNull(hex: string): (r: Option<nat>)
    ensures r.Some? ==> MatchesHexColor(Trim(hex))
    ensures r.Some? ==> OpaqueAlpha <= r.value < 0x1_0000_0000
  {
    var trimmed := Trim(hex);
    if !MatchesHexColor(trimmed) then None
    else
      HexValueBound(trimmed[1..]);
      assert Pow16(6) == 0x100_0000 by { SixHexDigits(); }
      Some(OpaqueAlpha + HexValue(trimmed[1..]))
  }

  /** Parsing fails exactly when the trimmed text does not match `#RRGGBB`: whitespace
      around a valid colour is tolerated, anything else is not. */
  lemma ParseFailsIffNoMatch(hex: string)
    ensures ParseCategoryColorOrNull(hex) == None <==> !MatchesHexColor(Trim(hex))
  {
  }

  /** A colour differing only in letter case parses to the same colour. */
  lemma ParseIgnoresCase(a: string, b: string)
    requires MatchesHexColor(a) && EqualsIgnoreCase(a, b)
    ensures MatchesHexColor(b)
    ensures ParseCategoryColorOrNull(a) == ParseCategoryColorOrNull(b)
  {
    HexColorIgnoresCase(a, b);
    HexValueIgnoresCase(a[1..], b[1..]);
    TrimUnchanged(a);
    TrimUnchanged(b);
  }

  /** Changing the letter case of a `#RRGGBB` colour keeps it one, with the same digits
      up to case. */
  lemma HexColorIgnoresCase(a: string, b: string)
    requires MatchesHexColor(a) && EqualsIgnoreCase(a, b)
    ensures MatchesHexColor(b) && EqualsIgnoreCase(a[1..], b[1..])
  {
    forall i | 1 <= i < 7 ensures IsHexDigit(b[i]) {
      assert IsHexDigit(a[i]) by { assert a[1..][i - 1] == a[i]; }
      assert CharEqualsIgnoreCase(a[i], b[i]);
    }
    assert AllHexDigits(b[1..]) by {
      forall i | 0 <= i < 6 ensures IsHexDigit(b[1..][i]) {
        assert b[1..][i] == b[i + 1];
      }
    }
    assert CharEqualsIgnoreCase(a[0], b[0]);
    assert EqualsIgnoreCase(a[1..], b[1..]) by {
      forall i | 0 <= i < 6 ensures CharEqualsIgnoreCase(a[1..][i], b[1..][i]) {
        assert a[1..][i] == a[i + 1] && b[1..][i] == b[i + 1];
      }
    }
  }

  /** What the colour preview fills its circle with. */
  datatype PreviewFill = ParsedColor(argb: nat) | SurfaceVariant

  /** `CategoryColorPreview`: the parsed colour, or the theme's surface-variant colour. */
  function PreviewFillFor(colorHex: string): (r: PreviewFill)
    ensures r == SurfaceVariant <==> ParseCategoryColorOrNull(colorHex) == None
    ensures r.ParsedColor? ==> MatchesHexColor(Trim(colorHex))
  {
    match ParseCategoryColorOrNull(colorHex)
    case Some(argb) => ParsedColor(argb)
    case None => SurfaceVariant
  }

  /** A preset is drawn as selected when the form's colour equals its hex ignoring case. */
  predicate IsSelected(selectedColorHex: string, preset: PresetCategoryColor) {
    EqualsIgnoreCase(selectedColorHex, preset.hex)
  }

  /** Clicking the preset at `i` reports that preset's hex to the form. */
  function OnPresetClick(i: nat): (hex: string)
    requires i < |PresetCategoryColors|
  {
    PresetCategoryColors[i].hex
  }

  /** Each preset's hex passes the `#RRGGBB` guard and parses to the colour drawn for it. */
  lemma PresetValid(i: nat)
    requires i < |PresetCategoryColors|
    ensures MatchesHexColor(PresetCategoryColors[i].hex)
    ensures ParseCategoryColorOrNull(PresetCategoryColors[i].hex) == Some(PresetCategoryColors[i].argb)
  {
    if i < 3 { WarmPresetsValid(i); }
    else if i < 6 { CoolPresetsValid(i); }
    else { EarthPresetsValid(i); }
    TrimUnchanged(PresetCategoryColors[i].hex);
  }

  /** `PresetValid` for orange, red and pink. */
  lemma WarmPresetsValid(i: nat)
    requires i < 3
    ensures MatchesHexColor(PresetCategoryColors[i].hex)
    ensures OpaqueAlpha + HexValue(PresetCategoryColors[i].hex[1..]) == PresetCategoryColors[i].argb
  {
    if i == 0 { HexColorLiteral(PresetCategoryColors[0].hex); }
    else if i == 1 { HexColorLiteral(PresetCategoryColors[1].hex); }
    else { HexColorLiteral(PresetCategoryColors[2].hex); }
  }

  /** `PresetValid` for purple, indigo and light blue. */
  lemma CoolPresetsValid(i: nat)
    requires 3 <= i < 6
    ensures MatchesHexColor(PresetCategoryColors[i].hex)
    ensures OpaqueAlpha + HexValue(PresetCategoryColors[i].hex[1..]) == PresetCategoryColors[i].argb
  {
    if i == 3 { HexColorLiteral(PresetCategoryColors[3].hex); }
    else if i == 4 { HexColorLiteral(PresetCategoryColors[4].hex); }
    else { HexColorLiteral(PresetCategoryColors[5].hex); }
  }

  /** `PresetValid` for green, lime and brown. */
  lemma EarthPresetsValid(i: nat)
    requires 6 <= i < 9
    ensures MatchesHexColor(PresetCategoryColors[i].hex)
    ensures OpaqueAlpha + HexValue(PresetCategoryColors[i].hex[1..]) == PresetCategoryColors[i].argb
  {
    if i == 6 { HexColorLiteral(PresetCategoryColors[6].hex); }
    else if i == 7 { HexColorLiteral(PresetCategoryColors[7].hex); }
    else { HexColorLiteral(PresetCategoryColors[8].hex); }
  }

  /** There are nine presets, and no two of them draw the same colour. */
  lemma PresetColorsDistinct()
    ensures |PresetCategoryColors| == 9
    ensures forall i, j :: 0 <= i < j < 9 ==> PresetCategoryColors[i].argb != PresetCategoryColors[j].argb
  {
  }

  /** No two presets have the same hex, even ignoring case. */
  lemma PresetHexesDistinct(i: nat, j: nat)
    requires i < j < |PresetCategoryColors|
    ensures !EqualsIgnoreCase(PresetCategoryColors[i].hex, PresetCategoryColors[j].hex)
  {
    if EqualsIgnoreCase(PresetCategoryColors[i].hex, PresetCategoryColors[j].hex) {
      PresetValid(i);
      PresetValid(j);
      ParseIgnoresCase(PresetCategoryColors[i].hex, PresetCategoryColors[j].hex);
      PresetColorsDistinct();
    }
  }

  /** Whatever the form's colour, at most one preset is drawn as selected. */
  lemma AtMostOneSelected(selectedColorHex: string, i: nat, j: nat)
    requires i < |PresetCategoryColors| && j < |PresetCategoryColors|
    requires IsSelected(selectedColorHex, PresetCategoryColors[i])
    requires IsSelected(selectedColorHex, PresetCategoryColors[j])
    ensures i == j
  {
    if i != j {
      EqualsIgnoreCaseTransitive(selectedColorHex, PresetCategoryColors[i].hex, PresetCategoryColors[j].hex);
      if i < j {
        PresetHexesDistinct(i, j);
      } else {
        EqualsIgnoreCaseTransitive(PresetCategoryColors[i].hex, PresetCategoryColors[j].hex, PresetCategoryColors[i].hex);
        PresetHexesDistinct(j, i);
      }
    }
  }

  /** After clicking the preset at `i`, that preset and no other is drawn as selected,
      and the reported colour passes the form's `#RRGGBB` check. */
  lemma ClickSelectsOnlyThatPreset(i: nat, j: nat)
    requires i < |PresetCategoryColors| && j < |PresetCategoryColors|
    ensures IsSelected(OnPresetClick(i), PresetCategoryColors[j]) <==> i == j
    ensures MatchesHexColor(Trim(OnPresetClick(i)))
  {
    PresetValid(i);
    TrimUnchanged(OnPresetClick(i));
    if i == j {
      EqualsIgnoreCaseIffSameLower(OnPresetClick(i), PresetCategoryColors[j].hex);
    } else if IsSelected(OnPresetClick(i), PresetCategoryColors[j]) {
      assert IsSelected(OnPresetClick(i), PresetCategoryColors[i]) by {
        EqualsIgnoreCaseIffSameLower(OnPresetClick(i), PresetCategoryColors[i].hex);
      }
      AtMostOneSelected(OnPresetClick(i), i, j);
    }
  }
}
