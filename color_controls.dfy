/**
  The colour controls of the design-system page: a ten-colour scheme, the
  single-field update behind every colour input, the five preset schemes and
  the label shown beside each input, derived from the field's camelCase name.
*/
module ColorControls {

  datatype ColorScheme = ColorScheme(
    primaryHeading: string,
    secondaryHeading: string,
    bodyText: string,
    cardBackground: string,
    sectionBackground: string,
    accentColor: string,
    buttonPrimary: string,
    buttonText: string,
    gradientStart: string,
    gradientEnd: string)

  /** `keyof ColorScheme`, in declaration order. */
  datatype Key =
    | PrimaryHeading | SecondaryHeading | BodyText | CardBackground | SectionBackground
    | AccentColor | ButtonPrimary | ButtonText | GradientStart | GradientEnd

  function Get(s: ColorScheme, k: Key): string {
    match k
    case PrimaryHeading => s.primaryHeading
    case SecondaryHeading => s.secondaryHeading
    case BodyText => s.bodyText
    case CardBackground => s.cardBackground
    case SectionBackground => s.sectionBackground
    case AccentColor => s.accentColor
    case ButtonPrimary => s.buttonPrimary
    case ButtonText => s.buttonText
    case GradientStart => s.gradientStart
    case GradientEnd => s.gradientEnd
  }

  /** Two schemes that agree on every key are the same scheme. */
  lemma SchemeExtensionality(a: ColorScheme, b: ColorScheme)
    requires forall k :: Get(a, k) == Get(b, k)
    ensures a == b
  {
    assert Get(a, PrimaryHeading) == Get(b, PrimaryHeading);
    assert Get(a, SecondaryHeading) == Get(b, SecondaryHeading);
    assert Get(a, BodyText) == Get(b, BodyText);
    assert Get(a, CardBackground) == Get(b, CardBackground);
    assert Get(a, SectionBackground) == Get(b, SectionBackground);
    assert Get(a, AccentColor) == Get(b, AccentColor);
    assert Get(a, ButtonPrimary) == Get(b, ButtonPrimary);
    assert Get(a, ButtonText) == Get(b, ButtonText);
    assert Get(a, GradientStart) == Get(b, GradientStart);
    assert Get(a, GradientEnd) == Get(b, GradientEnd);
  }

  /** `handleColorChange(key, value)`: `{...prev, [key]: value}`. */
  function HandleColorChange(prev: ColorScheme, key: Key, value: string): (r: ColorScheme)
    ensures Get(r, key) == value
    ensures forall k :: k != key ==> Get(r, k) == Get(prev, k)
  {
    match key
    case PrimaryHeading => prev.(primaryHeading := value)
    case SecondaryHeading => prev.(secondaryHeading := value)
    case BodyText => prev.(bodyText := value)
    case CardBackground => prev.(cardBackground := value)
    case SectionBackground => prev.(sectionBackground := value)
    case AccentColor => prev.(accentColor := value)
    case ButtonPrimary => prev.(buttonPrimary := value)
    case ButtonText => prev.(buttonText := value)
    case GradientStart => prev.(gradientStart := value)
    case GradientEnd => prev.(gradientEnd := value)
  }

  /** Changes of two different colours can happen in either order. */
  lemma ChangesCommute(s: ColorScheme, k1: Key, v1: string, k2: Key, v2: string)
    requires k1 != k2
    ensures HandleColorChange(HandleColorChange(s, k1, v1), k2, v2)
         == HandleColorChange(HandleColorChange(s, k2, v2), k1, v1)
  {
    SchemeExtensionality(HandleColorChange(HandleColorChange(s, k1, v1), k2, v2),
                         HandleColorChange(HandleColorChange(s, k2, v2), k1, v1));
  }

  /** Of two changes of the same colour the second wins; so repeating a change changes nothing more. */
  lemma LastChangeWins(s: ColorScheme, k: Key, v1: string, v2: string)
    ensures HandleColorChange(HandleColorChange(s, k, v1), k, v2) == HandleColorChange(s, k, v2)
    ensures HandleColorChange(HandleColorChange(s, k, v1), k, v1) == HandleColorChange(s, k, v1)
  {
    SchemeExtensionality(HandleColorChange(HandleColorChange(s, k, v1), k, v2), HandleColorChange(s, k, v2));
  }

  /** Writing back the value a colour already has leaves the scheme as it was. */
  lemma UnchangedValueIsNoChange(s: ColorScheme, k: Key)
    ensures HandleColorChange(s, k, Get(s, k)) == s
  {
    SchemeExtensionality(HandleColorChange(s, k, Get(s, k)), s);
  }

  // ---------------------------------------------------------------- presets

  datatype Preset = Preset(name: string, scheme: ColorScheme)

  function Presets(): (ps: seq<Preset>)
    ensures |ps| == 5
    ensures ps[0].name == "Dark Purple" && ps[1].name == "Minimal Grayscale" && ps[2].name == "Blue Modern"
    ensures ps[3].name == "Green Fresh" && ps[4].name == "Orange Warm"
  {
    [
      Preset("Dark Purple", ColorScheme("#DC8AF5", "#F58AD8", "#FFFFFF", "#1a1a1a", "#0a0a0a",
                                        "#8AB3F5", "#DC8AF5", "#FFFFFF", "#DC8AF5", "#8AB3F5")),
      Preset("Minimal Grayscale", ColorScheme("#000000", "#222222", "#404040", "#FFFFFF", "#F8F8F8",
                                              "#7B7B7B", "#000000", "#FFFFFF", "#222222", "#7B7B7B")),
      Preset("Blue Modern", ColorScheme("#1E40AF", "#3B82F6", "#1F2937", "#FFFFFF", "#F3F4F6",
                                        "#60A5FA", "#3B82F6", "#FFFFFF", "#3B82F6", "#8B5CF6")),
      Preset("Green Fresh", ColorScheme("#047857", "#059669", "#1F2937", "#FFFFFF", "#ECFDF5",
                                        "#10B981", "#059669", "#FFFFFF", "#059669", "#06B6D4")),
      Preset("Orange Warm", ColorScheme("#EA580C", "#F97316", "#1F2937", "#FFFFFF", "#FFF7ED",
                                        "#FB923C", "#F97316", "#FFFFFF", "#F97316", "#EF4444"))
    ]
  }

  /** The preset names serve as list keys, so no two presets share one; no two presets are the same scheme either. */
  lemma PresetsDistinct()
    ensures forall i, j :: 0 <= i < j < |Presets()| ==> Presets()[i].name != Presets()[j].name
    ensures forall i, j :: 0 <= i < j < |Presets()| ==> Presets()[i].scheme != Presets()[j].scheme
  {
  }

  /** `applyPreset(scheme)`: the preset replaces every colour, whatever was there before. */
  function ApplyPreset(prev: ColorScheme, scheme: ColorScheme): (r: ColorScheme)
    ensures forall k :: Get(r, k) == Get(scheme, k)
  {
    scheme
  }

  /** Applying a preset twice is applying it once, and a colour change made before a preset is lost. */
  lemma ApplyPresetIdempotent(s: ColorScheme, scheme: ColorScheme, k: Key, v: string)
    ensures ApplyPreset(ApplyPreset(s, scheme), scheme) == ApplyPreset(s, scheme)
    ensures ApplyPreset(HandleColorChange(s, k, v), scheme) == ApplyPreset(s, scheme)
  {
    SchemeExtensionality(ApplyPreset(ApplyPreset(s, scheme), scheme), ApplyPreset(s, scheme));
    SchemeExtensionality(ApplyPreset(HandleColorChange(s, k, v), scheme), ApplyPreset(s, scheme));
  }

  // ----------------------------------------------------------------- labels

  /** The property name behind each key. */
  function KeyName(k: Key): string {
    match k
    case PrimaryHeading => "primaryHeading"
    case SecondaryHeading => "secondaryHeading"
    case BodyText => "bodyText"
    case CardBackground => "cardBackground"
    case SectionBackground => "sectionBackground"
    case AccentColor => "accentColor"
    case ButtonPrimary => "buttonPrimary"
    case ButtonText => "buttonText"
    case GradientStart => "gradientStart"
    case GradientEnd => "gradientEnd"
  }

  predicate IsUpper(c: char) { 'A' <= c <= 'Z' }

  function CountUpper(s: string): nat {
    if s == [] then 0 else (if IsUpper(s[0]) then 1 else 0) + CountUpper(s[1..])
  }

  /** `replace(/([A-Z])/g, ' $1')`: a space before every ASCII capital. */
  function SpaceBeforeCaps(s: string): (r: string)
    ensures |r| == |s| + CountUpper(s)
  {
    if s == [] then []
    else if IsUpper(s[0]) then [' ', s[0]] + SpaceBeforeCaps(s[1..])
    else [s[0]] + SpaceBeforeCaps(s[1..])
  }

  /** The string with its spaces removed. */
  function Unspace(s: string): string {
    if s == [] then []
    else if s[0] == ' ' then Unspace(s[1..])
    else [s[0]] + Unspace(s[1..])
  }

  /** Inserting the spaces loses nothing: removing them again gives back a space-free key. */
  lemma {:induction false} UnspaceSpaceBeforeCaps(s: string)
    requires forall i :: 0 <= i < |s| ==> s[i] != ' '
    ensures Unspace(SpaceBeforeCaps(s)) == s
  {
    if s != [] {
      UnspaceSpaceBeforeCaps(s[1..]);
      var rest := SpaceBeforeCaps(s[1..]);
      if IsUpper(s[0]) {
        assert ([' ', s[0]] + rest)[1..] == [s[0]] + rest;
      }
      assert ([s[0]] + rest)[1..] == rest;
    }
  }

  /** ASCII `toUpperCase` of one character. */
  function ToUpper(c: char): char {
    if 'a' <= c <= 'z' then (c as int - 32) as char else c
  }

  /** `replace(/^./, str => str.toUpperCase())` */
  function UpperFirst(s: string): (r: string)
    ensures |r| == |s|
    ensures |s| > 0 ==> r[0] == ToUpper(s[0]) && r[1..] == s[1..]
  {
    if s == [] then [] else [ToUpper(s[0])] + s[1..]
  }

  /** The label shown beside a key's input: a space before each capital, then the first letter capitalised. */
  function Label(key: string): (r: string)
    ensures |r| == |key| + CountUpper(key)
  {
    UpperFirst(SpaceBeforeCaps(key))
  }

  /** A key that starts lower-case gets a capital first letter and each later capital starts a new word. */
  lemma {:induction false} LabelWords(key: string)
    requires |key| > 0 && !IsUpper(key[0])
    ensures Label(key) == [ToUpper(key[0])] + SpaceBeforeCaps(key[1..])
  {
    assert SpaceBeforeCaps(key) == [key[0]] + SpaceBeforeCaps(key[1..]);
  }

  lemma {:induction false} SpaceBeforeCapsAppend(a: string, b: string)
    ensures SpaceBeforeCaps(a + b) == SpaceBeforeCaps(a) + SpaceBeforeCaps(b)
    decreases |a|
  {
    if a == [] {
      assert a + b == b;
    } else {
      assert (a + b)[0] == a[0] && (a + b)[1..] == a[1..] + b;
      SpaceBeforeCapsAppend(a[1..], b);
    }
  }

  predicate NoCaps(w: string) {
    forall i :: 0 <= i < |w| ==> !IsUpper(w[i])
  }

  lemma {:induction false} SpaceBeforeCapsNoCaps(w: string)
    requires NoCaps(w)
    ensures SpaceBeforeCaps(w) == w
    decreases |w|
  {
    if w != [] {
      SpaceBeforeCapsNoCaps(w[1..]);
    }
  }

  /** Only the capital between the two words gets a space. */
  lemma SpaceTwoWords(first: string, cap: char, rest: string)
    requires NoCaps(first) && IsUpper(cap) && NoCaps(rest)
    ensures SpaceBeforeCaps(first + [cap] + rest) == first + [' ', cap] + rest
  {
    var tail := [cap] + rest;
    assert first + [cap] + rest == first + tail;
    SpaceBeforeCapsAppend(first, tail);
    SpaceBeforeCapsNoCaps(first);
    assert tail[0] == cap && tail[1..] == rest;
    SpaceBeforeCapsNoCaps(rest);
    assert SpaceBeforeCaps(tail) == [' ', cap] + rest;
    assert first + ([' ', cap] + rest) == first + [' ', cap] + rest;
  }

  /** The label of a two-word key `first` + `Second`: "First Second". */
  lemma TwoWordLabel(first: string, cap: char, rest: string)
    requires |first| > 0 && NoCaps(first) && IsUpper(cap) && NoCaps(rest)
    ensures Label(first + [cap] + rest) == [ToUpper(first[0])] + first[1..] + [' ', cap] + rest
  {
    SpaceTwoWords(first, cap, rest);
    var spaced := first + [' ', cap] + rest;
    assert spaced[0] == first[0] && spaced[1..] == first[1..] + [' ', cap] + rest;
  }

  /** The first input is labelled "Primary Heading". */
  lemma PrimaryHeadingLabel()
    ensures Label(KeyName(PrimaryHeading)) == "Primary Heading"
  {
    assert NoCaps("primary") && NoCaps("eading");
    TwoWordLabel("primary", 'H', "eading");
    assert "primary" + ['H'] + "eading" == "primaryHeading";
    assert ToUpper('p') == 'P';
    assert ['P'] + "rimary" + [' ', 'H'] + "eading" == "Primary Heading";
  }

  /** The body-text input is labelled "Body Text". */
  lemma BodyTextLabel()
    ensures Label(KeyName(BodyText)) == "Body Text"
  {
    assert NoCaps("body") && NoCaps("ext");
    TwoWordLabel("body", 'T', "ext");
    assert "body" + ['T'] + "ext" == "bodyText";
    assert ToUpper('b') == 'B';
    assert ['B'] + "ody" + [' ', 'T'] + "ext" == "Body Text";
  }
}
