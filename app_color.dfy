/** Colour-scheme and theme enums and their string decoders
    (src/main/kotlin/ui/theme/app_color.kt). The colour tables themselves are not modelled:
    a scheme's providers are stood for by the palette they select. */
module AppColor {
  import opened Wrappers
  import opened Seqs

  datatype AppColorScheme =
    DEFAULT_BLUE | EARTHLY_COLOR | EMERALD_COURT | ROSE_BLOSSOM | OCEAN_MIST | AUTUMN_EMBER | BLACK_WHITE

  const Schemes: seq<AppColorScheme> :=
    [DEFAULT_BLUE, EARTHLY_COLOR, EMERALD_COURT, ROSE_BLOSSOM, OCEAN_MIST, AUTUMN_EMBER, BLACK_WHITE]

  /** The enum constant's `name`, which is what the settings store writes. */
  function SchemeName(s: AppColorScheme): string {
    match s
    case DEFAULT_BLUE => "DEFAULT_BLUE" case EARTHLY_COLOR => "EARTHLY_COLOR"
    case EMERALD_COURT => "EMERALD_COURT" case ROSE_BLOSSOM => "ROSE_BLOSSOM"
    case OCEAN_MIST => "OCEAN_MIST" case AUTUMN_EMBER => "AUTUMN_EMBER"
    case BLACK_WHITE => "BLACK_WHITE"
  }

  function DisplayName(s: AppColorScheme): string {
    match s
    case DEFAULT_BLUE => "Default Blue" case EARTHLY_COLOR => "Earthly Color"
    case EMERALD_COURT => "Emerald Court" case ROSE_BLOSSOM => "Rose Blossom"
    case OCEAN_MIST => "Ocean Mist" case AUTUMN_EMBER => "Autumn Ember"
    case BLACK_WHITE => "Black & White"
  }

  /** `AppColorScheme.fromString`: the scheme with that display name, else DEFAULT_BLUE. */
  function SchemeFromString(value: string): (r: AppColorScheme)
    ensures (exists s :: DisplayName(s) == value) ==> DisplayName(r) == value
    ensures (forall s :: DisplayName(s) != value) ==> r == DEFAULT_BLUE
  {
    var found := FindFirst(Schemes, s => DisplayName(s) == value);
    assert found.None? ==> forall s :: DisplayName(s) != value by {
      if found.None? {
        forall s ensures DisplayName(s) != value { assert Schemes[SchemeOrdinal(s)] == s; }
      }
    }
    found.GetOr(DEFAULT_BLUE)
  }

  function SchemeOrdinal(s: AppColorScheme): (i: nat)
    ensures i < |Schemes| && Schemes[i] == s
  {
    match s
    case DEFAULT_BLUE => 0 case EARTHLY_COLOR => 1 case EMERALD_COURT => 2 case ROSE_BLOSSOM => 3
    case OCEAN_MIST => 4 case AUTUMN_EMBER => 5 case BLACK_WHITE => 6
  }

  lemma DisplayNameIdentifies(s: AppColorScheme, t: AppColorScheme)
    requires DisplayName(t) == DisplayName(s)
    ensures t == s
  {
  }

  lemma {:induction false} SchemeFromDisplayName(s: AppColorScheme)
    ensures SchemeFromString(DisplayName(s)) == s
  {
    DisplayNameIdentifies(s, SchemeFromString(DisplayName(s)));
  }

  /** No constant's `name` is a display name, so decoding a `name` always gives the default. */
  lemma {:induction false} SchemeFromNameIsDefault(s: AppColorScheme)
    ensures SchemeFromString(SchemeName(s)) == DEFAULT_BLUE
  {
    forall t ensures DisplayName(t) != SchemeName(s) { }
  }

  /** What a colour provider of a scheme yields; the colour values are not modelled. */
  datatype Palette = LightPalette(scheme: AppColorScheme) | DarkPalette(scheme: AppColorScheme)

  /** `getColors(isDark)`: the scheme's dark provider exactly when `isDark`. */
  function GetColors(s: AppColorScheme, isDark: bool): (p: Palette)
    ensures p.DarkPalette? <==> isDark
    ensures p.scheme == s
  {
    if isDark then DarkPalette(s) else LightPalette(s)
  }

  datatype AppColorTheme = LIGHT | DARK | SYSTEM

  const Themes: seq<AppColorTheme> := [LIGHT, DARK, SYSTEM]

  function ThemeName(t: AppColorTheme): string {
    match t
    case LIGHT => "LIGHT" case DARK => "DARK" case SYSTEM => "SYSTEM"
  }

  function ThemeValue(t: AppColorTheme): string {
    match t
    case LIGHT => "Light" case DARK => "Dark" case SYSTEM => "System"
  }

  /** `AppColorTheme.fromString`: the theme with that `value`, else SYSTEM. */
  function ThemeFromString(value: string): (r: AppColorTheme)
    ensures (exists t :: ThemeValue(t) == value) ==> ThemeValue(r) == value
    ensures (forall t :: ThemeValue(t) != value) ==> r == SYSTEM
  {
    var found := FindFirst(Themes, t => ThemeValue(t) == value);
    assert found.None? ==> forall t :: ThemeValue(t) != value by {
      if found.None? {
        forall t ensures ThemeValue(t) != value { assert Themes[ThemeOrdinal(t)] == t; }
      }
    }
    found.GetOr(SYSTEM)
  }

  function ThemeOrdinal(t: AppColorTheme): (i: nat)
    ensures i < |Themes| && Themes[i] == t
  {
    match t
    case LIGHT => 0 case DARK => 1 case SYSTEM => 2
  }

  lemma {:induction false} ThemeFromValue(t: AppColorTheme)
    ensures ThemeFromString(ThemeValue(t)) == t
  {
    var r := ThemeFromString(ThemeValue(t));
    assert ThemeValue(r) == ThemeValue(t);
  }

  /** The `name`s are upper case and the `value`s are not: "LIGHT" and "DARK" decode to SYSTEM. */
  lemma {:induction false} ThemeFromNameIsSystem(t: AppColorTheme)
    ensures ThemeFromString(ThemeName(t)) == SYSTEM
  {
    forall u ensures ThemeValue(u) != ThemeName(t) { }
  }
}
