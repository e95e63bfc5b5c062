/** `SettingsViewModel` (src/main/kotlin/viewModels/SettingsViewModel.kt): four settings
    held in memory and mirrored into the user's preferences node. The node is a map from
    key to stored text; `flush` and the backing store are not modelled. */
module Settings {
  import opened Text
  import opened AppColor
  import Currency

  type Prefs = map<string, string>

  const ThemeKey := "app_color_theme"
  const SchemeKey := "app_color_scheme"
  const CompactKey := "compact_layout"
  const CurrencyKey := "default_currency"

  /** `preferences.get(key, default)` */
  function Get(p: Prefs, key: string, default: string): (v: string)
    ensures key in p ==> v == p[key]
    ensures key !in p ==> v == default
  {
    if key in p then p[key] else default
  }

  /** Reading back what was just put: a put is seen under its own key only, and a key
      never put reads as the default. */
  lemma GetAfterPut(p: Prefs, key: string, other: string, v: string, default: string)
    ensures Get(p[key := v], key, default) == v
    ensures other != key ==> Get(p[key := v], other, default) == Get(p, other, default)
    ensures Get(map[], key, default) == default
  {
  }

  /** `String.equalsIgnoreCase`, with ASCII case folding. */
  predicate EqualsIgnoreCase(a: string, b: string) {
    |a| == |b| && StartsWithIgnoreCase(a, b)
  }

  /** `putBoolean` stores "true" or "false". */
  function BoolText(b: bool): string {
    if b then "true" else "false"
  }

  /** `preferences.getBoolean(key, default)`: "true" and "false" in any case are read as
      such; anything else, or no entry, gives the default. */
  function GetBoolean(p: Prefs, key: string, default: bool): (b: bool)
    ensures key in p && EqualsIgnoreCase(p[key], "true") ==> b
    ensures key in p && EqualsIgnoreCase(p[key], "false") ==> !b
    ensures key !in p ==> b == default
    ensures key in p && !EqualsIgnoreCase(p[key], "true") && !EqualsIgnoreCase(p[key], "false") ==>
      b == default
  {
    if key !in p then default
    else if EqualsIgnoreCase(p[key], "true") then true
    else if EqualsIgnoreCase(p[key], "false") then false
    else default
  }

  /** The four settings, as the property initialisers decode them. */
  datatype Loaded = Loaded(theme: AppColorTheme, scheme: AppColorScheme, compact: bool,
                           currency: Currency.CurrencyType)

  function Load(p: Prefs): Loaded {
    Loaded(ThemeFromString(Get(p, ThemeKey, ThemeName(SYSTEM))),
           SchemeFromString(Get(p, SchemeKey, SchemeName(DEFAULT_BLUE))),
           GetBoolean(p, CompactKey, false),
           Currency.Find(Get(p, CurrencyKey, Currency.Code(Currency.USD))))
  }

  class SettingsViewModel {
    var prefs: Prefs
    var appColorTheme: AppColorTheme
    var appColorScheme: AppColorScheme
    var compactLayout: bool
    var defaultCurrency: Currency.CurrencyType

    function Current(): Loaded
      reads this
    {
      Loaded(appColorTheme, appColorScheme, compactLayout, defaultCurrency)
    }

    /** A new instance over the preferences node as it stands. */
    constructor (stored: Prefs)
      ensures prefs == stored && Current() == Load(stored)
    {
      prefs := stored;
      appColorTheme := ThemeFromString(Get(stored, ThemeKey, ThemeName(SYSTEM)));
      appColorScheme := SchemeFromString(Get(stored, SchemeKey, SchemeName(DEFAULT_BLUE)));
      compactLayout := GetBoolean(stored, CompactKey, false);
      defaultCurrency := Currency.Find(Get(stored, CurrencyKey, Currency.Code(Currency.USD)));
    }

    /** Stores the constant's `name`, which `Load` does not decode (see ThemeIsNotRestored). */
    method SetAppColorTheme(theme: AppColorTheme)
      modifies this
      ensures Current() == old(Current()).(theme := theme)
      ensures prefs == old(prefs)[ThemeKey := ThemeName(theme)]
    {
      appColorTheme := theme;
      prefs := prefs[ThemeKey := ThemeName(theme)];
    }

    /** Stores the constant's `name`, which `Load` does not decode (see SchemeIsNotRestored). */
    method SetAppColorScheme(scheme: AppColorScheme)
      modifies this
      ensures Current() == old(Current()).(scheme := scheme)
      ensures prefs == old(prefs)[SchemeKey := SchemeName(scheme)]
    {
      appColorScheme := scheme;
      prefs := prefs[SchemeKey := SchemeName(scheme)];
    }

    method SetCompactLayout(compact: bool)
      modifies this
      ensures Current() == old(Current()).(compact := compact)
      ensures prefs == old(prefs)[CompactKey := BoolText(compact)]
    {
      compactLayout := compact;
      prefs := prefs[CompactKey := BoolText(compact)];
    }

    method SetDefaultCurrency(currency: Currency.CurrencyType)
      modifies this
      ensures Current() == old(Current()).(currency := currency)
      ensures prefs == old(prefs)[CurrencyKey := Currency.Code(currency)]
    {
      defaultCurrency := currency;
      prefs := prefs[CurrencyKey := Currency.Code(currency)];
    }
  }

  /** With nothing stored: SYSTEM, DEFAULT_BLUE, not compact, USD. */
  lemma {:induction false} DefaultsWhenEmpty()
    ensures Load(map[]) == Loaded(SYSTEM, DEFAULT_BLUE, false, Currency.USD)
  {
    ThemeFromNameIsSystem(SYSTEM);
    SchemeFromNameIsDefault(DEFAULT_BLUE);
    Currency.FindByCode(Currency.USD);
  }

  /** The four keys are distinct, so each setter leaves the others' entries alone. */
  lemma KeysDistinct()
    ensures ThemeKey != SchemeKey && ThemeKey != CompactKey && ThemeKey != CurrencyKey
    ensures SchemeKey != CompactKey && SchemeKey != CurrencyKey && CompactKey != CurrencyKey
  {
  }

  /** A stored currency is read back by a new instance. */
  lemma {:induction false} CurrencyIsRestored(p: Prefs, c: Currency.CurrencyType)
    ensures Load(p[CurrencyKey := Currency.Code(c)]).currency == c
  {
    Currency.FindByCode(c);
  }

  /** A stored layout flag is read back by a new instance. */
  lemma {:induction false} CompactIsRestored(p: Prefs, b: bool)
    ensures Load(p[CompactKey := BoolText(b)]).compact == b
  {
    if b {
      assert EqualsIgnoreCase("true", "true");
    } else {
      assert EqualsIgnoreCase("false", "false");
      assert !EqualsIgnoreCase("false", "true");
    }
  }

  /** The theme is stored by `name` and read back by `value`: every theme reloads as SYSTEM. */
  lemma {:induction false} ThemeIsNotRestored(p: Prefs, t: AppColorTheme)
    ensures Load(p[ThemeKey := ThemeName(t)]).theme == SYSTEM
  {
    ThemeFromNameIsSystem(t);
  }

  /** The scheme is stored by `name` and read back by display name: every scheme reloads as
      DEFAULT_BLUE. */
  lemma {:induction false} SchemeIsNotRestored(p: Prefs, s: AppColorScheme)
    ensures Load(p[SchemeKey := SchemeName(s)]).scheme == DEFAULT_BLUE
  {
    SchemeFromNameIsDefault(s);
  }

  /** Setting the currency and reopening: the new instance has that currency and whatever
      the other keys held before. */
  lemma {:induction false} ReloadAfterCurrencyChange(p: Prefs, c: Currency.CurrencyType)
    ensures Load(p[CurrencyKey := Currency.Code(c)]) == Load(p).(currency := c)
  {
    CurrencyIsRestored(p, c);
    KeysDistinct();
  }
}
