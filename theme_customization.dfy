/** ThemeCustomizationAPI: a theme name composed from two preference flags. */
module ThemeCustomization {
  import opened Wrappers

  datatype Preferences = Preferences(darkMode: bool, highContrast: bool)

  const HighContrastSuffix := "-high-contrast"

  predicate StartsWith(s: string, prefix: string) {
    |prefix| <= |s| && s[..|prefix|] == prefix
  }

  predicate EndsWith(s: string, suffix: string) {
    |suffix| <= |s| && s[|s| - |suffix|..] == suffix
  }

  /** `generateTheme`: "dark" or "light", followed by "-high-contrast" when asked for. */
  function GenerateTheme(preferences: Preferences): (theme: string)
    ensures theme in {"light", "dark", "light-high-contrast", "dark-high-contrast"}
    ensures StartsWith(theme, "dark") <==> preferences.darkMode
    ensures StartsWith(theme, "light") <==> !preferences.darkMode
    ensures EndsWith(theme, HighContrastSuffix) <==> preferences.highContrast
  {
    var base := if preferences.darkMode then "dark" else "light";
    // For the "dark" prefix clause: neither light name starts with "dark"
    // (their first characters differ).
    assert "light"[..4][0] != "dark"[0];
    assert "light-high-contrast"[..4][0] != "dark"[0];
    // For the clause naming the four results: appending the suffix spells
    // the two high-contrast names.
    assert "dark" + HighContrastSuffix == "dark-high-contrast";
    assert "light" + HighContrastSuffix == "light-high-contrast";
    if preferences.highContrast then base + HighContrastSuffix else base
  }

  /** Recovers the preferences a theme name was generated from, if it was generated at all. */
  function ParseTheme(theme: string): (preferences: Option<Preferences>)
    ensures preferences.Some? ==> GenerateTheme(preferences.value) == theme
    ensures preferences.None? ==> forall p :: GenerateTheme(p) != theme
  {
    if theme == "light" then Some(Preferences(false, false))
    else if theme == "dark" then Some(Preferences(true, false))
    else if theme == "light-high-contrast" then Some(Preferences(false, true))
    else if theme == "dark-high-contrast" then Some(Preferences(true, true))
    else None
  }

  /** Every theme name is parsed back to the preferences it came from. */
  lemma ParseGeneratedTheme(preferences: Preferences)
    ensures ParseTheme(GenerateTheme(preferences)) == Some(preferences)
  {
  }

  /** Different preferences never share a theme name. */
  lemma GenerateThemeInjective(p: Preferences, q: Preferences)
    requires GenerateTheme(p) == GenerateTheme(q)
    ensures p == q
  {
    ParseGeneratedTheme(p);
    ParseGeneratedTheme(q);
  }
}
