/** Shop settings and the colour theme. */
module Preferences {
  import opened Records
  import opened Text

  /** saveShopSettings: the trimmed name and address must be non-empty and
      the tax a number no smaller than 0; the four edited fields are merged
      over the current settings, which keep their currency. */
  function SaveSettings(current: Settings, nameIn: string, addressIn: string, taxIn: Option<real>, upiIn: string): Result<Settings> {
    var name := Trim(nameIn);
    var address := Trim(addressIn);
    if name == "" || address == "" || taxIn.None? || taxIn.value < 0.0 then Err(InvalidFields)
    else Ok(current.(shopName := name, shopAddress := address, taxPercentage := taxIn.value, defaultUpiId := Trim(upiIn)))
  }

  /** Refused exactly when a required field is blank or the tax is missing
      or negative, and then nothing changes; saved, the fields hold the
      trimmed inputs, the tax is non-negative and the currency is kept. */
  lemma SaveSettingsEffect(current: Settings, nameIn: string, addressIn: string, taxIn: Option<real>, upiIn: string)
    ensures var r := SaveSettings(current, nameIn, addressIn, taxIn, upiIn);
      (r.Err? <==> Trim(nameIn) == "" || Trim(addressIn) == "" || taxIn.None? || taxIn.value < 0.0) &&
      (r.Err? ==> r.error == InvalidFields) &&
      (r.Ok? ==> r.value.shopName == Trim(nameIn) != "" && r.value.shopAddress == Trim(addressIn) != "" &&
                 r.value.taxPercentage == taxIn.value >= 0.0 && r.value.defaultUpiId == Trim(upiIn) &&
                 r.value.currency == current.currency)
  {
  }

  /** The cycle toggleTheme walks through. */
  const Themes: seq<string> := ["light", "dark", "high-contrast"]

  /** toggleTheme: the theme after the current one in the cycle; a theme
      outside the cycle (indexOf gives -1) goes to the first, 'light'. */
  function NextTheme(theme: string): string {
    var k := IndexOf(Themes, theme);
    Themes[(k + 1) % |Themes|]
  }

  /** The cycle step by step: light, dark, high-contrast, light again, and
      anything else to light. */
  lemma NextThemeTable(theme: string)
    ensures theme == "light" ==> NextTheme(theme) == "dark"
    ensures theme == "dark" ==> NextTheme(theme) == "high-contrast"
    ensures theme == "high-contrast" ==> NextTheme(theme) == "light"
    ensures theme !in Themes ==> NextTheme(theme) == "light"
  {
    var k := IndexOf(Themes, theme);
    if theme == "light" {
      assert Themes[0] == theme;
      assert k == 0;
    } else if theme == "dark" {
      assert Themes[1] == theme && Themes[0] != theme;
      assert k == 1;
    } else if theme == "high-contrast" {
      assert Themes[2] == theme && Themes[0] != theme && Themes[1] != theme;
      assert k == 2;
    }
  }

  /** The next theme is always one of the three and never the current one;
      from a theme of the cycle, three toggles come back to that theme. */
  lemma ThemeCycle(theme: string)
    ensures NextTheme(theme) in Themes
    ensures NextTheme(theme) != theme
    ensures theme in Themes ==> NextTheme(NextTheme(NextTheme(theme))) == theme
  {
    assert theme in Themes <==> theme == "light" || theme == "dark" || theme == "high-contrast";
    NextThemeTable(theme);
    NextThemeTable(NextTheme(theme));
    NextThemeTable(NextTheme(NextTheme(theme)));
  }
}
