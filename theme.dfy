/** The light/dark theme switch (js/main.js, `initializeTheme` and its click handler): the
    stylesheet link's address, the body's `dark-mode` class and the persisted `"theme"` entry,
    with the browser's key-value store as a map. */
module Theme {
  import opened Text

  const ThemeKey := "theme"
  const LightSheet := "./css/theme-light.css"
  const DarkSheet := "./css/theme-dark.css"
  /** What the click handler looks for in the stylesheet address. */
  const LightMarker := "theme-light.css"

  /** `localStorage.getItem('theme') || 'light'`: a missing or empty entry falls back to light. */
  function SavedTheme(store: map<string, string>): (theme: string)
    ensures theme != ""
    ensures ThemeKey in store && store[ThemeKey] != "" ==> theme == store[ThemeKey]
    ensures ThemeKey !in store || store[ThemeKey] == "" ==> theme == "light"
  {
    if ThemeKey in store && store[ThemeKey] != "" then store[ThemeKey] else "light"
  }

  /** The stylesheet address `./css/theme-${theme}.css`: the theme name sits between a fixed
      prefix and a fixed suffix, so different themes load different addresses. */
  function SheetFor(theme: string): (sheet: string)
    ensures |sheet| == |theme| + 16
    ensures sheet[..12] == "./css/theme-" && sheet[|sheet| - 4..] == ".css"
    ensures sheet[12..|sheet| - 4] == theme
  {
    "./css/" + "theme-" + theme + ".css"
  }

  /** The theme a click switches to: dark when the current address names the light
      stylesheet, light otherwise. Either way its stylesheet is one of the two the page ships. */
  function ClickedTheme(href: string): (theme: string)
    ensures theme == "dark" <==> Includes(href, LightMarker)
    ensures theme == "light" <==> !Includes(href, LightMarker)
    ensures SheetFor(theme) == (if theme == "dark" then DarkSheet else LightSheet)
  {
    if Includes(href, LightMarker) then "dark" else "light"
  }

  /** The intended state of the body's `dark-mode` class for a theme: present exactly on dark. */
  function DarkModeClass(theme: string): bool {
    theme == "dark"
  }

  /** The `dark-mode` class the click handler leaves as written:
      `toggle('dark-mode', !isLight)`, where `isLight` describes the sheet `href` BEFORE the
      click; so the class ends up on exactly when the click switches to the light theme. */
  function DarkModeClassAsWritten(href: string): (on: bool)
    ensures on <==> ClickedTheme(href) == "light"
  {
    !Includes(href, LightMarker)
  }

  /** An address without the letter `l` cannot contain the light marker. */
  lemma NoLightMarkerWithoutL(s: string)
    requires 'l' !in s
    ensures !Includes(s, LightMarker)
  {
    forall i ensures !OccursAt(s, LightMarker, i) {
      if 0 <= i && i + |LightMarker| <= |s| {
        assert s[i..i + |LightMarker|][6] == s[i + 6] != 'l';
      }
    }
  }

  /** The two stylesheets the click handler writes are told apart by its test. */
  lemma SheetsDistinguished()
    ensures Includes(LightSheet, LightMarker)
    ensures !Includes(DarkSheet, LightMarker)
    ensures SheetFor("light") == LightSheet && SheetFor("dark") == DarkSheet
  {
    LightSheetMarked();
    DarkSheetUnmarked();
    SheetNames();
  }

  lemma LightSheetMarked()
    ensures Includes(LightSheet, LightMarker)
  {
    assert OccursAt(LightSheet, LightMarker, 6);
  }

  lemma DarkSheetUnmarked()
    ensures !Includes(DarkSheet, LightMarker)
  {
    NoLightMarkerWithoutL(DarkSheet);
  }

  lemma SheetNames()
    ensures SheetFor("light") == LightSheet && SheetFor("dark") == DarkSheet
  {
  }

  /** A click flips light to dark and dark to light. */
  lemma ClickFlips()
    ensures ClickedTheme(LightSheet) == "dark"
    ensures ClickedTheme(DarkSheet) == "light"
  {
    SheetsDistinguished();
  }

  /** From either stylesheet, two clicks restore the stylesheet, and the stored theme is then
      the one that stylesheet names. */
  lemma TwoClicksRestore(href: string)
    requires href == LightSheet || href == DarkSheet
    ensures SheetFor(ClickedTheme(SheetFor(ClickedTheme(href)))) == href
    ensures ClickedTheme(SheetFor(ClickedTheme(href))) == (if href == LightSheet then "light" else "dark")
  {
    SheetsDistinguished();
  }

  /** A saved theme other than light or dark loads a sheet the handler reads as dark, so two
      clicks end on the dark stylesheet rather than the original one. */
  lemma UnknownSavedThemeNotRestored()
    ensures SavedTheme(map[ThemeKey := "sepia"]) == "sepia"
    ensures ClickedTheme(SheetFor("sepia")) == "light"
    ensures SheetFor(ClickedTheme(SheetFor(ClickedTheme(SheetFor("sepia"))))) == DarkSheet != SheetFor("sepia")
  {
    SepiaSheetReadAsDark();
    ClickFlips();
    SheetNames();
  }

  lemma SepiaSheetReadAsDark()
    ensures ClickedTheme(SheetFor("sepia")) == "light"
  {
    var sepia := SheetFor("sepia");
    assert sepia == "./css/theme-sepia.css";
    NoLightMarkerWithoutL(sepia);
  }

  /** The inverted class: as written, switching from the light sheet to the dark one removes
      `dark-mode`, and switching back adds it, so the class is present exactly on the light
      sheet; the corrected rule keeps it with the dark sheet. */
  lemma DarkModeClassInverted()
    ensures ClickedTheme(LightSheet) == "dark" && !DarkModeClassAsWritten(LightSheet)
    ensures ClickedTheme(DarkSheet) == "light" && DarkModeClassAsWritten(DarkSheet)
    ensures DarkModeClass(ClickedTheme(LightSheet)) && !DarkModeClass(ClickedTheme(DarkSheet))
  {
    SheetsDistinguished();
  }

  /** The page's theme state: the stylesheet link's address, the body's `dark-mode` class and
      the browser store. */
  class ThemeSwitcher {
    var href: string
    var darkMode: bool
    var store: map<string, string>

    /** `initializeTheme`: load the saved theme's stylesheet; the `dark-mode` class is first set
        from the saved theme and then removed, forcing the initial light-mode class state. */
    constructor (stored: map<string, string>)
      ensures store == stored
      ensures href == SheetFor(SavedTheme(stored))
      ensures !darkMode
    {
      store := stored;
      var saved := SavedTheme(stored);
      href := SheetFor(saved);
      darkMode := saved == "dark";
      darkMode := false;
    }

    /** The theme-toggle click handler, with the `dark-mode` class set for the new theme. */
    method Click()
      modifies this
      ensures href == SheetFor(ClickedTheme(old(href)))
      ensures href == LightSheet || href == DarkSheet
      ensures darkMode <==> href == DarkSheet
      ensures store == old(store)[ThemeKey := ClickedTheme(old(href))]
      ensures SheetFor(store[ThemeKey]) == href
    {
      SheetNames();
      var isLight := Includes(href, LightMarker);
      href := if isLight then DarkSheet else LightSheet;
      darkMode := DarkModeClass(if isLight then "dark" else "light");
      store := store[ThemeKey := if isLight then "dark" else "light"];
    }

    /** The click handler as written: line 81's `toggle('dark-mode', !isLight)` leaves the class
        on exactly with the light stylesheet. */
    method ClickAsWritten()
      modifies this
      ensures href == SheetFor(ClickedTheme(old(href)))
      ensures darkMode == DarkModeClassAsWritten(old(href))
      ensures darkMode <==> href == LightSheet
      ensures store == old(store)[ThemeKey := ClickedTheme(old(href))]
    {
      SheetNames();
      var isLight := Includes(href, LightMarker);
      href := if isLight then DarkSheet else LightSheet;
      darkMode := !isLight;
      store := store[ThemeKey := if isLight then "dark" else "light"];
    }
  }

  /** Clicking twice restores the stylesheet and the stored theme once the sheet is one of the
      two the handler writes. The class then matches the sheet, so it is restored when it matched
      before; after the constructor on a saved dark theme it did not (the class starts off). */
  method ClickTwice(t: ThemeSwitcher)
    requires t.href == LightSheet || t.href == DarkSheet
    modifies t
    ensures t.href == old(t.href)
    ensures t.darkMode <==> t.href == DarkSheet
    ensures (old(t.darkMode) <==> old(t.href) == DarkSheet) ==> t.darkMode == old(t.darkMode)
    ensures t.store == old(t.store)[ThemeKey := if t.href == LightSheet then "light" else "dark"]
  {
    ghost var h0, s0 := t.href, t.store;
    TwoClicksRestore(h0);
    t.Click();
    ghost var h1 := t.href;
    assert h1 == SheetFor(ClickedTheme(h0));
    t.Click();
    assert t.href == SheetFor(ClickedTheme(h1)) == h0;
    assert t.store == s0[ThemeKey := ClickedTheme(h1)];
  }
}
