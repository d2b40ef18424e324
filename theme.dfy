/** The `useTheme` hook: the light/dark mode, decided at start-up from the
    stored preference or the system's colour scheme, flipped by `toggleTheme`,
    and written back to the storage slot and the document by an effect. */
module Theme {
  import opened Wrappers

  /** The storage key the preference lives under. */
  const StorageKey := "clarityai-theme"

  /** The initial value of `isDarkMode`: a non-empty stored string decides
      (dark exactly when it is "dark"); a missing or empty one defers to the
      system's dark-scheme preference. */
  function InitialMode(saved: Option<string>, prefersDark: bool): (dark: bool)
    ensures saved == Some("dark") ==> dark
    ensures saved == Some("light") ==> !dark
    ensures saved == None ==> dark == prefersDark
  {
    if saved.Some? && saved.value != "" then saved.value == "dark" else prefersDark
  }

  /** The string stored and set as `data-theme`. */
  function ThemeName(dark: bool): (name: string)
    ensures name == "dark" || name == "light"
    ensures name == "dark" <==> dark
  {
    if dark then "dark" else "light"
  }

  /** The class put on the document body. */
  function BodyClass(dark: bool): (cls: string)
    ensures cls == ThemeName(dark) + "-theme"
  {
    if dark then "dark-theme" else "light-theme"
  }

  lemma {:induction false} InitialModeFromStorage(saved: string, prefersDark: bool)
    requires saved != ""
    ensures InitialMode(Some(saved), prefersDark) <==> saved == "dark"
  {
  }

  lemma {:induction false} InitialModeFallback(saved: Option<string>, prefersDark: bool)
    requires saved == None || saved == Some("")
    ensures InitialMode(saved, prefersDark) == prefersDark
  {
  }

  /** What the effect stores is read back as the same mode, whatever the
      system preference is at the next start-up. */
  lemma {:induction false} ThemeRoundTrip(dark: bool, prefersDark: bool)
    ensures InitialMode(Some(ThemeName(dark)), prefersDark) == dark
  {
  }

  /** Any stored string other than "dark", "light" included, means light. */
  lemma {:induction false} UnknownStoredStringIsLight(saved: string, prefersDark: bool)
    requires saved != "" && saved != "dark"
    ensures !InitialMode(Some(saved), prefersDark)
  {
  }

  class ThemeHook {
    var isDarkMode: bool
    /** The storage slot under `StorageKey`. */
    var stored: Option<string>
    /** The `data-theme` attribute of the document element. */
    var dataTheme: Option<string>
    /** The class name of the document body. */
    var bodyClass: string

    /** The document and the storage agree with the mode, as they do after the effect has run. */
    predicate Synced()
      reads this
    {
      stored == Some(ThemeName(isDarkMode))
      && dataTheme == Some(ThemeName(isDarkMode))
      && bodyClass == BodyClass(isDarkMode)
    }

    /** Mounting: the mode comes from the storage slot or the system preference. */
    constructor (stored: Option<string>, prefersDark: bool, bodyClass: string)
      ensures isDarkMode == InitialMode(stored, prefersDark)
      ensures this.stored == stored && dataTheme == None && this.bodyClass == bodyClass
    {
      isDarkMode := InitialMode(stored, prefersDark);
      this.stored := stored;
      dataTheme := None;
      this.bodyClass := bodyClass;
    }

    /** `toggleTheme`. */
    method ToggleTheme()
      modifies this`isDarkMode
      ensures isDarkMode == !old(isDarkMode)
    {
      isDarkMode := !isDarkMode;
    }

    /** The effect that runs after each change of the mode. */
    method ApplyTheme()
      modifies this`stored, this`dataTheme, this`bodyClass
      ensures Synced()
      ensures stored == Some(if isDarkMode then "dark" else "light")
    {
      dataTheme := Some(ThemeName(isDarkMode));
      bodyClass := BodyClass(isDarkMode);
      stored := Some(ThemeName(isDarkMode));
    }
  }

  /** Toggling twice restores the mode. */
  method ToggleTwice(hook: ThemeHook)
    modifies hook
    ensures hook.isDarkMode == old(hook.isDarkMode)
  {
    hook.ToggleTheme();
    hook.ToggleTheme();
  }

  /** A toggle followed by its effect, then a fresh start-up from the stored
      slot: the new hook starts in the toggled mode. */
  method ToggleThenReload(hook: ThemeHook, prefersDark: bool) returns (reloaded: ThemeHook)
    modifies hook
    ensures hook.isDarkMode == !old(hook.isDarkMode)
    ensures reloaded.isDarkMode == hook.isDarkMode
  {
    hook.ToggleTheme();
    hook.ApplyTheme();
    ThemeRoundTrip(hook.isDarkMode, prefersDark);
    reloaded := new ThemeHook(hook.stored, prefersDark, hook.bodyClass);
  }
}
