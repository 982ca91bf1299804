/**
 * context/themeContext.tsx: the app-wide theme. Two state fields (the active theme and whether it
 * follows the device) plus the copy persisted under the "theme" storage key.
 */
module Theme {
  import opened Wrappers

  const DefaultTheme := "light"

  /** What the "theme" storage key holds: nothing, text JSON.parse rejects, a falsy JSON value, or a saved preference. */
  datatype Stored = Missing | Unparseable | FalsyJson | Pref(mode: string, system: bool)

  class ThemeProvider {
    var theme: string
    var systemTheme: bool
    /** `useColorScheme()`: the device scheme, `None` when it is null or undefined. */
    var colorScheme: Option<string>
    /** The persisted copy under the "theme" key. */
    var storage: Stored

    /** The persisted copy describes the current state. */
    predicate Synced()
      reads this
    {
      storage == Pref(theme, systemTheme)
    }

    /** Mounting starts from the light theme, whatever is stored. */
    constructor (colorScheme: Option<string>, storage: Stored)
      ensures theme == DefaultTheme && !systemTheme
      ensures this.colorScheme == colorScheme && this.storage == storage
    {
      theme, systemTheme := DefaultTheme, false;
      this.colorScheme, this.storage := colorScheme, storage;
    }

    /** The load effect: a saved preference is restored; anything else keeps the current state. */
    method Load()
      modifies this
      ensures storage == old(storage) && colorScheme == old(colorScheme)
      ensures storage.Pref? ==> theme == storage.mode && systemTheme == storage.system && Synced()
      ensures !storage.Pref? ==> theme == old(theme) && systemTheme == old(systemTheme)
    {
      match storage {
        case Pref(mode, system) =>
          theme := mode;
          systemTheme := system;
        case _ =>
      }
    }

    /** The effect on `colorScheme`: followed only when a scheme is known and the theme tracks the device. */
    method ColorSchemeChanged(scheme: Option<string>)
      modifies this
      ensures colorScheme == scheme
      ensures scheme.Some? && old(systemTheme) ==> theme == scheme.value && systemTheme && Synced()
      ensures !(scheme.Some? && old(systemTheme)) ==>
        theme == old(theme) && systemTheme == old(systemTheme) && storage == old(storage)
    {
      colorScheme := scheme;
      if scheme.Some? && systemTheme {
        theme := scheme.value;
        systemTheme := true;
        storage := Pref(scheme.value, true);
      }
    }

    /** `toggleTheme(newTheme)`: an explicit choice stops following the device. */
    method ToggleTheme(newTheme: string)
      modifies this
      ensures theme == newTheme && !systemTheme && Synced()
      ensures colorScheme == old(colorScheme)
    {
      theme := newTheme;
      systemTheme := false;
      storage := Pref(newTheme, false);
    }

    /** `useSysTheme`: follow the device, if it reports a scheme. */
    method UseSysTheme()
      modifies this
      ensures colorScheme == old(colorScheme)
      ensures colorScheme.Some? ==> theme == colorScheme.value && systemTheme && Synced()
      ensures colorScheme.None? ==> theme == old(theme) && systemTheme == old(systemTheme) && storage == old(storage)
    {
      if colorScheme.Some? {
        theme := colorScheme.value;
        systemTheme := true;
        storage := Pref(colorScheme.value, true);
      }
    }
  }

  /** A saved choice survives a restart: a fresh provider that loads it shows the same theme. */
  method RestartRestores(before: ThemeProvider, scheme: Option<string>) returns (after: ThemeProvider)
    requires before.Synced()
    ensures fresh(after) && after.theme == before.theme && after.systemTheme == before.systemTheme
  {
    after := new ThemeProvider(scheme, before.storage);
    after.Load();
  }
}
