/** The colour-theme hook (frontend/src/hooks/use-theme.ts): the theme read from storage, the
    toggle, and the effect that sets the root element's class and stores the choice. The
    system preference (`prefers-color-scheme: dark`) is a parameter. */
module Theme {
  import opened Text

  /** The theme state. A stored value is cast without a check, so any other text can
      become the theme. */
  datatype ThemeValue = Dark | Light | System | Other(name: string)

  /** The text a theme is stored and applied as. */
  function Name(t: ThemeValue): string {
    match t
    case Dark => "dark"
    case Light => "light"
    case System => "system"
    case Other(n) => n
  }

  /** The initial state: `localStorage.getItem("theme") || "system"`. */
  function InitialTheme(saved: Option<string>): (t: ThemeValue)
    ensures !Truthy(saved) ==> t == System
    ensures Truthy(saved) ==> Name(t) == saved.value
  {
    if !Truthy(saved) then System
    else if saved.value == "dark" then Dark
    else if saved.value == "light" then Light
    else if saved.value == "system" then System
    else Other(saved.value)
  }

  /** A theme that can be the state: `Other` only with a name none of the three has. */
  predicate Reachable(t: ThemeValue) {
    t.Other? ==> t.name != "" && t.name != "dark" && t.name != "light" && t.name != "system"
  }

  /** What the effect stores is what the next load starts from. */
  lemma StoredThemeRestores(t: ThemeValue)
    requires Reachable(t)
    ensures InitialTheme(Some(Name(t))) == t
  {
  }

  /** `toggleTheme`: dark and light swap; from `system` the opposite of the preference; any
      other value becomes dark. */
  function Toggled(prev: ThemeValue, prefersDark: bool): (t: ThemeValue)
    ensures t == Dark || t == Light
    ensures prev == Dark ==> t == Light
    ensures prev == Light ==> t == Dark
    ensures prev == System ==> (t == Dark <==> !prefersDark)
  {
    if prev == System then (if prefersDark then Light else Dark)
    else if prev == Dark then Light
    else Dark
  }

  /** Two toggles from dark or light come back to where they started. */
  lemma ToggleTwice(t: ThemeValue, prefersDark: bool)
    requires t == Dark || t == Light
    ensures Toggled(Toggled(t, prefersDark), prefersDark) == t
  {
  }

  /** The class the effect adds: the theme's own name, or the preference under `system`. */
  function ModeClass(t: ThemeValue, prefersDark: bool): (c: string)
    ensures t == System ==> c == (if prefersDark then "dark" else "light")
    ensures t != System ==> c == Name(t)
  {
    if t == System then (if prefersDark then "dark" else "light") else Name(t)
  }

  /** The document root's class list and the browser's local storage. */
  class Document {
    var classes: set<string>
    var storage: map<string, string>

    constructor(classes0: set<string>, storage0: map<string, string>)
      ensures classes == classes0 && storage == storage0
    {
      classes := classes0;
      storage := storage0;
    }

    /** The effect run whenever the theme changes. */
    method ApplyTheme(t: ThemeValue, prefersDark: bool)
      modifies this
      ensures classes == old(classes) - {"light", "dark"} + {ModeClass(t, prefersDark)}
      ensures storage == old(storage)["theme" := Name(t)]
      ensures !t.Other? ==> ("dark" in classes <==> "light" !in classes)
      ensures !t.Other? ==> ("dark" in classes <==> (t == Dark || (t == System && prefersDark)))
      ensures t.Other? && Reachable(t) ==> "dark" !in classes && "light" !in classes
    {
      classes := classes - {"light", "dark"};
      if t == System {
        var systemTheme := if prefersDark then "dark" else "light";
        classes := classes + {systemTheme};
        storage := storage["theme" := "system"];
      } else {
        classes := classes + {Name(t)};
        storage := storage["theme" := Name(t)];
      }
    }
  }

  /** The hook's state. */
  class ThemeHook {
    var theme: ThemeValue

    constructor(saved: Option<string>)
      ensures theme == InitialTheme(saved)
    {
      theme := InitialTheme(saved);
    }

    method Toggle(prefersDark: bool)
      modifies this
      ensures theme == Toggled(old(theme), prefersDark)
      ensures theme != System
    {
      theme := Toggled(theme, prefersDark);
    }
  }
}
