/**
 * The theme switcher of js/main.js: `initThemeSwitcher`, `applyTheme`,
 * `applyAutoTheme`, `updateActiveTheme` and the handlers of the theme menu.
 * `localStorage` is a map from keys to strings, the root element's
 * `data-theme` attribute an optional string, and the result of
 * `matchMedia('(prefers-color-scheme: dark)')` a boolean parameter.
 */
module Theme {
  import opened JsValues
  import SakuraCanvas

  /** The `data-theme` values of the menu's options, in menu order. */
  const Options: seq<string> := ["auto", "cherry", "dark", "light", "blue", "green", "orange"]

  /** The `data-theme` attribute a manual theme leaves on the root: none for the default `cherry`. */
  function AttrFor(theme: string): (a: Option<string>)
    ensures a.None? <==> theme == "cherry"
    ensures a.Some? ==> a.value == theme
  {
    if theme == "cherry" then None else Some(theme)
  }

  /** Whether `updateActiveTheme` marks `option` active for the stored mode and theme. */
  predicate IsActive(mode: string, theme: string, option: string) {
    (mode == "auto" && option == "auto") || (mode == "manual" && option == theme)
  }

  /** The `active` class of every option, in menu order. */
  function ActiveFlags(mode: string, theme: string): (flags: seq<bool>)
    ensures |flags| == |Options|
    ensures forall k :: 0 <= k < |Options| ==> flags[k] == IsActive(mode, theme, Options[k])
  {
    seq(|Options|, k requires 0 <= k < |Options| => IsActive(mode, theme, Options[k]))
  }

  /** The options are distinct, so at most one of them is ever active. */
  lemma AtMostOneActive(mode: string, theme: string, i: nat, j: nat)
    requires i < |Options| && j < |Options|
    requires IsActive(mode, theme, Options[i]) && IsActive(mode, theme, Options[j])
    ensures i == j
  {
  }

  /** In automatic mode exactly the `auto` option is active; in manual mode exactly the stored theme's, if it is on the menu. */
  lemma ActiveOption(mode: string, theme: string, k: nat)
    requires k < |Options|
    ensures mode == "auto" ==> (IsActive(mode, theme, Options[k]) <==> k == 0)
    ensures mode == "manual" ==> (IsActive(mode, theme, Options[k]) <==> Options[k] == theme)
    ensures mode != "auto" && mode != "manual" ==> !IsActive(mode, theme, Options[k])
  {
  }

  /** The palette the sakura tree reads off the root is the stored theme. */
  lemma TreeFollowsTheme(theme: string)
    requires theme != ""
    ensures SakuraCanvas.CurrentTheme(AttrFor(theme)) == theme
  {
  }

  class ThemeSwitcher {
    /** `localStorage` */
    var storage: map<string, string>
    /** The `data-theme` attribute of `document.documentElement`. */
    var dataTheme: Option<string>
    /** The `active` class of each `.theme-option`, parallel to `Options`. */
    var active: seq<bool>
    /** Whether `.theme-menu` has the `active` class. */
    var menuOpen: bool

    function Get(key: string): Option<string>
      reads this
    {
      if key in storage then Some(storage[key]) else None
    }

    /** `localStorage.getItem('theme') || 'cherry'` */
    function StoredTheme(): string
      reads this
    {
      StringOr(Get("theme"), "cherry")
    }

    /** `localStorage.getItem('themeMode') || 'manual'` */
    function StoredMode(): string
      reads this
    {
      StringOr(Get("themeMode"), "manual")
    }

    /**
     * The root attribute always shows the stored theme, and the menu marks
     * the option of the stored mode and theme.
     */
    ghost predicate Valid()
      reads this
    {
      dataTheme == AttrFor(StoredTheme()) && active == ActiveFlags(StoredMode(), StoredTheme())
    }

    /**
     * `initThemeSwitcher()`: the saved theme applied in the saved mode, the
     * menu built and its active option marked.
     */
    constructor (store: map<string, string>, attr: Option<string>, prefersDark: bool)
      ensures Valid()
      ensures var theme, mode := StringOr(if "theme" in store then Some(store["theme"]) else None, "cherry"),
                                StringOr(if "themeMode" in store then Some(store["themeMode"]) else None, "manual");
        (mode == "auto" ==> storage == store["theme" := if prefersDark then "dark" else "cherry"]) &&
        (mode != "auto" ==> storage == store && dataTheme == AttrFor(theme))
    {
      storage := store;
      dataTheme := attr;
      active := [];
      menuOpen := false;
      new;
      var savedTheme := StringOr(Get("theme"), "cherry");
      var savedMode := StringOr(Get("themeMode"), "manual");
      ApplyTheme(savedTheme, savedMode, prefersDark);
      UpdateActiveTheme();
    }

    /** `applyTheme(theme, mode)`: automatic mode defers to the system; otherwise `theme` goes on the root. */
    method ApplyTheme(theme: string, mode: string, prefersDark: bool)
      modifies this`storage, this`dataTheme
      ensures mode == "auto" ==> AutoApplied(old(storage), prefersDark)
      ensures mode != "auto" ==> storage == old(storage) && dataTheme == AttrFor(theme)
    {
      if mode == "auto" {
        ApplyAutoTheme(prefersDark);
      } else {
        if theme == "cherry" {
          dataTheme := None;
        } else {
          dataTheme := Some(theme);
        }
      }
    }

    /** What `applyAutoTheme` leaves: dark on a dark system, the default otherwise, on the root and in storage. */
    ghost predicate AutoApplied(before: map<string, string>, prefersDark: bool)
      reads this
    {
      var theme := if prefersDark then "dark" else "cherry";
      storage == before["theme" := theme] && dataTheme == AttrFor(theme)
    }

    /** `applyAutoTheme()` */
    method ApplyAutoTheme(prefersDark: bool)
      modifies this`storage, this`dataTheme
      ensures AutoApplied(old(storage), prefersDark)
      ensures StoredTheme() == (if prefersDark then "dark" else "cherry")
      ensures Get("themeMode") == old(Get("themeMode"))
    {
      if prefersDark {
        dataTheme := Some("dark");
        storage := storage["theme" := "dark"];
      } else {
        dataTheme := None;
        storage := storage["theme" := "cherry"];
      }
    }

    /** `updateActiveTheme()`: every option loses `active`, and the one of the stored mode and theme gets it. */
    method UpdateActiveTheme()
      modifies this`active
      ensures active == ActiveFlags(StoredMode(), StoredTheme())
    {
      var mode := StringOr(Get("themeMode"), "manual");
      var theme := StringOr(Get("theme"), "cherry");
      var flags: seq<bool> := [];
      for k := 0 to |Options|
        invariant flags == ActiveFlags(mode, theme)[..k]
      {
        var on := false;
        if mode == "auto" && Options[k] == "auto" {
          on := true;
        } else if mode == "manual" && Options[k] == theme {
          on := true;
        }
        flags := flags + [on];
      }
      active := flags;
    }

    /**
     * A click on option `k`: `auto` switches to automatic mode, any other
     * option stores manual mode and that theme; then the menu marks it.
     */
    method ClickOption(k: nat, prefersDark: bool)
      requires Valid() && k < |Options|
      modifies this`storage, this`dataTheme, this`active, this`menuOpen
      ensures Valid() && !menuOpen
      ensures Options[k] == "auto" ==> StoredMode() == "auto" && AutoApplied(old(storage)["themeMode" := "auto"], prefersDark)
      ensures Options[k] != "auto" ==>
        storage == old(storage)["themeMode" := "manual"]["theme" := Options[k]] && dataTheme == AttrFor(Options[k])
      ensures forall j :: 0 <= j < |Options| ==> (active[j] <==> j == k)
    {
      var theme := Options[k];
      if theme == "auto" {
        storage := storage["themeMode" := "auto"];
        ApplyAutoTheme(prefersDark);
      } else {
        storage := storage["themeMode" := "manual"];
        storage := storage["theme" := theme];
        ApplyTheme(theme, "manual", prefersDark);
      }
      UpdateActiveTheme();
      menuOpen := false;
      forall j | 0 <= j < |Options| ensures active[j] <==> j == k {
        ActiveOption(StoredMode(), StoredTheme(), j);
      }
    }

    /** The toggle button flips the menu open or shut. */
    method ToggleMenu()
      modifies this`menuOpen
      ensures menuOpen == !old(menuOpen)
    {
      menuOpen := !menuOpen;
    }

    /** A click anywhere in the document: one outside the switcher closes the menu. */
    method ClickDocument(insideSwitcher: bool)
      modifies this`menuOpen
      ensures menuOpen == (old(menuOpen) && insideSwitcher)
    {
      if !insideSwitcher {
        menuOpen := false;
      }
    }

    /** The `prefers-color-scheme` listener: in automatic mode the new system preference is applied. */
    method OnSchemeChange(prefersDark: bool)
      requires Valid()
      modifies this`storage, this`dataTheme
      ensures Valid()
      ensures Get("themeMode") == Some("auto") ==> AutoApplied(old(storage), prefersDark)
      ensures Get("themeMode") != Some("auto") ==> storage == old(storage) && dataTheme == old(dataTheme)
    {
      var mode := Get("themeMode");
      if mode == Some("auto") {
        ApplyAutoTheme(prefersDark);
      }
    }
  }
}
