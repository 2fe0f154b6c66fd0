/**
 * The light/dark theme hook: the theme text, its raw value under
 * `jee-prep-theme`, and the `dark` class on the document element.
 */
module ThemeHook {
  import opened Wrappers
  import opened Storage

  const Light := "light"
  const Dark := "dark"

  /** `theme === "light" ? "dark" : "light"`. */
  function Toggled(theme: string): (r: string)
    ensures theme == Light ==> r == Dark
    ensures theme != Light ==> r == Light
  {
    if theme == Light then Dark else Light
  }

  /** Toggling twice restores a light or dark theme. */
  lemma ToggleTwice(theme: string)
    requires theme == Light || theme == Dark
    ensures Toggled(Toggled(theme)) == theme
  {
    assert Light != Dark by {
      assert |Light| != |Dark|;
    }
  }

  /** State of `useTheme`, with the document's `dark` class. */
  class Theme {
    var theme: string
    var darkClass: bool
    var store: Store

    /** The theme holder starts light; the document class is whatever the page had. */
    constructor (store0: Store, darkClass0: bool)
      ensures theme == Light && darkClass == darkClass0 && store == store0
    {
      theme := Light;
      darkClass := darkClass0;
      store := store0;
    }

    /** The mount effect: a stored non-empty value is adopted as is and sets the class. */
    method Load()
      modifies this
      ensures Saved(old(store), ThemeKey).Some? ==>
        theme == old(store)[ThemeKey] && darkClass == (theme == Dark)
      ensures Saved(old(store), ThemeKey).None? ==> theme == old(theme) && darkClass == old(darkClass)
      ensures store == old(store)
    {
      var saved := Saved(store, ThemeKey);
      if saved.Some? {
        theme := saved.value;
        darkClass := saved.value == Dark;
      }
    }

    /** `toggleTheme`: switch, store the new value and set the class to match. */
    method Toggle()
      modifies this
      ensures theme == Toggled(old(theme))
      ensures store == old(store)[ThemeKey := theme]
      ensures darkClass == (theme == Dark)
    {
      var next := Toggled(theme);
      theme := next;
      store := store[ThemeKey := next];
      darkClass := next == Dark;
    }
  }

  /** After a toggle, a reload restores the toggled theme and class. */
  method ToggleThenReload(store0: Store, darkClass0: bool) returns (toggled: string, reloaded: string, dark: bool)
    ensures reloaded == toggled && dark == (toggled == Dark)
  {
    var a := new Theme(store0, darkClass0);
    a.Load();
    a.Toggle();
    toggled := a.theme;
    var b := new Theme(a.store, darkClass0);
    b.Load();
    reloaded, dark := b.theme, b.darkClass;
  }
}
