/** The theme provider: the theme value and its two updaters, the mount effect that reads the
    saved theme, the sync effect that writes the document class and the storage, the render
    guard, and the `useTheme` accessor. The document's class list is reduced to whether it
    holds `dark`, and local storage to a map from keys to strings. */
module ThemeContext {
  import opened JsValues

  const StorageKey := "theme"

  /** `toggleTheme`'s updater: `light` becomes `dark`, anything else becomes `light`. */
  function Toggle(t: string): (r: string)
    ensures t == "light" ==> r == "dark"
    ensures t != "light" ==> r == "light"
  {
    if t == "light" then "dark" else "light"
  }

  /** Toggling twice gives back the theme exactly for the two real themes; an unexpected saved
      value is replaced by `light`. */
  lemma ToggleTwice(t: string)
    ensures Toggle(Toggle(t)) == t <==> t == "light" || t == "dark"
    ensures Toggle(Toggle(t)) in {"light", "dark"}
  {
  }

  /** The theme chosen on mount: the saved value when it is a non-empty string, else `dark`.
      The saved value is not checked to be a theme. */
  function ThemeOnMount(saved: Option<string>): (t: string)
    ensures !IsFalsyString(saved) ==> t == saved.value
    ensures IsFalsyString(saved) ==> t == "dark"
  {
    if IsFalsyString(saved) then "dark" else saved.value
  }

  function Lookup(storage: map<string, string>, key: string): Option<string> {
    if key in storage then Some(storage[key]) else None
  }

  class ThemeProvider {
    var theme: string
    var mounted: bool
    /** Whether the document element's class list holds `dark`. */
    var darkClass: bool
    var storage: map<string, string>

    /** After the effects have run, the document and the storage reflect the theme. */
    predicate Synced()
      reads this
    {
      mounted ==> darkClass == (theme == "dark") && Lookup(storage, StorageKey) == Some(theme)
    }

    /** The first render, before any effect; the document and storage are the browser's. */
    constructor (darkClass: bool, storage: map<string, string>)
      ensures theme == "dark" && !mounted && this.darkClass == darkClass && this.storage == storage
      ensures Synced()
    {
      theme := "dark";
      mounted := false;
      this.darkClass := darkClass;
      this.storage := storage;
    }

    /** Children are rendered only once mounted (a placeholder before). */
    function RendersChildren(): (r: bool)
      reads this
      ensures r <==> mounted
    {
      mounted
    }

    /** The mount effect. */
    method MountEffect()
      modifies this`mounted, this`theme, this`darkClass
      ensures mounted && theme == ThemeOnMount(Lookup(storage, StorageKey))
      ensures darkClass == (theme == "dark")
    {
      mounted := true;
      var saved := Lookup(storage, StorageKey);
      if !IsFalsyString(saved) {
        theme := saved.value;
        darkClass := saved.value == "dark";
      } else {
        theme := "dark";
        darkClass := true;
      }
    }

    /** The sync effect, run after a render that changed the theme or the mounted flag. */
    method SyncEffect()
      modifies this`darkClass, this`storage
      ensures Synced()
      ensures mounted ==> storage == old(storage)[StorageKey := theme]
      ensures !mounted ==> darkClass == old(darkClass) && storage == old(storage)
    {
      if mounted {
        darkClass := theme == "dark";
        storage := storage[StorageKey := theme];
      }
    }

    method ToggleTheme()
      modifies this`theme
      ensures theme == Toggle(old(theme))
    {
      theme := Toggle(theme);
    }

    method SetTheme(newTheme: string)
      modifies this`theme
      ensures theme == newTheme
    {
      theme := newTheme;
    }
  }

  /** Mounting and then letting the sync effect run leaves the theme on the page and in the
      storage, and a non-empty saved theme is kept as it was. */
  method MountThenSync(darkClass: bool, storage: map<string, string>) returns (p: ThemeProvider)
    ensures p.mounted && p.Synced() && p.RendersChildren()
    ensures p.theme == ThemeOnMount(Lookup(storage, StorageKey))
    ensures p.storage == storage[StorageKey := p.theme]
  {
    p := new ThemeProvider(darkClass, storage);
    p.MountEffect();
    p.SyncEffect();
  }

  /** What the context provides. */
  datatype ThemeContextValue = ThemeContextValue(theme: string)

  datatype Result<T> = Success(value: T) | Failure(error: string)

  /** `useTheme`: the provided value, or the error thrown outside a provider. */
  function UseTheme(context: Option<ThemeContextValue>): (r: Result<ThemeContextValue>)
    ensures context.None? <==> r == Failure("useTheme must be used within a ThemeProvider")
    ensures context.Some? ==> r == Success(context.value)
  {
    match context
    case None => Failure("useTheme must be used within a ThemeProvider")
    case Some(value) => Success(value)
  }
}
