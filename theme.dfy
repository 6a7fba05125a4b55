/** The theme manager: resolves the light/dark theme at start-up, flips it on a
    click of the toggle, and follows the system colour scheme while nothing is saved. */
module Theme {
  import opened Dom

  /** The `localStorage` key the chosen theme is saved under. */
  const StorageKey: string := "reddspring-theme"
  /** The attribute of the document element that the stylesheet keys on. */
  const ThemeAttribute: string := "data-theme"

  /** What the theme manager can see and change: the attributes of the document
      element and the contents of `localStorage`. */
  datatype Page = Page(attributes: map<string, string>, storage: map<string, string>)

  /** The value of `data-theme`, or `None` when the attribute is unset. */
  function CurrentTheme(p: Page): Option<string>
  {
    Lookup(p.attributes, ThemeAttribute)
  }

  /** The saved theme, or `None` when nothing is stored under the key. */
  function SavedTheme(p: Page): Option<string>
  {
    Lookup(p.storage, StorageKey)
  }

  /** The theme named by a colour-scheme signal (`true` means the system prefers dark). */
  function SchemeName(prefersDark: bool): (t: string)
    ensures t == "dark" <==> prefersDark
    ensures t == "light" <==> !prefersDark
  {
    if prefersDark then "dark" else "light"
  }

  /** The start-up choice: a truthy saved value wins, then the system preference,
      and `'light'` when the system does not prefer dark. */
  function Resolve(saved: Option<string>, systemPrefersDark: bool): (t: string)
    ensures Truthy(saved) ==> Some(t) == saved
    ensures !Truthy(saved) ==> (t == "dark" <==> systemPrefersDark)
    ensures !Truthy(saved) ==> (t == "light" <==> !systemPrefersDark)
    ensures t != ""
  {
    if Truthy(saved) then saved.value else SchemeName(systemPrefersDark)
  }

  /** The theme `toggle` switches to: `'light'` from `'dark'`, and `'dark'` from
      anything else, an unset attribute included. */
  function Toggled(current: Option<string>): (t: string)
    ensures t == "light" <==> current == Some("dark")
    ensures t == "dark" <==> current != Some("dark")
    ensures Some(t) != current
  {
    if current == Some("dark") then "light" else "dark"
  }

  /** `setTheme(t)`: the attribute and the saved value both become `t`; every
      other attribute and every other storage key is left as it was. */
  function SetThemePage(p: Page, t: string): (q: Page)
    ensures CurrentTheme(q) == Some(t) && SavedTheme(q) == Some(t)
    ensures q.attributes - {ThemeAttribute} == p.attributes - {ThemeAttribute}
    ensures q.storage - {StorageKey} == p.storage - {StorageKey}
  {
    Page(p.attributes[ThemeAttribute := t], p.storage[StorageKey := t])
  }

  /** `init` (without registering its listener). */
  function InitPage(p: Page, systemPrefersDark: bool): (q: Page)
    ensures Truthy(SavedTheme(p)) ==> CurrentTheme(q) == SavedTheme(p)
    ensures !Truthy(SavedTheme(p)) ==> (CurrentTheme(q) == Some("dark") <==> systemPrefersDark)
    ensures !Truthy(SavedTheme(p)) ==> (CurrentTheme(q) == Some("light") <==> !systemPrefersDark)
    ensures SavedTheme(q) == CurrentTheme(q) && Truthy(SavedTheme(q))
    ensures q.attributes - {ThemeAttribute} == p.attributes - {ThemeAttribute}
    ensures q.storage - {StorageKey} == p.storage - {StorageKey}
  {
    SetThemePage(p, Resolve(SavedTheme(p), systemPrefersDark))
  }

  /** `toggle`. */
  function TogglePage(p: Page): (q: Page)
    ensures CurrentTheme(q) == Some("light") <==> CurrentTheme(p) == Some("dark")
    ensures CurrentTheme(q) == Some("dark") <==> CurrentTheme(p) != Some("dark")
    ensures SavedTheme(q) == CurrentTheme(q) && Truthy(SavedTheme(q))
    ensures q.attributes - {ThemeAttribute} == p.attributes - {ThemeAttribute}
    ensures q.storage - {StorageKey} == p.storage - {StorageKey}
  {
    SetThemePage(p, Toggled(CurrentTheme(p)))
  }

  /** The body of the `prefers-color-scheme` change listener. */
  function SystemChangePage(p: Page, prefersDark: bool): (q: Page)
    ensures Truthy(SavedTheme(p)) ==> q == p
    ensures !Truthy(SavedTheme(p)) ==> (CurrentTheme(q) == Some("dark") <==> prefersDark)
    ensures !Truthy(SavedTheme(p)) ==> (CurrentTheme(q) == Some("light") <==> !prefersDark)
    ensures !Truthy(SavedTheme(p)) ==> SavedTheme(q) == CurrentTheme(q)
    ensures q.attributes - {ThemeAttribute} == p.attributes - {ThemeAttribute}
    ensures q.storage - {StorageKey} == p.storage - {StorageKey}
  {
    if !Truthy(SavedTheme(p)) then SetThemePage(p, SchemeName(prefersDark)) else p
  }

  /** The events that reach the theme manager once it is running. */
  datatype ThemeEvent = ToggleClick | SystemChange(prefersDark: bool)

  function Step(p: Page, e: ThemeEvent): Page
  {
    match e
    case ToggleClick => TogglePage(p)
    case SystemChange(dark) => SystemChangePage(p, dark)
  }

  /** The page after handling `es` in order. */
  function Run(p: Page, es: seq<ThemeEvent>): Page
    decreases |es|
  {
    if es == [] then p else Run(Step(p, es[0]), es[1..])
  }

  /** The toggle clicks of `es`, in order. */
  function Toggles(es: seq<ThemeEvent>): seq<ThemeEvent>
    decreases |es|
  {
    if es == [] then []
    else (if es[0].ToggleClick? then [ToggleClick] else []) + Toggles(es[1..])
  }

  /** `n` toggle clicks. */
  function Clicks(n: nat): seq<ThemeEvent>
  {
    if n == 0 then [] else [ToggleClick] + Clicks(n - 1)
  }

  /** A theme the toggle cycle ever produces. */
  predicate Binary(t: Option<string>)
  {
    t == Some("light") || t == Some("dark")
  }

  /** From `'light'` or `'dark'`, two toggles give back the theme and save it. */
  lemma ToggleTwiceRestores(p: Page)
    requires Binary(CurrentTheme(p))
    ensures CurrentTheme(TogglePage(TogglePage(p))) == CurrentTheme(p)
    ensures SavedTheme(TogglePage(TogglePage(p))) == CurrentTheme(p)
  {
  }

  /** Once a truthy value is saved, system-preference changes do nothing: every
      run of events ends where its toggle clicks alone lead, the saved value stays
      truthy, and a saved value in step with the attribute stays in step. */
  lemma {:induction false} SavedThemeIgnoresSystem(p: Page, es: seq<ThemeEvent>)
    requires Truthy(SavedTheme(p))
    ensures Run(p, es) == Run(p, Toggles(es))
    ensures Truthy(SavedTheme(Run(p, es)))
    ensures SavedTheme(p) == CurrentTheme(p) ==> SavedTheme(Run(p, es)) == CurrentTheme(Run(p, es))
    decreases |es|
  {
    if es != [] {
      var rest := es[1..];
      SavedThemeIgnoresSystem(Step(p, es[0]), rest);
      match es[0]
      case ToggleClick =>
        assert Toggles(es) == [ToggleClick] + Toggles(rest);
        assert ([ToggleClick] + Toggles(rest))[1..] == Toggles(rest);
      case SystemChange(_) =>
        assert Toggles(es) == Toggles(rest);
    }
  }

  /** The toggle clicks of any run are `n` clicks in a row. */
  lemma {:induction false} TogglesAreClicks(es: seq<ThemeEvent>)
    ensures Toggles(es) == Clicks(|Toggles(es)|)
    decreases |es|
  {
    if es != [] {
      TogglesAreClicks(es[1..]);
    }
  }

  /** Toggle clicks alternate the theme: after `n` of them, starting from
      `'light'` or `'dark'`, the theme is the start for even `n` and flipped for odd. */
  lemma {:induction false} ClicksAlternate(p: Page, n: nat)
    requires Binary(CurrentTheme(p))
    ensures CurrentTheme(Run(p, Clicks(n))) ==
            if n % 2 == 0 then CurrentTheme(p) else Some(Toggled(CurrentTheme(p)))
    decreases n
  {
    if n > 0 {
      var q := TogglePage(p);
      assert Clicks(n)[1..] == Clicks(n - 1);
      ClicksAlternate(q, n - 1);
    }
  }

  /** After `init` the change listener is a no-op: `init` has saved a truthy theme. */
  lemma ListenerIdleAfterInit(p: Page, systemPrefersDark: bool, prefersDark: bool)
    ensures SystemChangePage(InitPage(p, systemPrefersDark), prefersDark) == InitPage(p, systemPrefersDark)
  {
  }

  /** After `init`, whatever events follow: no system change alters the theme, the
      attribute and the saved value agree, and when the start-up theme is `'light'`
      or `'dark'` the theme is fixed by the parity of the toggle clicks. */
  lemma ThemeAfterInit(p: Page, systemPrefersDark: bool, es: seq<ThemeEvent>)
    ensures Run(InitPage(p, systemPrefersDark), es) == Run(InitPage(p, systemPrefersDark), Toggles(es))
    ensures Toggles(es) == [] ==> Run(InitPage(p, systemPrefersDark), es) == InitPage(p, systemPrefersDark)
    ensures var r := Run(InitPage(p, systemPrefersDark), es);
            Truthy(SavedTheme(r)) && SavedTheme(r) == CurrentTheme(r)
    ensures var q := InitPage(p, systemPrefersDark);
            Binary(CurrentTheme(q)) ==>
              CurrentTheme(Run(q, es)) ==
              if |Toggles(es)| % 2 == 0 then CurrentTheme(q) else Some(Toggled(CurrentTheme(q)))
  {
    var q := InitPage(p, systemPrefersDark);
    SavedThemeIgnoresSystem(q, es);
    TogglesAreClicks(es);
    if Binary(CurrentTheme(q)) {
      ClicksAlternate(q, |Toggles(es)|);
    }
  }

  /** The theme manager object over the browser state it touches. */
  class ThemeManager {
    /** Attributes of `document.documentElement`. */
    var attributes: map<string, string>
    /** The contents of `localStorage`. */
    var storage: map<string, string>

    /** The page as a value. */
    function State(): Page
      reads this
    {
      Page(attributes, storage)
    }

    /** The manager over the page as it is when the script loads. */
    constructor (attributes: map<string, string>, storage: map<string, string>)
      ensures this.attributes == attributes && this.storage == storage
    {
      this.attributes := attributes;
      this.storage := storage;
    }

    /** `setTheme(theme)`. */
    method SetTheme(theme: string)
      modifies this
      ensures attributes == old(attributes)[ThemeAttribute := theme]
      ensures storage == old(storage)[StorageKey := theme]
      ensures State() == SetThemePage(old(State()), theme)
    {
      attributes := attributes[ThemeAttribute := theme];
      storage := storage[StorageKey := theme];
    }

    /** `init`, given what `matchMedia('(prefers-color-scheme: dark)').matches` reports. */
    method Init(systemPrefersDark: bool)
      modifies this
      ensures State() == InitPage(old(State()), systemPrefersDark)
      ensures Truthy(SavedTheme(State())) && SavedTheme(State()) == CurrentTheme(State())
    {
      var savedTheme := Lookup(storage, StorageKey);
      var theme := Resolve(savedTheme, systemPrefersDark);
      SetTheme(theme);
    }

    /** The listener `init` registers, on a change event whose `matches` is `prefersDark`. */
    method OnSystemChange(prefersDark: bool)
      modifies this
      ensures State() == SystemChangePage(old(State()), prefersDark)
      ensures Truthy(SavedTheme(old(State()))) ==> attributes == old(attributes) && storage == old(storage)
    {
      if !Truthy(Lookup(storage, StorageKey)) {
        SetTheme(SchemeName(prefersDark));
      }
    }

    /** `toggle`. */
    method Toggle()
      modifies this
      ensures State() == TogglePage(old(State()))
      ensures CurrentTheme(State()) != CurrentTheme(old(State()))
      ensures Truthy(SavedTheme(State())) && SavedTheme(State()) == CurrentTheme(State())
    {
      var currentTheme := Lookup(attributes, ThemeAttribute);
      var newTheme := Toggled(currentTheme);
      SetTheme(newTheme);
    }
  }
}
