# ReddSpring landing page: theme, mobile menu and scroll throttle

A Dafny model of the three small state machines in the ReddSpring landing
page's `script.js`:

- **ThemeManager** picks the theme at start-up. A truthy value saved in
  `localStorage` under `reddspring-theme` comes first. Next comes the system
  dark-mode preference, and `'light'` is the default. The result is written to
  the `data-theme` attribute of the document element and to the store. `toggle`
  flips the attribute and saves it. A `prefers-color-scheme` change listener
  re-applies the theme only while nothing truthy is saved.
- **MobileMenu** is an open/closed machine. `isOpen` is mirrored by the
  `active` class of the menu button, the `active` class of the menu and
  `body.style.overflow`. The Escape key and clicks outside close the menu only
  while it is open. A click on a mobile link always closes it.
- **ScrollEffects** throttles the scroll listener with a `ticking` flag, so at
  most one animation frame is pending. `lastScrollY` always holds the latest
  position. The frame callback makes the navbar padding compact exactly when
  that position is past 50.

Each component is a module with the same shape:

- a value datatype for the state the component sees;
- pure step functions whose contracts say what each handler does;
- an event datatype and a `Run` function over event sequences, with inductive
  lemmas about every run;
- a class whose fields are the component's fields and the browser state it
  touches. Each method's `ensures` ties the new state to the step function
  applied to the old state.

The browser facilities become plain data:
- the document element's attributes and `localStorage` are `map<string, string>`
  fields, so "nothing else changes" can be stated;
- `matchMedia(...).matches`, the change event's `matches`, `window.scrollY`, the
  pressed key and whether a click target lies inside the menu or the button are
  method parameters;
- the queue of requested animation frames is a `pendingFrames` counter. The
  frame callback is a method the environment may call while a frame is pending.

`init` writes the store itself through `setTheme` (script.js:26,
script.js:38), so the store holds a truthy theme afterwards. As long as
nothing outside the script clears that key, the system-preference listener
never changes anything once `init` has run (`Theme.ListenerIdleAfterInit`,
`Theme.ThemeAfterInit`). JavaScript truthiness
is modelled exactly: a saved empty string counts as "nothing saved" both at
start-up and in the listener.

Files: `dom.dfy` (module `Dom`: `Option`, lookup and truthiness), `theme.dfy`,
`menu.dfy`, `scroll.dfy`.

## Model

| member | source | states |
|---|---|---|
| `Dom.Lookup` | script.js:22 | `getItem` / `getAttribute` give the stored value exactly when the key is present, and `null` otherwise |
| `Theme.SchemeName` | script.js:31 | the scheme name is `'dark'` iff the signal says dark, and `'light'` iff it does not |
| `Theme.Resolve` | script.js:22-25 | a truthy saved value wins; otherwise the theme is `'dark'` iff the system prefers dark and `'light'` iff not; the result is never empty |
| `Theme.Toggled` | script.js:42-43 | the new theme is `'light'` iff the current one is `'dark'`, and `'dark'` for anything else, unset included; it always differs from the current value |
| `Theme.SetThemePage` | script.js:36-39 | after `setTheme(t)` the attribute and the saved value are both `t`; every other attribute and every other storage key is unchanged |
| `Theme.InitPage` | script.js:20-26 | after `init` the theme follows the precedence rule (saved value, then system preference, then light); the store then holds the theme, and that value is truthy; every other attribute and storage key is unchanged |
| `Theme.TogglePage` | script.js:41-45 | `toggle` gives `'light'` iff the theme was `'dark'`, and `'dark'` otherwise; afterwards the store holds exactly the new theme, so it is never empty; every other attribute and storage key is unchanged |
| `Theme.SystemChangePage` | script.js:29-33 | with a truthy saved value the change event changes nothing; otherwise the theme becomes `'dark'` iff the event says dark, and is saved, with every other attribute and storage key unchanged |
| `Theme.ToggleTwiceRestores` | script.js:41-45 | starting from `'light'` or `'dark'`, two toggles restore the theme and leave it saved |
| `Theme.SavedThemeIgnoresSystem` | script.js:29-45 | once a truthy value is saved, any run of events ends where its toggle clicks alone lead; the saved value stays truthy and stays equal to the attribute |
| `Theme.ClicksAlternate` | script.js:41-45 | from `'light'` or `'dark'`, `n` toggle clicks give the start theme for even `n` and the flipped theme for odd `n` |
| `Theme.ListenerIdleAfterInit` | script.js:20-39 | once `init` has run, the change listener is a no-op for every event |
| `Theme.ThemeAfterInit` | script.js:20-45 | after `init`, no sequence of system changes alters the theme; store and attribute agree; from a light/dark start the theme is fixed by the parity of the toggle clicks |
| `Theme.ThemeManager.constructor` | script.js:17-18 | the manager over the page's attributes and storage as they are at load |
| `Theme.ThemeManager.SetTheme` | script.js:36-39 | writes `data-theme` and the storage key to the theme and touches nothing else |
| `Theme.ThemeManager.Init` | script.js:20-26 | the new page is `InitPage` of the old one; the store is non-empty and agrees with the attribute |
| `Theme.ThemeManager.OnSystemChange` | script.js:29-33 | the new page is `SystemChangePage` of the old one; nothing changes while a truthy value is saved |
| `Theme.ThemeManager.Toggle` | script.js:41-45 | the new page is `TogglePage` of the old one; the theme changes, and the store holds it |
| `Menu.Opened` | script.js:81-86 | `open` leaves the menu open with both `active` classes set and overflow `hidden` |
| `Menu.Closed` | script.js:88-93 | `close` leaves the menu closed with both classes removed and overflow `''` |
| `Menu.ToggleView` | script.js:77-79 | `toggle` gives exactly the `close` state when the menu was open and the `open` state when it was closed |
| `Menu.DocumentClickView` | script.js:57-61 | a document click closes the menu iff it is open and the target is outside both menu and button; in every other case nothing changes |
| `Menu.KeyDownView` | script.js:70-74 | a key press closes the menu iff it is Escape and the menu is open; in every other case nothing changes |
| `Menu.ClosedIsStable` | script.js:58-93 | `close` is idempotent; while the menu is closed, Escape and outside clicks change nothing |
| `Menu.RunKeepsConsistent` | script.js:55-93 | every run of events keeps the page consistent with `isOpen`; from any page, consistency holds once a button or link click has happened |
| `Menu.Click` | script.js:57-67 | dispatching one click to the handlers: the button toggles (to exactly the `close` or `open` state) without the document listener undoing it; a link closes; a click inside the menu changes nothing; a click elsewhere closes an open menu |
| `Menu.MobileMenu.constructor` | script.js:53 | the menu starts closed over the page as the markup leaves it |
| `Menu.MobileMenu.Open` | script.js:81-86 | sets `isOpen`, both `active` flags and overflow `hidden` |
| `Menu.MobileMenu.Close` | script.js:88-93 | clears `isOpen` and both `active` flags and sets overflow to `''` |
| `Menu.MobileMenu.Toggle` | script.js:77-79 | negates `isOpen` and leaves the page consistent |
| `Menu.MobileMenu.OnDocumentClick` | script.js:57-61 | the new state is `DocumentClickView` of the old one; nothing changes while closed |
| `Menu.MobileMenu.OnLinkClick` | script.js:64-67 | a link click always closes the menu |
| `Menu.MobileMenu.OnKeyDown` | script.js:70-74 | the new state is `KeyDownView` of the old one; nothing changes while closed |
| `Scroll.Initial` | script.js:100-102 | the object starts with `lastScrollY` 0, `ticking` false and nothing pending |
| `Scroll.PaddingFor` | script.js:121-127 | the padding is compact iff the position is past 50, and regular iff it is not |
| `Scroll.OnScrollView` | script.js:109-119 | `onScroll` records the position and sets `ticking`; it schedules a frame only when `ticking` was false, so at most one frame is pending |
| `Scroll.FrameView` | script.js:113-116 | the frame callback sets compact padding iff `lastScrollY` is past 50, resets `ticking` and leaves no frame pending |
| `Scroll.RunKeepsThrottle` | script.js:109-127 | through any run of events, `lastScrollY` is the latest scroll position, at most one frame is pending and `ticking` says exactly whether one is, and with none pending the navbar matches the latest position or is still unset at position 0; once a scroll has been handled it is never unset again |
| `Scroll.FromLoad` | script.js:100-127 | from the state at load: `lastScrollY` is the latest scroll position, `ticking` says exactly whether the one possible frame is pending, and once any scroll has happened and no frame is pending, the navbar is sized for the latest position |
| `Scroll.ScrollEffects.constructor` | script.js:100-102 | starts in the load state, with the throttle invariant |
| `Scroll.ScrollEffects.OnScroll` | script.js:109-119 | the new state is `OnScrollView` of the old one; the invariant is kept and exactly one frame is pending |
| `Scroll.ScrollEffects.UpdateNavbar` | script.js:121-127 | sets the navbar padding for the recorded position |
| `Scroll.ScrollEffects.OnAnimationFrame` | script.js:113-116 | the new state is `FrameView` of the old one; the invariant is kept and nothing is pending |

## Left out

- DOM lookups, `localStorage` and `matchMedia` as real APIs (script.js:7-11, 22-23, 29). They are fields and parameters here.
- Writes to `localStorage` from outside the script (the user clearing site data, another same-origin script, devtools). The model has no such event, and `Theme.ListenerIdleAfterInit` and `Theme.ThemeAfterInit` assume there are none; after such a clear the guard at script.js:30 holds again and `Theme.SystemChangePage` describes what the listener does.
- A `localStorage` that throws, for example when storage is disabled. The source does not handle this, and the model's store always accepts writes.
- Registering the listeners and the `DOMContentLoaded` wiring (script.js:334-351). The listener bodies are modelled as methods; `Menu.Click` models how one click reaches them.
- Other classes of the button and the menu, and every style other than `overflow` and the navbar's `padding`. Only the `active` flag and these two styles are modelled.
- `window.scrollY` is a floating-point number in the browser. It is an `int` here; the comparison with 50 is the only use of it.
- Real animation-frame scheduling and timing. A frame is an event the environment may fire while one is pending.
- IntersectionObserver reveal (script.js:129-149): it only adds a class.
- AnimatedCounter (script.js:156-194): floating-point steps, timers and `parseInt` on page text.
- SmoothScroll (script.js:200-219): floating-point geometry and a browser scroll call.
- FormHandler (script.js:225-260): form data, HTML strings, a timer and console output.
- TypingEffect (script.js:266-274): it has an empty body.
- ParallaxEffects and TiltEffect (script.js:280-328): floating-point transforms rendered into CSS strings.
