# Theme preference of the Hashima Island page

The page has one piece of behaviour: the dark/light theme preference inside the `App`
component. This project models it and proves its properties. The preference is a small
state machine with three parts:

- the **initializer** of the `dark` state cell. A non-empty stored `"theme"` entry decides
  the start mode: dark exactly when the entry is `"dark"`. A missing or empty entry falls
  through to the system `prefers-color-scheme: dark` query. When `window.matchMedia` is
  absent, the cell starts as `undefined`;
- the **reconciliation effect**. It adds or removes the `dark` class on the document root
  and writes `"dark"` or `"light"` under `"theme"`;
- the **toggle** handler `d => !d`.

The browser collaborators are values. `localStorage` is a `map<string, string>` whose
`getItem` returns `Option<string>`. The root's `classList` is a `set<string>`.
`window.matchMedia` is an `Option<bool>`: `None` when it is absent, otherwise whether the
query matches. The state cell holds a JavaScript value, `Undefined | Bool(b)`. Every
reader of the cell tests its truthiness, except the effect's dependency list `[dark]`,
which compares by identity; every toggle changes the cell (`Theme.Toggled`), so
`undefined` behaves as light mode throughout.

Files:
- `browser.dfy` holds `Wrappers` (an `Option` type) and `Browser`, which gives the storage
  and class-list operations the effect uses.
- `theme.dfy` holds `Theme`:
  - the initializer, effect and toggle as functions over a `Page` (state cell, classes,
    storage);
  - the lemmas about those functions;
  - the class `ThemeController`, whose constructor and methods update those three fields in
    place and are specified by the functions;
  - four scenario methods that drive the controller.

In three places the code does something a reader might not expect, and the model follows the code:
- A stored empty string does not decide the mode. It is falsy and falls through to the
  system preference.
- The effect runs after the first render. So between the initializer and the mount effect,
  the state can disagree with the class and the storage (`Theme.FirstRenderPrecedesEffect`).
- The code has no handling for unreadable or unwritable storage. No "degrade to in-memory"
  behaviour is modelled.

## Model

| member | source | states |
|---|---|---|
| `Browser.GetItem` | src/App.jsx:55 | `getItem` gives the stored string when the key is present and `null` (None) when it is absent. |
| `Browser.SetItem` | src/App.jsx:62-65 | `setItem` makes the key read back the written value. Every other key reads as before. |
| `Browser.Add` | src/App.jsx:61 | `classList.add("dark")` makes the class present and touches no other class. |
| `Browser.Remove` | src/App.jsx:64 | `classList.remove("dark")` makes the class absent and touches no other class. |
| `Browser.SetItemIdempotent` | src/App.jsx:62-65 | Writing the same value twice equals writing it once (`setItem` overwrites). |
| `Browser.SetItemSameValue` | src/App.jsx:62-65 | Writing the value a key already holds leaves the storage unchanged. |
| `Browser.AddRemoveIdempotent` | src/App.jsx:61-64 | Add and remove are idempotent, and they do nothing to a list that already agrees. |
| `Theme.InitialDark` | src/App.jsx:54-57 | The `useState` initializer. Its contract is the four lemmas `SavedChoiceWins`, `NoSavedFollowsSystem`, `UnexpectedSavedIsLight` and `UndefinedOnlyWithoutMatchMedia`, which together determine its result for every stored entry and system preference. |
| `Theme.SavedChoiceWins` | src/App.jsx:55-56 | A non-empty stored entry gives the same start mode under every system preference: dark exactly when it is `"dark"`. |
| `Theme.UnexpectedSavedIsLight` | src/App.jsx:56 | A non-empty entry other than `"dark"` (such as `"light"` or an unexpected string) starts in light mode. |
| `Theme.NoSavedFollowsSystem` | src/App.jsx:56 | With no entry or an empty entry, the start mode is dark iff the media query matches, and light without `matchMedia`. An empty entry behaves like a missing one. |
| `Theme.UndefinedOnlyWithoutMatchMedia` | src/App.jsx:56 | The cell starts as `undefined` exactly when the entry is falsy and `window.matchMedia` is absent. |
| `Theme.FirstRenderPrecedesEffect` | src/App.jsx:54-67 | Before the mount effect the page can be inconsistent. After it, the same page is consistent. |
| `Theme.ThemeValue` | src/App.jsx:62-65 | The stored string is always `"dark"` or `"light"`, and it is `"dark"` exactly when the state is truthy. |
| `Theme.Mount` | src/App.jsx:54-67 | First render plus mount effect: the state is the initializer's value, the page is consistent, and no other class or key changes. |
| `Theme.Effect` | src/App.jsx:59-67 | The effect keeps the state. Afterwards the `dark` class is present iff the state is truthy, and `"theme"` holds `"dark"` iff truthy, else `"light"`. Other classes and keys are unchanged. |
| `Theme.EffectIdempotent` | src/App.jsx:60-66 | Running the effect twice equals running it once. |
| `Theme.EffectFixedPoint` | src/App.jsx:59-67 | The effect leaves a page unchanged iff the page is already consistent (both directions). |
| `Theme.MarkerAgreesWithRecord` | src/App.jsx:60-66 | On a consistent page the class is present iff the stored entry is `"dark"`. The entry is always `"dark"` or `"light"`. |
| `Theme.StoredChoiceRoundTrip` | src/App.jsx:56-65 | The initializer reads back what the effect stored and gets the same mode under every system preference. |
| `Theme.Toggled` | src/App.jsx:91 | The toggle always gives a boolean of the opposite truthiness, never equal to the old value, so the `[dark]` effect runs again. |
| `Theme.Click` | src/App.jsx:59-91 | One click plus the effect it triggers: the state is toggled, the page is consistent, and no other class or key changes. |
| `Theme.Session` | src/App.jsx:59-91 | A session of `n` clicks. Its contract is the lemmas `SessionConsistent`, `SessionParity`, `SessionFrame` and `SessionEvenRestores`. |
| `Theme.ToggleInvolution` | src/App.jsx:91 | Toggling twice restores the mode. `undefined` comes back as `false`, and booleans come back exactly. |
| `Theme.ClickTwice` | src/App.jsx:59-67 | On a consistent page, two toggle-then-effect steps restore the classes, the storage and the mode. |
| `Theme.SessionConsistent` | src/App.jsx:59-67 | After any click of a session, the class and the storage agree with the state. |
| `Theme.SessionParity` | src/App.jsx:91 | After `n` clicks the mode is the start mode flipped `n` times. |
| `Theme.SessionFrame` | src/App.jsx:61-65 | No number of clicks changes another class or another storage key. |
| `Theme.SessionEvenRestores` | src/App.jsx:59-91 | An even number of clicks on a consistent page with a boolean state gives back exactly that page. |
| `Theme.ReloadRestoresMode` | src/App.jsx:54-67 | Mounting again from the storage a session left gives the mode the session ended in, whatever the system preference and the new classes. |
| `Theme.ThemeController.constructor` | src/App.jsx:54-57 | The first render sets the state cell to the initializer's value and leaves classes and storage as given. |
| `Theme.ThemeController.Reconcile` | src/App.jsx:59-67 | The in-place effect sets the whole new state to `Effect` of the old one, which leaves the page consistent. |
| `Theme.ThemeController.Toggle` | src/App.jsx:91 | The in-place handler replaces the cell by `Toggled` of its old value and changes nothing else. |
| `Theme.MountWithoutRecord` | src/App.jsx:54-67 | With no stored entry and a dark system preference, the page mounts dark, with the class applied and `"dark"` stored. |
| `Theme.MountWithLightRecord` | src/App.jsx:54-67 | A stored `"light"` beats a dark system preference: light, no class, `"light"` stored. |
| `Theme.ToggleOnceFromDark` | src/App.jsx:54-91 | From a stored `"dark"`, one click gives light mode, removes the class and stores `"light"`. |
| `Theme.ToggleTwiceAfterMount` | src/App.jsx:54-91 | Two clicks after mounting give back the mounted classes, storage and mode. |

## Left out

- All JSX markup, the `Section` component, the hero image, the sources list and the choice of toggle icon: presentation only.
- The `quotes` and `timeline` arrays: static content that is rendered as it is.
- framer-motion animation parameters: floating-point presentation values.
- React's rendering and effect scheduling. The effect is an explicit step (`Reconcile`, or `Effect` in `Mount` and `Click`) that runs after the first render and after each toggle. `Toggled` proves each toggle changes the effect's dependency.
- Exceptions from `localStorage` or `matchMedia`: the code does not catch them, so there is no recovery path to model.
- The media-query string itself: it is an opaque boolean input.
- Order and duplicates in `classList`: the root's token list is a set.
- `src/src/vite.config.js`: build configuration with no logic.
