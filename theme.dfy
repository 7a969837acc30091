/** The dark/light theme preference of the `App` component: the initializer of the
    `dark` state cell, the effect that reconciles the root element's `dark` class and
    the stored `"theme"` entry with it, and the toggle button's handler.

    The state cell holds a JavaScript value, not always a boolean: when
    `window.matchMedia` is absent, `window.matchMedia && ...` evaluates to `undefined`.
    Every reader of the cell tests its truthiness, except the effect's dependency list,
    which compares by identity; every toggle changes the cell (`Toggled`), so there too
    `undefined` acts as light mode. */
module Theme {
  import opened Wrappers
  import opened Browser

  /** The storage key that holds the persisted choice. */
  const ThemeKey: string := "theme"
  /** The class on the document root that selects the dark palette. */
  const DarkClass: string := "dark"

  /** The JavaScript value held by the `dark` state cell. */
  datatype DarkState = Undefined | Bool(b: bool)
  {
    /** `if (dark)`: `undefined` and `false` are falsy. */
    predicate Truthy() { Bool? && b }
  }

  /** The truthiness of what `localStorage.getItem` returned: `null` and `""` are falsy. */
  predicate SavedTruthy(saved: Option<string>)
  {
    saved.Some? && saved.value != ""
  }

  /** The `useState` initializer. `saved` is the stored `"theme"` entry; `media` is
      `None` when `window.matchMedia` is absent and otherwise whether
      `(prefers-color-scheme: dark)` matches. */
  function InitialDark(saved: Option<string>, media: Option<bool>): DarkState
  {
    if SavedTruthy(saved) then Bool(saved.value == "dark")
    else match media
      case None => Undefined
      case Some(matches) => Bool(matches)
  }

  /** The string the effect writes under `ThemeKey`. */
  function ThemeValue(dark: DarkState): (v: string)
    ensures v == "dark" || v == "light"
    ensures v == "dark" <==> dark.Truthy()
  {
    if dark.Truthy() then "dark" else "light"
  }

  /** What the theme logic can observe: the state cell, the root's classes and the storage. */
  datatype Page = Page(dark: DarkState, classes: ClassList, stored: Storage)

  /** The root's dark class and the stored choice both say what the state cell says. */
  predicate Consistent(p: Page)
  {
    && (DarkClass in p.classes <==> p.dark.Truthy())
    && GetItem(p.stored, ThemeKey) == Some(ThemeValue(p.dark))
  }

  /** The reconciliation effect as a function of the page: it brings the class and the
      stored entry into line with the state, and touches no other class and no other key.
      The four clauses together determine the result. */
  function Effect(p: Page): (q: Page)
    ensures q.dark == p.dark
    ensures Consistent(q)
    ensures forall c :: c != DarkClass ==> (c in q.classes <==> c in p.classes)
    ensures forall k :: k != ThemeKey ==> GetItem(q.stored, k) == GetItem(p.stored, k)
  {
    if p.dark.Truthy() then
      Page(p.dark, Add(p.classes, DarkClass), SetItem(p.stored, ThemeKey, "dark"))
    else
      Page(p.dark, Remove(p.classes, DarkClass), SetItem(p.stored, ThemeKey, "light"))
  }

  /** The functional update `d => !d`: always a boolean, of the opposite truthiness, and
      never equal to its input, so the effect that depends on `dark` always runs again. */
  function Toggled(d: DarkState): (r: DarkState)
    ensures r.Bool?
    ensures r.Truthy() != d.Truthy()
    ensures r != d
  {
    Bool(!d.Truthy())
  }

  /** Start-up: the initializer reads the stored entry, then the mount effect runs. */
  function Mount(stored: Storage, classes: ClassList, media: Option<bool>): (p: Page)
    ensures p.dark == InitialDark(GetItem(stored, ThemeKey), media)
    ensures Consistent(p)
    ensures forall c :: c != DarkClass ==> (c in p.classes <==> c in classes)
    ensures forall k :: k != ThemeKey ==> GetItem(p.stored, k) == GetItem(stored, k)
  {
    Effect(Page(InitialDark(GetItem(stored, ThemeKey), media), classes, stored))
  }

  /** One click on the toggle button, followed by the effect it triggers. */
  function Click(p: Page): (q: Page)
    ensures q.dark == Toggled(p.dark)
    ensures Consistent(q)
    ensures forall c :: c != DarkClass ==> (c in q.classes <==> c in p.classes)
    ensures forall k :: k != ThemeKey ==> GetItem(q.stored, k) == GetItem(p.stored, k)
  {
    Effect(p.(dark := Toggled(p.dark)))
  }

  /** The page after `n` clicks. */
  function Session(p: Page, n: nat): Page
    decreases n
  {
    if n == 0 then p else Click(Session(p, n - 1))
  }

  // ---------------------------------------------------------------------------
  // The initializer

  /** A non-empty stored entry decides the start mode, whatever the system preference:
      dark exactly when it is `"dark"`. */
  lemma SavedChoiceWins(s: string, media: Option<bool>, media': Option<bool>)
    requires s != ""
    ensures InitialDark(Some(s), media) == InitialDark(Some(s), media')
    ensures InitialDark(Some(s), media).Truthy() <==> s == "dark"
  {
  }

  /** Any other non-empty entry (`"light"`, or anything unexpected) starts in light mode. */
  lemma UnexpectedSavedIsLight(s: string, media: Option<bool>)
    requires s != "" && s != "dark"
    ensures !InitialDark(Some(s), media).Truthy()
  {
    SavedChoiceWins(s, media, media);
  }

  /** With no entry, or an empty one, the system preference decides; light when
      `window.matchMedia` is absent. The empty string behaves exactly like a missing key. */
  lemma NoSavedFollowsSystem(saved: Option<string>, media: Option<bool>)
    requires saved == None || saved == Some("")
    ensures InitialDark(saved, media).Truthy() <==> media == Some(true)
    ensures InitialDark(saved, media) == InitialDark(None, media)
    ensures media == None ==> !InitialDark(saved, media).Truthy()
  {
  }

  /** The state cell holds `undefined` exactly when neither the stored entry nor
      `window.matchMedia` supplied a value. */
  lemma UndefinedOnlyWithoutMatchMedia(saved: Option<string>, media: Option<bool>)
    ensures InitialDark(saved, media) == Undefined <==> !SavedTruthy(saved) && media == None
  {
  }

  /** Between the first render and the mount effect the page can disagree with the
      state: with no stored entry and a dark system preference the state is dark while
      the root has no dark class and nothing is stored. */
  lemma FirstRenderPrecedesEffect()
    ensures !Consistent(Page(InitialDark(None, Some(true)), {}, map[]))
    ensures Consistent(Mount(map[], {}, Some(true)))
  {
  }

  // ---------------------------------------------------------------------------
  // The effect

  /** Running the effect twice with the same state is the same as running it once. */
  lemma EffectIdempotent(p: Page)
    ensures Effect(Effect(p)) == Effect(p)
  {
  }

  /** The effect leaves a page unchanged exactly when the page is already consistent. */
  lemma EffectFixedPoint(p: Page)
    ensures Effect(p) == p <==> Consistent(p)
  {
  }

  /** On a consistent page the class marker and the stored entry agree with each other. */
  lemma MarkerAgreesWithRecord(p: Page)
    requires Consistent(p)
    ensures DarkClass in p.classes <==> GetItem(p.stored, ThemeKey) == Some("dark")
    ensures GetItem(p.stored, ThemeKey) == Some("dark") || GetItem(p.stored, ThemeKey) == Some("light")
  {
  }

  /** Round trip: what the effect stored, read back by the initializer, gives the same
      mode whatever the system preference (a boolean, even where the cell held `undefined`). */
  lemma StoredChoiceRoundTrip(p: Page, media: Option<bool>)
    requires Consistent(p)
    ensures InitialDark(GetItem(p.stored, ThemeKey), media) == Bool(p.dark.Truthy())
  {
  }

  // ---------------------------------------------------------------------------
  // The toggle

  /** Toggling twice restores the mode; `undefined` comes back as `false`. */
  lemma ToggleInvolution(d: DarkState)
    ensures Toggled(Toggled(d)) == Bool(d.Truthy())
    ensures d.Bool? ==> Toggled(Toggled(d)) == d
  {
  }

  /** Two clicks on a consistent page restore its classes and storage, and its mode. */
  lemma ClickTwice(p: Page)
    requires Consistent(p)
    ensures Click(Click(p)) == p.(dark := Bool(p.dark.Truthy()))
  {
  }

  // ---------------------------------------------------------------------------
  // Sessions of clicks

  /** After every click the page is consistent, and a consistent page stays so. */
  lemma SessionConsistent(p: Page, n: nat)
    requires Consistent(p) || n > 0
    ensures Consistent(Session(p, n))
  {
  }

  /** After `n` clicks the mode is the start mode flipped `n` times. */
  lemma {:induction false} SessionParity(p: Page, n: nat)
    ensures Session(p, n).dark.Truthy() <==> (p.dark.Truthy() != (n % 2 == 1))
  {
    if n > 0 {
      SessionParity(p, n - 1);
    }
  }

  /** Clicking never touches another class or another storage key. */
  lemma {:induction false} SessionFrame(p: Page, n: nat)
    ensures forall c :: c != DarkClass ==> (c in Session(p, n).classes <==> c in p.classes)
    ensures forall k :: k != ThemeKey ==> GetItem(Session(p, n).stored, k) == GetItem(p.stored, k)
  {
    if n > 0 {
      SessionFrame(p, n - 1);
    }
  }

  /** An even number of clicks on a consistent page whose cell holds a boolean gives
      back exactly that page. */
  lemma {:induction false} SessionEvenRestores(p: Page, k: nat)
    requires Consistent(p) && p.dark.Bool?
    ensures Session(p, 2 * k) == p
  {
    if k > 0 {
      SessionEvenRestores(p, k - 1);
      assert Session(p, 2 * k) == Click(Click(Session(p, 2 * (k - 1))));
      ClickTwice(p);
    }
  }

  /** Reloading after any session restores the mode the session ended in, whatever the
      system preference and the classes the new document starts with. */
  lemma ReloadRestoresMode(p: Page, n: nat, classes: ClassList, media: Option<bool>)
    requires Consistent(p) || n > 0
    ensures Mount(Session(p, n).stored, classes, media).dark == Bool(Session(p, n).dark.Truthy())
  {
  }

  // ---------------------------------------------------------------------------
  // The component's state, updated in place

  /** The `dark` state cell together with the document root's class list and the
      storage it reconciles. */
  class ThemeController {
    var dark: DarkState
    var classes: ClassList
    var stored: Storage

    function State(): Page
      reads this
    {
      Page(dark, classes, stored)
    }

    /** The first render: the initializer reads the stored entry and the system
        preference; the classes and the storage are not touched yet. */
    constructor (stored0: Storage, classes0: ClassList, media: Option<bool>)
      ensures State() == Page(InitialDark(GetItem(stored0, ThemeKey), media), classes0, stored0)
    {
      var saved := GetItem(stored0, ThemeKey);
      if SavedTruthy(saved) {
        dark := Bool(saved.value == "dark");
      } else if media.None? {
        dark := Undefined;
      } else {
        dark := Bool(media.value);
      }
      classes := classes0;
      stored := stored0;
    }

    /** The effect that runs after the first render and after every change of `dark`. */
    method Reconcile()
      modifies this
      ensures State() == Effect(old(State()))
      ensures Consistent(State())
    {
      if dark.Truthy() {
        classes := Add(classes, DarkClass);
        stored := SetItem(stored, ThemeKey, "dark");
      } else {
        classes := Remove(classes, DarkClass);
        stored := SetItem(stored, ThemeKey, "light");
      }
    }

    /** The toggle button's handler `setDark(d => !d)`. */
    method Toggle()
      modifies this`dark
      ensures State() == old(State()).(dark := Toggled(old(dark)))
    {
      dark := Bool(!dark.Truthy());
    }
  }

  // ---------------------------------------------------------------------------
  // Scenarios that drive the controller

  /** No stored entry and a dark system preference: the page mounts dark, with the
      class applied and `"dark"` stored. */
  method MountWithoutRecord(classes0: ClassList) returns (dark: bool, marked: bool, record: Option<string>)
    ensures dark && marked && record == Some("dark")
  {
    var c := new ThemeController(map[], classes0, Some(true));
    c.Reconcile();
    dark, marked, record := c.dark.Truthy(), DarkClass in c.classes, GetItem(c.stored, ThemeKey);
  }

  /** A stored `"light"` wins over a dark system preference. */
  method MountWithLightRecord(stored0: Storage, classes0: ClassList) returns (dark: bool, marked: bool, record: Option<string>)
    requires GetItem(stored0, ThemeKey) == Some("light")
    ensures !dark && !marked && record == Some("light")
  {
    var c := new ThemeController(stored0, classes0, Some(true));
    c.Reconcile();
    dark, marked, record := c.dark.Truthy(), DarkClass in c.classes, GetItem(c.stored, ThemeKey);
  }

  /** A stored `"dark"` and one click: light mode, class removed, `"light"` stored. */
  method ToggleOnceFromDark(stored0: Storage, classes0: ClassList, media: Option<bool>)
    returns (dark: bool, marked: bool, record: Option<string>)
    requires GetItem(stored0, ThemeKey) == Some("dark")
    ensures !dark && !marked && record == Some("light")
  {
    var c := new ThemeController(stored0, classes0, media);
    c.Reconcile();
    c.Toggle();
    c.Reconcile();
    dark, marked, record := c.dark.Truthy(), DarkClass in c.classes, GetItem(c.stored, ThemeKey);
  }

  /** Two clicks after mounting give back the mounted classes, storage and mode. */
  method ToggleTwiceAfterMount(stored0: Storage, classes0: ClassList, media: Option<bool>)
    returns (mounted: Page, final: Page)
    ensures mounted == Mount(stored0, classes0, media)
    ensures final.classes == mounted.classes && final.stored == mounted.stored
    ensures final.dark.Truthy() == mounted.dark.Truthy()
  {
    var c := new ThemeController(stored0, classes0, media);
    c.Reconcile();
    mounted := c.State();
    c.Toggle();
    c.Reconcile();
    c.Toggle();
    c.Reconcile();
    final := c.State();
    ClickTwice(mounted);
  }
}
