/**
 * Colour helpers: the Tailwind class strings for a colour and a text level,
 * and the light/dark theme, which is mirrored by the `dark` class on the
 * document's root element and, for the toggle, persisted in `localStorage`.
 */
module UseColors {
  import opened Wrappers
  import opened Text
  import opened Browser

  // ----- class strings -----

  datatype ColorName = Primary | Secondary | Accent | Destructive | Success | Warning | Info

  function ColorNameString(c: ColorName): string {
    match c
    case Primary => "primary"
    case Secondary => "secondary"
    case Accent => "accent"
    case Destructive => "destructive"
    case Success => "success"
    case Warning => "warning"
    case Info => "info"
  }

  /** The `base` of `getColorClasses`, `bg-c text-c-foreground` for colour name `c`. */
  function BaseClasses(c: string): string {
    "bg-" + c + " text-" + c + "-foreground"
  }

  /** What follows the base when the state variants are on: the hover, active and disabled backgrounds of `c`. */
  function StateClasses(c: string): string {
    " hover:bg-" + c + "-hover active:bg-" + c + "-active disabled:bg-" + c + "-disabled"
  }

  /** `getColorClasses`: the base classes, then the state variants unless they are turned off. */
  function GetColorClasses(color: ColorName, includeStates: bool := true): string {
    var base := BaseClasses(ColorNameString(color));
    if !includeStates then base else base + StateClasses(ColorNameString(color))
  }

  /**
   * Without states the string is the two base classes; with them (the default)
   * it is that same string followed by the three state classes, so the base is a
   * proper prefix; and the colour's name follows the leading `bg-`.
   */
  lemma ColorClassesShape(color: ColorName)
    ensures var c := ColorNameString(color);
      && GetColorClasses(color, false) == BaseClasses(c)
      && GetColorClasses(color) == GetColorClasses(color, true) == BaseClasses(c) + StateClasses(c)
      && |BaseClasses(c)| < |GetColorClasses(color)|
      && GetColorClasses(color)[..|BaseClasses(c)|] == BaseClasses(c)
      && BaseClasses(c)[3..3 + |c|] == c
  {
    var c := ColorNameString(color);
    BaseClassesShape(c);
    var base, rest := BaseClasses(c), StateClasses(c);
    assert (base + rest)[..|base|] == base;
  }

  /** The colour name sits right after `bg-`. */
  lemma BaseClassesShape(c: string)
    ensures BaseClasses(c)[3..3 + |c|] == c
  {
    var t := " text-" + c + "-foreground";
    assert BaseClasses(c) == "bg-" + c + t;
  }

  datatype TextLevel = TextPrimary | TextSecondary | TextTertiary | TextDisabled

  function TextLevelString(level: TextLevel): string {
    match level
    case TextPrimary => "primary"
    case TextSecondary => "secondary"
    case TextTertiary => "tertiary"
    case TextDisabled => "disabled"
  }

  /** `getTextClass`. */
  function GetTextClass(level: TextLevel := TextPrimary): string {
    "text-text-" + TextLevelString(level)
  }

  /** The level can be read back from the class after its fixed prefix; the default level is primary. */
  lemma TextClassMeaning(level: TextLevel)
    ensures var s := GetTextClass(level);
      |s| > 10 && s[..10] == "text-text-" && s[10..] == TextLevelString(level)
    ensures GetTextClass() == "text-text-primary"
    ensures forall other :: GetTextClass(other) == GetTextClass(level) ==> other == level
  {
    forall other | GetTextClass(other) == GetTextClass(level) ensures other == level {
      assert GetTextClass(other)[10..] == TextLevelString(other);
    }
  }

  // ----- theme mode -----

  datatype ThemeMode = Light | Dark

  function ModeString(m: ThemeMode): string {
    match m
    case Light => "light"
    case Dark => "dark"
  }

  /** The stored value, if it names a mode. */
  function ParseMode(s: Option<string>): Option<ThemeMode> {
    if s == Some("dark") then Some(Dark)
    else if s == Some("light") then Some(Light)
    else None
  }

  /** A stored mode string is read back as that mode, and only the two mode strings are. */
  lemma ParseModeRoundTrip(m: ThemeMode, s: Option<string>)
    ensures ParseMode(Some(ModeString(m))) == Some(m)
    ensures ParseMode(s).Some? ==> s == Some(ModeString(ParseMode(s).value))
  {
  }

  /** The mode the system colour scheme asks for. */
  function SystemMode(env: Env): ThemeMode {
    if env.Window? && env.prefersDark then Dark else Light
  }

  /** `useThemeToggle`'s initial mode: light without a window, else a stored mode, else the system's. */
  function InitialToggleMode(env: Env, stored: Option<string>): ThemeMode {
    if env.NoWindow? then Light
    else if ParseMode(stored).Some? then ParseMode(stored).value
    else SystemMode(env)
  }

  lemma InitialToggleModeCases(env: Env, stored: Option<string>, m: ThemeMode)
    ensures env.NoWindow? ==> InitialToggleMode(env, stored) == Light
    ensures env.Window? ==> InitialToggleMode(env, Some(ModeString(m))) == m
    ensures env.Window? && ParseMode(stored).None? ==>
      InitialToggleMode(env, stored) == (if env.prefersDark then Dark else Light)
  {
  }

  function Opposite(m: ThemeMode): ThemeMode {
    if m == Light then Dark else Light
  }

  lemma OppositeInvolution(m: ThemeMode)
    ensures Opposite(Opposite(m)) == m && Opposite(m) != m
  {
  }

  /** The root element carries `dark` exactly in dark mode. */
  ghost predicate Mirrors(classes: set<string>, m: ThemeMode) {
    "dark" in classes <==> m == Dark
  }

  /** `useThemeToggle`. */
  class ThemeToggle {
    var mode: ThemeMode
    const storageKey: string
    const doc: Document
    const storage: LocalStorage

    /** The first render: the initial mode, read from storage only when there is a window. */
    constructor (env: Env, doc: Document, storage: LocalStorage, storageKey: string := "theme-mode")
      ensures this.doc == doc && this.storage == storage && this.storageKey == storageKey
      ensures mode == InitialToggleMode(env, if env.Window? then storage.GetItem(storageKey) else None)
    {
      this.doc := doc;
      this.storage := storage;
      this.storageKey := storageKey;
      mode := InitialToggleMode(env, if env.Window? then storage.GetItem(storageKey) else None);
    }

    /** The effect on `mode`: make the root element's class agree with the mode. */
    method ApplyMode()
      modifies doc
      ensures Mirrors(doc.rootClasses, mode)
      ensures doc.rootClasses == WithClass(old(doc.rootClasses), "dark", mode == Dark)
    {
      doc.rootClasses := WithClass(doc.rootClasses, "dark", mode == Dark);
    }

    /** `toggle`: switch to the other mode, show it on the root element and store it. */
    method Toggle()
      modifies this, doc, storage
      ensures mode == Opposite(old(mode))
      ensures Mirrors(doc.rootClasses, mode)
      ensures doc.rootClasses == WithClass(old(doc.rootClasses), "dark", mode == Dark)
      ensures storage.items == old(storage.items)[storageKey := ModeString(mode)]
    {
      var newMode := Opposite(mode);
      doc.rootClasses := WithClass(doc.rootClasses, "dark", newMode == Dark);
      storage.items := storage.items[storageKey := ModeString(newMode)];
      mode := newMode;
    }
  }

  /** Toggling twice restores the mode, the `dark` class and the stored value the first toggle wrote is overwritten by the original. */
  method ToggleTwice(t: ThemeToggle) returns (before: ThemeMode)
    requires Mirrors(t.doc.rootClasses, t.mode)
    modifies t, t.doc, t.storage
    ensures t.mode == before == old(t.mode)
    ensures Mirrors(t.doc.rootClasses, t.mode)
    ensures forall c :: c != "dark" ==> (c in t.doc.rootClasses <==> c in old(t.doc.rootClasses))
    ensures t.doc.rootClasses == old(t.doc.rootClasses)
    ensures t.storage.GetItem(t.storageKey) == Some(ModeString(before))
  {
    before := t.mode;
    t.Toggle();
    t.Toggle();
    OppositeInvolution(before);
  }

  /** After a toggle, a fresh mount that reads the same storage starts in the toggled mode, whatever the system prefers. */
  method ToggleSurvivesReload(env: Env, t: ThemeToggle) returns (reloaded: ThemeToggle)
    requires env.Window?
    modifies t, t.doc, t.storage
    ensures reloaded.mode == t.mode == Opposite(old(t.mode))
  {
    t.Toggle();
    reloaded := new ThemeToggle(env, t.doc, t.storage, t.storageKey);
    ParseModeRoundTrip(t.mode, None);
  }

  /** `useThemeMode`. */
  class ThemeModeState {
    var mode: ThemeMode
    const doc: Document

    /** The first render: light without a window, else whatever the root element shows. */
    constructor (env: Env, doc: Document)
      ensures this.doc == doc
      ensures env.NoWindow? ==> mode == Light
      ensures env.Window? ==> Mirrors(doc.rootClasses, mode)
    {
      this.doc := doc;
      mode := if env.NoWindow? then Light else if "dark" in doc.rootClasses then Dark else Light;
    }

    /** `updateMode`: the class and the mode state follow the new mode; no other class changes. */
    method UpdateMode(newMode: ThemeMode)
      modifies this, doc
      ensures mode == newMode
      ensures Mirrors(doc.rootClasses, mode)
      ensures forall c :: c != "dark" ==> (c in doc.rootClasses <==> c in old(doc.rootClasses))
    {
      doc.rootClasses := WithClass(doc.rootClasses, "dark", newMode == Dark);
      mode := newMode;
    }
  }
}
