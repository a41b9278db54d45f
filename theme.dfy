/**
 * The persisted light/dark/system appearance preference (src/stores/theme.ts).
 *
 * The browser collaborators are fields of the store: `storage` is
 * `localStorage`, `attr` is the `theme-mode` attribute of the document
 * element, and `osDark` is whether the operating system currently prefers a
 * dark scheme. The stored mode is a string: the store takes whatever
 * non-empty text it finds in storage, so it may hold a value outside
 * light/dark/system.
 */
module Theme {

  /** The storage key and document attribute the preference lives under. */
  const StorageKey: string := "theme-mode"

  /** The cycle order of `nextTheme`. */
  const ModeOrder: seq<string> := ["light", "dark", "system"]

  /** The three values of `ThemeMode`. */
  predicate IsThemeMode(m: string) {
    m in ModeOrder
  }

  /**
   * `localStorage.getItem('theme-mode') || 'system'`: the stored text when
   * there is a non-empty one, else "system". The stored text is not checked
   * against the three modes.
   */
  function InitialMode(storage: map<string, string>): (m: string)
    ensures m != ""
    ensures m == "system" || (StorageKey in storage && storage[StorageKey] == m)
    ensures StorageKey in storage && storage[StorageKey] != "" ==> m == storage[StorageKey]
  {
    if StorageKey in storage && storage[StorageKey] != "" then storage[StorageKey] else "system"
  }

  /**
   * The appearance `applyTheme` writes for a mode: "system" resolves to
   * "dark" or "light" by the OS flag, every other mode is written as it is;
   * so the attribute is never "system".
   */
  function EffectiveAppearance(mode: string, osDark: bool): (a: string)
    ensures a != "system"
    ensures mode != "system" ==> a == mode
    ensures mode == "system" ==> (a == "dark" <==> osDark) && (a == "light" <==> !osDark)
  {
    if mode == "system" then (if osDark then "dark" else "light") else mode
  }

  /** `order.indexOf(m)`: the first position of `m`, or -1. */
  function IndexOf(order: seq<string>, m: string): (i: int)
    ensures -1 <= i < |order|
    ensures i == -1 <==> m !in order
    ensures i >= 0 ==> order[i] == m && m !in order[..i]
  {
    if order == [] then -1
    else if order[0] == m then 0
    else
      var j := IndexOf(order[1..], m);
      if j == -1 then -1
      else
        assert order[..j + 1] == [order[0]] + order[1..][..j];
        j + 1
  }

  /** The mode `nextTheme` moves to: the next one in the cycle order, wrapping around. */
  function NextMode(m: string): (n: string)
    ensures IsThemeMode(n)
  {
    var i := IndexOf(ModeOrder, m);
    ModeOrder[(i + 1) % |ModeOrder|]
  }

  /**
   * `nextTheme` cycles light -> dark -> system -> light, so three steps
   * return to the start; a mode outside the cycle (index -1) moves to light.
   */
  lemma NextModeCycle(m: string)
    ensures m == "light" ==> NextMode(m) == "dark"
    ensures m == "dark" ==> NextMode(m) == "system"
    ensures m == "system" ==> NextMode(m) == "light"
    ensures !IsThemeMode(m) ==> NextMode(m) == "light"
    ensures IsThemeMode(m) ==> NextMode(NextMode(NextMode(m))) == m
  {
    assert IndexOf(ModeOrder, "light") == 0;
    assert IndexOf(ModeOrder, "dark") == 1;
    assert IndexOf(ModeOrder, "system") == 2;
  }

  /**
   * A non-empty stored value that is not a mode is taken verbatim: it becomes
   * the mode and the attribute, and `nextTheme` moves from it to light.
   */
  lemma InvalidStoredModeKept(storage: map<string, string>, stored: string, osDark: bool)
    requires stored != "" && !IsThemeMode(stored)
    ensures InitialMode(storage[StorageKey := stored]) == stored
    ensures EffectiveAppearance(stored, osDark) == stored
    ensures NextMode(stored) == "light"
  {
    NextModeCycle(stored);
  }

  /** The theme store: the mode ref together with the browser state it drives. */
  class ThemeStore {
    var mode: string
    var storage: map<string, string>
    var attr: string
    var osDark: bool

    /** Storage holds the mode, and the attribute shows the mode resolved against the OS flag. */
    ghost predicate Valid()
      reads this
    {
      StorageKey in storage && storage[StorageKey] == mode && attr == EffectiveAppearance(mode, osDark)
    }

    /**
     * Store creation: the mode is read from storage, then the immediate
     * watcher applies it and writes it back.
     */
    constructor (initialStorage: map<string, string>, initialOsDark: bool)
      ensures Valid()
      ensures mode == InitialMode(initialStorage) && osDark == initialOsDark
      ensures storage == initialStorage[StorageKey := mode]
    {
      mode := InitialMode(initialStorage);
      storage := initialStorage;
      osDark := initialOsDark;
      attr := "";
      new;
      OnModeChange(mode);
    }

    /** `applyTheme`: sets the attribute to the mode, "system" resolved by the OS flag. */
    method ApplyTheme(currentMode: string)
      modifies this`attr
      ensures attr == EffectiveAppearance(currentMode, osDark)
    {
      var effectiveMode := currentMode;
      if currentMode == "system" {
        effectiveMode := if osDark then "dark" else "light";
      }
      attr := effectiveMode;
    }

    /** The mode watcher: apply the new mode, then persist it. */
    method OnModeChange(newMode: string)
      modifies this`attr, this`storage
      ensures attr == EffectiveAppearance(newMode, osDark)
      ensures storage == old(storage)[StorageKey := newMode]
    {
      ApplyTheme(newMode);
      storage := storage[StorageKey := newMode];
    }

    /**
     * `setTheme`: overwrite the mode. The watcher runs only when the value
     * changes; setting the current mode again changes nothing, which under
     * Valid() is the state the watcher would have produced.
     */
    method SetTheme(newMode: string)
      requires Valid() && IsThemeMode(newMode)
      modifies this
      ensures Valid()
      ensures mode == newMode && osDark == old(osDark)
      ensures storage == old(storage)[StorageKey := newMode]
      ensures attr == EffectiveAppearance(newMode, osDark)
    {
      if newMode != mode {
        mode := newMode;
        OnModeChange(newMode);
      }
    }

    /** `nextTheme`: move to the next mode of the cycle. */
    method NextTheme()
      requires Valid()
      modifies this
      ensures Valid()
      ensures mode == NextMode(old(mode)) && osDark == old(osDark)
      ensures storage == old(storage)[StorageKey := mode]
    {
      SetTheme(NextMode(mode));
    }

    /**
     * The OS preference listener: record the new flag, and re-apply only in
     * "system" mode; storage and the mode never change.
     */
    method OnSystemPreferenceChange(dark: bool)
      requires Valid()
      modifies this`osDark, this`attr
      ensures Valid() && osDark == dark
      ensures old(mode) == "system" ==> attr == EffectiveAppearance("system", dark)
      ensures old(mode) != "system" ==> attr == old(attr)
    {
      osDark := dark;
      if mode == "system" {
        ApplyTheme("system");
      }
    }
  }

  /** Persistence round trip: a store re-created from the storage `setTheme(m)` left starts in `m`. */
  method RestartAfterSetTheme(initialStorage: map<string, string>, osDark: bool, m: string) returns (restored: string)
    requires IsThemeMode(m)
    ensures restored == m
  {
    var store := new ThemeStore(initialStorage, osDark);
    store.SetTheme(m);
    var restarted := new ThemeStore(store.storage, osDark);
    restored := restarted.mode;
  }

  /**
   * OS reactivity: after `setTheme(m)`, flipping the OS flag changes the
   * attribute iff `m` is "system"; the attribute is never "system".
   */
  method ToggleOsPreference(initialStorage: map<string, string>, osDark: bool, m: string) returns (before: string, after: string)
    requires IsThemeMode(m)
    ensures before != after <==> m == "system"
    ensures before != "system" && after != "system"
  {
    var store := new ThemeStore(initialStorage, osDark);
    store.SetTheme(m);
    before := store.attr;
    store.OnSystemPreferenceChange(!osDark);
    after := store.attr;
  }

  /**
   * Three `nextTheme` calls on a freshly created store return to its starting
   * mode when that is one of the three modes; from a stored value outside
   * them they end in "system" (light, dark, system).
   */
  method CycleThreeTimes(initialStorage: map<string, string>, osDark: bool) returns (start: string, final: string)
    ensures start == InitialMode(initialStorage)
    ensures IsThemeMode(start) ==> final == start
    ensures !IsThemeMode(start) ==> final == "system"
  {
    var store := new ThemeStore(initialStorage, osDark);
    start := store.mode;
    NextModeCycle(start);
    store.NextTheme();
    NextModeCycle(store.mode);
    store.NextTheme();
    NextModeCycle(store.mode);
    store.NextTheme();
    final := store.mode;
  }
}
