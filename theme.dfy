/**
 * The two theme controllers: the click handler wired up by `initThemeToggle`
 * in main-clean.js, and the `ThemeManager` class of theme.js. Both keep the
 * `data-theme` attribute of the document root and the `theme` slot of local
 * storage; they differ in their default and in the value their toggle tests.
 */
module Theme {
  import opened Wrappers

  const Light := "light"
  const Dark := "dark"

  /** `localStorage.getItem('theme') || fallback`: a missing slot and an empty string both give way to the fallback. */
  function StoredOr(stored: Option<string>, fallback: string): (t: string)
    ensures t == fallback || (t != "" && stored == Some(t))
    ensures stored.Some? && stored.value != "" ==> t == stored.value
  {
    if stored.Some? && stored.value != "" then stored.value else fallback
  }

  /** main-clean.js toggle: the attribute 'light' becomes 'dark'; any other value, or no attribute, becomes 'light'. */
  function CleanNext(attribute: Option<string>): (t: string)
    ensures t == Light || t == Dark
  {
    if attribute == Some(Light) then Dark else Light
  }

  /** theme.js toggle: the field 'dark' becomes 'light'; any other value becomes 'dark'. */
  function ManagerNext(current: string): (t: string)
    ensures t == Light || t == Dark
  {
    if current == Dark then Light else Dark
  }

  /** After one main-clean toggle the theme is 'light' or 'dark', and it is 'dark' exactly when it was 'light'. */
  lemma CleanNextFlips(attribute: Option<string>)
    ensures CleanNext(attribute) == Light || CleanNext(attribute) == Dark
    ensures CleanNext(attribute) == Dark <==> attribute == Some(Light)
  {
  }

  /** After one theme.js toggle the theme is 'light' or 'dark', and it is 'light' exactly when it was 'dark'. */
  lemma ManagerNextFlips(current: string)
    ensures ManagerNext(current) == Light || ManagerNext(current) == Dark
    ensures ManagerNext(current) == Light <==> current == Dark
  {
  }

  /** On {light, dark} both toggles are involutions. */
  lemma ToggleInvolution(t: string)
    requires t == Light || t == Dark
    ensures CleanNext(Some(CleanNext(Some(t)))) == t
    ensures ManagerNext(ManagerNext(t)) == t
  {
  }

  /**
   * The two toggles agree on 'light' and 'dark' and disagree on every other
   * value: main-clean.js turns it into 'light', theme.js into 'dark'.
   */
  lemma TogglesCompared(t: string)
    ensures (t == Light || t == Dark) ==> CleanNext(Some(t)) == ManagerNext(t)
    ensures (t != Light && t != Dark) ==> CleanNext(Some(t)) == Light && ManagerNext(t) == Dark
  {
  }

  /** A toggled theme survives a reload: read back from storage it is itself, whatever the fallback. */
  lemma ToggledThemeSurvivesReload(attribute: Option<string>, current: string, fallback: string)
    ensures StoredOr(Some(CleanNext(attribute)), fallback) == CleanNext(attribute)
    ensures StoredOr(Some(ManagerNext(current)), fallback) == ManagerNext(current)
  {
  }

  /**
   * The controller of main-clean.js. It has no field of its own: on every
   * click it re-reads the document attribute.
   */
  class ThemeToggle {
    /** The `theme` slot of local storage. */
    var stored: Option<string>
    /** The `data-theme` attribute of the document root. */
    var attribute: Option<string>
    /** Whether the `#themeToggle` button exists, so that the click listener was registered. */
    const hasButton: bool

    /** What is displayed is what a reload would display. */
    ghost predicate Valid()
      reads this
    {
      attribute == Some(StoredOr(stored, Light))
    }

    /** Initialisation: the stored theme, or 'light', is applied; storage is not written. */
    constructor (stored: Option<string>, hasButton: bool)
      ensures Valid()
      ensures this.stored == stored && attribute == Some(StoredOr(stored, Light))
      ensures this.hasButton == hasButton
    {
      this.stored := stored;
      attribute := Some(StoredOr(stored, Light));
      this.hasButton := hasButton;
    }

    /** The click handler: the attribute is flipped and the new value stored. */
    method Click()
      modifies this
      ensures hasButton ==> attribute == Some(CleanNext(old(attribute))) && stored == attribute
      ensures !hasButton ==> attribute == old(attribute) && stored == old(stored)
      ensures old(Valid()) ==> Valid()
      ensures hasButton ==> Valid()
    {
      if hasButton {
        var theme := attribute;
        var newTheme := if theme == Some(Light) then Dark else Light;
        attribute := Some(newTheme);
        stored := Some(newTheme);
      }
    }
  }

  /**
   * `ThemeManager` of theme.js. It keeps the theme in its own field and
   * never reads the attribute back.
   */
  class ThemeManager {
    /** The field `currentTheme`. */
    var currentTheme: string
    /** The `theme` slot of local storage. */
    var stored: Option<string>
    /** The `data-theme` attribute of the document root. */
    var attribute: Option<string>
    /**
     * Whether the click listener was registered. Without a `#themeToggle`
     * button `init` fails right after applying the theme.
     */
    const listening: bool

    /** Field, attribute and what a reload would display all agree. */
    ghost predicate Valid()
      reads this
    {
      attribute == Some(currentTheme) && currentTheme == StoredOr(stored, Dark)
    }

    /** Construction: the stored theme, or 'dark', goes into the field and onto the document. */
    constructor (stored: Option<string>, hasButton: bool)
      ensures Valid()
      ensures currentTheme == StoredOr(stored, Dark) && attribute == Some(currentTheme)
      ensures this.stored == stored && listening == hasButton
    {
      currentTheme := StoredOr(stored, Dark);
      this.stored := stored;
      attribute := Some(currentTheme);
      listening := hasButton;
    }

    /**
     * `toggleTheme`: the new theme is computed from the field alone, so from
     * any state, even one where another writer changed the attribute, it
     * leaves field, attribute and storage equal.
     */
    method ToggleTheme()
      modifies this
      ensures currentTheme == ManagerNext(old(currentTheme))
      ensures attribute == Some(currentTheme) && stored == Some(currentTheme)
      ensures Valid()
    {
      currentTheme := if currentTheme == Dark then Light else Dark;
      attribute := Some(currentTheme);
      stored := Some(currentTheme);
    }

    /** A click on the button, which reaches `toggleTheme` only when the listener exists. */
    method Click()
      modifies this
      ensures listening ==> currentTheme == ManagerNext(old(currentTheme)) && attribute == Some(currentTheme) && stored == attribute
      ensures !listening ==> currentTheme == old(currentTheme) && attribute == old(attribute) && stored == old(stored)
      ensures old(Valid()) ==> Valid()
    {
      if listening {
        ToggleTheme();
      }
    }
  }

  /**
   * Toggling twice from 'light' or 'dark' with the theme.js controller
   * brings the field back to where it started, with attribute and storage
   * both holding it.
   */
  method ManagerToggleTwice(m: ThemeManager)
    requires m.currentTheme == Light || m.currentTheme == Dark
    modifies m
    ensures m.currentTheme == old(m.currentTheme)
    ensures m.attribute == Some(old(m.currentTheme)) && m.stored == Some(old(m.currentTheme))
  {
    m.ToggleTheme();
    m.ToggleTheme();
  }
}
