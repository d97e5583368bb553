/** The light/dark switch in the navigation bar (`src/components/navigation/ThemeToggle.tsx`).
    The chosen theme may follow the system; the toggle always picks an
    explicit theme. Whether the system prefers dark is an input. */
module ThemeToggle {
  datatype Theme = Light | Dark | System

  /** `getEffectiveTheme`: the system's preference under "system", otherwise
      the chosen theme. */
  function EffectiveTheme(theme: Theme, systemPrefersDark: bool): (e: Theme)
    ensures e != System
    ensures theme != System ==> e == theme
    ensures theme == System ==> (e == Dark <==> systemPrefersDark)
  {
    if theme == System then (if systemPrefersDark then Dark else Light) else theme
  }

  /** `handleToggle`: the opposite of what is shown, never "system". */
  function Toggled(theme: Theme, systemPrefersDark: bool): (t: Theme)
    ensures t != System && t != EffectiveTheme(theme, systemPrefersDark)
  {
    if EffectiveTheme(theme, systemPrefersDark) == Light then Dark else Light
  }

  /** Toggling twice shows the same theme again, now chosen explicitly. */
  lemma ToggleTwice(theme: Theme, systemPrefersDark: bool)
    ensures var once := Toggled(theme, systemPrefersDark);
      Toggled(once, systemPrefersDark) == EffectiveTheme(theme, systemPrefersDark)
  {
  }

  const ToDark := "Switch to Dark Mode"
  const ToLight := "Switch to Light Mode"

  datatype Icon = Sun | Moon

  /** The button's title and aria-label, and its icon. */
  function Title(theme: Theme, systemPrefersDark: bool): (s: string)
    ensures s == ToDark <==> EffectiveTheme(theme, systemPrefersDark) == Light
    ensures s == ToDark || s == ToLight
  {
    if EffectiveTheme(theme, systemPrefersDark) == Light then ToDark else ToLight
  }

  function IconOf(theme: Theme, systemPrefersDark: bool): (i: Icon)
    ensures i == Sun <==> EffectiveTheme(theme, systemPrefersDark) == Light
  {
    if EffectiveTheme(theme, systemPrefersDark) == Light then Sun else Moon
  }

  /** The title names the theme a click switches to. */
  lemma TitleNamesToggle(theme: Theme, systemPrefersDark: bool)
    ensures Title(theme, systemPrefersDark) == ToDark <==> Toggled(theme, systemPrefersDark) == Dark
  {
  }

  class Toggle {
    var theme: Theme
    var systemPrefersDark: bool

    /** Mounting reads the media query (false where it is unavailable). */
    constructor (theme: Theme, mediaMatches: bool)
      ensures this.theme == theme && systemPrefersDark == mediaMatches
    {
      this.theme := theme;
      systemPrefersDark := mediaMatches;
    }

    method SystemChanged(matches: bool)
      modifies this
      ensures systemPrefersDark == matches && theme == old(theme)
    {
      systemPrefersDark := matches;
    }

    method Clicked()
      modifies this
      ensures theme == Toggled(old(theme), systemPrefersDark) && systemPrefersDark == old(systemPrefersDark)
    {
      theme := Toggled(theme, systemPrefersDark);
    }
  }
}
