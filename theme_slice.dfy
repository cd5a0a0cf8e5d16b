/**
 * The theme store: the chosen theme, the colour scheme and the theme the
 * operating system reports. The colour scheme is kept as a string because
 * the settings screen passes its local string through unchecked.
 */
module ThemeSlice {

  datatype Theme = Light | Dark | System

  /** The themes the operating system can report: never `System`. */
  type ConcreteTheme = t: Theme | t != System witness Light

  const DefaultColorScheme := "purple"

  class ThemeStore {
    var theme: Theme
    var colorScheme: string
    var systemTheme: ConcreteTheme

    /** `prefersDark` is the answer of the `prefers-color-scheme: dark` media query at start-up. */
    constructor (prefersDark: bool)
      ensures theme == System && colorScheme == DefaultColorScheme
      ensures systemTheme == if prefersDark then Dark else Light
    {
      theme := System;
      colorScheme := DefaultColorScheme;
      systemTheme := if prefersDark then Dark else Light;
    }

    method SetTheme(t: Theme)
      modifies this
      ensures theme == t
      ensures colorScheme == old(colorScheme) && systemTheme == old(systemTheme)
    {
      theme := t;
    }

    method SetColorScheme(scheme: string)
      modifies this
      ensures colorScheme == scheme
      ensures theme == old(theme) && systemTheme == old(systemTheme)
    {
      colorScheme := scheme;
    }

    method SetSystemTheme(t: ConcreteTheme)
      modifies this
      ensures systemTheme == t
      ensures theme == old(theme) && colorScheme == old(colorScheme)
    {
      systemTheme := t;
    }
  }
}
