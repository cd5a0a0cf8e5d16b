/**
 * The `NewSettings` screen: a local copy of the stored settings that the
 * form edits, a dirty check against the stores, and a save that writes the
 * local copy back to the settings, theme and notification stores.
 */
module SettingsScreen {
  import opened ThemeSlice
  import SettingsSlice
  import NotificationsSlice
  import Utils

  /** `Math.max(lo, Math.min(hi, value))`. */
  function Clamp(lo: int, hi: int, value: int): (r: int)
    requires lo <= hi
    ensures lo <= r <= hi
    ensures lo <= value <= hi ==> r == value
    ensures value < lo ==> r == lo
    ensures value > hi ==> r == hi
  {
    if value > hi then hi else if value < lo then lo else value
  }

  /** The work duration field accepts 1 to 60 minutes. */
  function ClampWork(value: int): (r: int)
    ensures 1 <= r <= 60
    ensures 1 <= value <= 60 ==> r == value
  {
    Clamp(1, 60, value)
  }

  /** The break duration field accepts 1 to 30 minutes. */
  function ClampBreak(value: int): (r: int)
    ensures 1 <= r <= 30
    ensures 1 <= value <= 30 ==> r == value
  {
    Clamp(1, 30, value)
  }

  lemma ClampIdempotent(lo: int, hi: int, value: int)
    requires lo <= hi
    ensures Clamp(lo, hi, Clamp(lo, hi, value)) == Clamp(lo, hi, value)
  {
  }

  lemma ClampMonotone(lo: int, hi: int, a: int, b: int)
    requires lo <= hi && a <= b
    ensures Clamp(lo, hi, a) <= Clamp(lo, hi, b)
  {
  }

  /** Both duration clamps are idempotent and monotone. */
  lemma DurationClamps(a: int, b: int)
    ensures ClampWork(ClampWork(a)) == ClampWork(a) && ClampBreak(ClampBreak(a)) == ClampBreak(a)
    ensures a <= b ==> ClampWork(a) <= ClampWork(b) && ClampBreak(a) <= ClampBreak(b)
  {
    ClampIdempotent(1, 60, a);
    ClampIdempotent(1, 30, a);
    if a <= b {
      ClampMonotone(1, 60, a, b);
      ClampMonotone(1, 30, a, b);
    }
  }

  datatype LocalSettings = LocalSettings(
    workMinutes: int,
    breakMinutes: int,
    theme: Theme,
    colorScheme: string,
    notifications: NotificationsSlice.NotificationSettings)

  /** What the reset button loads into the form: the stores' own initial values. */
  const Defaults := LocalSettings(25, 5, System, "purple", NotificationsSlice.DefaultSettings)

  lemma DefaultsMatchStores()
    ensures Defaults.workMinutes == SettingsSlice.DefaultWorkMinutes
    ensures Defaults.breakMinutes == SettingsSlice.DefaultBreakMinutes
    ensures Defaults.colorScheme == DefaultColorScheme
    ensures Defaults.notifications.sessionStart == false
    ensures Defaults.notifications == NotificationsSlice.NotificationSettings(true, true, true, true, true, true, false)
  {
  }

  /**
   * The dirty check: some field of the form differs from the store. The
   * notification records are compared through their JSON text, which is
   * record equality because both are built with the keys in the same order.
   */
  function Differs(local: LocalSettings, workMinutes: int, breakMinutes: int, theme: Theme,
                   colorScheme: string, notifications: NotificationsSlice.NotificationSettings): (r: bool)
    ensures r <==> local != LocalSettings(workMinutes, breakMinutes, theme, colorScheme, notifications)
  {
    local.workMinutes != workMinutes || local.breakMinutes != breakMinutes || local.theme != theme
    || local.colorScheme != colorScheme || local.notifications != notifications
  }

  /** The gradient of a colour swatch; any scheme not in the table gets purple's. */
  function GetColorClasses(scheme: string): (r: string)
    ensures scheme !in Utils.KnownSchemes ==> r == "from-purple-500 to-purple-700"
    ensures scheme == "purple" ==> r == "from-purple-500 to-purple-700"
    ensures scheme == "blue" ==> r == "from-blue-500 to-blue-700"
    ensures scheme == "green" ==> r == "from-green-500 to-green-700"
    ensures scheme == "orange" ==> r == "from-orange-500 to-orange-700"
    ensures scheme == "red" ==> r == "from-red-500 to-red-700"
  {
    if scheme == "blue" then "from-blue-500 to-blue-700"
    else if scheme == "green" then "from-green-500 to-green-700"
    else if scheme == "orange" then "from-orange-500 to-orange-700"
    else if scheme == "red" then "from-red-500 to-red-700"
    else "from-purple-500 to-purple-700"
  }

  class SettingsScreen {
    var local: LocalSettings
    const settings: SettingsSlice.SettingsStore
    const themes: ThemeStore
    const notifications: NotificationsSlice.NotificationsStore

    /** Whether the form holds edits that are not saved. */
    function HasChanges(): bool
      reads this, settings, themes, notifications
    {
      Differs(local, settings.workMinutes, settings.breakMinutes, themes.theme, themes.colorScheme,
              notifications.settings)
    }

    /** The form starts as a copy of the stores, so there is nothing to save. */
    constructor (settings: SettingsSlice.SettingsStore, themes: ThemeStore,
                 notifications: NotificationsSlice.NotificationsStore)
      ensures this.settings == settings && this.themes == themes && this.notifications == notifications
      ensures local == LocalSettings(settings.workMinutes, settings.breakMinutes, themes.theme,
                                     themes.colorScheme, notifications.settings)
      ensures !HasChanges()
    {
      this.settings := settings;
      this.themes := themes;
      this.notifications := notifications;
      local := LocalSettings(settings.workMinutes, settings.breakMinutes, themes.theme,
                             themes.colorScheme, notifications.settings);
    }

    method ChangeWorkMinutes(value: int)
      modifies this
      ensures local == old(local).(workMinutes := ClampWork(value))
    {
      local := local.(workMinutes := ClampWork(value));
    }

    method ChangeBreakMinutes(value: int)
      modifies this
      ensures local == old(local).(breakMinutes := ClampBreak(value))
    {
      local := local.(breakMinutes := ClampBreak(value));
    }

    method ChangeTheme(theme: Theme)
      modifies this
      ensures local == old(local).(theme := theme)
    {
      local := local.(theme := theme);
    }

    method ChangeColorScheme(scheme: string)
      modifies this
      ensures local == old(local).(colorScheme := scheme)
    {
      local := local.(colorScheme := scheme);
    }

    /** One switch of the notification section: that key only. */
    method ChangeNotification(key: NotificationsSlice.Key, value: bool)
      modifies this
      ensures local == old(local).(notifications := NotificationsSlice.Merge(old(local).notifications, map[key := value]))
    {
      local := local.(notifications := NotificationsSlice.Merge(local.notifications, map[key := value]));
    }

    /** Loads the defaults into the form; nothing is written to the stores. */
    method ResetSettings()
      modifies this
      ensures local == Defaults
    {
      local := Defaults;
    }

    /**
     * Writes every field of the form to its store, in the source's order;
     * afterwards the stores hold exactly the form, so nothing is left to save.
     */
    method SaveSettings()
      modifies settings, themes, notifications
      ensures settings.workMinutes == local.workMinutes && settings.breakMinutes == local.breakMinutes
      ensures themes.theme == local.theme && themes.colorScheme == local.colorScheme
      ensures themes.systemTheme == old(themes.systemTheme)
      ensures notifications.settings == local.notifications
      ensures notifications.permission == old(notifications.permission)
      ensures !HasChanges()
    {
      settings.SetWorkMinutes(local.workMinutes);
      settings.SetBreakMinutes(local.breakMinutes);
      themes.SetTheme(local.theme);
      themes.SetColorScheme(local.colorScheme);
      NotificationsSlice.MergeFull(notifications.settings, local.notifications);
      notifications.UpdateNotificationSettings(NotificationsSlice.FullPatch(local.notifications));
    }
  }
}
