/**
 * The settings store: the work and break durations in minutes. The reducers
 * store the payload as given; clamping happens in the settings screen.
 */
module SettingsSlice {

  const DefaultWorkMinutes := 25
  const DefaultBreakMinutes := 5

  class SettingsStore {
    var workMinutes: int
    var breakMinutes: int

    constructor ()
      ensures workMinutes == DefaultWorkMinutes && breakMinutes == DefaultBreakMinutes
    {
      workMinutes, breakMinutes := DefaultWorkMinutes, DefaultBreakMinutes;
    }

    /** Stores `minutes` unclamped; the new value does not depend on the old one, so a repeat is a no-op. */
    method SetWorkMinutes(minutes: int)
      modifies this
      ensures workMinutes == minutes && breakMinutes == old(breakMinutes)
    {
      workMinutes := minutes;
    }

    method SetBreakMinutes(minutes: int)
      modifies this
      ensures breakMinutes == minutes && workMinutes == old(workMinutes)
    {
      breakMinutes := minutes;
    }
  }
}
