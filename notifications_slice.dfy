/**
 * The notification-preferences store. `updateNotificationSettings` is an
 * object-spread merge of a partial record: it is modelled with a patch that
 * maps the keys present in the payload to their new values.
 */
module NotificationsSlice {

  datatype NotificationSettings = NotificationSettings(
    enabled: bool,
    sound: bool,
    vibration: bool,
    desktop: bool,
    workComplete: bool,
    breakComplete: bool,
    sessionStart: bool)

  /** The keys of a `NotificationSettings` record. */
  datatype Key = Enabled | Sound | Vibration | Desktop | WorkComplete | BreakComplete | SessionStart

  type Patch = map<Key, bool>

  datatype Permission = Default | Granted | Denied

  /** Everything on except the session-start alert. */
  const DefaultSettings := NotificationSettings(true, true, true, true, true, true, false)

  function Get(s: NotificationSettings, k: Key): bool {
    match k
    case Enabled => s.enabled
    case Sound => s.sound
    case Vibration => s.vibration
    case Desktop => s.desktop
    case WorkComplete => s.workComplete
    case BreakComplete => s.breakComplete
    case SessionStart => s.sessionStart
  }

  /** Two records are equal exactly when they agree on every key. */
  lemma SettingsExtensional(s: NotificationSettings, t: NotificationSettings)
    requires forall k :: Get(s, k) == Get(t, k)
    ensures s == t
  {
    assert Get(s, Enabled) == Get(t, Enabled) && Get(s, Sound) == Get(t, Sound);
    assert Get(s, Vibration) == Get(t, Vibration) && Get(s, Desktop) == Get(t, Desktop);
    assert Get(s, WorkComplete) == Get(t, WorkComplete);
    assert Get(s, BreakComplete) == Get(t, BreakComplete);
    assert Get(s, SessionStart) == Get(t, SessionStart);
  }

  /** `{ ...s, ...patch }`: keys in the patch take its value, the others keep theirs. */
  function Merge(s: NotificationSettings, patch: Patch): (r: NotificationSettings)
    ensures forall k :: Get(r, k) == if k in patch then patch[k] else Get(s, k)
  {
    NotificationSettings(
      Pick(patch, Enabled, s.enabled), Pick(patch, Sound, s.sound),
      Pick(patch, Vibration, s.vibration), Pick(patch, Desktop, s.desktop),
      Pick(patch, WorkComplete, s.workComplete), Pick(patch, BreakComplete, s.breakComplete),
      Pick(patch, SessionStart, s.sessionStart))
  }

  function Pick(patch: Patch, k: Key, current: bool): bool {
    if k in patch then patch[k] else current
  }

  /** The patch that lists every key of `s`, as a full record passed as payload does. */
  function FullPatch(s: NotificationSettings): (p: Patch)
    ensures forall k :: k in p && p[k] == Get(s, k)
  {
    map k: Key | true :: Get(s, k)
  }

  lemma MergeEmpty(s: NotificationSettings)
    ensures Merge(s, map[]) == s
  {
    SettingsExtensional(Merge(s, map[]), s);
  }

  lemma MergeIdempotent(s: NotificationSettings, p: Patch)
    ensures Merge(Merge(s, p), p) == Merge(s, p)
  {
    MergeCompose(s, p, p);
    assert p + p == p;
  }

  /** Merging a full record replaces the settings by that record. */
  lemma MergeFull(s: NotificationSettings, n: NotificationSettings)
    ensures Merge(s, FullPatch(n)) == n
  {
    SettingsExtensional(Merge(s, FullPatch(n)), n);
  }

  /** Two merges in a row are one merge in which the later payload wins. */
  lemma MergeCompose(s: NotificationSettings, p: Patch, q: Patch)
    ensures Merge(Merge(s, p), q) == Merge(s, p + q)
  {
    SettingsExtensional(Merge(Merge(s, p), q), Merge(s, p + q));
  }

  class NotificationsStore {
    var settings: NotificationSettings
    var permission: Permission
    const isSupported: bool

    /** `supported` is whether the browser has a `Notification` API. */
    constructor (supported: bool)
      ensures settings == DefaultSettings && permission == Default && isSupported == supported
    {
      settings := DefaultSettings;
      permission := Default;
      isSupported := supported;
    }

    method UpdateNotificationSettings(patch: Patch)
      modifies this
      ensures settings == Merge(old(settings), patch)
      ensures permission == old(permission)
    {
      settings := Merge(settings, patch);
    }

    method SetPermission(p: Permission)
      modifies this
      ensures permission == p && settings == old(settings)
    {
      permission := p;
    }
  }
}
