/** `settingsService`: the fixed default settings, the read that falls back
    to them, the field-by-field merge of a partial update onto the stored
    record, the create path filled from the defaults, and the four
    operations built on `updateSettings`. Replies are parameters. */
module SettingsService {
  import opened Common
  import Store

  /** A settings object: a stored record, the defaults, or a partial update.
      `None` is a key that is missing (`undefined`). */
  datatype Settings = Settings(
    id: Option<int>,
    name: Option<string>,
    tags: Option<string>,
    theme: Option<string>,
    defaultView: Option<string>,
    showCompleted: Option<bool>,
    soundEnabled: Option<bool>,
    dueDateReminders: Option<bool>,
    completionSounds: Option<bool>,
    dailyDigest: Option<bool>,
    startOfWeek: Option<string>,
    timeFormat: Option<string>,
    defaultPriority: Option<string>,
    autoArchiveCompleted: Option<bool>)

  /** The partial update with no key at all. */
  function NoChanges(): Settings {
    Settings(None, None, None, None, None, None, None, None, None, None, None, None, None, None)
  }

  /** The eleven settings fields agree (the id, `Name` and `Tags` aside). */
  predicate SameSettings(a: Settings, b: Settings) {
    a.theme == b.theme && a.defaultView == b.defaultView
    && a.showCompleted == b.showCompleted && a.soundEnabled == b.soundEnabled
    && a.dueDateReminders == b.dueDateReminders && a.completionSounds == b.completionSounds
    && a.dailyDigest == b.dailyDigest && a.startOfWeek == b.startOfWeek
    && a.timeFormat == b.timeFormat && a.defaultPriority == b.defaultPriority
    && a.autoArchiveCompleted == b.autoArchiveCompleted
  }

  /** Every settings field is present, and every string field is non-empty. */
  predicate Complete(s: Settings) {
    Truthy(s.theme) && Truthy(s.defaultView) && s.showCompleted.Some? && s.soundEnabled.Some?
    && s.dueDateReminders.Some? && s.completionSounds.Some? && s.dailyDigest.Some?
    && Truthy(s.startOfWeek) && Truthy(s.timeFormat) && Truthy(s.defaultPriority)
    && s.autoArchiveCompleted.Some?
  }

  /** `getDefaultSettings()`: light theme, all tasks, completed shown,
      sound on, due-date reminders on, completion sounds on, no daily
      digest, weeks from Monday, 12-hour clock, medium priority, no
      auto-archive; no id, name or tags. */
  function GetDefaultSettings(): (s: Settings)
    ensures Complete(s) && s.id.None? && s.name.None? && s.tags.None?
    ensures s.dailyDigest == Some(false) && s.autoArchiveCompleted == Some(false)
  {
    Settings(None, None, None, Some("light"), Some("all"), Some(true), Some(true), Some(true), Some(true),
             Some(false), Some("monday"), Some("12h"), Some("medium"), Some(false))
  }

  /** `existingSettings.Id` is truthy. */
  predicate HasId(s: Settings) {
    s.id.Some? && s.id.value != 0
  }

  /** `getSettings()`: the first stored record, or the defaults when the
      read fails, throws, or finds nothing. */
  function GetSettings(reply: Store.ReadReply<seq<Settings>>): (s: Settings)
    ensures reply.ReadThrew? || !reply.success ==> s == GetDefaultSettings()
    ensures reply.ReadReplied? && reply.success && (reply.data.None? || reply.data.value == [])
            ==> s == GetDefaultSettings()
    ensures reply.ReadReplied? && reply.success && reply.data.Some? && reply.data.value != []
            ==> s == reply.data.value[0]
  {
    match reply
    case ReadThrew(_) => GetDefaultSettings()
    case ReadReplied(ok, _, data) =>
      if !ok || data.None? || data.value == [] then GetDefaultSettings() else data.value[0]
  }

  /** A read that fails gives settings without an id, so the update that
      follows takes the create path. */
  lemma FailedReadHasNoId(reply: Store.ReadReply<seq<Settings>>)
    requires reply.ReadThrew? || !reply.success
    ensures !HasId(GetSettings(reply))
  {
  }

  /** `a || b` on two optional strings. */
  function Either(a: Option<string>, b: Option<string>): (r: Option<string>)
    ensures Truthy(a) ==> r == a
    ensures !Truthy(a) ==> r == b
  {
    if Truthy(a) then a else b
  }

  /** `a !== undefined ? a : b`. */
  function Given(a: Option<bool>, b: Option<bool>): (r: Option<bool>)
    ensures a.Some? ==> r == a
    ensures a.None? ==> r == b
  {
    if a.Some? then a else b
  }

  /** The record the update path sends: string fields by `||`, so a falsy
      update value keeps the existing one; boolean fields by
      `!== undefined`, so `false` overwrites. */
  function Merge(e: Settings, u: Settings): (r: Settings)
    ensures r.id == e.id && r.name.Some? && r.tags.Some?
  {
    Settings(
      e.id,
      Some(Or(u.name, Or(e.name, "User Settings"))),
      Some(Or(u.tags, Or(e.tags, ""))),
      Either(u.theme, e.theme),
      Either(u.defaultView, e.defaultView),
      Given(u.showCompleted, e.showCompleted),
      Given(u.soundEnabled, e.soundEnabled),
      Given(u.dueDateReminders, e.dueDateReminders),
      Given(u.completionSounds, e.completionSounds),
      Given(u.dailyDigest, e.dailyDigest),
      Either(u.startOfWeek, e.startOfWeek),
      Either(u.timeFormat, e.timeFormat),
      Either(u.defaultPriority, e.defaultPriority),
      Given(u.autoArchiveCompleted, e.autoArchiveCompleted))
  }

  /** The string fields: a non-empty update value wins, an empty or missing
      one cannot overwrite. */
  lemma MergeStringFields(e: Settings, u: Settings)
    ensures var r := Merge(e, u);
            (Truthy(u.theme) ==> r.theme == u.theme) && (!Truthy(u.theme) ==> r.theme == e.theme)
            && (Truthy(u.defaultView) ==> r.defaultView == u.defaultView)
            && (!Truthy(u.defaultView) ==> r.defaultView == e.defaultView)
            && (Truthy(u.startOfWeek) ==> r.startOfWeek == u.startOfWeek)
            && (!Truthy(u.startOfWeek) ==> r.startOfWeek == e.startOfWeek)
            && (Truthy(u.timeFormat) ==> r.timeFormat == u.timeFormat)
            && (!Truthy(u.timeFormat) ==> r.timeFormat == e.timeFormat)
            && (Truthy(u.defaultPriority) ==> r.defaultPriority == u.defaultPriority)
            && (!Truthy(u.defaultPriority) ==> r.defaultPriority == e.defaultPriority)
  {
  }

  /** The boolean fields: any given value wins, `false` included; only a
      missing one keeps the existing value. */
  lemma MergeBooleanFields(e: Settings, u: Settings)
    ensures var r := Merge(e, u);
            (u.showCompleted.Some? ==> r.showCompleted == u.showCompleted)
            && (u.showCompleted.None? ==> r.showCompleted == e.showCompleted)
            && (u.soundEnabled.Some? ==> r.soundEnabled == u.soundEnabled)
            && (u.soundEnabled.None? ==> r.soundEnabled == e.soundEnabled)
            && (u.dueDateReminders.Some? ==> r.dueDateReminders == u.dueDateReminders)
            && (u.dueDateReminders.None? ==> r.dueDateReminders == e.dueDateReminders)
            && (u.completionSounds.Some? ==> r.completionSounds == u.completionSounds)
            && (u.completionSounds.None? ==> r.completionSounds == e.completionSounds)
            && (u.dailyDigest.Some? ==> r.dailyDigest == u.dailyDigest)
            && (u.dailyDigest.None? ==> r.dailyDigest == e.dailyDigest)
            && (u.autoArchiveCompleted.Some? ==> r.autoArchiveCompleted == u.autoArchiveCompleted)
            && (u.autoArchiveCompleted.None? ==> r.autoArchiveCompleted == e.autoArchiveCompleted)
  {
  }

  /** The asymmetry of the two rules: an empty theme leaves the theme as
      it was, while `false` turns the daily digest off. */
  lemma EmptyStringKeepsFalseOverwrites(e: Settings)
    requires e.theme == Some("dark") && e.dailyDigest == Some(true)
    ensures Merge(e, NoChanges().(theme := Some(""))).theme == Some("dark")
    ensures Merge(e, NoChanges().(dailyDigest := Some(false))).dailyDigest == Some(false)
  {
  }

  /** An empty update leaves every settings field as it was. */
  lemma MergeNoChanges(e: Settings)
    ensures SameSettings(Merge(e, NoChanges()), e)
    ensures Merge(e, NoChanges()).id == e.id
  {
  }

  /** Sending the same update twice changes nothing the second time. */
  lemma MergeIdempotent(e: Settings, u: Settings)
    ensures Merge(Merge(e, u), u) == Merge(e, u)
  {
  }

  /** The record the create path sends: every missing field from the
      defaults, `Name` defaulting to `"User Settings"` and `Tags` to `""`. */
  function CreateFields(u: Settings): (r: Settings)
    ensures r.id.None? && r.name.Some? && r.tags.Some?
    ensures !Truthy(u.name) ==> r.name == Some("User Settings")
    ensures Complete(r)
  {
    Settings(
      None,
      Some(Or(u.name, "User Settings")),
      Some(Or(u.tags, "")),
      Some(Or(u.theme, "light")),
      Some(Or(u.defaultView, "all")),
      Some(if u.showCompleted.Some? then u.showCompleted.value else true),
      Some(if u.soundEnabled.Some? then u.soundEnabled.value else true),
      Some(if u.dueDateReminders.Some? then u.dueDateReminders.value else true),
      Some(if u.completionSounds.Some? then u.completionSounds.value else true),
      Some(if u.dailyDigest.Some? then u.dailyDigest.value else false),
      Some(Or(u.startOfWeek, "monday")),
      Some(Or(u.timeFormat, "12h")),
      Some(Or(u.defaultPriority, "medium")),
      Some(if u.autoArchiveCompleted.Some? then u.autoArchiveCompleted.value else false))
  }

  /** The create path is the update path applied to the defaults: the two
      lists of literals in the source are the same values. */
  lemma CreateIsMergeOntoDefaults(u: Settings)
    ensures CreateFields(u) == Merge(GetDefaultSettings(), u)
  {
  }

  /** Merging onto a complete record gives a complete record. */
  lemma MergeKeepsComplete(e: Settings, u: Settings)
    requires Complete(e)
    ensures Complete(Merge(e, u))
  {
  }

  /** Merging the complete defaults overwrites every settings field. */
  lemma MergeDefaults(e: Settings)
    ensures SameSettings(Merge(e, GetDefaultSettings()), GetDefaultSettings())
    ensures SameSettings(CreateFields(GetDefaultSettings()), GetDefaultSettings())
  {
  }

  // ---------------------------------------------------------------------
  // updateSettings and the operations built on it

  /** Which write `updateSettings` made, and the record it sent. */
  datatype Write = Updated(record: Settings) | Created(record: Settings)

  /** `updateSettings(updateData)`: read the settings, then update the
      stored record if it has an id, or create one. `read` and `write` are
      the replies of the two calls. */
  method UpdateSettings(u: Settings, read: Store.ReadReply<seq<Settings>>, write: Store.WriteReply<Settings>)
    returns (sent: Write, r: Result<Option<Settings>>)
    ensures HasId(GetSettings(read)) ==> sent == Updated(Merge(GetSettings(read), u))
                                         && r == Store.WriteResult(write, "Failed to update settings")
    ensures !HasId(GetSettings(read)) ==> sent == Created(CreateFields(u))
                                          && r == Store.WriteResult(write, "Failed to create settings")
    ensures sent.Updated? ==> sent.record.id == GetSettings(read).id
    ensures sent.Created? ==> Complete(sent.record)
  {
    var existing := GetSettings(read);
    if HasId(existing) {
      sent := Updated(Merge(existing, u));
      r := Store.WriteResult(write, "Failed to update settings");
    } else {
      sent := Created(CreateFields(u));
      r := Store.WriteResult(write, "Failed to create settings");
    }
  }

  /** `resetSettings()`: whichever path is taken, every settings field sent
      is the default. */
  method ResetSettings(read: Store.ReadReply<seq<Settings>>, write: Store.WriteReply<Settings>)
    returns (sent: Write, r: Result<Option<Settings>>)
    ensures SameSettings(sent.record, GetDefaultSettings())
    ensures r.Ok? <==> Store.AllSucceeded(write)
    ensures r == Store.WriteResult(write, if sent.Updated? then "Failed to update settings" else "Failed to create settings")
  {
    sent, r := UpdateSettings(GetDefaultSettings(), read, write);
    MergeDefaults(GetSettings(read));
  }

  /** `updateTheme(theme)`: only the theme can change. */
  method UpdateTheme(theme: string, read: Store.ReadReply<seq<Settings>>, write: Store.WriteReply<Settings>)
    returns (sent: Write, r: Result<Option<Settings>>)
    ensures sent.Updated? ==> SameSettings(sent.record.(theme := GetSettings(read).theme), GetSettings(read))
    ensures sent.Created? ==> SameSettings(sent.record.(theme := Some("light")), GetDefaultSettings())
    ensures theme != "" ==> sent.record.theme == Some(theme)
    ensures r == Store.WriteResult(write, if sent.Updated? then "Failed to update settings" else "Failed to create settings")
  {
    sent, r := UpdateSettings(NoChanges().(theme := Some(theme)), read, write);
  }

  /** `updateNotifications({ dueDateReminders, completionSounds, dailyDigest })`:
      only the three notification switches can change. */
  method UpdateNotifications(dueDateReminders: Option<bool>, completionSounds: Option<bool>, dailyDigest: Option<bool>,
                             read: Store.ReadReply<seq<Settings>>, write: Store.WriteReply<Settings>)
    returns (sent: Write, r: Result<Option<Settings>>)
    ensures var e := if sent.Updated? then GetSettings(read) else GetDefaultSettings();
            SameSettings(sent.record.(dueDateReminders := e.dueDateReminders,
                                      completionSounds := e.completionSounds,
                                      dailyDigest := e.dailyDigest), e)
    ensures dueDateReminders.Some? ==> sent.record.dueDateReminders == dueDateReminders
    ensures completionSounds.Some? ==> sent.record.completionSounds == completionSounds
    ensures dailyDigest.Some? ==> sent.record.dailyDigest == dailyDigest
    ensures r == Store.WriteResult(write, if sent.Updated? then "Failed to update settings" else "Failed to create settings")
  {
    var u := NoChanges().(dueDateReminders := dueDateReminders, completionSounds := completionSounds,
                          dailyDigest := dailyDigest);
    sent, r := UpdateSettings(u, read, write);
    CreateIsMergeOntoDefaults(u);
  }

  /** `updatePreferences({ startOfWeek, timeFormat, defaultPriority, autoArchiveCompleted })`:
      only the four preferences can change. */
  method UpdatePreferences(startOfWeek: Option<string>, timeFormat: Option<string>, defaultPriority: Option<string>,
                           autoArchiveCompleted: Option<bool>,
                           read: Store.ReadReply<seq<Settings>>, write: Store.WriteReply<Settings>)
    returns (sent: Write, r: Result<Option<Settings>>)
    ensures var e := if sent.Updated? then GetSettings(read) else GetDefaultSettings();
            SameSettings(sent.record.(startOfWeek := e.startOfWeek, timeFormat := e.timeFormat,
                                      defaultPriority := e.defaultPriority,
                                      autoArchiveCompleted := e.autoArchiveCompleted), e)
    ensures Truthy(startOfWeek) ==> sent.record.startOfWeek == startOfWeek
    ensures Truthy(timeFormat) ==> sent.record.timeFormat == timeFormat
    ensures Truthy(defaultPriority) ==> sent.record.defaultPriority == defaultPriority
    ensures autoArchiveCompleted.Some? ==> sent.record.autoArchiveCompleted == autoArchiveCompleted
    ensures r == Store.WriteResult(write, if sent.Updated? then "Failed to update settings" else "Failed to create settings")
  {
    var u := NoChanges().(startOfWeek := startOfWeek, timeFormat := timeFormat,
                          defaultPriority := defaultPriority, autoArchiveCompleted := autoArchiveCompleted);
    sent, r := UpdateSettings(u, read, write);
    CreateIsMergeOntoDefaults(u);
  }
}
