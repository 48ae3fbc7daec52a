/** The settings page's local state and the updaters its handlers pass to `setSettings`. */
module SettingsPage {
  import opened Wrappers

  datatype Settings = Settings(notificationEnabled: bool, notificationLeadTime: int,
                               calendarSyncEnabled: bool, calendarId: Option<string>)

  /** The state the page starts from: notifications on 15 minutes ahead, no calendar sync. */
  const InitialSettings := Settings(true, 15, false, None)

  /** `handleNotificationToggle`: flips `notificationEnabled` and nothing else. */
  function ToggleNotification(prev: Settings): (r: Settings)
    ensures r.notificationEnabled == !prev.notificationEnabled
    ensures r.(notificationEnabled := prev.notificationEnabled) == prev
  {
    prev.(notificationEnabled := !prev.notificationEnabled)
  }

  /** `handleCalendarSyncToggle`: flips `calendarSyncEnabled` and nothing else. */
  function ToggleCalendarSync(prev: Settings): (r: Settings)
    ensures r.calendarSyncEnabled == !prev.calendarSyncEnabled
    ensures r.(calendarSyncEnabled := prev.calendarSyncEnabled) == prev
  {
    prev.(calendarSyncEnabled := !prev.calendarSyncEnabled)
  }

  /** `handleLeadTimeChange`, given what `parseInt` made of the field (`None` for `NaN`):
      only a number above zero is taken. */
  function ChangeLeadTime(prev: Settings, parsed: Option<int>): (r: Settings)
    ensures parsed.Some? && parsed.value > 0 ==> r == prev.(notificationLeadTime := parsed.value)
    ensures !(parsed.Some? && parsed.value > 0) ==> r == prev
  {
    if parsed.Some? && parsed.value > 0 then prev.(notificationLeadTime := parsed.value) else prev
  }

  /** Toggling either switch twice restores the settings. */
  lemma TogglesAreInvolutions(s: Settings)
    ensures ToggleNotification(ToggleNotification(s)) == s
    ensures ToggleCalendarSync(ToggleCalendarSync(s)) == s
  {
  }

  /** A user event on the page. */
  datatype SettingsEvent = NotificationToggled | CalendarSyncToggled | LeadTimeEdited(parsed: Option<int>)

  function Apply(s: Settings, e: SettingsEvent): Settings {
    match e
    case NotificationToggled => ToggleNotification(s)
    case CalendarSyncToggled => ToggleCalendarSync(s)
    case LeadTimeEdited(parsed) => ChangeLeadTime(s, parsed)
  }

  /** The settings after a run of events, oldest first. */
  function ApplyAll(s: Settings, events: seq<SettingsEvent>): Settings
    decreases |events|
  {
    if events == [] then s else ApplyAll(Apply(s, events[0]), events[1..])
  }

  /** Whatever the user does, the lead time stays above zero and no handler sets a calendar id. */
  lemma {:induction false} ReachableSettings(s: Settings, events: seq<SettingsEvent>)
    requires s.notificationLeadTime > 0
    ensures ApplyAll(s, events).notificationLeadTime > 0
    ensures ApplyAll(s, events).calendarId == s.calendarId
    decreases |events|
  {
    if events != [] {
      ReachableSettings(Apply(s, events[0]), events[1..]);
    }
  }

  /** From the initial state in particular. */
  lemma FromInitialSettings(events: seq<SettingsEvent>)
    ensures ApplyAll(InitialSettings, events).notificationLeadTime > 0
    ensures ApplyAll(InitialSettings, events).calendarId == None
  {
    ReachableSettings(InitialSettings, events);
  }
}
