/** The backend's `UserSettings` record and its `createDefault` factory. */
module UserSettingsModel {
  import opened Wrappers
  import SettingsPage

  /** Java `String` fields that may be `null` are `Option<string>`. */
  datatype UserSettings = UserSettings(userId: Option<string>, notificationEnabled: bool,
                                       notificationLeadTime: int, calendarSyncEnabled: bool,
                                       calendarId: Option<string>)

  /** `createDefault` */
  function CreateDefault(userId: Option<string>): (r: UserSettings)
    ensures r.userId == userId
    ensures r.notificationEnabled && r.notificationLeadTime == 15
    ensures !r.calendarSyncEnabled && r.calendarId == None
  {
    UserSettings(userId, true, 15, false, None)
  }

  /** The settings part the frontend page shows. */
  function ToPageSettings(u: UserSettings): SettingsPage.Settings {
    SettingsPage.Settings(u.notificationEnabled, u.notificationLeadTime, u.calendarSyncEnabled, u.calendarId)
  }

  /** The backend defaults are the frontend's initial settings, for every user. */
  lemma DefaultsAgreeWithPage(userId: Option<string>)
    ensures ToPageSettings(CreateDefault(userId)) == SettingsPage.InitialSettings
  {
  }
}
