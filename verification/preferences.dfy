/**
 * `get_notification_preferences`: the sixteen channel switches, taken from the
 * stored settings row when there is one and from a fixed default set when the
 * table is empty or loading it raises. The result is an immutable value.
 */
module Preferences {
  import opened Wrappers

  /** The frozen `NotificationPreferences` dataclass. */
  datatype Prefs = Prefs(
    welcomeEmail: bool,
    welcomeSms: bool,
    signupEmail: bool,
    signupSms: bool,
    newEventEmail: bool,
    newEventSms: bool,
    eventCancelledEmail: bool,
    eventCancelledSms: bool,
    eventReminderEmail: bool,
    eventReminderSms: bool,
    upcomingDigestEmail: bool,
    upcomingDigestSms: bool,
    registrationConfirmationEmail: bool,
    registrationConfirmationSms: bool,
    newLocationLoginEmail: bool,
    newLocationLoginSms: bool)

  /** The sixteen switches of a stored settings row, by name. */
  datatype SettingsRow = SettingsRow(
    id: nat,
    sendWelcomeEmail: bool,
    sendWelcomeSms: bool,
    sendSignupEmail: bool,
    sendSignupSms: bool,
    sendNewEventEmail: bool,
    sendNewEventSms: bool,
    sendEventCancelledEmail: bool,
    sendEventCancelledSms: bool,
    sendEventReminderEmail: bool,
    sendEventReminderSms: bool,
    sendUpcomingDigestEmail: bool,
    sendUpcomingDigestSms: bool,
    sendRegistrationConfirmationEmail: bool,
    sendRegistrationConfirmationSms: bool,
    sendNewLocationLoginEmail: bool,
    sendNewLocationLoginSms: bool)

  /** What `NotificationSettings.get_solo()` did: raised, or returned a row or None. */
  datatype Loaded = Raised | Loaded(row: Option<SettingsRow>)

  /** The `base` preferences used whenever nothing is stored. */
  function Defaults(): Prefs {
    Prefs(
      welcomeEmail := true, welcomeSms := false,
      signupEmail := false, signupSms := false,
      newEventEmail := true, newEventSms := false,
      eventCancelledEmail := true, eventCancelledSms := true,
      eventReminderEmail := true, eventReminderSms := true,
      upcomingDigestEmail := true, upcomingDigestSms := false,
      registrationConfirmationEmail := true, registrationConfirmationSms := true,
      newLocationLoginEmail := true, newLocationLoginSms := true)
  }

  /** The preferences a stored row holds, switch for switch. */
  function FromRow(row: SettingsRow): Prefs {
    Prefs(
      row.sendWelcomeEmail, row.sendWelcomeSms,
      row.sendSignupEmail, row.sendSignupSms,
      row.sendNewEventEmail, row.sendNewEventSms,
      row.sendEventCancelledEmail, row.sendEventCancelledSms,
      row.sendEventReminderEmail, row.sendEventReminderSms,
      row.sendUpcomingDigestEmail, row.sendUpcomingDigestSms,
      row.sendRegistrationConfirmationEmail, row.sendRegistrationConfirmationSms,
      row.sendNewLocationLoginEmail, row.sendNewLocationLoginSms)
  }

  /** A row holding the given switches. */
  function ToRow(id: nat, p: Prefs): SettingsRow {
    SettingsRow(id,
      p.welcomeEmail, p.welcomeSms, p.signupEmail, p.signupSms,
      p.newEventEmail, p.newEventSms, p.eventCancelledEmail, p.eventCancelledSms,
      p.eventReminderEmail, p.eventReminderSms, p.upcomingDigestEmail, p.upcomingDigestSms,
      p.registrationConfirmationEmail, p.registrationConfirmationSms,
      p.newLocationLoginEmail, p.newLocationLoginSms)
  }

  /**
   * `get_notification_preferences`, given what loading the settings did. It is
   * total: a raising load and an empty table both give the defaults.
   */
  function Resolve(loaded: Loaded): (p: Prefs)
    ensures loaded.Raised? ==> p == Defaults()
    ensures loaded.Loaded? && loaded.row.None? ==> p == Defaults()
  {
    match loaded
    case Raised => Defaults()
    case Loaded(None) => Defaults()
    case Loaded(Some(row)) => FromRow(row)
  }

  /** Every stored switch reaches the result; the row's id plays no part. */
  lemma ResolveCopiesRow(p: Prefs, id: nat)
    ensures Resolve(Loaded(Some(ToRow(id, p)))) == p
  {
  }

  /** A row is determined by its id and its switches. */
  lemma RowRoundTrip(row: SettingsRow)
    ensures ToRow(row.id, FromRow(row)) == row
  {
  }

  /** Which switches the defaults turn on: the email of every kind but signup, and SMS for cancellations, reminders, confirmations and login alerts. */
  lemma DefaultsEnabled()
    ensures var d := Defaults();
      && d.welcomeEmail && d.newEventEmail && d.eventCancelledEmail && d.eventReminderEmail
      && d.upcomingDigestEmail && d.registrationConfirmationEmail && d.newLocationLoginEmail
      && d.eventCancelledSms && d.eventReminderSms && d.registrationConfirmationSms && d.newLocationLoginSms
      && !d.welcomeSms && !d.signupEmail && !d.signupSms && !d.newEventSms && !d.upcomingDigestSms
  {
  }
}
