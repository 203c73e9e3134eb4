# Django Cameroon notification pipeline, in Dafny

This project models the notification pipeline of the Django Cameroon website
API:

- which user, event, registration and login events trigger notifications;
- which Celery tasks the model signals enqueue;
- how each task reads the notification switches and picks its recipients;
- how the notification service fans a notification out over email and SMS;
- what text each SMS carries;
- how OTP codes are issued, verified and consumed;
- the error envelope the REST exception handler builds.

It also models the pieces this pipeline leans on:

- the password-reset and logout views;
- the permission classes;
- the iCalendar export;
- the event choice constants.

Each Django model whose instances the source changes in place is a class:

- `EventRegistration`, `EventAttendanceStats`, `NotificationSettings`;
- the OTP table, the mail and SMS services, the notification service;
- the task queue and the database store.

Queries, templates and message texts are functions on values. The properties
stated about them include:

- a digest email attempt is made for every active user;
- a reminder, a confirmation and a login alert are attempted at most once;
- an OTP verifies once and only until it expires;
- the digest lists exactly the events in range, sorted by date;
- a saved registration is found again under its key and keeps the table's
  unique constraints;
- the stored attendance counters partition the event's registrations;
- the exception handler maps each exception class to its status code and
  message.

Modules, one per source file:

| module | file |
|---|---|
| `Wrappers` | `Option` |
| `Text` | the few `str` operations the source uses |
| `Domain` | users, events, registrations, login rows, the task queue, the store |
| `Preferences` | `services/notification_preferences.py` |
| `NotificationSettingsModel` | `apps/users/models/notification_settings.py` |
| `SmsTemplates`, `Sms` | `services/sms_service.py` |
| `Mail` | `services/mail_service.py` and `apps/users/models/otp_code.py` |
| `Notifications` | `services/notification_service.py` |
| `LoginHistory` | `apps/users/models/login_history.py` |
| `Registrations` | `apps/events/models/event_registration.py` |
| `EventTasks` | `apps/events/tasks.py` |
| `EventSignals` | `apps/events/signals.py` |
| `UserTasks` | `apps/users/tasks.py` |
| `UserSignals` | `apps/users/signals/__init__.py` |
| `UserSignalsSync` | `apps/users/signals.py` |
| `Auth` | `apps/users/views/auth_view.py` |
| `Calendar` | `services/calendar_service.py` |
| `RestExceptions` | `exceptions/rest_exception.py` |
| `Permissions` | `apps/users/permissions/user_permissions.py` |
| `Choices` | `apps/events/models/constants.py` |

Some conventions hold throughout:

- An optional string the source only tests for truthiness is `""` when
  absent.
- Times are integer seconds; `strftime` output is carried as text.
- `render_to_string` is a parameter. For the mail templates it is a
  function. For the SMS templates it is a map from template calls to text,
  and a call the map lacks is one where rendering raises.
- Whether a transport call raises is a parameter.
- The notification service records every sender call and whether it raised.
- `.delay(...)` appends to the task queue.

## Model

| member | source | states |
|---|---|---|
| Preferences.Resolve | services/notification_preferences.py:24-73 | When the settings lookup raises or finds no row, the result is the built-in defaults. |
| Preferences.ResolveCopiesRow | services/notification_preferences.py:52-69 | A stored row's sixteen switches reach the preferences one for one; the row's key plays no part. |
| Preferences.RowRoundTrip | services/notification_preferences.py:52-69 | A row is its key plus its switches: rebuilding it from the preferences read out of it gives it back. |
| Preferences.DefaultsEnabled | services/notification_preferences.py:25-42 | The defaults turn on the email of every kind except sign-up. They turn on SMS only for cancellations, reminders, confirmations and login alerts. |
| NotificationSettingsModel.FieldDefaultsMatchFallback | apps/users/models/notification_settings.py:5-29 | A settings row built from the column defaults has key 1 and holds exactly the fallback preferences. |
| NotificationSettingsModel.First | apps/users/models/notification_settings.py:37-39 | `objects.first()` is None exactly on an empty table, and otherwise the row with the smallest key. |
| NotificationSettingsModel.SettingsTable.GetSolo | apps/users/models/notification_settings.py:37-39 | `get_solo` is the first row by primary key. |
| NotificationSettingsModel.NotificationSettings.constructor | apps/users/models/notification_settings.py:5-29 | A new instance has key 1 and every switch at its column default. |
| NotificationSettingsModel.NotificationSettings.WithFlags | apps/users/models/notification_settings.py:4-29 | An instance holds the given key and switches. |
| NotificationSettingsModel.NotificationSettings.Save | apps/users/models/notification_settings.py:33-35 | Saving forces the key to 1 and writes the row under key 1, whatever the key was; the switches are unchanged. |
| NotificationSettingsModel.SavedRowWins | apps/users/models/notification_settings.py:33-39 | Once saved, the row is the only one, `get_solo` returns it, and the resolved preferences are its switches. |
| SmsTemplates.Welcome | services/sms_service.py:11-13 | The welcome text is the fixed opening, the user's name, then the fixed closing. |
| SmsTemplates.SignupConfirmation | services/sms_service.py:15-17 | The sign-up text is "Hi ", the user's name, then the fixed closing. |
| SmsTemplates.Otp | services/sms_service.py:66-68 | The OTP text is the fixed opening, then the code, then the ten-minute closing, and nothing else. |
| SmsTemplates.SingleValueTextsInjective | services/sms_service.py:11-17 | Two names or codes that give the same welcome, sign-up or OTP text are equal. Each text determines its value. |
| SmsTemplates.EventNotification | services/sms_service.py:19-24 | The text starts with the event base. It ends with " url" when there is a link, else with the register-now line. Its length is accounted for exactly. |
| SmsTemplates.EventCancelled | services/sms_service.py:26-31 | The text starts with the cancellation base. It ends with " url" when there is a link, else with "Check your email for details." |
| SmsTemplates.TimeText | services/sms_service.py:34-41 | "in less than 1 hour" exactly when at most one hour is left, "in N hours" under a day, else whole days with a plural 's' above one. |
| SmsTemplates.TimeTextDays | services/sms_service.py:39-41 | From 24 hours on, the text names `hours // 24` days, with "day" for one and "days" otherwise. |
| SmsTemplates.TimeTextExamples | services/sms_service.py:34-41 | 0, -3 and 1 hours give "less than 1 hour"; 5 gives "in 5 hours"; 25 gives "in 1 day"; 48 gives "in 2 days". |
| SmsTemplates.EventReminder | services/sms_service.py:33-45 | The text starts with the reminder base. It ends with " url" when there is a link, else with "See you there!". |
| SmsTemplates.RegistrationConfirmation | services/sms_service.py:47-60 | The text starts with the confirmation base. " Your code: code" follows it when there is a code. It ends with the link, or with "Check your email for details." without one. |
| SmsTemplates.NewLocationLogin | services/sms_service.py:62-64 | The alert is the fixed opening, the location, " at ", the time and the secure-your-account sentence, and nothing else. |
| SmsTemplates.ItemText | services/sms_service.py:76-83 | A digest line is the title (or "Event"), " (", the date text (or "TBA"), then "): url" with a link or ")" without one; its exact length is stated. |
| SmsTemplates.DigestParts | services/sms_service.py:76-83 | One part per item, in order. |
| SmsTemplates.FirstThree | services/sms_service.py:76 | The first three items, or all of them when there are fewer. |
| SmsTemplates.UpcomingEventsDigest | services/sms_service.py:70-85 | The digest starts "Upcoming events: " and ends with the site's events page. With no items it is only that; otherwise the page follows " More: ". |
| SmsTemplates.DigestShowsFirstThree | services/sms_service.py:76-85 | Each of the first three items' lines occurs in the digest. |
| SmsTemplates.DigestIgnoresLaterItems | services/sms_service.py:76 | Items after the third never change the digest. |
| Sms.NormalizePhone | services/sms_service.py:134-135 | The number always starts with '+'. It is unchanged when it already did; otherwise it is '+' followed by the original. |
| Sms.NormalizePhoneIdempotent | services/sms_service.py:134-135 | Normalising twice is normalising once, and adds at most one character. |
| Sms.RStripLines | services/sms_service.py:110 | Every line is right-stripped, and the number of lines is kept. |
| Sms.RenderSmsTemplate | services/sms_service.py:106-113 | When rendering raised, the fallback. Otherwise the cleaned rendering, which has no surrounding whitespace, no trailing whitespace on any line, and line feeds as its only line breaks. |
| Text.SplitLines | services/sms_service.py:110 | `splitlines`: no lines for the empty text, and no line holds a line boundary. |
| Text.JoinSplitLines | services/sms_service.py:110-111 | On a text whose only breaks are inner line feeds, joining the lines with line feeds gives the text back. |
| Text.SplitLinesSingle | services/sms_service.py:110 | A non-empty text without line boundaries is one line. |
| Text.SplitLinesCons | services/sms_service.py:110 | Any boundary other than a CR directly followed by LF ends the first line; the lines after it follow. |
| Text.SplitLinesCrLf | services/sms_service.py:110 | A CR LF pair is a single boundary. |
| Text.SplitLinesLoneCr | services/sms_service.py:110 | `"a \rb".splitlines()` is `["a ", "b"]`: a lone carriage return ends a line. |
| Text.SplitLinesCrLfPair | services/sms_service.py:110 | `"a\r\nb".splitlines()` is `["a", "b"]`. |
| Text.SplitLinesTrailing | services/sms_service.py:110 | A final boundary opens no line (`"a\n"` gives `["a"]`), but `"\n\n"` gives two empty lines. |
| Sms.CleanRenderedSingleLine | services/sms_service.py:108-111 | A rendering without line breaks is only stripped of surrounding whitespace. |
| Sms.CleanRenderedFixpoint | services/sms_service.py:108-111 | A rendering that is already clean (trimmed, no line ending in whitespace, line feeds only) is sent unchanged. |
| Sms.CleanRenderedIdempotent | services/sms_service.py:108-111 | Cleaning a cleaned rendering changes nothing. |
| Sms.TrimmedLinesKeep | services/sms_service.py:110 | In a text whose lines end in no whitespace, `rstrip` leaves every line of `splitlines` as it is. |
| Sms.CleanRenderedCarriageReturn | services/sms_service.py:108-111 | The rendered text "a \rb" comes out as "a\nb": the carriage return breaks the line and the space before it is stripped. |
| Sms.CleanSiteUrl | services/sms_service.py:286 | The cleaned site URL has no trailing '/' and is no longer than the original. |
| Sms.CleanSiteUrlWithoutScheme | services/sms_service.py:286 | Without a scheme to remove, the cleaned site URL is a prefix of the original. |
| Sms.CleanSiteUrlHttps | services/sms_service.py:286 | For a host holding no scheme, a leading "https://" is removed and then only trailing '/' go. |
| Sms.CleanSiteUrlHttp | services/sms_service.py:286 | For a host holding no scheme, a leading "http://" is removed and then only trailing '/' go. |
| Sms.Dispatch | services/sms_service.py:115-158 | Success iff the service is configured and the client created the message. Unconfigured gives the fixed not-configured error. A Twilio error reports its code. |
| Sms.SmsService.constructor | services/sms_service.py:91-100 | A client exists iff both the SID and the token are non-empty; the sender number and verify SID are kept as given. |
| Sms.SmsService.SendSms | services/sms_service.py:115-158 | At most one message is handed to the client, with the normalised number and the configured sender, and only when configured. The result is Dispatch's. |
| Sms.SmsService.SendWelcomeSms | services/sms_service.py:160-168 | Sends the rendered welcome template, or the welcome text when rendering raises. |
| Sms.SmsService.SendSignupConfirmationSms | services/sms_service.py:170-178 | Sends the rendered sign-up template, or the sign-up text. |
| Sms.SmsService.SendEventNotificationSms | services/sms_service.py:180-200 | Sends the rendered new-event template, or the event text. |
| Sms.SmsService.SendEventCancelledSms | services/sms_service.py:202-216 | Sends the rendered cancellation template, or the cancellation text. |
| Sms.SmsService.SendEventReminderSms | services/sms_service.py:218-246 | Sends the rendered reminder template with the service's own time text, or the reminder text. |
| Sms.SmsService.SendRegistrationConfirmationSms | services/sms_service.py:248-262 | Sends the rendered confirmation template, or the confirmation text. |
| Sms.SmsService.SendNewLocationLoginSms | services/sms_service.py:264-272 | Sends the rendered login-alert template, or the alert text. |
| Sms.SmsService.SendOtpSms | services/sms_service.py:274-282 | Sends the rendered OTP template, or the OTP text. |
| Sms.SmsService.SendUpcomingEventsDigestSms | services/sms_service.py:284-293 | Sends the rendered digest template over the first three items and the cleaned site URL, or the digest text. |
| Sms.SmsService.UnconfiguredSendsNothing | services/sms_service.py:126-130 | A send on an unconfigured service leaves the client's calls unchanged, never succeeds and reports the not-configured error. |
| Sms.FallbackOnlyWhenRenderingRaises | services/sms_service.py:106-113 | A composer sends its fallback when the template raised. A rendering without line breaks is sent stripped, and an already clean rendering is sent as it is. |
| Mail.ExpiryBoundary | apps/users/models/otp_code.py:21-22 | A code is valid at the very instant it expires and expired one second later. |
| Mail.OwnerKindsDiffer | apps/users/models/otp_code.py:8-14 | The same object id under two content types names two owners. |
| Mail.DeleteOtp | services/mail_service.py:44 | After `delete`, exactly the rows with other keys remain. |
| Mail.OtpTable.Create | services/mail_service.py:34-37 | A new row under a key no row holds is appended, with use "email". |
| Mail.OtpTable.Delete | services/mail_service.py:44 | The table becomes DeleteOtp of itself. |
| Mail.MailService.constructor | services/mail_service.py:12-17 | The sender is the given address when non-empty, else the configured default; the message starts empty and plain. |
| Mail.MailService.SendMail | services/mail_service.py:19-29 | An `.html` message is rendered and the subtype becomes html. Any other message is the body as is, and the previous subtype stays. An attachment is added to those already held. Sent iff the transport does not raise. |
| Mail.MailService.Transmit | services/mail_service.py:29 | Sends the current message unchanged iff the transport does not raise. |
| Mail.MailService.SendOtp | services/mail_service.py:31-38 | Stores a fresh code for the receiver, expiring ten minutes from now. Then sends the "OTP Code" html mail rendered from the OTP template, to the receiver only. |
| Mail.MailService.VerifyOtp | services/mail_service.py:40-45 | Looks up the receiver's first row with that code. It answers true only if that row exists and has not expired, and then deletes it. Otherwise the table is unchanged. |
| Mail.OtpSingleUse | services/mail_service.py:40-45 | When the receiver holds the code once, a successful verification makes every later verification of it fail. |
| Mail.Verify | services/mail_service.py:40-45 | Success only when the receiver holds that code unexpired. A failure leaves the table as it was, and the table never gains a row. |
| Mail.IssuedCodeVerifies | services/mail_service.py:31-45 | A freshly issued code verifies for its receiver until its expiry, and verifying consumes exactly that row. |
| Mail.VerifyOnlyConsumesOnSuccess | services/mail_service.py:40-45 | A failed verification leaves the table as it was. A successful one removes exactly the matched row's key. |
| Notifications.GreetingName | services/notification_service.py:37 | The SMS greeting is the first name when set, else the username. |
| Notifications.SiteRoot | services/notification_service.py:77 | The site URL without its trailing slashes, a prefix of the original. |
| Notifications.EventUrl | services/notification_service.py:77 | The event link is the site root, "/events/", then the slug. |
| Notifications.EventUrlIgnoresTrailingSlash | services/notification_service.py:77 | A site URL with a trailing '/' gives the same event link as one without. |
| Notifications.HoursUntil | services/notification_service.py:136-137 | Whole hours to the event, truncated toward zero, in both directions. |
| Notifications.DigestItemFor | services/notification_service.py:178-184 | A digest item carries the title, "TBA" without a date, and the event link or the events page without a slug. |
| Notifications.DigestItems | services/notification_service.py:177-184 | One item per event for the first three events, in order. |
| Notifications.UserAttemptsRecipients | services/notification_service.py:21-55 | One recipient has an email attempt iff email is on, and an SMS attempt iff SMS is on and they have a phone. |
| Notifications.FanOutEmailsEveryone | services/notification_service.py:57-72 | The email attempts go to every recipient, in order, iff email is on. |
| Notifications.FanOutTextsThoseWithPhones | services/notification_service.py:73-86 | The SMS attempts go to exactly the recipients with a phone number, in order, iff SMS is on. |
| Notifications.FanOutIgnoresFailures | services/notification_service.py:66-86 | Which sends are attempted does not depend on which of them raise: every exception is logged and the loop goes on. |
| Notifications.FanOutSendsWhatWasAsked | services/notification_service.py:57-86 | Every attempt carries the operation's email or SMS content. Each SMS goes to its own recipient's non-empty number. |
| Notifications.EmailsRaiseSmsUnaffected | services/notification_service.py:29-38 | With the mail service as given, whose per-kind senders do not exist, every email attempt raises and is swallowed. The SMS attempts are exactly those made when the email calls succeed. |
| Notifications.NotificationService.constructor | services/notification_service.py:16-19 | Keeps the site URL; nothing has been sent. |
| Notifications.NotificationService.Try | services/notification_service.py:29-33 | One guarded sender call is recorded with whether it raised, and nothing propagates. |
| Notifications.NotificationService.NotifyOne | services/notification_service.py:21-40 | The two guarded blocks for one recipient append exactly that recipient's attempts. |
| Notifications.NotificationService.NotifyAll | services/notification_service.py:66-86 | The loop over the recipients appends the fan-out of the attempts. |
| Notifications.NotificationService.SendWelcomeNotification | services/notification_service.py:21-40 | The welcome email when on; the welcome SMS, greeting by first name or username, when on and there is a phone. |
| Notifications.NotificationService.SendSignupRegistrationNotification | services/notification_service.py:42-55 | The sign-up email and SMS on the same switches. |
| Notifications.NotificationService.SendEventNotification | services/notification_service.py:57-86 | The new-event email and SMS are attempted for every recipient, on the switches. |
| Notifications.NotificationService.SendEventCancelledNotification | services/notification_service.py:88-125 | The cancellation email, with reason and reschedule text, and the SMS are attempted for every recipient. |
| Notifications.NotificationService.SendEventReminder | services/notification_service.py:127-157 | An event without a date raises before anything is sent. Otherwise every recipient is reminded with the same whole hours until the event. |
| Notifications.NotificationService.BuildDigestItems | services/notification_service.py:177-184 | The loop builds exactly the digest items of the first three events. |
| Notifications.NotificationService.SendUpcomingEventsDigest | services/notification_service.py:159-192 | For every recipient, the digest email listing all events and the SMS built from the first three are attempted. |
| Notifications.NotificationService.DigestOne | services/notification_service.py:169-192 | One recipient's pass: the digest email attempt when on, then, with SMS on and a phone, the items built and the digest SMS attempted. |
| Notifications.NotificationService.SendRegistrationConfirmation | services/notification_service.py:194-221 | The confirmation email and SMS, with the registration's code and the event link. |
| Notifications.NotificationService.SendNewLocationLoginAlert | services/notification_service.py:223-248 | The alert email and the SMS naming the location (default "Unknown location") and the login time (default now). |
| Notifications.ReminderHoursShared | services/notification_service.py:137-155 | Every SMS of one reminder call tells the same number of hours. |
| LoginHistory.OnlyOwnSuccessfulLoginsCount | apps/users/models/login_history.py:91-119 | A failed login, or another user's login, never changes whether a location is new. |
| LoginHistory.NewLocationCases | apps/users/models/login_history.py:104-119 | Without a country, a login is new iff the user never logged in successfully from that IP; with no history every login is new. |
| LoginHistory.RecordedIpIsKnown | apps/users/models/login_history.py:105-107 | Once a successful login from an IP is stored, later logins of that user from it are not new. |
| LoginHistory.IsNewLoginLocation | apps/users/models/login_history.py:91-119 | New iff the user has no successful login from the IP and, when a country is given, none from that country and city. |
| LoginHistory.GetLocationString | apps/users/models/login_history.py:121-128 | "city, country" with both; the country alone without a city; "Unknown location" without a country. |
| Registrations.GenerateCode | apps/events/models/event_registration.py:89-92 | "REG-" followed by the uuid's first eight hex digits, upper-cased: twelve characters. |
| Registrations.CodeDependsOnFirstEight | apps/events/models/event_registration.py:89-92 | Two uuids give the same code iff they agree on their first eight digits. |
| Registrations.Upsert | apps/events/models/event_registration.py:84-87 | Saving updates the row with that key in place, or appends a new row. |
| Registrations.UpsertThenFind | apps/events/models/event_registration.py:84-87 | After a save, looking the key up gives exactly the saved row. |
| Registrations.UpsertKeepsWellFormed | apps/events/models/event_registration.py:24-29 | A save that clashes with no other row keeps primary keys, (event, user) pairs and codes unique. The pair constraint is line 73. |
| Registrations.EventRegistration.constructor | apps/events/models/event_registration.py:30-62 | A new registration is 'registered', not checked in, without code, reminder or confirmation. |
| Registrations.EventRegistration.Save | apps/events/models/event_registration.py:84-87 | A missing code is generated first and nothing else changes. The row is stored iff it clashes with no other row, and otherwise the table is untouched. |
| Registrations.EventRegistration.MarkAsAttended | apps/events/models/event_registration.py:94-100 | Attended, checked in at now, then saved as above. |
| Registrations.EventRegistration.CancelRegistration | apps/events/models/event_registration.py:102-105 | Cancelled, then saved; the check-in fields are unchanged. |
| Registrations.CountStatus | apps/events/models/event_registration.py:149-152 | A status count never exceeds the number of registrations. |
| Registrations.CountsPartition | apps/events/models/event_registration.py:146-152 | The four status counts add up to the event's registrations: every status is counted once. |
| Registrations.EventAttendanceStats.constructor | apps/events/models/event_registration.py:108-137 | An instance carries the loaded counters. |
| Registrations.EventAttendanceStats.UpdateStats | apps/events/models/event_registration.py:146-153 | Each counter is recounted from the event's registrations, and the row is saved under its event. |
| Registrations.Tally | apps/events/models/event_registration.py:145-152 | The counters are for that event, none is negative, and together they count each of its registrations once. |
| Registrations.AttendanceRate | apps/events/models/event_registration.py:154-161 | 0 when nobody counts or nobody attended; between 0 and 100 for counters that are not negative; 100 when only attendees count. |
| Registrations.AttendanceRateBounds | apps/events/models/event_registration.py:155-161 | For counters from `update_stats` the rate lies between 0 and 100. It is 0 when nobody attended, and 100 when everyone who did not cancel attended. |
| EventSignals.NewEventTask | apps/events/signals.py:14-20 | The new-event task is enqueued iff the event was just created and is published. |
| EventSignals.NotifyUsersOnNewEvent | apps/events/signals.py:14-20 | The queue grows by exactly that task, if any. |
| EventSignals.AnnouncedAtMostOnce | apps/events/signals.py:14-20 | Over all the saves of one event the new-event task is enqueued at most once, and iff the event was published when created. |
| EventSignals.CancellationTask | apps/events/signals.py:23-38 | The cancellation task is enqueued iff the stored event was published and the saved one is not; it carries the fixed reason. |
| EventSignals.DetectEventCancellation | apps/events/signals.py:23-38 | The queue grows by that task, looked up by key only for an instance with a key. |
| EventSignals.OnlyUnpublishingCancels | apps/events/signals.py:28-37 | A published instance, an unknown key or a new instance never cancels. |
| EventSignals.ConfirmationTask | apps/events/signals.py:41-47 | The confirmation task is enqueued iff the registration was just created and not yet confirmed. |
| EventSignals.SendRegistrationConfirmationOnSave | apps/events/signals.py:41-47 | The queue grows by exactly that task, if any. |
| EventSignals.NewRegistrationsAreConfirmed | apps/events/signals.py:46 | An unconfirmed registration is confirmed on creation and never on a later save. |
| EventSignals.UpdateEventStats | apps/events/signals.py:50-58 | The event's stats row becomes the fresh tally of its registrations, and its counters add up to the event's registrations. |
| EventTasks.NotifyUsersOnNewEventTask | apps/events/tasks.py:16-36 | Nothing for a missing or unpublished event or when both switches are off. Otherwise the new-event pair is attempted for every active user. |
| EventTasks.NewEventTargetsActiveUsers | apps/events/tasks.py:16-36 | Nothing is sent in the three skip cases. Every attempt goes to an active user, and with email on an email attempt is made for every active user. |
| Domain.ActiveUsers | apps/events/tasks.py:30 | `filter(is_active=True)`: only active users of the table, and every active user. |
| EventTasks.RegisteredUsers | apps/events/tasks.py:55-58 | Exactly the users holding a 'registered' registration for the event. |
| EventTasks.RegisteredUsersDistinct | apps/events/tasks.py:58 | `.distinct()`: no user appears twice. |
| EventTasks.NotifyUsersOnEventCancelledTask | apps/events/tasks.py:39-69 | Nothing for a missing event, both switches off or no registered user. Otherwise the cancellation goes to the registered users. |
| EventTasks.CancellationReachesOnlyRegistered | apps/events/tasks.py:55-69 | Every cancellation attempt goes to a user registered for that event. |
| EventTasks.MarkConfirmed | apps/events/tasks.py:90-95 | Only the registration with that key gets `confirmation_sent`; nothing else changes. |
| EventTasks.SendRegistrationConfirmationTask | apps/events/tasks.py:72-97 | Nothing for a missing or already confirmed registration or when both switches are off. Otherwise the confirmation goes to its user and it is marked confirmed. |
| EventTasks.ConfirmationIsIdempotent | apps/events/tasks.py:79-80 | After the task has sent, running it again sends nothing. |
| EventTasks.WindowEvents | apps/events/tasks.py:109-116 | Exactly the published events dated within an hour either side of `now + hours`. |
| EventTasks.WindowBoundaries | apps/events/tasks.py:109-116 | For 24 hours: 23h and 25h ahead are in; 22h59m and 25h30m ahead are out. |
| EventTasks.ReminderUsers | apps/events/tasks.py:121-130 | Only the users of the event's 'registered', not yet reminded registrations; none when there is no target. |
| EventTasks.ReminderUsersComplete | apps/events/tasks.py:121-130 | Every such registration's user is in the list. |
| EventTasks.MarkReminded | apps/events/tasks.py:139 | Exactly the event's targeted registrations get `reminder_sent`. |
| EventTasks.RemindEvent | apps/events/tasks.py:120-141 | One loop pass reminds the event's targets. It marks them only when the service call completed. |
| EventTasks.RemindEach | apps/events/tasks.py:120-141 | The loop over the window's events gives the run's attempts and table, event after event. |
| EventTasks.SendEventRemindersTask | apps/events/tasks.py:100-141 | Nothing when SMS is not forced and both reminder switches are off. Otherwise the window's events are reminded, with SMS on when forced or switched on. |
| EventTasks.RemindAllOnlySetsFlags | apps/events/tasks.py:139 | A reminder run changes no registration except to set its `reminder_sent`. |
| EventTasks.RemindersOnlyToTargets | apps/events/tasks.py:121-138 | Every attempt of a run goes to the user of a 'registered' registration still waiting for its reminder. |
| EventTasks.RemindAllClearsTargets | apps/events/tasks.py:139 | After a run no registration of a dated event is still waiting. |
| EventTasks.RemindAllQuiet | apps/events/tasks.py:127-128 | With no targets left a run attempts nothing and changes nothing. |
| EventTasks.SecondReminderRunSendsNothing | apps/events/tasks.py:121-139 | Running the reminders twice over the same events sends every reminder once. |
| EventTasks.SortByDate | apps/events/tasks.py:159 | `.order_by('date')`: sorted by date and a permutation of its input. |
| EventTasks.DigestRangeEvents | apps/events/tasks.py:153-158 | Exactly the published events dated from now to `days` days ahead. |
| EventTasks.DigestEventsSortedPermutation | apps/events/tasks.py:153-160 | The digest lists exactly the events in range, each as often as stored, earliest first. |
| EventTasks.DigestEachUser | apps/events/tasks.py:168-177 | The loop sends the digest one user at a time, and is the fan-out over all of them. |
| EventTasks.SendMonthlyDigestTask | apps/events/tasks.py:144-177 | Nothing when both switches are off or nothing is in range. Otherwise the digest is attempted for every active user. |
| EventTasks.DigestReachesEveryActiveUser | apps/events/tasks.py:162-177 | With the digest email on and something to list, the email attempts go to exactly the active users, in order. |
| UserTasks.SendUserCreatedNotificationsTask | apps/users/tasks.py:17-39 | Nothing for a missing user. Otherwise the welcome pair when either welcome switch is on, then the sign-up pair when either is on. The guards only skip pairs that would attempt nothing. |
| UserTasks.DefaultSignupSendsWelcomeEmail | apps/users/tasks.py:24-39 | Under the defaults exactly one attempt is made for a new user: the welcome email. |
| UserTasks.AlertLocation | apps/users/tasks.py:56-61 | "city, country" when both are known, the country alone without a city, and the IP without a country. |
| UserTasks.LoginInfoFor | apps/users/tasks.py:63-69 | The device is shown capitalised iff set. The browser is shown iff set and not "Unknown". The time and IP are the login's. |
| UserTasks.MarkNotified | apps/users/tasks.py:78-79 | Only the login with that key gets `notification_sent`. |
| UserTasks.SendNewLocationLoginAlertTask | apps/users/tasks.py:42-81 | Nothing for a missing or already alerted login or when both switches are off. Otherwise the alert goes to the login's user and the row is marked. |
| UserTasks.AlertIsIdempotent | apps/users/tasks.py:49-50 | A login is alerted at most once. |
| UserTasks.AlertSmsContent | apps/users/tasks.py:56-77 | The SMS names the alert location and the login's time; without a country it names the IP. |
| UserTasks.SendEmailOtpTask | apps/users/tasks.py:84-94 | Nothing for a missing user. Otherwise a fresh code row is stored and the OTP mail goes to the user from the default sender unless the transport raises. |
| UserTasks.EmailedCodeVerifies | apps/users/tasks.py:84-94 | The code the task stores verifies for that user until it expires. |
| UserSignals.SendWelcomeEmail | apps/users/signals/__init__.py:13-19 | The user-created task is enqueued on creation only. |
| UserSignals.ClientIp | apps/users/signals/__init__.py:27-31 | `REMOTE_ADDR` without a forwarded header. Otherwise the text before the header's first comma. |
| UserSignals.ClientIpCases | apps/users/signals/__init__.py:27-31 | A header without a comma is taken whole; otherwise its text before the first comma. |
| UserSignals.DeviceType | apps/users/signals/__init__.py:41-46 | 'unknown' iff there is no user agent; a mobile keyword always gives 'mobile'. |
| UserSignals.BrowserName | apps/users/signals/__init__.py:48-55 | Chrome needs "chrome" without "edg"; Safari needs "safari" without "chrome"; Edge needs "edg". |
| UserSignals.OsName | apps/users/signals/__init__.py:57-66 | 'Unknown' without a user agent; "windows" always gives Windows. |
| UserSignals.ClassificationIgnoresCase | apps/users/signals/__init__.py:33-66 | User agents equal up to letter case get the same device, browser and OS. |
| UserSignals.FirstMatchOrder | apps/users/signals/__init__.py:41-66 | First match decides: an Edge agent naming Chrome is Edge. Linux beats Android, and an iPad saying "mobile" is a mobile. |
| UserSignals.LoginRow | apps/users/signals/__init__.py:73-84 | The stored row: the client IP and labels, no country or city, successful, not yet alerted. |
| UserSignals.TrackUserLogin | apps/users/signals/__init__.py:22-87 | Newness is decided on the history before the row is stored. The row is appended, and the alert task is enqueued iff the location is new. |
| UserSignals.RepeatLoginIsNotNew | apps/users/signals/__init__.py:71 | A first login is new; the next login from the same address is not. |
| UserSignals.RequestUser | apps/users/signals/__init__.py:94-103 | A user is stamped iff there is a request with an authenticated user. |
| UserSignals.Stamped | apps/users/signals/__init__.py:90-107 | The creator is set only when missing; the updater is always the request's user or none. |
| UserSignals.AuditedRow.UpdateUserId | apps/users/signals/__init__.py:90-107 | The instance's fields become the stamped pair. |
| UserSignals.StampKeepsCreator | apps/users/models/base_model.py:38-51 | A creator, once set, is never overwritten. The updater follows the latest request and is cleared when the lookup raises. |
| UserSignalsSync.SendWelcomeEmailSync | apps/users/signals.py:12-31 | On creation: always the welcome call, and the sign-up call only when either switch is on. Nothing otherwise. |
| UserSignalsSync.WelcomeVariantsAgree | apps/users/signals.py:12-31 | The inline welcome and the queued one make the same attempts. |
| UserSignalsSync.InlineLoginInfo | apps/users/signals.py:105-111 | The inline alert drops the device only when 'unknown' and the browser only when 'Unknown'. |
| UserSignalsSync.TrackUserLoginSync | apps/users/signals.py:34-120 | As the queued variant, but the alert is sent inline and the row stored as alerted when the location is new. |
| UserSignalsSync.InlineAlertShowsIp | apps/users/signals.py:101-103 | Without a country or city the inline SMS names the client IP. |
| UserSignalsSync.AlertShapingDiffers | apps/users/signals.py:105-111 | Both variants shape the alert alike, except that without a user agent the task reports device "Unknown" and the inline alert none. |
| Auth.DropTokens | apps/users/views/auth_view.py:185 | Exactly the tokens of other users remain. |
| Auth.UserByEmail | apps/users/views/auth_view.py:121 | The first user with that email, or none when no user has it. |
| Auth.PasswordResetRequest | apps/users/views/auth_view.py:116-131 | An unknown email gives 400 and enqueues nothing. A known one enqueues the OTP task for that user and gives 200. |
| Auth.PasswordResetConfirmation | apps/users/views/auth_view.py:155-190 | No such user OTP: 400, nothing changes. Expired: it is deleted, 400. Missing owner: 400. Otherwise the password is set, the OTP deleted, the user's tokens revoked, 200. |
| Auth.Logout | apps/users/views/auth_view.py:213-219 | 205, and exactly the user's access tokens are deleted. |
| Auth.DropTokensKeepsOthers | apps/users/views/auth_view.py:185 | Revoking one user's tokens never touches another user's, and revocations commute. |
| Auth.ResetRevokesEverything | apps/users/views/auth_view.py:160-185 | A reset cannot be replayed: with the code held by one row, sending it again finds no row. Revoking the user's tokens a second time removes nothing. |
| Auth.DropTokensTwice | apps/users/views/auth_view.py:213-215 | Deleting a user's tokens a second time, as a repeated logout does, removes nothing more. |
| Calendar.Uid | services/calendar_service.py:42 | The UID is "event-", the id, then "@djangocameroon.org". |
| Calendar.UidInjective | services/calendar_service.py:42 | Distinct events get distinct UIDs. |
| Calendar.LocationLine | services/calendar_service.py:48-52 | The location starts "name, " and adds the region when the city has one. |
| Calendar.Details | services/calendar_service.py:60-63 | The details start with "Type: …" and end with a newline; a speakers line follows only when there are speakers. |
| Calendar.Description | services/calendar_service.py:44-45 | The description ends with the details, after the event's own description and a blank line when it has one. Lines 65-69 append the details. |
| Calendar.GenerateEventIcs | services/calendar_service.py:25-28 | The calendar carries the fixed PRODID, version 2.0, method PUBLISH and one event. |
| Calendar.VEventFields | services/calendar_service.py:33-72 | The event lasts two hours and is CONFIRMED iff published, else TENTATIVE. It carries its UID, and has a LOCATION iff it has a venue. |
| Calendar.SafeTitle | services/calendar_service.py:90 | Each title character kept when alphanumeric, ' ', '-' or '_', else '_'. |
| Calendar.GenerateFilename | services/calendar_service.py:90-92 | The file name is as long as the title plus four and ends in ".ics". |
| Calendar.FilenameShape | services/calendar_service.py:79-92 | The name is the title character for character (lower-cased, non-safe characters and spaces as '_'), then ".ics". It has no spaces. |
| RestExceptions.StatusCode | exceptions/rest_exception.py:60-77 | The status of the exception's own class in the table, 500 for any class not in it. |
| RestExceptions.StatusCodeTable | exceptions/rest_exception.py:60-77 | ValueError 400; the not-found classes 404; Throttled 429. Subclasses and validation errors give 500. Every status is 4xx or 500. |
| RestExceptions.Format | exceptions/rest_exception.py:100 | A message without a field is returned as is. |
| RestExceptions.DefaultMessage | exceptions/rest_exception.py:80-95 | The message for the exception's own class, the generic message otherwise. |
| RestExceptions.PermissionDeniedGetsGenericMessage | exceptions/rest_exception.py:83 | The tuple key never matches a class, so permission-denied gets the generic message (with status 403). |
| RestExceptions.ExtractErrorFromHtml | exceptions/rest_exception.py:110-118 | A detail without "<html>", in any case, is returned as is. |
| RestExceptions.HtmlTestIgnoresCase | exceptions/rest_exception.py:112-117 | "<HTML>" counts as HTML. It gives the stripped title, the generic message without a title, or the parse-failure message. |
| RestExceptions.Errors | exceptions/rest_exception.py:98-107 | One error, decided in order: Throttled formats the wait into the message; a ValueError gives its text; a not-found class gives the default message; any other `Exception` the HTML extraction of its text; anything else the default message. |
| RestExceptions.ExtractErrors | exceptions/rest_exception.py:41-45 | A dict's values, a list's items, or the data's text. |
| RestExceptions.HandleDrfException | exceptions/rest_exception.py:29-38 | status false and DRF's status code. "Validation error." iff it is a validation error. The errors come from the response data. |
| RestExceptions.HandleDjangoException | exceptions/rest_exception.py:48-57 | status false, no message, the mapped status code and the computed errors. |
| RestExceptions.RestExceptionHandler | exceptions/rest_exception.py:20-26 | DRF's response when it handled the exception, the Django branch otherwise; never a success. |
| RestExceptions.ThrottledReportsWait | exceptions/rest_exception.py:74-100 | On the Django path, a throttled exception gets 429 and the message with the wait filled in. |
| RestExceptions.DoesNotExistIsGeneric | exceptions/rest_exception.py:77-104 | A model's DoesNotExist subclass gets 500 and the generic message. |
| RestExceptions.PlainTextReportedVerbatim | exceptions/rest_exception.py:105-118 | Any other exception gets 500 and its own text when that is not HTML. |
| Permissions.FirstMissing | apps/users/permissions/user_permissions.py:26-31 | None iff every required name is held; otherwise the first one not held. |
| Permissions.RequiredCheck | apps/users/permissions/user_permissions.py:11-33 | No requirement is a configuration error. Allowed iff the method is exempt, or an authenticated user holds everything. |
| Permissions.HasPermissionOutcomes | apps/users/permissions/user_permissions.py:11-25 | No requirement: configuration error. Exempt method: allowed. Anonymous: denied with the not-authenticated message. |
| Permissions.HasPermission | apps/users/permissions/user_permissions.py:11-33 | No required permission is a configuration error. Allowed iff the method is exempt, or the user is authenticated and `has_perm` grants every required permission. `has_perm` means active, and either a superuser or granted the permission. |
| Permissions.SuperuserAndInactive | apps/users/permissions/user_permissions.py:26-31 | An authenticated active superuser passes every requirement. An authenticated inactive user on a method that is not exempt is denied, naming the first required permission. |
| Permissions.HasPermissionNamesFirstMissing | apps/users/permissions/user_permissions.py:26-33 | An authenticated user is allowed when `has_perm` grants every required permission. Otherwise the user is denied, naming the first one it refuses. |
| Permissions.HasRoleOutcomes | apps/users/permissions/user_permissions.py:41-62 | The same decision over group names: allowed iff exempt or authenticated with every role, else the first missing role is named. |
| Permissions.HasRole | apps/users/permissions/user_permissions.py:41-62 | No required role is a configuration error. Allowed iff the method is exempt, or an authenticated user is in every required group. |
| Permissions.MorePermissionsStillAllowed | apps/users/permissions/user_permissions.py:26-33 | Granting more permissions never turns an allowed request into a denied one. |
| Permissions.IsAdminOrReadOnly | apps/users/permissions/user_permissions.py:70-73 | Safe methods always pass; any other method iff the user is an authenticated superuser. |
| Permissions.IsOrganizer | apps/users/permissions/user_permissions.py:81-84 | Allowed iff the user is authenticated and staff. |
| Permissions.WritesNeedSuperuser | apps/users/permissions/user_permissions.py:70-73 | Anonymous users may only GET, HEAD or OPTIONS; POST needs a superuser; DELETE by a non-superuser is refused. |
| Choices.BuildTupleTypes | apps/events/models/constants.py:29-30 | One (value, value) pair per member, in order. |
| Choices.ValuesRoundTrip | apps/events/models/constants.py:29-30 | The pairs' first halves give the members back, and each pair repeats its value. |
| Choices.ChoiceTuples | apps/events/models/constants.py:5-35 | The three choice lists are exactly the categories, the types and the communities the enums declare. |

## Left out

- Twilio and SMTP transports, `render_to_string`, BeautifulSoup and DRF's
  `exception_handler` are foreign code. Their outcomes (created or error,
  raised or not, rendered text, title found) are parameters.
- The `icalendar` library's serialisation is not modelled. `Calendar.GenerateEventIcs` stops at the calendar's fields, before `to_ical()`.
- `verify_phone_number` and `check_verification_code` are left out. They are
  thin wrappers over the Twilio Verify API with no logic of their own beyond
  the missing-SID error.
- Celery's execution, retries and concurrency are not modelled. Tasks run
  one at a time, so races between a task and a signal are not covered.
- `uuid4()`, `generate_otp()` and `now()` are not modelled: their results are parameters.
- `strftime` formatting is not modelled; formatted dates are carried as
  text.
- `gettext` is the identity.
- Primary keys are natural numbers; the source's UUID keys are compared only
  for equality.
- `str.lower`, `str.capitalize` and `str.isalnum` are ASCII only.
- `has_perm` follows Django's model backend only: active superusers hold every permission, inactive users none. Other authentication backends and per-object permissions are not modelled.
- `Registrations.AttendanceRate`: the rate is a `real`, not a float, so rounding is not modelled.
- `Registrations.AttendanceRateBounds`: the same real-valued rate; float rounding is not modelled.
- `RestExceptions.Format`: `str.format` is modelled only for the messages the
  handler formats, which have at most one `{0}` field.
- `RestExceptions.Errors`: `str(exc)` is a given text.
- `RestExceptions.Errors`: class membership is the class plus a declared set
  of bases, not Python's MRO.
- `services/notification_service.py` calls per-kind mail senders
  (`send_welcome_email` and seven more) that `services/mail_service.py` does
  not define. As given, each such call raises `AttributeError`, which the
  service catches and logs, so no email is actually sent. The model records
  every email attempt with whether it raised; `Notifications.EmailsRaiseSmsUnaffected`
  covers the as-given case, and the other lemmas hold for any outcome.
- The audit stamp is modelled once, as `UserSignals.Stamped`. The `pre_save`
  receiver is registered with the abstract `BaseModel` as sender, so Django
  may never call it for concrete models. `BaseModel.save` in
  `apps/users/models/base_model.py` performs the same stamp on every save.
- The login-location lookups (country and city from a GeoIP service) are
  absent in the source: rows are stored without them.
- A reminder service call fails as a whole only for an event without a date.
  Any other exception inside it is swallowed per recipient.
- The Django ORM is modelled as sequences of rows in table order.
- Lookups by key return the first matching row.
- Database errors other than the unique-constraint clash on a registration
  save are not modelled.
