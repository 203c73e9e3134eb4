/**
 * The module file `apps/users/signals.py`, the synchronous variant of the
 * users app's receivers: the welcome notifications and the new-location
 * alert are sent inline through the notification service instead of being
 * queued. Client IP and user-agent classification are the package's.
 */
module UserSignalsSync {
  import opened Wrappers
  import opened Text
  import opened Domain
  import opened Preferences
  import opened Notifications
  import Sms
  import opened LoginHistory
  import opened UserSignals
  import opened UserTasks

  /**
   * `send_welcome_email` (post-save of a user): on creation the welcome
   * notification is always called with the welcome switches, the sign-up
   * one only when either sign-up switch is on.
   */
  method SendWelcomeEmailSync(svc: NotificationService, prefs: Prefs, instance: User, created: bool, raises: Raises)
    modifies svc
    ensures !created ==> svc.outbox == old(svc.outbox)
    ensures created ==>
      svc.outbox == old(svc.outbox)
        + UserAttempts(instance, prefs.welcomeEmail, prefs.welcomeSms, WelcomeEmail,
                       Sms.WelcomeSms(GreetingName(instance)), raises)
        + (if prefs.signupEmail || prefs.signupSms
           then UserAttempts(instance, prefs.signupEmail, prefs.signupSms, SignupConfirmationEmail,
                             Sms.SignupConfirmationSms(GreetingName(instance)), raises)
           else [])
  {
    if created {
      svc.SendWelcomeNotification(instance, prefs.welcomeSms, prefs.welcomeEmail, raises);
      if prefs.signupEmail || prefs.signupSms {
        svc.SendSignupRegistrationNotification(instance, prefs.signupSms, prefs.signupEmail, raises);
      }
    }
  }

  /**
   * The inline welcome and the queued one make the same attempts for a new
   * user: calling the welcome pair with both switches off sends nothing, so
   * the task's guard changes nothing.
   */
  lemma WelcomeVariantsAgree(u: User, prefs: Prefs, raises: Raises)
    ensures UserAttempts(u, prefs.welcomeEmail, prefs.welcomeSms, WelcomeEmail, Sms.WelcomeSms(GreetingName(u)), raises)
      == (if prefs.welcomeEmail || prefs.welcomeSms
          then UserAttempts(u, prefs.welcomeEmail, prefs.welcomeSms, WelcomeEmail, Sms.WelcomeSms(GreetingName(u)), raises)
          else [])
  {
  }

  /**
   * The `login_info` the inline alert builds: the device is left out only
   * when it is 'unknown', the browser only when it is 'Unknown'.
   */
  function InlineLoginInfo(r: LoginRecord): (info: LoginInfo)
    ensures info.loginTime == Some(r.createdText) && info.ipAddress == r.ip
    ensures info.location == Some(AlertLocation(r))
    ensures info.device.None? <==> r.deviceType == "unknown"
    ensures info.device.Some? ==> info.device.value == Capitalize(r.deviceType)
    ensures info.browser.None? <==> r.browser == "Unknown"
    ensures info.browser.Some? ==> info.browser.value == r.browser
  {
    LoginInfo(
      loginTime := Some(r.createdText),
      ipAddress := r.ip,
      location := Some(AlertLocation(r)),
      device := if r.deviceType != "unknown" then Some(Capitalize(r.deviceType)) else None,
      browser := if r.browser != "Unknown" then Some(r.browser) else None)
  }

  /**
   * `track_user_login` with the inline alert: the row is stored as in the
   * package variant; for a new location the alert goes out with the
   * new-location switches, whatever they are, and the row is marked alerted.
   */
  method TrackUserLoginSync(store: Store, svc: NotificationService, prefs: Prefs, user: User, forwardedFor: string,
                            remoteAddr: string, userAgent: string, id: Id, createdText: string, nowText: string,
                            raises: Raises)
    modifies store, svc
    ensures var isNew := IsNewLoginLocation(old(store.logins), user, ClientIp(forwardedFor, remoteAddr), "", "");
      var row := LoginRow(id, user, forwardedFor, remoteAddr, userAgent, isNew, createdText);
      && store.logins == old(store.logins) + [if isNew then row.(notificationSent := true) else row]
      && svc.outbox == old(svc.outbox)
         + (if isNew
            then UserAttempts(user, prefs.newLocationLoginEmail, prefs.newLocationLoginSms,
                              NewLocationLoginEmail(InlineLoginInfo(row)), LoginAlertSms(InlineLoginInfo(row), nowText), raises)
            else [])
    ensures store.users == old(store.users) && store.events == old(store.events)
    ensures store.registrations == old(store.registrations)
  {
    var ip := ClientIp(forwardedFor, remoteAddr);
    var isNew := IsNewLoginLocation(store.logins, user, ip, "", "");
    var row := LoginRow(id, user, forwardedFor, remoteAddr, userAgent, isNew, createdText);
    store.logins := store.logins + [row];
    if isNew {
      var info := InlineLoginInfo(row);
      svc.SendNewLocationLoginAlert(user, info, nowText, prefs.newLocationLoginSms, prefs.newLocationLoginEmail, raises);
      store.logins := store.logins[..|store.logins| - 1] + [row.(notificationSent := true)];
    }
  }

  /** Without country or city the inline alert always names the client IP as the place. */
  lemma InlineAlertShowsIp(user: User, forwardedFor: string, remoteAddr: string, userAgent: string, id: Id,
                           isNew: bool, createdText: string, nowText: string)
    ensures var row := LoginRow(id, user, forwardedFor, remoteAddr, userAgent, isNew, createdText);
      LoginAlertSms(InlineLoginInfo(row), nowText) == Sms.NewLocationLoginSms(ClientIp(forwardedFor, remoteAddr), createdText)
  {
  }

  /**
   * The two variants shape the alert of a stored login alike, except that
   * without a user agent the queued task reports the device "Unknown"
   * where the inline alert leaves it out.
   */
  lemma AlertShapingDiffers(user: User, forwardedFor: string, remoteAddr: string, userAgent: string, id: Id,
                            isNew: bool, createdText: string)
    ensures var row := LoginRow(id, user, forwardedFor, remoteAddr, userAgent, isNew, createdText);
      userAgent != "" ==> LoginInfoFor(row) == InlineLoginInfo(row)
    ensures var row := LoginRow(id, user, forwardedFor, remoteAddr, userAgent, isNew, createdText);
      userAgent == "" ==> LoginInfoFor(row).device == Some("Unknown") && InlineLoginInfo(row).device == None
  {
    var row := LoginRow(id, user, forwardedFor, remoteAddr, userAgent, isNew, createdText);
    if userAgent == "" {
      assert row.deviceType == "unknown";
      assert Capitalize("unknown") == "Unknown";
    }
  }
}
