/**
 * The users app's Celery tasks: the notifications after sign-up, the alert
 * for a login from a new location, and the OTP email. Each task receives
 * the preferences `get_notification_preferences()` returned.
 */
module UserTasks {
  import opened Wrappers
  import opened Text
  import opened Domain
  import opened Preferences
  import opened Notifications
  import Sms
  import opened LoginHistory
  import opened Mail

  // ----------------------------------------------------------- user created

  /**
   * `send_user_created_notifications_task`: nothing for a missing user;
   * otherwise the welcome pair when either welcome switch is on, then the
   * sign-up pair when either sign-up switch is on.
   */
  method SendUserCreatedNotificationsTask(users: seq<User>, svc: NotificationService, prefs: Prefs, userId: Id,
                                          raises: Raises)
    modifies svc
    ensures match FindBy(users, UserId, userId)
      case None => svc.outbox == old(svc.outbox)
      case Some(u) =>
        svc.outbox == old(svc.outbox)
          + (if prefs.welcomeEmail || prefs.welcomeSms
             then UserAttempts(u, prefs.welcomeEmail, prefs.welcomeSms, WelcomeEmail, Sms.WelcomeSms(GreetingName(u)), raises)
             else [])
          + (if prefs.signupEmail || prefs.signupSms
             then UserAttempts(u, prefs.signupEmail, prefs.signupSms, SignupConfirmationEmail,
                               Sms.SignupConfirmationSms(GreetingName(u)), raises)
             else [])
    // the guards only skip pairs that would send nothing
    ensures FindBy(users, UserId, userId).Some? ==>
      var u := FindBy(users, UserId, userId).value;
      svc.outbox == old(svc.outbox)
        + UserAttempts(u, prefs.welcomeEmail, prefs.welcomeSms, WelcomeEmail, Sms.WelcomeSms(GreetingName(u)), raises)
        + UserAttempts(u, prefs.signupEmail, prefs.signupSms, SignupConfirmationEmail,
                       Sms.SignupConfirmationSms(GreetingName(u)), raises)
  {
    var found := FindBy(users, UserId, userId);
    if found.None? {
      return;
    }
    var u := found.value;
    if prefs.welcomeEmail || prefs.welcomeSms {
      svc.SendWelcomeNotification(u, prefs.welcomeSms, prefs.welcomeEmail, raises);
    }
    if prefs.signupEmail || prefs.signupSms {
      svc.SendSignupRegistrationNotification(u, prefs.signupSms, prefs.signupEmail, raises);
    }
  }

  /** Under the default preferences exactly one attempt is made for a new user: the welcome email. */
  lemma DefaultSignupSendsWelcomeEmail(u: User, raises: Raises)
    ensures var p := Defaults();
      && (p.welcomeEmail || p.welcomeSms)
      && !(p.signupEmail || p.signupSms)
      && UserAttempts(u, p.welcomeEmail, p.welcomeSms, WelcomeEmail, Sms.WelcomeSms(GreetingName(u)), raises)
         == [Attempt(u, Email(WelcomeEmail), raises(u, Email(WelcomeEmail)))]
  {
  }

  // ------------------------------------------------------------ login alert

  /** The location the alert shows: the location string, or the IP when that says nothing. */
  function AlertLocation(r: LoginRecord): (loc: string)
    ensures loc != "Unknown location" || r.ip == "Unknown location"
    ensures r.country == "" ==> loc == r.ip
    ensures r.country != "" && r.city == "" && r.country != "Unknown location" ==> loc == r.country
    ensures r.country != "" && r.city != "" ==> loc == r.city + ", " + r.country
  {
    var s := GetLocationString(r.country, r.city);
    assert |r.city| >= |"Unknown location"| || "Unknown location"[|r.city|] != ',';
    if s == "" || s == "Unknown location" then r.ip else s
  }

  /** The `login_info` dict the task builds from a stored login. */
  function LoginInfoFor(r: LoginRecord): (info: LoginInfo)
    ensures info.loginTime == Some(r.createdText) && info.ipAddress == r.ip
    ensures info.location == Some(AlertLocation(r))
    ensures info.device.Some? <==> r.deviceType != ""
    ensures info.device.Some? ==> info.device.value == Capitalize(r.deviceType)
    ensures info.browser.Some? <==> r.browser != "" && r.browser != "Unknown"
    ensures info.browser.Some? ==> info.browser.value == r.browser
  {
    LoginInfo(
      loginTime := Some(r.createdText),
      ipAddress := r.ip,
      location := Some(AlertLocation(r)),
      device := if r.deviceType != "" then Some(Capitalize(r.deviceType)) else None,
      browser := if r.browser != "" && r.browser != "Unknown" then Some(r.browser) else None)
  }

  /** `notification_sent` set on the row with that key. */
  function MarkNotified(logins: seq<LoginRecord>, id: Id): (r: seq<LoginRecord>)
    ensures |r| == |logins|
    ensures forall i :: 0 <= i < |logins| ==> r[i] == (if logins[i].id == id then logins[i].(notificationSent := true) else logins[i])
  {
    seq(|logins|, i requires 0 <= i < |logins| => if logins[i].id == id then logins[i].(notificationSent := true) else logins[i])
  }

  /** The login the alert task would send for, if it sends. */
  function AlertTarget(logins: seq<LoginRecord>, prefs: Prefs, id: Id): Option<LoginRecord> {
    match FindBy(logins, LoginId, id)
    case None => None
    case Some(r) =>
      if r.notificationSent || !(prefs.newLocationLoginEmail || prefs.newLocationLoginSms) then None
      else Some(r)
  }

  /**
   * `send_new_location_login_alert_task`: nothing for a missing login, one
   * already alerted or both switches off; otherwise the alert to the login's
   * user and `notification_sent` stored (the service never raises, so the
   * flag is always reached). `nowText` is the current time, rendered.
   */
  method SendNewLocationLoginAlertTask(store: Store, svc: NotificationService, prefs: Prefs, loginId: Id,
                                       nowText: string, raises: Raises)
    modifies store, svc
    ensures store.users == old(store.users) && store.events == old(store.events)
    ensures store.registrations == old(store.registrations)
    ensures match AlertTarget(old(store.logins), prefs, loginId)
      case None =>
        svc.outbox == old(svc.outbox) && store.logins == old(store.logins)
      case Some(r) =>
        && svc.outbox == old(svc.outbox)
             + UserAttempts(r.user, prefs.newLocationLoginEmail, prefs.newLocationLoginSms,
                            NewLocationLoginEmail(LoginInfoFor(r)), LoginAlertSms(LoginInfoFor(r), nowText), raises)
        && store.logins == MarkNotified(old(store.logins), loginId)
  {
    var found := FindBy(store.logins, LoginId, loginId);
    if found.None? {
      return;
    }
    var r := found.value;
    if r.notificationSent {
      return;
    }
    if !(prefs.newLocationLoginEmail || prefs.newLocationLoginSms) {
      return;
    }
    var info := LoginInfoFor(r);
    svc.SendNewLocationLoginAlert(r.user, info, nowText, prefs.newLocationLoginSms, prefs.newLocationLoginEmail, raises);
    store.logins := MarkNotified(store.logins, loginId);
  }

  /** In a marked table, the row found under the marked key has its flag set. */
  lemma {:induction false} FindNotified(logins: seq<LoginRecord>, id: Id)
    ensures var found := FindBy(MarkNotified(logins, id), LoginId, id);
      found.Some? ==> found.value.notificationSent
    decreases |logins|
  {
    if logins != [] {
      var marked := MarkNotified(logins, id);
      assert marked[1..] == MarkNotified(logins[1..], id);
      if marked[0].id != id {
        FindNotified(logins[1..], id);
      }
    }
  }

  /** A login is alerted at most once: after the task has sent, running it again sends nothing. */
  lemma AlertIsIdempotent(logins: seq<LoginRecord>, prefs: Prefs, id: Id)
    ensures AlertTarget(MarkNotified(logins, id), prefs, id).None?
  {
    FindNotified(logins, id);
  }

  /** The SMS alert names the place, or the IP when the country is unknown; the time is the login's. */
  lemma AlertSmsContent(r: LoginRecord, nowText: string)
    ensures var sms := LoginAlertSms(LoginInfoFor(r), nowText);
      && sms == Sms.NewLocationLoginSms(AlertLocation(r), r.createdText)
      && (r.country == "" ==> sms.location == r.ip)
  {
  }

  // -------------------------------------------------------------- OTP email

  /**
   * `send_email_otp_task`: a fresh `MailService()` sends the OTP to a stored
   * user; a failure to send is logged, and the code row stays. `sent` is what
   * reached the transport; `code` is what `generate_otp()` returned.
   */
  method SendEmailOtpTask(users: seq<User>, table: OtpTable, userId: Id, code: string, now: int,
                          defaultFromEmail: string, render: Render, transportRaises: bool)
    returns (sent: seq<Outgoing>)
    requires table.Valid()
    modifies table
    ensures table.Valid()
    ensures match FindBy(users, UserId, userId)
      case None => sent == [] && table.codes == old(table.codes)
      case Some(u) =>
        && table.codes == old(table.codes) + [OtpCode(old(table.nextId), UserOwner(u), code, "email", now + OtpLifetime)]
        && sent == (if transportRaises then []
                    else [Outgoing(defaultFromEmail, "OTP Code", render("mails/otp.html", map["otp" := code]), "html",
                                   [u.email], [])])
  {
    var found := FindBy(users, UserId, userId);
    if found.None? {
      return [];
    }
    var mail := new MailService("", defaultFromEmail);
    var ok := mail.SendOtp(found.value, code, now, table, render, transportRaises);
    sent := mail.sent;
  }

  /** The code the task stores for a user verifies for them until it expires. */
  lemma EmailedCodeVerifies(codes: seq<OtpCode>, u: User, nextId: Id, code: string, now: int, at: int)
    requires forall i :: 0 <= i < |codes| ==> !(codes[i].owner == UserOwner(u) && codes[i].code == code)
    requires at <= now + OtpLifetime
    ensures Verify(codes + [OtpCode(nextId, UserOwner(u), code, "email", now + OtpLifetime)], u, code, at).0
  {
    IssuedCodeVerifies(codes, u, nextId, code, now, at);
  }
}
