/**
 * `NotificationService`: for every recipient, an email attempt when email is
 * switched on, then an SMS attempt when SMS is switched on and the recipient
 * has a phone number. Each attempt sits in its own try/except, so a sender
 * that raises is logged and nothing else changes. The two senders are opaque:
 * `outbox` records every attempt made, with whether it raised, and a `Raises`
 * parameter says which attempts raise.
 */
module Notifications {
  import opened Wrappers
  import opened Text
  import opened Domain
  import opened SmsTemplates
  import Sms

  /** The `login_info` dict handed to the login alert; a missing key is None. */
  datatype LoginInfo = LoginInfo(
    loginTime: Option<string>,   // rendered "%b %d at %I:%M %p"
    ipAddress: string,
    location: Option<string>,
    device: Option<string>,
    browser: Option<string>)

  /** A call of one of the mail service's per-kind senders, with what identifies its content. */
  datatype EmailRequest =
    | WelcomeEmail
    | SignupConfirmationEmail
    | EventNotificationEmail(eventId: Id)
    | EventCancelledEmail(eventId: Id, cancellationReason: Option<string>, rescheduleInfo: Option<string>)
    | EventReminderEmail(eventId: Id)
    | UpcomingEventsEmail(eventIds: seq<Id>)
    | RegistrationConfirmationEmail(eventId: Id, registrationId: Id)
    | NewLocationLoginEmail(info: LoginInfo)

  /** One sender call: an email, or an SMS to a number. */
  datatype Send = Email(request: EmailRequest) | Text(to: string, sms: Sms.SmsRequest)

  /** One attempted send and whether the sender raised. */
  datatype Attempt = Attempt(user: User, send: Send, raised: bool)

  /** Which sender calls raise (the senders themselves are not modelled). */
  type Raises = (User, Send) -> bool

  const DefaultSiteUrl := "https://djangocameroon.org"

  // --------------------------------------------------------------- helpers

  /** The SMS greeting: the first name when there is one, else the username. */
  function GreetingName(u: User): (r: string)
    ensures u.firstName != "" ==> r == u.firstName
    ensures u.firstName == "" ==> r == u.username
  {
    if u.firstName != "" then u.firstName else u.username
  }

  /** The site URL without trailing '/'. */
  function SiteRoot(siteUrl: string): (r: string)
    ensures r <= siteUrl && (r == [] || r[|r| - 1] != '/')
  {
    RStripChar(siteUrl, '/')
  }

  /** `f"{site_url.rstrip('/')}/events/{slug}"` */
  function EventUrl(siteUrl: string, slug: string): (r: string)
    ensures r == SiteRoot(siteUrl) + "/events/" + slug
    ensures EndsWith(r, "/events/" + slug)
  {
    SiteRoot(siteUrl) + "/events/" + slug
  }

  /** A trailing '/' on the site URL never doubles the slash in an event link. */
  lemma {:induction false} EventUrlIgnoresTrailingSlash(siteUrl: string, slug: string)
    ensures EventUrl(siteUrl + "/", slug) == EventUrl(siteUrl, slug)
  {
    var s := siteUrl + "/";
    assert s[..|s| - 1] == siteUrl;
    assert RStripBy(s, x => x == '/') == RStripBy(siteUrl, x => x == '/');
  }

  /**
   * `int(time_diff.total_seconds() / 3600)`: the whole hours until `date`,
   * truncated toward zero as `int()` does (in the past it is negative).
   */
  function HoursUntil(date: int, now: int): (h: int)
    ensures date >= now ==> h >= 0 && h * 3600 <= date - now < (h + 1) * 3600
    ensures date < now ==> h <= 0 && (h - 1) * 3600 < date - now <= h * 3600
  {
    var d := date - now;
    if d >= 0 then d / 3600 else -((-d) / 3600)
  }

  /** The location text of the event notification SMS. */
  function LocationText(e: Event): string {
    e.locationName + ", " + e.cityName
  }

  /** What the SMS channel sends for a new event. */
  function NewEventSms(siteUrl: string, e: Event): Sms.SmsRequest {
    Sms.EventNotificationSms(e.title, e.dateText, LocationText(e), EventUrl(siteUrl, e.slug))
  }

  /** What the SMS channel sends for a cancelled event. */
  function CancelledSms(siteUrl: string, e: Event): Sms.SmsRequest {
    Sms.EventCancelledSms(e.title, e.dayText, EventUrl(siteUrl, e.slug))
  }

  /** What the SMS channel sends for a reminder, `hours` hours ahead. */
  function ReminderSms(siteUrl: string, e: Event, hours: int): Sms.SmsRequest {
    Sms.EventReminderSms(e.title, e.dateText, hours, EventUrl(siteUrl, e.slug))
  }

  /** One digest line for an event: "TBA" without a date, the events page without a slug. */
  function DigestItemFor(siteUrl: string, e: Event): (item: DigestItem)
    ensures e.date.None? ==> item.when == "TBA"
    ensures e.slug == "" ==> item.url == SiteRoot(siteUrl) + "/events"
    ensures e.slug != "" ==> item.url == EventUrl(siteUrl, e.slug)
    ensures item.title == e.title
  {
    DigestItem(
      e.title,
      if e.date.Some? then e.monthDayText else "TBA",
      if e.slug != "" then EventUrl(siteUrl, e.slug) else SiteRoot(siteUrl) + "/events")
  }

  /** The digest items for the first three events, in order. */
  function DigestItems(siteUrl: string, events: seq<Event>): (items: seq<DigestItem>)
    ensures |items| == |FirstThree(events)| && |items| <= 3
    ensures forall i :: 0 <= i < |items| ==> items[i] == DigestItemFor(siteUrl, events[i])
  {
    var shown := FirstThree(events);
    seq(|shown|, i requires 0 <= i < |shown| => DigestItemFor(siteUrl, shown[i]))
  }

  /** The digest entry of an event, field by field. */
  lemma DigestItemForParts(siteUrl: string, e: Event)
    ensures DigestItemFor(siteUrl, e)
      == DigestItem(e.title, if e.date.Some? then e.monthDayText else "TBA",
                    if e.slug != "" then SiteRoot(siteUrl) + "/events/" + e.slug else SiteRoot(siteUrl) + "/events")
  {
  }

  /** Appending the next event's entry, built field by field, keeps the list entry by entry. */
  lemma DigestItemsStep(siteUrl: string, events: seq<Event>, items: seq<DigestItem>, item: DigestItem)
    requires |items| < |events|
    requires forall j :: 0 <= j < |items| ==> items[j] == DigestItemFor(siteUrl, events[j])
    requires var e := events[|items|];
      item == DigestItem(e.title, if e.date.Some? then e.monthDayText else "TBA",
                         if e.slug != "" then SiteRoot(siteUrl) + "/events/" + e.slug else SiteRoot(siteUrl) + "/events")
    ensures forall j :: 0 <= j < |items| + 1 ==> (items + [item])[j] == DigestItemFor(siteUrl, events[j])
  {
    DigestItemForParts(siteUrl, events[|items|]);
  }

  /** A list with the digest entry of each of the first (at most three) events is the digest list. */
  lemma DigestItemsByIndex(siteUrl: string, events: seq<Event>, items: seq<DigestItem>)
    requires |items| == (if |events| <= 3 then |events| else 3)
    requires forall j :: 0 <= j < |items| ==> items[j] == DigestItemFor(siteUrl, events[j])
    ensures items == DigestItems(siteUrl, events)
  {
  }

  function EventIds(events: seq<Event>): (ids: seq<Id>)
    ensures |ids| == |events| && forall i :: 0 <= i < |events| ==> ids[i] == events[i].id
  {
    seq(|events|, i requires 0 <= i < |events| => events[i].id)
  }

  /** What the SMS channel sends for a login alert. */
  function LoginAlertSms(info: LoginInfo, nowText: string): Sms.SmsRequest {
    Sms.NewLocationLoginSms(info.location.GetOr("Unknown location"), info.loginTime.GetOr(nowText))
  }

  // ------------------------------------------------------ the fan-out spec

  /** The attempts for one recipient: email first when on, then SMS when on and there is a phone. */
  function UserAttempts(u: User, sendEmail: bool, sendSms: bool,
                        email: EmailRequest, sms: Sms.SmsRequest, raises: Raises): seq<Attempt>
  {
    (if sendEmail then [Attempt(u, Email(email), raises(u, Email(email)))] else [])
    + (if sendSms && u.phone != "" then [Attempt(u, Text(u.phone, sms), raises(u, Text(u.phone, sms)))] else [])
  }

  /** The attempts for a list of recipients, recipient by recipient. */
  function FanOut(users: seq<User>, sendEmail: bool, sendSms: bool,
                  email: EmailRequest, sms: Sms.SmsRequest, raises: Raises): seq<Attempt>
    decreases |users|
  {
    if users == [] then []
    else FanOut(users[..|users| - 1], sendEmail, sendSms, email, sms, raises)
         + UserAttempts(users[|users| - 1], sendEmail, sendSms, email, sms, raises)
  }

  /** The recipients of the email attempts, in order. */
  function EmailRecipients(t: seq<Attempt>): seq<User>
    decreases |t|
  {
    if t == [] then []
    else EmailRecipients(t[..|t| - 1]) + (if t[|t| - 1].send.Email? then [t[|t| - 1].user] else [])
  }

  /** The recipients of the SMS attempts, in order. */
  function SmsRecipients(t: seq<Attempt>): seq<User>
    decreases |t|
  {
    if t == [] then []
    else SmsRecipients(t[..|t| - 1]) + (if t[|t| - 1].send.Text? then [t[|t| - 1].user] else [])
  }

  /** The recipients that have a phone number, in order. */
  function WithPhone(users: seq<User>): (r: seq<User>)
    ensures forall i :: 0 <= i < |r| ==> r[i].phone != "" && r[i] in users
    decreases |users|
  {
    if users == [] then []
    else WithPhone(users[..|users| - 1]) + (if users[|users| - 1].phone != "" then [users[|users| - 1]] else [])
  }

  /** Which sends are attempted, for whom, leaving out whether they raised. */
  function Planned(t: seq<Attempt>): (p: seq<(User, Send)>)
    ensures |p| == |t| && forall i :: 0 <= i < |t| ==> p[i] == (t[i].user, t[i].send)
  {
    seq(|t|, i requires 0 <= i < |t| => (t[i].user, t[i].send))
  }

  lemma {:induction false} EmailRecipientsAppend(a: seq<Attempt>, b: seq<Attempt>)
    ensures EmailRecipients(a + b) == EmailRecipients(a) + EmailRecipients(b)
    decreases |b|
  {
    if b != [] {
      assert (a + b)[..|a + b| - 1] == a + b[..|b| - 1];
      EmailRecipientsAppend(a, b[..|b| - 1]);
    } else {
      assert a + b == a;
    }
  }

  lemma {:induction false} SmsRecipientsAppend(a: seq<Attempt>, b: seq<Attempt>)
    ensures SmsRecipients(a + b) == SmsRecipients(a) + SmsRecipients(b)
    decreases |b|
  {
    if b != [] {
      assert (a + b)[..|a + b| - 1] == a + b[..|b| - 1];
      SmsRecipientsAppend(a, b[..|b| - 1]);
    } else {
      assert a + b == a;
    }
  }

  /** A one-recipient fan-out is that recipient's attempts. */
  lemma FanOutSingle(u: User, sendEmail: bool, sendSms: bool, email: EmailRequest, sms: Sms.SmsRequest, raises: Raises)
    ensures FanOut([u], sendEmail, sendSms, email, sms, raises) == UserAttempts(u, sendEmail, sendSms, email, sms, raises)
  {
    assert [u][..0] == [];
  }

  /** Extending the recipients by one appends that recipient's attempts. */
  lemma FanOutSnoc(users: seq<User>, i: nat, sendEmail: bool, sendSms: bool, email: EmailRequest, sms: Sms.SmsRequest,
                   raises: Raises)
    requires i < |users|
    ensures FanOut(users[..i + 1], sendEmail, sendSms, email, sms, raises)
         == FanOut(users[..i], sendEmail, sendSms, email, sms, raises) + UserAttempts(users[i], sendEmail, sendSms, email, sms, raises)
  {
    assert users[..i + 1][..i] == users[..i];
  }

  /** The log after the email block and then the SMS block for one recipient. */
  lemma UserAttemptsSteps(before: seq<Attempt>, mid: seq<Attempt>, after: seq<Attempt>, u: User,
                          sendEmail: bool, sendSms: bool, email: EmailRequest, sms: Sms.SmsRequest, raises: Raises)
    requires mid == before + (if sendEmail then [Attempt(u, Email(email), raises(u, Email(email)))] else [])
    requires after == mid + (if sendSms && u.phone != "" then [Attempt(u, Text(u.phone, sms), raises(u, Text(u.phone, sms)))] else [])
    ensures after == before + UserAttempts(u, sendEmail, sendSms, email, sms, raises)
  {
  }

  /** The fan-out log after one more recipient's attempts are appended. */
  lemma FanOutExtend(start: seq<Attempt>, before: seq<Attempt>, after: seq<Attempt>, users: seq<User>, i: nat,
                     sendEmail: bool, sendSms: bool, email: EmailRequest, sms: Sms.SmsRequest, raises: Raises)
    requires i < |users|
    requires before == start + FanOut(users[..i], sendEmail, sendSms, email, sms, raises)
    requires after == before + UserAttempts(users[i], sendEmail, sendSms, email, sms, raises)
    ensures after == start + FanOut(users[..i + 1], sendEmail, sendSms, email, sms, raises)
  {
    FanOutSnoc(users, i, sendEmail, sendSms, email, sms, raises);
  }

  /** The same step, with the new recipient's attempts written as a one-recipient fan-out. */
  lemma FanOutExtendOne(start: seq<Attempt>, before: seq<Attempt>, after: seq<Attempt>, users: seq<User>, i: nat,
                        sendEmail: bool, sendSms: bool, email: EmailRequest, sms: Sms.SmsRequest, raises: Raises)
    requires i < |users|
    requires before == start + FanOut(users[..i], sendEmail, sendSms, email, sms, raises)
    requires after == before + FanOut([users[i]], sendEmail, sendSms, email, sms, raises)
    ensures after == start + FanOut(users[..i + 1], sendEmail, sendSms, email, sms, raises)
  {
    FanOutSingle(users[i], sendEmail, sendSms, email, sms, raises);
    FanOutExtend(start, before, after, users, i, sendEmail, sendSms, email, sms, raises);
  }

  /** One recipient's attempts: the email one when on, the SMS one when on and there is a phone. */
  lemma UserAttemptsRecipients(u: User, sendEmail: bool, sendSms: bool,
                               email: EmailRequest, sms: Sms.SmsRequest, raises: Raises)
    ensures EmailRecipients(UserAttempts(u, sendEmail, sendSms, email, sms, raises)) == (if sendEmail then [u] else [])
    ensures SmsRecipients(UserAttempts(u, sendEmail, sendSms, email, sms, raises))
         == (if sendSms && u.phone != "" then [u] else [])
  {
    var e := if sendEmail then [Attempt(u, Email(email), raises(u, Email(email)))] else [];
    var t := if sendSms && u.phone != "" then [Attempt(u, Text(u.phone, sms), raises(u, Text(u.phone, sms)))] else [];
    assert UserAttempts(u, sendEmail, sendSms, email, sms, raises) == e + t;
    EmailRecipientsAppend(e, t);
    SmsRecipientsAppend(e, t);
    if e != [] { assert e[..0] == []; }
    if t != [] { assert t[..0] == []; }
  }

  /** The email recipients of a fan-out are those of all but the last recipient, then the last one when email is on. */
  lemma FanOutEmailsStep(users: seq<User>, sendEmail: bool, sendSms: bool,
                         email: EmailRequest, sms: Sms.SmsRequest, raises: Raises)
    requires users != []
    ensures EmailRecipients(FanOut(users, sendEmail, sendSms, email, sms, raises))
         == EmailRecipients(FanOut(users[..|users| - 1], sendEmail, sendSms, email, sms, raises))
            + (if sendEmail then [users[|users| - 1]] else [])
  {
    var u := users[|users| - 1];
    EmailRecipientsAppend(FanOut(users[..|users| - 1], sendEmail, sendSms, email, sms, raises),
                          UserAttempts(u, sendEmail, sendSms, email, sms, raises));
    UserAttemptsRecipients(u, sendEmail, sendSms, email, sms, raises);
  }

  /** Every recipient gets an email attempt exactly when email is on, in recipient order. */
  lemma {:induction false} FanOutEmailsEveryone(users: seq<User>, sendEmail: bool, sendSms: bool,
                                                email: EmailRequest, sms: Sms.SmsRequest, raises: Raises)
    ensures EmailRecipients(FanOut(users, sendEmail, sendSms, email, sms, raises)) == (if sendEmail then users else [])
    decreases |users|
  {
    if users != [] {
      var init, u := users[..|users| - 1], users[|users| - 1];
      FanOutEmailsEveryone(init, sendEmail, sendSms, email, sms, raises);
      FanOutEmailsStep(users, sendEmail, sendSms, email, sms, raises);
      if sendEmail {
        assert users == init + [u];
      }
    }
  }

  /**
   * The SMS attempts go exactly to the recipients with a phone number when SMS
   * is on, in recipient order; recipients without one are skipped.
   */
  lemma {:induction false} FanOutTextsThoseWithPhones(users: seq<User>, sendEmail: bool, sendSms: bool,
                                                      email: EmailRequest, sms: Sms.SmsRequest, raises: Raises)
    ensures SmsRecipients(FanOut(users, sendEmail, sendSms, email, sms, raises)) == (if sendSms then WithPhone(users) else [])
    decreases |users|
  {
    if users != [] {
      var init, u := users[..|users| - 1], users[|users| - 1];
      FanOutTextsThoseWithPhones(init, sendEmail, sendSms, email, sms, raises);
      SmsRecipientsAppend(FanOut(init, sendEmail, sendSms, email, sms, raises),
                          UserAttempts(u, sendEmail, sendSms, email, sms, raises));
      UserAttemptsRecipients(u, sendEmail, sendSms, email, sms, raises);
    }
  }

  /**
   * Failures are isolated: which sends are attempted, for whom and in what
   * order does not depend on which of them raise.
   */
  lemma {:induction false} FanOutIgnoresFailures(users: seq<User>, sendEmail: bool, sendSms: bool,
                                                 email: EmailRequest, sms: Sms.SmsRequest, r1: Raises, r2: Raises)
    ensures Planned(FanOut(users, sendEmail, sendSms, email, sms, r1))
         == Planned(FanOut(users, sendEmail, sendSms, email, sms, r2))
    decreases |users|
  {
    if users != [] {
      var init, u := users[..|users| - 1], users[|users| - 1];
      FanOutIgnoresFailures(init, sendEmail, sendSms, email, sms, r1, r2);
      var a1, a2 := FanOut(init, sendEmail, sendSms, email, sms, r1), FanOut(init, sendEmail, sendSms, email, sms, r2);
      var o1, o2 := UserAttempts(u, sendEmail, sendSms, email, sms, r1), UserAttempts(u, sendEmail, sendSms, email, sms, r2);
      assert |a1| == |Planned(a1)| == |Planned(a2)| == |a2|;
      assert |o1| == |o2|;
      var t1, t2 := a1 + o1, a2 + o2;
      forall i | 0 <= i < |t1| ensures (t1[i].user, t1[i].send) == (t2[i].user, t2[i].send) {
        if i < |a1| {
          assert Planned(a1)[i] == Planned(a2)[i];
        }
      }
    }
  }

  /** Every attempt carries the operation's request, and every SMS goes to its recipient's own, non-empty number. */
  lemma {:induction false} FanOutSendsWhatWasAsked(users: seq<User>, sendEmail: bool, sendSms: bool,
                                                   email: EmailRequest, sms: Sms.SmsRequest, raises: Raises)
    ensures forall a :: a in FanOut(users, sendEmail, sendSms, email, sms, raises) ==>
      && a.user in users
      && (a.send.Email? ==> sendEmail && a.send.request == email)
      && (a.send.Text? ==> sendSms && a.send.sms == sms && a.send.to == a.user.phone && a.user.phone != "")
      && a.raised == raises(a.user, a.send)
    decreases |users|
  {
    if users != [] {
      var init := users[..|users| - 1];
      FanOutSendsWhatWasAsked(init, sendEmail, sendSms, email, sms, raises);
      assert forall v :: v in init ==> v in users;
    }
  }

  /**
   * The outcomes with the mail service as given: it defines none of the
   * per-kind senders, so every email call raises `AttributeError`; SMS calls
   * raise as `smsRaises` says.
   */
  function MailSendersMissing(smsRaises: Raises): Raises {
    (u: User, s: Send) => s.Email? || smsRaises(u, s)
  }

  /**
   * With the mail service as given every email attempt raises and is
   * swallowed, while the SMS attempts are exactly those made when the
   * email calls succeed.
   */
  lemma EmailsRaiseSmsUnaffected(users: seq<User>, sendEmail: bool, sendSms: bool,
                                 email: EmailRequest, sms: Sms.SmsRequest, smsRaises: Raises)
    ensures var t := FanOut(users, sendEmail, sendSms, email, sms, MailSendersMissing(smsRaises));
      var u := FanOut(users, sendEmail, sendSms, email, sms, smsRaises);
      && (forall a :: a in t && a.send.Email? ==> a.raised)
      && |t| == |u|
      && (forall i :: 0 <= i < |t| && t[i].send.Text? ==> t[i] == u[i])
  {
    var t := FanOut(users, sendEmail, sendSms, email, sms, MailSendersMissing(smsRaises));
    var u := FanOut(users, sendEmail, sendSms, email, sms, smsRaises);
    FanOutSendsWhatWasAsked(users, sendEmail, sendSms, email, sms, MailSendersMissing(smsRaises));
    FanOutSendsWhatWasAsked(users, sendEmail, sendSms, email, sms, smsRaises);
    FanOutIgnoresFailures(users, sendEmail, sendSms, email, sms, MailSendersMissing(smsRaises), smsRaises);
    assert |t| == |Planned(t)| == |Planned(u)| == |u|;
    forall i | 0 <= i < |t| && t[i].send.Text? ensures t[i] == u[i] {
      assert Planned(t)[i] == Planned(u)[i];
      assert t[i] in t && u[i] in u;
    }
  }

  // ------------------------------------------------------------ the service

  class NotificationService {
    const siteUrl: string
    /** Every sender call made, oldest first, with whether it raised. */
    var outbox: seq<Attempt>

    constructor (siteUrl: string)
      ensures this.siteUrl == siteUrl && outbox == []
    {
      this.siteUrl := siteUrl;
      outbox := [];
    }

    /** One guarded sender call: the exception, if any, is logged and swallowed. */
    method Try(u: User, send: Send, raises: Raises)
      modifies this
      ensures outbox == old(outbox) + [Attempt(u, send, raises(u, send))]
    {
      var raised := raises(u, send);
      outbox := outbox + [Attempt(u, send, raised)];
    }

    /** The two guarded blocks for one recipient. */
    method NotifyOne(u: User, sendEmail: bool, sendSms: bool, email: EmailRequest, sms: Sms.SmsRequest, raises: Raises)
      modifies this
      ensures outbox == old(outbox) + UserAttempts(u, sendEmail, sendSms, email, sms, raises)
    {
      if sendEmail {
        Try(u, Email(email), raises);
      }
      if sendSms && u.phone != "" {
        Try(u, Text(u.phone, sms), raises);
      }
    }

    /** `for user in users:` with the two guarded blocks in the body. */
    method NotifyAll(users: seq<User>, sendEmail: bool, sendSms: bool, email: EmailRequest, sms: Sms.SmsRequest, raises: Raises)
      modifies this
      ensures outbox == old(outbox) + FanOut(users, sendEmail, sendSms, email, sms, raises)
    {
      var i := 0;
      while i < |users|
        invariant 0 <= i <= |users|
        invariant outbox == old(outbox) + FanOut(users[..i], sendEmail, sendSms, email, sms, raises)
      {
        ghost var before := outbox;
        NotifyOne(users[i], sendEmail, sendSms, email, sms, raises);
        FanOutExtend(old(outbox), before, outbox, users, i, sendEmail, sendSms, email, sms, raises);
        i := i + 1;
      }
      assert users[..i] == users;
    }

    /** `send_welcome_notification` */
    method SendWelcomeNotification(u: User, sendSms: bool, sendEmail: bool, raises: Raises)
      modifies this
      ensures outbox == old(outbox) + UserAttempts(u, sendEmail, sendSms, WelcomeEmail, Sms.WelcomeSms(GreetingName(u)), raises)
    {
      NotifyOne(u, sendEmail, sendSms, WelcomeEmail, Sms.WelcomeSms(GreetingName(u)), raises);
    }

    /** `send_signup_registration_notification` */
    method SendSignupRegistrationNotification(u: User, sendSms: bool, sendEmail: bool, raises: Raises)
      modifies this
      ensures outbox == old(outbox)
        + UserAttempts(u, sendEmail, sendSms, SignupConfirmationEmail, Sms.SignupConfirmationSms(GreetingName(u)), raises)
    {
      NotifyOne(u, sendEmail, sendSms, SignupConfirmationEmail, Sms.SignupConfirmationSms(GreetingName(u)), raises);
    }

    /** `send_event_notification` */
    method SendEventNotification(users: seq<User>, e: Event, sendSms: bool, sendEmail: bool, raises: Raises)
      modifies this
      ensures outbox == old(outbox) + FanOut(users, sendEmail, sendSms, EventNotificationEmail(e.id), NewEventSms(siteUrl, e), raises)
    {
      NotifyAll(users, sendEmail, sendSms, EventNotificationEmail(e.id), NewEventSms(siteUrl, e), raises);
    }

    /** `send_event_cancelled_notification` */
    method SendEventCancelledNotification(users: seq<User>, e: Event, reason: Option<string>, rescheduleInfo: Option<string>,
                                          sendSms: bool, sendEmail: bool, raises: Raises)
      modifies this
      ensures outbox == old(outbox)
        + FanOut(users, sendEmail, sendSms, EventCancelledEmail(e.id, reason, rescheduleInfo), CancelledSms(siteUrl, e), raises)
    {
      NotifyAll(users, sendEmail, sendSms, EventCancelledEmail(e.id, reason, rescheduleInfo), CancelledSms(siteUrl, e), raises);
    }

    /**
     * `send_event_reminder`: the hours until the event are worked out once,
     * before the loop. An event without a date makes that subtraction raise,
     * out of any try block: nothing is attempted and `completed` is false.
     */
    method SendEventReminder(users: seq<User>, e: Event, now: int, sendSms: bool, sendEmail: bool, raises: Raises)
      returns (completed: bool)
      modifies this
      ensures completed <==> e.date.Some?
      ensures !completed ==> outbox == old(outbox)
      ensures completed ==> (outbox == old(outbox)
        + FanOut(users, sendEmail, sendSms, EventReminderEmail(e.id), ReminderSms(siteUrl, e, HoursUntil(e.date.value, now)), raises))
    {
      if e.date.None? {
        return false;
      }
      var diff := e.date.value - now;
      var hoursUntil := if diff >= 0 then diff / 3600 else -((-diff) / 3600);
      NotifyAll(users, sendEmail, sendSms, EventReminderEmail(e.id), ReminderSms(siteUrl, e, hoursUntil), raises);
      completed := true;
    }

    /** The `event_items` list the digest SMS is built from. */
    method BuildDigestItems(events: seq<Event>) returns (items: seq<DigestItem>)
      ensures items == DigestItems(siteUrl, events)
    {
      items := [];
      var n := if |events| <= 3 then |events| else 3;
      var k := 0;
      while k < n
        invariant 0 <= k <= n
        invariant |items| == k
        invariant forall j :: 0 <= j < k ==> items[j] == DigestItemFor(siteUrl, events[j])
      {
        var ev := events[k];
        var whenText := if ev.date.Some? then ev.monthDayText else "TBA";
        var url := if ev.slug != "" then SiteRoot(siteUrl) + "/events/" + ev.slug else SiteRoot(siteUrl) + "/events";
        var item := DigestItem(ev.title, whenText, url);
        DigestItemsStep(siteUrl, events, items, item);
        items := items + [item];
        k := k + 1;
      }
      DigestItemsByIndex(siteUrl, events, items);
    }

    /**
     * `send_upcoming_events_digest`: the SMS hands the SMS service at most
     * three items and the unmodified site URL (the SMS service cleans it).
     */
    method SendUpcomingEventsDigest(users: seq<User>, events: seq<Event>, sendSms: bool, sendEmail: bool, raises: Raises)
      modifies this
      ensures outbox == old(outbox)
        + FanOut(users, sendEmail, sendSms, UpcomingEventsEmail(EventIds(events)),
                 Sms.UpcomingEventsDigestSms(DigestItems(siteUrl, events), siteUrl), raises)
    {
      ghost var email := UpcomingEventsEmail(EventIds(events));
      ghost var sms := Sms.UpcomingEventsDigestSms(DigestItems(siteUrl, events), siteUrl);
      var i := 0;
      while i < |users|
        invariant 0 <= i <= |users|
        invariant outbox == old(outbox) + FanOut(users[..i], sendEmail, sendSms, email, sms, raises)
      {
        ghost var before := outbox;
        DigestOne(users[i], events, sendSms, sendEmail, raises);
        FanOutExtend(old(outbox), before, outbox, users, i, sendEmail, sendSms, email, sms, raises);
        i := i + 1;
      }
      assert users[..i] == users;
    }

    /** One pass of the digest loop: the email block, then the SMS block that builds the items. */
    method DigestOne(u: User, events: seq<Event>, sendSms: bool, sendEmail: bool, raises: Raises)
      modifies this
      ensures outbox == old(outbox)
        + UserAttempts(u, sendEmail, sendSms, UpcomingEventsEmail(EventIds(events)),
                       Sms.UpcomingEventsDigestSms(DigestItems(siteUrl, events), siteUrl), raises)
    {
      ghost var email := UpcomingEventsEmail(EventIds(events));
      ghost var sms := Sms.UpcomingEventsDigestSms(DigestItems(siteUrl, events), siteUrl);
      ghost var before := outbox;
      if sendEmail {
        Try(u, Email(UpcomingEventsEmail(EventIds(events))), raises);
      }
      ghost var mid := outbox;
      if sendSms && u.phone != "" {
        var items := BuildDigestItems(events);
        Try(u, Text(u.phone, Sms.UpcomingEventsDigestSms(items, siteUrl)), raises);
      }
      UserAttemptsSteps(before, mid, outbox, u, sendEmail, sendSms, email, sms, raises);
    }

    /** `send_registration_confirmation` */
    method SendRegistrationConfirmation(u: User, e: Event, registration: Registration,
                                        sendSms: bool, sendEmail: bool, raises: Raises)
      modifies this
      ensures outbox == old(outbox)
        + UserAttempts(u, sendEmail, sendSms, RegistrationConfirmationEmail(e.id, registration.id),
                       Sms.RegistrationConfirmationSms(e.title, registration.code, EventUrl(siteUrl, e.slug)), raises)
    {
      NotifyOne(u, sendEmail, sendSms, RegistrationConfirmationEmail(e.id, registration.id),
                Sms.RegistrationConfirmationSms(e.title, registration.code, EventUrl(siteUrl, e.slug)), raises);
    }

    /** `send_new_location_login_alert`; `nowText` is the current time, rendered, for a missing login time. */
    method SendNewLocationLoginAlert(u: User, info: LoginInfo, nowText: string, sendSms: bool, sendEmail: bool, raises: Raises)
      modifies this
      ensures outbox == old(outbox)
        + UserAttempts(u, sendEmail, sendSms, NewLocationLoginEmail(info), LoginAlertSms(info, nowText), raises)
    {
      NotifyOne(u, sendEmail, sendSms, NewLocationLoginEmail(info), LoginAlertSms(info, nowText), raises);
    }
  }

  /** The reminder tells every recipient the same number of hours. */
  lemma ReminderHoursShared(users: seq<User>, siteUrl: string, e: Event, hours: int, sendEmail: bool, sendSms: bool, raises: Raises)
    ensures forall a :: (a in FanOut(users, sendEmail, sendSms, EventReminderEmail(e.id), ReminderSms(siteUrl, e, hours), raises)
      && a.send.Text?) ==> a.send.sms.EventReminderSms? && a.send.sms.hoursUntil == hours
  {
    FanOutSendsWhatWasAsked(users, sendEmail, sendSms, EventReminderEmail(e.id), ReminderSms(siteUrl, e, hours), raises);
  }
}
