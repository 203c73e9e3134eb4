/**
 * The inline SMS texts of `SMSTemplates`: the fallback messages that the SMS
 * service sends whenever the plain-text SMS template cannot be rendered.
 * An optional argument that the source tests only for truthiness (`if
 * event_url:`, `item.get('url')`, ...) is the empty string when absent.
 */
module SmsTemplates {
  import opened Text

  const WelcomeOpening := "Welcome to Django Cameroon, "
  const WelcomeClosing := "! We're excited to have you in our community. Visit djangocameroon.site to explore events."
  const SignupOpening := "Hi "
  const SignupClosing := ", your Django Cameroon account is ready. Log in at djangocameroon.site to complete your profile and join upcoming events."
  const OtpOpening := "Your Django Cameroon verification code is: "
  const OtpClosing := ". This code expires in 10 minutes."

  const RegisterNow := " Register now at djangocameroon.site"
  const CheckEmail := " Check your email for details."
  const SeeYouThere := " See you there!"
  const YourCode := " Your code: "
  const LessThanAnHour := "in less than 1 hour"

  /** SMSTemplates.welcome */
  function Welcome(userName: string): (r: string)
    ensures |r| == |WelcomeOpening| + |userName| + |WelcomeClosing|
    ensures r[..|WelcomeOpening|] == WelcomeOpening
    ensures r[|WelcomeOpening|..|WelcomeOpening| + |userName|] == userName
    ensures EndsWith(r, WelcomeClosing)
  {
    WelcomeOpening + userName + WelcomeClosing
  }

  /** SMSTemplates.signup_confirmation */
  function SignupConfirmation(userName: string): (r: string)
    ensures |r| == |SignupOpening| + |userName| + |SignupClosing|
    ensures r[..|SignupOpening|] == SignupOpening
    ensures r[|SignupOpening|..|SignupOpening| + |userName|] == userName
    ensures EndsWith(r, SignupClosing)
  {
    SignupOpening + userName + SignupClosing
  }

  /** SMSTemplates.otp */
  function Otp(otpCode: string): (r: string)
    ensures |r| == |OtpOpening| + |otpCode| + |OtpClosing|
    ensures r[..|OtpOpening|] == OtpOpening
    ensures r[|OtpOpening|..|OtpOpening| + |otpCode|] == otpCode
    ensures EndsWith(r, OtpClosing)
  {
    OtpOpening + otpCode + OtpClosing
  }

  /** The message names the value it was built from: different values give different texts. */
  lemma {:induction false} FramedInjective(opening: string, a: string, b: string, closing: string)
    requires opening + a + closing == opening + b + closing
    ensures a == b
  {
    var x, y := opening + a + closing, opening + b + closing;
    assert |a| == |b|;
    assert a == x[|opening|..|opening| + |a|];
    assert b == y[|opening|..|opening| + |b|];
  }

  /** Welcome, signup and OTP texts are injective in the name or code they carry. */
  lemma SingleValueTextsInjective(a: string, b: string)
    ensures Welcome(a) == Welcome(b) ==> a == b
    ensures SignupConfirmation(a) == SignupConfirmation(b) ==> a == b
    ensures Otp(a) == Otp(b) ==> a == b
  {
    if Welcome(a) == Welcome(b) { FramedInjective(WelcomeOpening, a, b, WelcomeClosing); }
    if SignupConfirmation(a) == SignupConfirmation(b) { FramedInjective(SignupOpening, a, b, SignupClosing); }
    if Otp(a) == Otp(b) { FramedInjective(OtpOpening, a, b, OtpClosing); }
  }

  function EventBase(title: string, date: string, location: string): string {
    "New Event: " + title + " on " + date + " at " + location + "."
  }

  /** SMSTemplates.event_notification: the link when there is one, else the register-now line. */
  function EventNotification(title: string, date: string, location: string, url: string): (r: string)
    ensures EventBase(title, date, location) <= r
    ensures url != "" ==> EndsWith(r, " " + url)
    ensures url == "" ==> EndsWith(r, RegisterNow)
    ensures |r| == |EventBase(title, date, location)| + (if url != "" then 1 + |url| else |RegisterNow|)
  {
    var base := EventBase(title, date, location);
    if url != "" then base + " " + url else base + RegisterNow
  }

  function CancelledBase(title: string, date: string): string {
    "CANCELLED: " + title + " scheduled for " + date + " has been cancelled."
  }

  /** SMSTemplates.event_cancelled: the link when there is one, else the check-your-email line. */
  function EventCancelled(title: string, date: string, url: string): (r: string)
    ensures CancelledBase(title, date) <= r
    ensures url != "" ==> EndsWith(r, " " + url)
    ensures url == "" ==> EndsWith(r, CheckEmail)
    ensures |r| == |CancelledBase(title, date)| + (if url != "" then 1 + |url| else |CheckEmail|)
  {
    var base := CancelledBase(title, date);
    if url != "" then base + " " + url else base + CheckEmail
  }

  /**
   * The relative-time phrase of a reminder. At most one hour (zero and
   * negative values included) reads "in less than 1 hour", and nothing
   * else does; below a day the hours are counted; from 24 hours on, the
   * whole days `hours / 24`, with "days" only from two days on.
   */
  function TimeText(hoursUntil: int): (r: string)
    ensures (r == LessThanAnHour) <==> hoursUntil <= 1
    ensures 1 < hoursUntil < 24 ==> r == "in " + NatToString(hoursUntil) + " hours"
    ensures hoursUntil >= 24 ==>
      r == "in " + NatToString(hoursUntil / 24) + (if hoursUntil >= 48 then " days" else " day")
  {
    if hoursUntil <= 1 then LessThanAnHour
    else
      var digits := if hoursUntil < 24 then NatToString(hoursUntil) else NatToString(hoursUntil / 24);
      assert "in " <= LessThanAnHour && LessThanAnHour[3] == 'l' && IsDigit(digits[0]);
      if hoursUntil < 24 then
        var r := "in " + digits + " hours";
        assert r[3] == digits[0];
        r
      else
        var days := hoursUntil / 24;
        var r := "in " + digits + (if days > 1 then " days" else " day");
        assert r[3] == digits[0];
        r
  }

  /** The day count in a reminder reads back as `hours / 24`. */
  lemma TimeTextDays(hoursUntil: int)
    requires hoursUntil >= 24
    ensures var d := NatToString(hoursUntil / 24);
      TimeText(hoursUntil)[3..3 + |d|] == d && ParseNat(d) == hoursUntil / 24
  {
    ParseNatToString(hoursUntil / 24);
  }

  /** The values the phrasing is documented with. */
  lemma TimeTextExamples()
    ensures TimeText(0) == LessThanAnHour
    ensures TimeText(-3) == LessThanAnHour
    ensures TimeText(1) == LessThanAnHour
    ensures TimeText(5) == "in 5 hours"
    ensures TimeText(25) == "in 1 day"
    ensures TimeText(48) == "in 2 days"
  {
  }

  function ReminderBase(title: string, hoursUntil: int): string {
    "Reminder: " + title + " starts " + TimeText(hoursUntil) + "!"
  }

  /** SMSTemplates.event_reminder */
  function EventReminder(title: string, date: string, hoursUntil: int, url: string): (r: string)
    ensures ReminderBase(title, hoursUntil) <= r
    ensures url != "" ==> EndsWith(r, " " + url)
    ensures url == "" ==> EndsWith(r, SeeYouThere)
    ensures |r| == |ReminderBase(title, hoursUntil)| + (if url != "" then 1 + |url| else |SeeYouThere|)
  {
    var base := ReminderBase(title, hoursUntil);
    var tail := if url != "" then " " + url else SeeYouThere;
    var r := base + tail;
    assert r[..|base|] == base && r[|base|..] == tail;
    r
  }

  function RegistrationBase(title: string): string {
    "Registration confirmed for " + title + "!"
  }

  /**
   * SMSTemplates.registration_confirmation: " Your code: X" right after the
   * opening exactly when a code is given (otherwise nothing is inserted
   * there), then the link or the check-your-email line.
   */
  function RegistrationConfirmation(title: string, code: string, url: string): (r: string)
    ensures RegistrationBase(title) <= r
    ensures code != "" ==> OccursAt(r, YourCode + code, |RegistrationBase(title)|)
    ensures url != "" ==> EndsWith(r, " " + url)
    ensures url == "" ==> EndsWith(r, CheckEmail)
    ensures |r| == |RegistrationBase(title)|
                   + (if code != "" then |YourCode| + |code| else 0)
                   + (if url != "" then 1 + |url| else |CheckEmail|)
  {
    var base := RegistrationBase(title);
    var withCode := if code != "" then base + YourCode + code else base;
    var r := if url != "" then withCode + " " + url else withCode + CheckEmail;
    assert r[..|withCode|] == withCode;
    r
  }

  const AlertOpening := "Security Alert: New login detected from "
  const AlertAt := " at "
  const AlertClosing := ". If this wasn't you, secure your account immediately."

  /** SMSTemplates.new_location_login: the place, then the time, framed by the fixed alert sentences. */
  function NewLocationLogin(location: string, time: string): (r: string)
    ensures |r| == |AlertOpening| + |location| + |AlertAt| + |time| + |AlertClosing|
    ensures AlertOpening + location + AlertAt + time <= r
    ensures r[|AlertOpening|..|AlertOpening| + |location|] == location
    ensures EndsWith(r, AlertClosing)
  {
    var r := AlertOpening + location + AlertAt + time + AlertClosing;
    assert r[|AlertOpening|..|AlertOpening| + |location|] == location;
    r
  }

  /** One entry of the digest; an empty field stands for a missing or empty dict value. */
  datatype DigestItem = DigestItem(title: string, when: string, url: string)

  /** The text of one digest entry: "Event" and "TBA" stand in for a missing title and date. */
  function ItemText(item: DigestItem): (r: string)
    ensures var t := if item.title != "" then item.title else "Event";
      var w := if item.when != "" then item.when else "TBA";
      && |r| == |t| + 2 + |w| + (if item.url != "" then 3 + |item.url| else 1)
      && t + " (" <= r
      && r[|t| + 2..|t| + 2 + |w|] == w
    ensures item.url != "" ==> EndsWith(r, "): " + item.url)
    ensures item.url == "" ==> EndsWith(r, ")")
  {
    var title := if item.title != "" then item.title else "Event";
    var when := if item.when != "" then item.when else "TBA";
    var head := title + " (" + when;
    var r := if item.url != "" then head + "): " + item.url else head + ")";
    assert r[..|head|] == head;
    assert head[|title| + 2..] == when;
    r
  }

  /** The `parts` list the digest loop builds: one entry text per item, in order. */
  function DigestParts(items: seq<DigestItem>): (parts: seq<string>)
    ensures |parts| == |items|
    ensures forall i :: 0 <= i < |items| ==> parts[i] == ItemText(items[i])
  {
    seq(|items|, i requires 0 <= i < |items| => ItemText(items[i]))
  }

  /** `items[:3]` */
  function FirstThree<T>(items: seq<T>): (r: seq<T>)
    ensures |r| == if |items| < 3 then |items| else 3
    ensures r <= items
  {
    if |items| <= 3 then items else items[..3]
  }

  const DigestOpening := "Upcoming events: "

  /**
   * SMSTemplates.upcoming_events_digest: the bare link for no items; otherwise
   * the first three entries joined by "; ", then a "More:" link.
   */
  function UpcomingEventsDigest(items: seq<DigestItem>, siteUrl: string): (r: string)
    ensures DigestOpening <= r
    ensures EndsWith(r, siteUrl + "/events")
    ensures items == [] ==> r == DigestOpening + siteUrl + "/events"
    ensures items != [] ==> EndsWith(r, " More: " + siteUrl + "/events")
  {
    if items == [] then
      PrefixAndTail(DigestOpening, siteUrl, "/events");
      DigestOpening + siteUrl + "/events"
    else
      var listed := Join(DigestParts(FirstThree(items)), "; ");
      var tail := " More: " + siteUrl + "/events";
      PrefixAndLongTail(DigestOpening, listed, " More: ", siteUrl, "/events");
      DigestOpening + listed + tail
  }

  /** Every part appears in the joined text. */
  lemma {:induction false} JoinContains(parts: seq<string>, sep: string, i: nat)
    requires i < |parts|
    ensures Contains(Join(parts, sep), parts[i])
    decreases |parts|
  {
    var j := Join(parts, sep);
    if |parts| == 1 {
      assert OccursAt(j, parts[0], 0);
    } else if i == 0 {
      assert j[0..|parts[0]|] == parts[0];
      assert OccursAt(j, parts[0], 0);
    } else {
      JoinContains(parts[1..], sep, i - 1);
      var rest := Join(parts[1..], sep);
      var k :| 0 <= k <= |rest| - |parts[i]| && OccursAt(rest, parts[i], k);
      var off := |parts[0]| + |sep|;
      assert j == parts[0] + sep + rest;
      assert j[off + k..off + k + |parts[i]|] == rest[k..k + |parts[i]|];
      assert OccursAt(j, parts[i], off + k);
    }
  }

  /** Text found in the middle piece is found in the whole. */
  lemma ContainsInMiddle(a: string, b: string, c: string, sub: string)
    requires Contains(b, sub)
    ensures Contains(a + b + c, sub)
  {
    var k :| 0 <= k <= |b| - |sub| && OccursAt(b, sub, k);
    var w := a + b + c;
    assert w[|a| + k..|a| + k + |sub|] == b[k..k + |sub|];
    assert OccursAt(w, sub, |a| + k);
  }

  /** Each of the first three items is shown in the digest. */
  lemma DigestShowsFirstThree(items: seq<DigestItem>, siteUrl: string, i: nat)
    requires i < |items| && i < 3
    ensures Contains(UpcomingEventsDigest(items, siteUrl), ItemText(items[i]))
  {
    var shown := FirstThree(items);
    assert shown[i] == items[i];
    var parts := DigestParts(shown);
    assert parts[i] == ItemText(items[i]);
    var joined := Join(parts, "; ");
    JoinContains(parts, "; ", i);
    var tail := " More: " + siteUrl + "/events";
    ContainsInMiddle(DigestOpening, joined, tail, parts[i]);
    assert UpcomingEventsDigest(items, siteUrl) == DigestOpening + joined + tail;
  }

  /** Items after the third never change the digest text. */
  lemma DigestIgnoresLaterItems(items: seq<DigestItem>, more: seq<DigestItem>, siteUrl: string)
    requires |items| >= 3
    ensures UpcomingEventsDigest(items + more, siteUrl) == UpcomingEventsDigest(items, siteUrl)
  {
    assert FirstThree(items + more) == FirstThree(items);
  }
}
