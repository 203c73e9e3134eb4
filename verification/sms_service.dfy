/**
 * `SMSService`: the configuration gate, the rendering of `sms/...txt`
 * templates with a fallback, and `send_sms`, which never raises. The Twilio
 * client is the log `sent` of the requests handed to `messages.create`,
 * plus a `ClientOutcome` parameter saying what that call did; the template
 * engine is a `Renderer` parameter.
 */
module Sms {
  import opened Wrappers
  import opened Text
  import opened SmsTemplates

  /** A value in a template context; `Absent` is Python's None. */
  datatype CtxValue = Str(s: string) | Absent | Items(items: seq<DigestItem>)

  /** A call `render_to_string(name, context=context)`. */
  datatype TemplateCall = TemplateCall(name: string, context: map<string, CtxValue>)

  /** The template engine: the text each call renders to; a call it has no text for raises. */
  type Renderer = map<TemplateCall, string>

  /** `render_to_string`: the rendered text, or None when rendering raises. */
  function Render(render: Renderer, call: TemplateCall): (r: Option<string>)
    ensures r.Some? <==> call in render
    ensures r.Some? ==> r.value == render[call]
  {
    if call in render then Some(render[call]) else None
  }

  /** What `client.messages.create` did with one request. */
  datatype ClientOutcome =
    | Created(sid: string, status: string)
    | RestError(message: string, code: int)   // TwilioRestException
    | OtherError(message: string)             // any other exception

  /** One request handed to `client.messages.create`. */
  datatype OutboundSms = OutboundSms(body: string, from: string, to: string)

  /** The dict `send_sms` returns; keys that are not set are None. */
  datatype SmsResult = SmsResult(
    success: bool,
    error: Option<string>,
    errorCode: Option<int>,
    messageSid: Option<string>,
    status: Option<string>)

  /** Twilio credentials, present only when both were set. */
  datatype Credentials = Credentials(accountSid: string, authToken: string)

  /** A call of one of the `send_*_sms` composers, with its arguments. */
  datatype SmsRequest =
    | WelcomeSms(userName: string)
    | SignupConfirmationSms(userName: string)
    | EventNotificationSms(title: string, date: string, location: string, url: string)
    | EventCancelledSms(title: string, date: string, url: string)
    | EventReminderSms(title: string, date: string, hoursUntil: int, url: string)
    | RegistrationConfirmationSms(title: string, code: string, url: string)
    | NewLocationLoginSms(location: string, time: string)
    | OtpSms(otpCode: string)
    | UpcomingEventsDigestSms(items: seq<DigestItem>, siteUrl: string)

  const NotConfiguredError := "SMS service not configured. Please set TWILIO credentials in .env"

  /** Python truthiness of an optional string. */
  predicate Truthy(s: Option<string>) { s.Some? && s.value != "" }

  /** A string context entry: None when the optional argument is absent. */
  function OptStr(s: string): CtxValue { if s == "" then Absent else Str(s) }

  // ---------------------------------------------------------------- numbers

  /** The number as handed to the client: a '+' is added unless there is one already. */
  function NormalizePhone(to: string): (r: string)
    ensures |r| >= 1 && r[0] == '+'
    ensures to != [] && to[0] == '+' ==> r == to
    ensures !(to != [] && to[0] == '+') ==> r[1..] == to
  {
    if to != [] && to[0] == '+' then to else "+" + to
  }

  /** Normalising twice is normalising once; no other validation happens. */
  lemma NormalizePhoneIdempotent(to: string)
    ensures NormalizePhone(NormalizePhone(to)) == NormalizePhone(to)
    ensures |NormalizePhone(to)| <= |to| + 1
  {
  }

  // -------------------------------------------------------------- rendering

  /** No line ends in whitespace: every line feed follows an empty line or a visible character. */
  predicate LinesTrimmed(s: string) {
    forall k :: 0 < k < |s| && s[k] == '\n' ==> s[k - 1] == '\n' || !IsWhitespace(s[k - 1])
  }

  function RStripLines(lines: seq<string>): (r: seq<string>)
    ensures |r| == |lines|
    ensures forall i :: 0 <= i < |lines| ==> r[i] == RStrip(lines[i])
  {
    if lines == [] then [] else RStripLines(lines[..|lines| - 1]) + [RStrip(lines[|lines| - 1])]
  }

  /**
   * The clean-up applied to a rendered template: outer line feeds dropped,
   * the text cut into lines at every `splitlines` boundary, each line
   * right-stripped, the lines joined with line feeds and the whole stripped.
   */
  function CleanRendered(message: string): string {
    Strip(Join(RStripLines(SplitLines(StripChar(message, '\n'))), "\n"))
  }

  /** The lines of "a \rb" after the right strip. */
  lemma CarriageReturnLines()
    ensures RStripLines(SplitLines(StripChar("a \rb", '\n'))) == ["a", "b"]
  {
    StripCharKeeps("a \rb", '\n');
    SplitLinesLoneCr();
    RStripTwoLines();
  }

  /** Right-stripping the two lines drops the space before the carriage return. */
  lemma RStripTwoLines()
    ensures RStripLines(["a ", "b"]) == ["a", "b"]
  {
    var lines := ["a ", "b"];
    assert RStrip("a ") == "a" by { assert "a "[..1] == "a"; }
    assert RStrip("b") == "b";
    assert lines[..1] == ["a "];
    assert RStripLines(["a "]) == ["a"];
  }

  /** Those lines joined again and stripped. */
  lemma CarriageReturnJoined()
    ensures Strip(Join(["a", "b"], "\n")) == "a\nb"
  {
    JoinCons("a", ["b"]);
    assert ["a"] + ["b"] == ["a", "b"];
    StripKeeps("a\nb");
  }

  /** A lone carriage return inside a rendered text is a line break: the space before it goes. */
  lemma CleanRenderedCarriageReturn()
    ensures CleanRendered("a \rb") == "a\nb"
  {
    CarriageReturnLines();
    CarriageReturnJoined();
  }

  /** A text without a line boundary is cleaned by the whole-text strip alone. */
  lemma CleanRenderedSingleLine(t: string)
    requires NoLineBoundary(t)
    ensures CleanRendered(t) == Strip(t)
  {
    if t != [] {
      assert !IsLineBoundary(t[0]) && !IsLineBoundary(t[|t| - 1]);
      StripCharKeeps(t, '\n');
      SplitLinesSingle(t);
      assert RStripLines([t]) == [RStrip(t)];
      RStripKeeps(RStrip(t));
    }
  }

  /**
   * A text that is already clean (no surrounding whitespace, none at the
   * end of a line, line feeds as its only breaks) is left as it is.
   */
  lemma CleanRenderedFixpoint(s: string)
    requires Trimmed(s) && LinesTrimmed(s) && OnlyLineFeeds(s)
    ensures CleanRendered(s) == s
  {
    if s != [] {
      assert IsWhitespace('\n');
      StripCharKeeps(s, '\n');
    }
    JoinSplitLines(s);
    var lines := SplitLines(s);
    TrimmedLinesKeep(s);
    assert RStripLines(lines) == lines;
    StripKeeps(s);
  }

  /** Cleaning twice is cleaning once. */
  lemma CleanRenderedIdempotent(t: string)
    ensures CleanRendered(CleanRendered(t)) == CleanRendered(t)
  {
    CleanRenderedShape(t);
    CleanRenderedFixpoint(CleanRendered(t));
  }

  /** Right-stripping a text that does not end in whitespace changes nothing. */
  lemma RStripKeeps(s: string)
    requires s == [] || !IsWhitespace(s[|s| - 1])
    ensures RStrip(s) == s
  {
  }

  /** Every line of a text with trimmed lines, not ending in whitespace, is already right-stripped. */
  lemma {:induction false} TrimmedLinesKeep(s: string)
    requires LinesTrimmed(s) && OnlyLineFeeds(s) && (s == [] || !IsWhitespace(s[|s| - 1]))
    ensures forall i :: 0 <= i < |SplitLines(s)| ==> RStrip(SplitLines(s)[i]) == SplitLines(s)[i]
    decreases |s|
  {
    if s != [] {
      var k := LineEnd(s);
      if k == |s| {
        assert NoLineBoundary(s);
        SplitLinesSingle(s);
        RStripKeeps(s);
      } else {
        FirstTrimmedLine(s, k);
        TrimmedLinesKeep(s[k + 1..]);
      }
    }
  }

  /**
   * Cutting a clean text at its first boundary: a line feed, a first line
   * that `rstrip` keeps, and a rest that is clean in the same way.
   */
  lemma FirstTrimmedLine(s: string, k: nat)
    requires LinesTrimmed(s) && OnlyLineFeeds(s) && s != [] && !IsWhitespace(s[|s| - 1])
    requires k == LineEnd(s) < |s|
    ensures k + 1 < |s|
    ensures SplitLines(s) == [s[..k]] + SplitLines(s[k + 1..])
    ensures RStrip(s[..k]) == s[..k]
    ensures LinesTrimmed(s[k + 1..]) && OnlyLineFeeds(s[k + 1..]) && !IsWhitespace(s[k + 1..][|s[k + 1..]| - 1])
  {
    assert s[k] == '\n';
    assert IsWhitespace('\n');
    var rest := s[k + 1..];
    LinesTrimmedSuffix(s, k + 1);
    assert rest[|rest| - 1] == s[|s| - 1];
    assert NoLineBoundary(s[..k]) by {
      assert forall j :: 0 <= j < k ==> s[..k][j] == s[j];
    }
    SplitAround(s, k);
    SplitLinesCons(s[..k], '\n', rest);
    if k > 0 {
      assert s[..k][k - 1] == s[k - 1];
    }
    RStripKeeps(s[..k]);
  }

  /** Lines without boundaries and without trailing whitespace, joined with line feeds. */
  lemma {:induction false} JoinTrimmedLines(parts: seq<string>)
    requires forall i, j :: 0 <= i < |parts| && 0 <= j < |parts[i]| ==> !IsLineBoundary(parts[i][j])
    requires forall i :: 0 <= i < |parts| ==> parts[i] == [] || !IsWhitespace(parts[i][|parts[i]| - 1])
    ensures LinesTrimmed(Join(parts, "\n")) && OnlyLineFeeds(Join(parts, "\n"))
    decreases |parts|
  {
    if |parts| == 1 {
      assert Join(parts, "\n") == parts[0];
      forall k | 0 <= k < |parts[0]| ensures !IsLineBoundary(parts[0][k]) { }
    } else if |parts| > 1 {
      JoinTrimmedLines(parts[1..]);
      var p, rest := parts[0], Join(parts[1..], "\n");
      var j := Join(parts, "\n");
      assert j == p + "\n" + rest;
      forall k | 0 <= k < |j| && IsLineBoundary(j[k])
        ensures j[k] == '\n' && (k > 0 ==> j[k - 1] == '\n' || !IsWhitespace(j[k - 1]))
      {
        if k > |p| {
          assert j[k] == rest[k - |p| - 1];
          if k > |p| + 1 {
            assert j[k - 1] == rest[k - |p| - 2];
          }
        }
      }
    }
  }

  lemma LinesTrimmedPrefix(s: string, t: string)
    requires LinesTrimmed(s) && OnlyLineFeeds(s) && t <= s
    ensures LinesTrimmed(t) && OnlyLineFeeds(t)
  {
    forall k | 0 <= k < |t| ensures t[k] == s[k] { }
  }

  lemma LinesTrimmedSuffix(s: string, n: nat)
    requires LinesTrimmed(s) && OnlyLineFeeds(s) && n <= |s|
    ensures LinesTrimmed(s[n..]) && OnlyLineFeeds(s[n..])
  {
    var t := s[n..];
    forall k | 0 < k < |t| && t[k] == '\n' ensures t[k - 1] == '\n' || !IsWhitespace(t[k - 1]) {
      assert t[k] == s[n + k] && t[k - 1] == s[n + k - 1];
    }
    forall k | 0 <= k < |t| && IsLineBoundary(t[k]) ensures t[k] == '\n' {
      assert t[k] == s[n + k];
    }
  }

  /** Right-stripping every line of a split text and joining them again leaves no line ending in whitespace. */
  lemma RStrippedLinesTrimmed(s: string)
    ensures LinesTrimmed(Join(RStripLines(SplitLines(s)), "\n"))
    ensures OnlyLineFeeds(Join(RStripLines(SplitLines(s)), "\n"))
  {
    var lines := SplitLines(s);
    var trimmed := RStripLines(lines);
    forall i | 0 <= i < |trimmed|
      ensures forall j :: 0 <= j < |trimmed[i]| ==> !IsLineBoundary(trimmed[i][j])
    {
      assert trimmed[i] <= lines[i];
      forall j | 0 <= j < |trimmed[i]| ensures !IsLineBoundary(trimmed[i][j]) {
        assert trimmed[i][j] == lines[i][j];
      }
    }
    JoinTrimmedLines(trimmed);
  }

  /** A stripped text has no whitespace at either end. */
  lemma StripEnds(s: string)
    ensures Trimmed(Strip(s))
  {
    var right := RStripBy(s, IsWhitespace);
    var r := LStripBy(right, IsWhitespace);
    assert r != [] ==> r[|r| - 1] == right[|right| - 1];
  }

  /** Stripping a text whose lines are trimmed keeps them trimmed. */
  lemma StripKeepsLinesTrimmed(s: string)
    requires LinesTrimmed(s) && OnlyLineFeeds(s)
    ensures LinesTrimmed(Strip(s)) && OnlyLineFeeds(Strip(s))
  {
    var right := RStripBy(s, IsWhitespace);
    LinesTrimmedPrefix(s, right);
    LinesTrimmedSuffix(right, |right| - |LStripBy(right, IsWhitespace)|);
  }

  /**
   * The cleaned rendering has no leading or trailing whitespace and no
   * whitespace at the end of any line; its only line breaks are line feeds.
   */
  lemma CleanRenderedShape(text: string)
    ensures var r := CleanRendered(text); Trimmed(r) && LinesTrimmed(r) && OnlyLineFeeds(r)
  {
    RStrippedLinesTrimmed(StripChar(text, '\n'));
    var joined := Join(RStripLines(SplitLines(StripChar(text, '\n'))), "\n");
    StripEnds(joined);
    StripKeepsLinesTrimmed(joined);
  }

  /**
   * SMSService.render_sms_template: the fallback exactly when rendering
   * raises; otherwise the rendered text with no leading or trailing
   * whitespace, no whitespace at the end of any line, and line feeds as its only line breaks.
   */
  function RenderSmsTemplate(rendered: Option<string>, fallback: string): (r: string)
    ensures rendered.None? ==> r == fallback
    ensures rendered.Some? ==> Trimmed(r)
    ensures rendered.Some? ==> LinesTrimmed(r) && OnlyLineFeeds(r)
  {
    match rendered
    case None => fallback
    case Some(text) =>
      CleanRenderedShape(text);
      CleanRendered(text)
  }

  // ------------------------------------------------------------- requests

  /** The template file and context each composer renders. */
  function CallFor(req: SmsRequest): TemplateCall {
    match req
    case WelcomeSms(name) => TemplateCall("sms/welcome.txt", map["user_name" := Str(name)])
    case SignupConfirmationSms(name) => TemplateCall("sms/signup_confirmation.txt", map["user_name" := Str(name)])
    case EventNotificationSms(title, date, location, url) =>
      TemplateCall("sms/event_notification.txt",
        map["event_title" := Str(title), "event_date" := Str(date), "event_location" := Str(location), "event_url" := OptStr(url)])
    case EventCancelledSms(title, date, url) =>
      TemplateCall("sms/event_cancelled.txt", map["event_title" := Str(title), "event_date" := Str(date), "event_url" := OptStr(url)])
    case EventReminderSms(title, date, hours, url) =>
      TemplateCall("sms/event_reminder.txt",
        map["event_title" := Str(title), "event_date" := Str(date), "time_text" := Str(TimeText(hours)), "event_url" := OptStr(url)])
    case RegistrationConfirmationSms(title, code, url) =>
      TemplateCall("sms/registration_confirmation.txt",
        map["event_title" := Str(title), "registration_code" := OptStr(code), "event_url" := OptStr(url)])
    case NewLocationLoginSms(location, time) =>
      TemplateCall("sms/new_location_login.txt", map["location" := Str(location), "time" := Str(time)])
    case OtpSms(code) => TemplateCall("sms/otp.txt", map["otp_code" := Str(code)])
    case UpcomingEventsDigestSms(items, site) =>
      TemplateCall("sms/upcoming_events_digest.txt",
        map["event_items" := Items(FirstThree(items)), "site_url" := Str(CleanSiteUrl(site))])
  }

  /** The inline text each composer falls back to. */
  function FallbackFor(req: SmsRequest): string {
    match req
    case WelcomeSms(name) => Welcome(name)
    case SignupConfirmationSms(name) => SignupConfirmation(name)
    case EventNotificationSms(title, date, location, url) => EventNotification(title, date, location, url)
    case EventCancelledSms(title, date, url) => EventCancelled(title, date, url)
    case EventReminderSms(title, date, hours, url) => EventReminder(title, date, hours, url)
    case RegistrationConfirmationSms(title, code, url) => RegistrationConfirmation(title, code, url)
    case NewLocationLoginSms(location, time) => NewLocationLogin(location, time)
    case OtpSms(code) => Otp(code)
    case UpcomingEventsDigestSms(items, site) => UpcomingEventsDigest(items, CleanSiteUrl(site))
  }

  /** The message body a composer sends for a request. */
  function MessageFor(req: SmsRequest, render: Renderer): string {
    RenderSmsTemplate(Render(render, CallFor(req)), FallbackFor(req))
  }

  /**
   * The site shown in a digest: every non-overlapping "https://", then every
   * "http://", removed, then trailing '/' dropped.
   */
  function CleanSiteUrl(siteUrl: string): (r: string)
    ensures r == [] || r[|r| - 1] != '/'
    ensures |r| <= |siteUrl|
  {
    RStripChar(ReplaceAll(ReplaceAll(siteUrl, "https://", ""), "http://", ""), '/')
  }

  /** Without a scheme to remove, the cleaned site URL is a prefix of the original. */
  lemma CleanSiteUrlWithoutScheme(siteUrl: string)
    requires !Contains(siteUrl, "https://") && !Contains(siteUrl, "http://")
    ensures CleanSiteUrl(siteUrl) <= siteUrl
  {
  }

  /** A leading "https://" is removed, and then only trailing slashes go. */
  lemma CleanSiteUrlHttps(host: string)
    requires !Contains(host, "https://") && !Contains(host, "http://")
    ensures CleanSiteUrl("https://" + host) == RStripChar(host, '/')
  {
    var s := "https://" + host;
    assert s[..|"https://"|] == "https://" && s[|"https://"|..] == host;
    assert ReplaceAll(s, "https://", "") == host;
  }

  /** A leading "http://" is removed, and then only trailing slashes go. */
  lemma CleanSiteUrlHttp(host: string)
    requires !Contains(host, "https://") && !Contains(host, "http://")
    ensures CleanSiteUrl("http://" + host) == RStripChar(host, '/')
  {
    var s := "http://" + host;
    HttpPrefixHasNoHttps(host);
    assert s[..|"http://"|] == "http://" && s[|"http://"|..] == host;
    assert ReplaceAll(s, "http://", "") == host;
  }

  /** "https://" cannot start inside a leading "http://"; past it, it would occur in the host. */
  lemma HttpPrefixHasNoHttps(host: string)
    requires !Contains(host, "https://")
    ensures !Contains("http://" + host, "https://")
  {
    var s := "http://" + host;
    assert s[..7] == "http://";
    forall i | 0 <= i <= |s| - |"https://"| ensures !OccursAt(s, "https://", i) {
      if i < 7 {
        assert s[i] == "http://"[i];
        assert s[i] != 'h' || s[i + 4] != 's';
      } else {
        assert s[i..i + |"https://"|] == host[i - 7..i - 7 + |"https://"|];
        assert !OccursAt(host, "https://", i - 7);
      }
    }
  }

  /** A composer that renders the request's own template call with the request's own fallback sends MessageFor. */
  lemma ComposedMessage(req: SmsRequest, render: Renderer, call: TemplateCall, fallback: string)
    requires CallFor(req) == call && FallbackFor(req) == fallback
    ensures RenderSmsTemplate(Render(render, call), fallback) == MessageFor(req, render)
  {
  }

  /** The result `send_sms` reports for a configured or unconfigured service. */
  function Dispatch(configured: bool, outcome: ClientOutcome): (r: SmsResult)
    ensures r.success <==> configured && outcome.Created?
    ensures !configured ==> r.error == Some(NotConfiguredError)
    ensures configured && outcome.RestError? ==> r.errorCode == Some(outcome.code)
  {
    if !configured then SmsResult(false, Some(NotConfiguredError), None, None, None)
    else
      match outcome
      case Created(sid, status) => SmsResult(true, None, None, Some(sid), Some(status))
      case RestError(message, code) => SmsResult(false, Some(message), Some(code), None, None)
      case OtherError(message) => SmsResult(false, Some("Unexpected error: " + message), None, None, None)
  }

  class SmsService {
    var client: Option<Credentials>
    var fromNumber: Option<string>
    var verifyServiceSid: Option<string>
    /** The requests handed to the client's `messages.create`, oldest first. */
    var sent: seq<OutboundSms>

    /** `__init__`: a client exists only when both SID and token are non-empty. */
    constructor (accountSid: Option<string>, authToken: Option<string>,
                 verifySid: Option<string>, phoneNumber: Option<string>)
      ensures client == (if Truthy(accountSid) && Truthy(authToken)
                         then Some(Credentials(accountSid.value, authToken.value)) else None)
      ensures fromNumber == phoneNumber && verifyServiceSid == verifySid
      ensures sent == []
    {
      if Truthy(accountSid) && Truthy(authToken) {
        client := Some(Credentials(accountSid.value, authToken.value));
      } else {
        client := None;
      }
      fromNumber := phoneNumber;
      verifyServiceSid := verifySid;
      sent := [];
    }

    /** `is_configured`: a client and a from-number (an empty number counts). */
    predicate IsConfigured()
      reads this
    {
      client.Some? && fromNumber.Some?
    }

    /** `sent` grew by exactly the request for `message` when configured, and `r` reports it. */
    ghost predicate SentOnce(before: seq<OutboundSms>, to: string, message: string,
                             outcome: ClientOutcome, r: SmsResult)
      reads this
    {
      && r == Dispatch(IsConfigured(), outcome)
      && sent == before + (if IsConfigured() then [OutboundSms(message, fromNumber.value, NormalizePhone(to))] else [])
    }

    /**
     * `send_sms`: never raises. Unconfigured, it reports the configuration
     * error and the client is not called; otherwise the client is called once
     * with the normalised number and any exception becomes a failed result.
     */
    method SendSms(to: string, message: string, outcome: ClientOutcome) returns (r: SmsResult)
      modifies this`sent
      ensures SentOnce(old(sent), to, message, outcome, r)
    {
      if !IsConfigured() {
        return SmsResult(false, Some(NotConfiguredError), None, None, None);
      }
      var number := to;
      if !(number != [] && number[0] == '+') {
        number := "+" + number;
      }
      sent := sent + [OutboundSms(message, fromNumber.value, number)];
      match outcome {
        case Created(sid, status) =>
          r := SmsResult(true, None, None, Some(sid), Some(status));
        case RestError(msg, code) =>
          r := SmsResult(false, Some(msg), Some(code), None, None);
        case OtherError(msg) =>
          r := SmsResult(false, Some("Unexpected error: " + msg), None, None, None);
      }
    }

    /** Unconfigured, a send records no client call, reports the configuration error and never succeeds. */
    lemma UnconfiguredSendsNothing(before: seq<OutboundSms>, to: string, message: string,
                                   outcome: ClientOutcome, r: SmsResult)
      requires !IsConfigured() && SentOnce(before, to, message, outcome, r)
      ensures sent == before
      ensures !r.success && r.error == Some(NotConfiguredError)
    {
    }

    method SendWelcomeSms(to: string, userName: string, render: Renderer, outcome: ClientOutcome)
      returns (r: SmsResult)
      modifies this`sent
      ensures SentOnce(old(sent), to, MessageFor(WelcomeSms(userName), render), outcome, r)
    {
      var fallback := Welcome(userName);
      var call := TemplateCall("sms/welcome.txt", map["user_name" := Str(userName)]);
      var rendered := Render(render, call);
      var message := RenderSmsTemplate(rendered, fallback);
      ComposedMessage(WelcomeSms(userName), render, call, fallback);
      r := SendSms(to, message, outcome);
    }

    method SendSignupConfirmationSms(to: string, userName: string, render: Renderer, outcome: ClientOutcome)
      returns (r: SmsResult)
      modifies this`sent
      ensures SentOnce(old(sent), to, MessageFor(SignupConfirmationSms(userName), render), outcome, r)
    {
      var fallback := SignupConfirmation(userName);
      var call := TemplateCall("sms/signup_confirmation.txt", map["user_name" := Str(userName)]);
      var rendered := Render(render, call);
      var message := RenderSmsTemplate(rendered, fallback);
      ComposedMessage(SignupConfirmationSms(userName), render, call, fallback);
      r := SendSms(to, message, outcome);
    }

    method SendEventNotificationSms(to: string, title: string, date: string, location: string, url: string,
                                    render: Renderer, outcome: ClientOutcome)
      returns (r: SmsResult)
      modifies this`sent
      ensures SentOnce(old(sent), to, MessageFor(EventNotificationSms(title, date, location, url), render), outcome, r)
    {
      var fallback := EventNotification(title, date, location, url);
      var context := map["event_title" := Str(title), "event_date" := Str(date),
                         "event_location" := Str(location), "event_url" := OptStr(url)];
      var call := TemplateCall("sms/event_notification.txt", context);
      var rendered := Render(render, call);
      var message := RenderSmsTemplate(rendered, fallback);
      ComposedMessage(EventNotificationSms(title, date, location, url), render, call, fallback);
      r := SendSms(to, message, outcome);
    }

    method SendEventCancelledSms(to: string, title: string, date: string, url: string,
                                 render: Renderer, outcome: ClientOutcome)
      returns (r: SmsResult)
      modifies this`sent
      ensures SentOnce(old(sent), to, MessageFor(EventCancelledSms(title, date, url), render), outcome, r)
    {
      var fallback := EventCancelled(title, date, url);
      var context := map["event_title" := Str(title), "event_date" := Str(date), "event_url" := OptStr(url)];
      var call := TemplateCall("sms/event_cancelled.txt", context);
      var rendered := Render(render, call);
      var message := RenderSmsTemplate(rendered, fallback);
      ComposedMessage(EventCancelledSms(title, date, url), render, call, fallback);
      r := SendSms(to, message, outcome);
    }

    /**
     * `send_event_reminder_sms` works out its own `time_text` for the
     * template; it is the phrase SMSTemplates.event_reminder uses, for every
     * `hoursUntil`.
     */
    method SendEventReminderSms(to: string, title: string, date: string, hoursUntil: int, url: string,
                                render: Renderer, outcome: ClientOutcome)
      returns (r: SmsResult)
      modifies this`sent
      ensures SentOnce(old(sent), to, MessageFor(EventReminderSms(title, date, hoursUntil, url), render), outcome, r)
    {
      var timeText: string;
      if hoursUntil <= 1 {
        timeText := "in less than 1 hour";
      } else if hoursUntil < 24 {
        timeText := "in " + NatToString(hoursUntil) + " hours";
      } else {
        var days := hoursUntil / 24;
        timeText := "in " + NatToString(days) + " day" + (if days > 1 then "s" else "");
      }
      assert timeText == TimeText(hoursUntil);
      var fallback := EventReminder(title, date, hoursUntil, url);
      var context := map["event_title" := Str(title), "event_date" := Str(date),
                         "time_text" := Str(timeText), "event_url" := OptStr(url)];
      assert TemplateCall("sms/event_reminder.txt", context) == CallFor(EventReminderSms(title, date, hoursUntil, url));
      var call := TemplateCall("sms/event_reminder.txt", context);
      var rendered := Render(render, call);
      var message := RenderSmsTemplate(rendered, fallback);
      ComposedMessage(EventReminderSms(title, date, hoursUntil, url), render, call, fallback);
      r := SendSms(to, message, outcome);
    }

    method SendRegistrationConfirmationSms(to: string, title: string, code: string, url: string,
                                           render: Renderer, outcome: ClientOutcome)
      returns (r: SmsResult)
      modifies this`sent
      ensures SentOnce(old(sent), to, MessageFor(RegistrationConfirmationSms(title, code, url), render), outcome, r)
    {
      var fallback := RegistrationConfirmation(title, code, url);
      var context := map["event_title" := Str(title), "registration_code" := OptStr(code), "event_url" := OptStr(url)];
      var call := TemplateCall("sms/registration_confirmation.txt", context);
      var rendered := Render(render, call);
      var message := RenderSmsTemplate(rendered, fallback);
      ComposedMessage(RegistrationConfirmationSms(title, code, url), render, call, fallback);
      r := SendSms(to, message, outcome);
    }

    method SendNewLocationLoginSms(to: string, location: string, time: string, render: Renderer, outcome: ClientOutcome)
      returns (r: SmsResult)
      modifies this`sent
      ensures SentOnce(old(sent), to, MessageFor(NewLocationLoginSms(location, time), render), outcome, r)
    {
      var fallback := NewLocationLogin(location, time);
      var context := map["location" := Str(location), "time" := Str(time)];
      var call := TemplateCall("sms/new_location_login.txt", context);
      var rendered := Render(render, call);
      var message := RenderSmsTemplate(rendered, fallback);
      ComposedMessage(NewLocationLoginSms(location, time), render, call, fallback);
      r := SendSms(to, message, outcome);
    }

    method SendOtpSms(to: string, otpCode: string, render: Renderer, outcome: ClientOutcome)
      returns (r: SmsResult)
      modifies this`sent
      ensures SentOnce(old(sent), to, MessageFor(OtpSms(otpCode), render), outcome, r)
    {
      var fallback := Otp(otpCode);
      var call := TemplateCall("sms/otp.txt", map["otp_code" := Str(otpCode)]);
      var rendered := Render(render, call);
      var message := RenderSmsTemplate(rendered, fallback);
      ComposedMessage(OtpSms(otpCode), render, call, fallback);
      r := SendSms(to, message, outcome);
    }

    /** The digest composer cleans the site URL and hands the template at most three items. */
    method SendUpcomingEventsDigestSms(to: string, items: seq<DigestItem>, siteUrl: string,
                                       render: Renderer, outcome: ClientOutcome)
      returns (r: SmsResult)
      modifies this`sent
      ensures SentOnce(old(sent), to, MessageFor(UpcomingEventsDigestSms(items, siteUrl), render), outcome, r)
    {
      var cleanedSite := CleanSiteUrl(siteUrl);
      var fallback := UpcomingEventsDigest(items, cleanedSite);
      var context := map["event_items" := Items(FirstThree(items)), "site_url" := Str(cleanedSite)];
      var call := TemplateCall("sms/upcoming_events_digest.txt", context);
      var rendered := Render(render, call);
      var message := RenderSmsTemplate(rendered, fallback);
      ComposedMessage(UpcomingEventsDigestSms(items, siteUrl), render, call, fallback);
      r := SendSms(to, message, outcome);
    }
  }

  /** A template that renders wins over the fallback; one that raises never surfaces. */
  lemma FallbackOnlyWhenRenderingRaises(req: SmsRequest, render: Renderer)
    ensures Render(render, CallFor(req)).None? ==> MessageFor(req, render) == FallbackFor(req)
    ensures Render(render, CallFor(req)).Some? ==>
      var text := Render(render, CallFor(req)).value;
      && (NoLineBoundary(text) ==> MessageFor(req, render) == Strip(text))
      && (Trimmed(text) && LinesTrimmed(text) && OnlyLineFeeds(text) ==> MessageFor(req, render) == text)
  {
    var rendered := Render(render, CallFor(req));
    if rendered.Some? {
      if NoLineBoundary(rendered.value) {
        CleanRenderedSingleLine(rendered.value);
      }
      if Trimmed(rendered.value) && LinesTrimmed(rendered.value) && OnlyLineFeeds(rendered.value) {
        CleanRenderedFixpoint(rendered.value);
      }
    }
  }
}
