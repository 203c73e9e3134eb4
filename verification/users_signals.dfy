/**
 * The receivers of the `apps.users.signals` package: the welcome task on
 * user creation, login tracking (client IP, user-agent classification,
 * new-location test, alert task) and the audit stamp before a save.
 * Request headers arrive as strings; a missing header is "".
 */
module UserSignals {
  import opened Wrappers
  import opened Text
  import opened Domain
  import opened LoginHistory

  // ------------------------------------------------------------- welcome

  /** `send_welcome_email` (post-save of a user): the notifications task, on creation only. */
  method SendWelcomeEmail(queue: TaskQueue, instance: User, created: bool)
    modifies queue
    ensures created ==> queue.tasks == old(queue.tasks) + [SendUserCreated(instance.id)]
    ensures !created ==> queue.tasks == old(queue.tasks)
  {
    if created {
      queue.Delay(SendUserCreated(instance.id));
    }
  }

  // ------------------------------------------------------------ client IP

  /**
   * The client address: the first comma-separated entry of
   * `X-Forwarded-For`, unstripped, when the header is non-empty, else
   * `REMOTE_ADDR`.
   */
  function ClientIp(forwardedFor: string, remoteAddr: string): (ip: string)
    ensures forwardedFor == "" ==> ip == remoteAddr
    ensures forwardedFor != "" ==> ip <= forwardedFor && ',' !in ip
    ensures forwardedFor != "" && |ip| < |forwardedFor| ==> forwardedFor[|ip|] == ','
  {
    if forwardedFor == "" then remoteAddr
    else
      SplitFirst(forwardedFor, ',');
      Split(forwardedFor, ',')[0]
  }

  /** A header without a comma is taken whole; otherwise the text before the first comma. */
  lemma ClientIpCases(forwardedFor: string, remoteAddr: string)
    ensures forwardedFor != "" && ',' !in forwardedFor ==> ClientIp(forwardedFor, remoteAddr) == forwardedFor
    ensures forall k :: 0 <= k < |forwardedFor| && forwardedFor[k] == ',' && ',' !in forwardedFor[..k] ==>
      ClientIp(forwardedFor, remoteAddr) == forwardedFor[..k]
  {
    if forwardedFor != "" {
      var ip := ClientIp(forwardedFor, remoteAddr);
      if |ip| < |forwardedFor| {
        assert forwardedFor[|ip|] == ',';
      }
      forall k | 0 <= k < |forwardedFor| && forwardedFor[k] == ',' && ',' !in forwardedFor[..k]
        ensures ip == forwardedFor[..k]
      {
      }
    }
  }

  // ------------------------------------------------------- user agent

  /** `keyword in user_agent.lower()` */
  predicate Has(userAgent: string, keyword: string) {
    Contains(ToLower(userAgent), keyword)
  }

  /** The device type: first match of mobile keywords, then tablet keywords, else desktop; 'unknown' without a user agent. */
  function DeviceType(userAgent: string): (d: string)
    ensures userAgent == "" <==> d == "unknown"
    ensures d in {"unknown", "mobile", "tablet", "desktop"}
    ensures userAgent != "" && (Has(userAgent, "mobile") || Has(userAgent, "android") || Has(userAgent, "iphone"))
      ==> d == "mobile"
  {
    if userAgent == "" then "unknown"
    else if Has(userAgent, "mobile") || Has(userAgent, "android") || Has(userAgent, "iphone") then "mobile"
    else if Has(userAgent, "tablet") || Has(userAgent, "ipad") then "tablet"
    else "desktop"
  }

  /** The browser: Chrome, then Firefox, then Safari, then Edge, each on its keywords; else 'Unknown'. */
  function BrowserName(userAgent: string): (b: string)
    ensures b in {"Unknown", "Chrome", "Firefox", "Safari", "Edge"}
    ensures userAgent == "" ==> b == "Unknown"
    ensures b == "Chrome" ==> Has(userAgent, "chrome") && !Has(userAgent, "edg")
    ensures b == "Edge" ==> Has(userAgent, "edg")
    ensures b == "Safari" ==> Has(userAgent, "safari") && !Has(userAgent, "chrome")
  {
    if userAgent == "" then "Unknown"
    else if Has(userAgent, "chrome") && !Has(userAgent, "edg") then "Chrome"
    else if Has(userAgent, "firefox") then "Firefox"
    else if Has(userAgent, "safari") && !Has(userAgent, "chrome") then "Safari"
    else if Has(userAgent, "edg") then "Edge"
    else "Unknown"
  }

  /** The operating system: windows, mac, linux, android, iphone/ipad, first match; else 'Unknown'. */
  function OsName(userAgent: string): (os: string)
    ensures os in {"Unknown", "Windows", "macOS", "Linux", "Android", "iOS"}
    ensures userAgent == "" ==> os == "Unknown"
    ensures userAgent != "" && Has(userAgent, "windows") ==> os == "Windows"
  {
    if userAgent == "" then "Unknown"
    else if Has(userAgent, "windows") then "Windows"
    else if Has(userAgent, "mac") then "macOS"
    else if Has(userAgent, "linux") then "Linux"
    else if Has(userAgent, "android") then "Android"
    else if Has(userAgent, "iphone") || Has(userAgent, "ipad") then "iOS"
    else "Unknown"
  }

  /** The classification ignores letter case: two user agents equal up to case get the same labels. */
  lemma ClassificationIgnoresCase(a: string, b: string)
    requires ToLower(a) == ToLower(b)
    ensures DeviceType(a) == DeviceType(b) && BrowserName(a) == BrowserName(b) && OsName(a) == OsName(b)
  {
    assert |a| == |ToLower(a)|;
  }

  /**
   * First-match order decides overlapping keywords: an Edge user agent,
   * which also names Chrome and Safari, is Edge; a Linux-based one that
   * also says Android is Linux; an iPad that says Mobile is a mobile.
   */
  lemma FirstMatchOrder(userAgent: string)
    requires userAgent != ""
    ensures Has(userAgent, "edg") && Has(userAgent, "chrome") && !Has(userAgent, "firefox") ==> BrowserName(userAgent) == "Edge"
    ensures Has(userAgent, "linux") && !Has(userAgent, "windows") && !Has(userAgent, "mac") ==> OsName(userAgent) == "Linux"
    ensures Has(userAgent, "ipad") && Has(userAgent, "mobile") ==> DeviceType(userAgent) == "mobile"
    ensures Has(userAgent, "android") && !Has(userAgent, "windows") && !Has(userAgent, "mac") && !Has(userAgent, "linux")
      ==> OsName(userAgent) == "Android"
  {
  }

  // ---------------------------------------------------------- login tracking

  /** The row `track_user_login` stores: a successful login, no country or city, not yet alerted. */
  function LoginRow(id: Id, user: User, forwardedFor: string, remoteAddr: string, userAgent: string, isNew: bool,
                    createdText: string): (r: LoginRecord)
    ensures r.id == id && r.user == user && r.ip == ClientIp(forwardedFor, remoteAddr) && r.userAgent == userAgent
    ensures r.loginSuccessful && !r.notificationSent && r.isNewLocation == isNew
    ensures r.country == "" && r.city == ""
  {
    LoginRecord(
      id := id,
      user := user,
      ip := ClientIp(forwardedFor, remoteAddr),
      userAgent := userAgent,
      deviceType := DeviceType(userAgent),
      browser := BrowserName(userAgent),
      os := OsName(userAgent),
      country := "",
      city := "",
      isNewLocation := isNew,
      loginSuccessful := true,
      notificationSent := false,
      createdText := createdText)
  }

  /**
   * `track_user_login`: the new-location test runs on the history before
   * this login is stored; the row is then stored under the fresh key `id`,
   * and the alert task enqueued only for a new location.
   */
  method TrackUserLogin(store: Store, queue: TaskQueue, user: User, forwardedFor: string, remoteAddr: string,
                        userAgent: string, id: Id, createdText: string)
    modifies store, queue
    ensures var isNew := IsNewLoginLocation(old(store.logins), user, ClientIp(forwardedFor, remoteAddr), "", "");
      && store.logins == old(store.logins) + [LoginRow(id, user, forwardedFor, remoteAddr, userAgent, isNew, createdText)]
      && queue.tasks == old(queue.tasks) + (if isNew then [SendNewLocationLoginAlert(id)] else [])
    ensures store.users == old(store.users) && store.events == old(store.events)
    ensures store.registrations == old(store.registrations)
  {
    var ip := ClientIp(forwardedFor, remoteAddr);
    var isNew := IsNewLoginLocation(store.logins, user, ip, "", "");
    store.logins := store.logins + [LoginRow(id, user, forwardedFor, remoteAddr, userAgent, isNew, createdText)];
    if isNew {
      queue.Delay(SendNewLocationLoginAlert(id));
    }
  }

  /** A user's first login is new; the next login from the same address is not. */
  lemma RepeatLoginIsNotNew(logins: seq<LoginRecord>, user: User, forwardedFor: string, remoteAddr: string,
                            userAgent: string, id: Id, isNew: bool, createdText: string)
    ensures IsNewLoginLocation([], user, ClientIp(forwardedFor, remoteAddr), "", "")
    ensures !IsNewLoginLocation(logins + [LoginRow(id, user, forwardedFor, remoteAddr, userAgent, isNew, createdText)],
                                user, ClientIp(forwardedFor, remoteAddr), "", "")
  {
    RecordedIpIsKnown(logins, LoginRow(id, user, forwardedFor, remoteAddr, userAgent, isNew, createdText), "", "");
  }

  // ------------------------------------------------------------ audit stamp

  /** What `CrequestMiddleware.get_request()` gave: it raised, there was no request, or a request and its user. */
  datatype RequestLookup = LookupRaised | NoRequest | CurrentRequest(authenticated: bool, userId: Id)

  /** The user to stamp: the request's user when authenticated, otherwise none. */
  function RequestUser(lookup: RequestLookup): (u: Option<Id>)
    ensures u.Some? <==> lookup.CurrentRequest? && lookup.authenticated
    ensures u.Some? ==> u.value == lookup.userId
  {
    match lookup
    case CurrentRequest(authenticated, userId) => if authenticated then Some(userId) else None
    case _ => None
  }

  /** The `created_by` / `updated_by` pair of a `BaseModel` row. */
  datatype Audit = Audit(createdBy: Option<Id>, updatedBy: Option<Id>)

  /** The pair after `update_user_id`. */
  function Stamped(a: Audit, lookup: RequestLookup): (r: Audit)
    ensures a.createdBy.Some? ==> r.createdBy == a.createdBy
    ensures a.createdBy.None? ==> r.createdBy == RequestUser(lookup)
    ensures r.updatedBy == RequestUser(lookup)
  {
    Audit(if a.createdBy.None? then RequestUser(lookup) else a.createdBy, RequestUser(lookup))
  }

  /** A `BaseModel` instance's audit fields, which the receiver updates in place. */
  class AuditedRow {
    var createdBy: Option<Id>
    var updatedBy: Option<Id>

    constructor (createdBy: Option<Id>, updatedBy: Option<Id>)
      ensures this.createdBy == createdBy && this.updatedBy == updatedBy
    {
      this.createdBy := createdBy;
      this.updatedBy := updatedBy;
    }

    function Fields(): Audit
      reads this
    {
      Audit(createdBy, updatedBy)
    }

    /** `update_user_id` (pre-save). */
    method UpdateUserId(lookup: RequestLookup)
      modifies this
      ensures Fields() == Stamped(old(Fields()), lookup)
    {
      var user := RequestUser(lookup);
      if createdBy.None? {
        createdBy := user;
      }
      updatedBy := user;
    }
  }

  /** The creator is fixed by the first stamp that finds one; the updater is always the latest request's user. */
  lemma StampKeepsCreator(a: Audit, first: RequestLookup, second: RequestLookup)
    ensures Stamped(Stamped(a, first), second).updatedBy == RequestUser(second)
    ensures Stamped(a, first).createdBy.Some? ==> Stamped(Stamped(a, first), second).createdBy == Stamped(a, first).createdBy
    ensures Stamped(Stamped(a, first), LookupRaised) == Audit(Stamped(a, first).createdBy, None)
  {
  }
}
