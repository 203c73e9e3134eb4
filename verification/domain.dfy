/**
 * The rows the notification pipeline reads and writes, as values, and the
 * tables that hold them. Ids are opaque naturals (the source uses UUIDs);
 * times are integer seconds; every `strftime` rendering the pipeline needs is
 * carried on the row as an already formatted string. A Python None in an
 * optional text column is the empty string.
 */
module Domain {
  import opened Wrappers

  type Id = nat

  /** The fields of `users.User` the pipeline reads. */
  datatype User = User(
    id: Id,
    email: string,
    username: string,
    firstName: string,
    phone: string,
    isActive: bool)

  /**
   * The fields of an event the pipeline reads. `dateText`, `dayText` and
   * `monthDayText` are `date` rendered as "%b %d, %Y at %I:%M %p",
   * "%b %d, %Y" and "%b %d".
   */
  datatype Event = Event(
    id: Id,
    title: string,
    slug: string,
    published: bool,
    date: Option<int>,
    dateText: string,
    dayText: string,
    monthDayText: string,
    locationName: string,
    cityName: string)

  /** The `status` choices of an event registration. */
  datatype RegStatus = Registered | Attended | Cancelled | NoShow

  /** A stored event registration; `event` and `user` are the joined rows (`select_related`). */
  datatype Registration = Registration(
    id: Id,
    event: Event,
    user: User,
    code: string,
    status: RegStatus,
    checkedIn: bool,
    checkInTime: Option<int>,
    reminderSent: bool,
    confirmationSent: bool)

  /** A stored `LoginHistory` row; `createdText` is `created_at` rendered as "%b %d at %I:%M %p". */
  datatype LoginRecord = LoginRecord(
    id: Id,
    user: User,
    ip: string,
    userAgent: string,
    deviceType: string,
    browser: string,
    os: string,
    country: string,
    city: string,
    isNewLocation: bool,
    loginSuccessful: bool,
    notificationSent: bool,
    createdText: string)

  /** A Celery task call queued with `.delay(...)`. */
  datatype Task =
    | NotifyNewEvent(eventId: Id)
    | NotifyEventCancelled(eventId: Id, cancellationReason: string, rescheduleInfo: Option<string>)
    | SendRegistrationConfirmation(registrationId: Id)
    | SendUserCreated(userId: Id)
    | SendNewLocationLoginAlert(loginId: Id)
    | SendEmailOtp(userId: Id)

  /** The broker: `.delay` appends, nothing here runs or removes a task. */
  class TaskQueue {
    var tasks: seq<Task>

    constructor ()
      ensures tasks == []
    {
      tasks := [];
    }

    method Delay(t: Task)
      modifies this
      ensures tasks == old(tasks) + [t]
    {
      tasks := tasks + [t];
    }
  }

  function UserId(u: User): Id { u.id }
  function EventId(e: Event): Id { e.id }
  function RegistrationId(r: Registration): Id { r.id }
  function LoginId(l: LoginRecord): Id { l.id }

  /** `objects.get(pk=id)` over a table with unique ids: the first row with that id, if any. */
  function FindBy<T>(rows: seq<T>, idOf: T -> Id, id: Id): (r: Option<T>)
    ensures r.Some? ==> r.value in rows && idOf(r.value) == id
    ensures r.None? ==> forall i :: 0 <= i < |rows| ==> idOf(rows[i]) != id
  {
    if rows == [] then None
    else if idOf(rows[0]) == id then Some(rows[0])
    else FindBy(rows[1..], idOf, id)
  }

  /** `User.objects.filter(is_active=True)`, in table order. */
  function ActiveUsers(users: seq<User>): (r: seq<User>)
    ensures forall i :: 0 <= i < |r| ==> r[i].isActive && r[i] in users
    ensures forall u :: u in users && u.isActive ==> u in r
  {
    if users == [] then []
    else ActiveUsers(users[..|users| - 1]) + (if users[|users| - 1].isActive then [users[|users| - 1]] else [])
  }

  /** The database tables the pipeline touches. */
  class Store {
    var users: seq<User>
    var events: seq<Event>
    var registrations: seq<Registration>
    var logins: seq<LoginRecord>

    constructor (users: seq<User>, events: seq<Event>, registrations: seq<Registration>, logins: seq<LoginRecord>)
      ensures this.users == users && this.events == events
      ensures this.registrations == registrations && this.logins == logins
    {
      this.users := users;
      this.events := events;
      this.registrations := registrations;
      this.logins := logins;
    }
  }
}
