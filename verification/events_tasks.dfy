/**
 * The Celery task bodies of the events app, run synchronously: each reads the
 * store, asks the notification service to send, and sets its idempotency
 * flags. `prefs` is what `get_notification_preferences()` returned; `now` is
 * the current time in seconds; `raises` says which sender calls raise.
 */
module EventTasks {
  import opened Wrappers
  import opened Domain
  import opened Preferences
  import opened Notifications
  import SmsTemplates
  import Sms

  // ------------------------------------------------------------- new event

  /** What `notify_users_on_new_event_task(eventId)` attempts. */
  function NewEventAttempts(events: seq<Event>, users: seq<User>, prefs: Prefs, eventId: Id,
                            siteUrl: string, raises: Raises): seq<Attempt>
  {
    match FindBy(events, EventId, eventId)
    case None => []
    case Some(e) =>
      if !e.published || !(prefs.newEventEmail || prefs.newEventSms) then []
      else FanOut(ActiveUsers(users), prefs.newEventEmail, prefs.newEventSms,
                  EventNotificationEmail(e.id), NewEventSms(siteUrl, e), raises)
  }

  method NotifyUsersOnNewEventTask(store: Store, svc: NotificationService, prefs: Prefs, eventId: Id, raises: Raises)
    modifies svc
    ensures svc.outbox == old(svc.outbox) + NewEventAttempts(store.events, store.users, prefs, eventId, svc.siteUrl, raises)
  {
    var found := FindBy(store.events, EventId, eventId);
    if found.None? {
      return;
    }
    var e := found.value;
    if !e.published {
      return;
    }
    if !(prefs.newEventEmail || prefs.newEventSms) {
      return;
    }
    svc.SendEventNotification(ActiveUsers(store.users), e, prefs.newEventSms, prefs.newEventEmail, raises);
  }

  /**
   * A new-event run sends nothing for a missing or unpublished event or when
   * both switches are off; otherwise every active user, and no one else, is
   * emailed when email is on.
   */
  lemma NewEventTargetsActiveUsers(events: seq<Event>, users: seq<User>, prefs: Prefs, eventId: Id,
                                   siteUrl: string, raises: Raises)
    ensures var found := FindBy(events, EventId, eventId);
      (found.None? || !found.value.published || !(prefs.newEventEmail || prefs.newEventSms)) ==>
        NewEventAttempts(events, users, prefs, eventId, siteUrl, raises) == []
    ensures var found := FindBy(events, EventId, eventId);
      (found.Some? && found.value.published) ==>
        EmailRecipients(NewEventAttempts(events, users, prefs, eventId, siteUrl, raises))
        == (if prefs.newEventEmail then ActiveUsers(users) else [])
    ensures forall a :: a in NewEventAttempts(events, users, prefs, eventId, siteUrl, raises) ==> a.user.isActive
  {
    var found := FindBy(events, EventId, eventId);
    if found.Some? && found.value.published && (prefs.newEventEmail || prefs.newEventSms) {
      var e := found.value;
      FanOutEmailsEveryone(ActiveUsers(users), prefs.newEventEmail, prefs.newEventSms,
                           EventNotificationEmail(e.id), NewEventSms(siteUrl, e), raises);
      FanOutSendsWhatWasAsked(ActiveUsers(users), prefs.newEventEmail, prefs.newEventSms,
                              EventNotificationEmail(e.id), NewEventSms(siteUrl, e), raises);
    } else if found.Some? && found.value.published {
      assert EmailRecipients([]) == [];
    }
  }

  // ---------------------------------------------------------- cancellation

  /** `u` holds a registration for the event with status 'registered'. */
  predicate RegisteredFor(regs: seq<Registration>, eventId: Id, u: User) {
    exists i :: 0 <= i < |regs| && regs[i].event.id == eventId && regs[i].user.id == u.id && regs[i].status == Registered
  }

  /** `User.objects.filter(event_registrations__event=event, event_registrations__status='registered').distinct()` */
  function RegisteredUsers(users: seq<User>, regs: seq<Registration>, eventId: Id): (r: seq<User>)
    ensures forall i :: 0 <= i < |r| ==> r[i] in users && RegisteredFor(regs, eventId, r[i])
    ensures forall u :: u in users && RegisteredFor(regs, eventId, u) ==> u in r
    decreases |users|
  {
    if users == [] then []
    else
      var last := users[|users| - 1];
      RegisteredUsers(users[..|users| - 1], regs, eventId) + (if RegisteredFor(regs, eventId, last) then [last] else [])
  }

  /** A table whose rows have pairwise different ids. */
  predicate UniqueIds(users: seq<User>) {
    forall i, j :: 0 <= i < j < |users| ==> users[i].id != users[j].id
  }

  /** The recipients are rows of the users table, so each user is notified at most once. */
  lemma {:induction false} RegisteredUsersDistinct(users: seq<User>, regs: seq<Registration>, eventId: Id)
    requires UniqueIds(users)
    ensures UniqueIds(RegisteredUsers(users, regs, eventId))
    decreases |users|
  {
    if users != [] {
      var init, last := users[..|users| - 1], users[|users| - 1];
      RegisteredUsersDistinct(init, regs, eventId);
      var r := RegisteredUsers(users, regs, eventId);
      var ri := RegisteredUsers(init, regs, eventId);
      forall i, j | 0 <= i < j < |r| ensures r[i].id != r[j].id {
        if j == |ri| {
          assert r[i] in init;
          var k :| 0 <= k < |init| && init[k] == r[i];
          assert users[k] == r[i] && users[|users| - 1] == r[j];
        } else {
          assert r[i] == ri[i] && r[j] == ri[j];
        }
      }
    }
  }

  /** What `notify_users_on_event_cancelled_task` attempts. */
  function CancelledAttempts(events: seq<Event>, users: seq<User>, regs: seq<Registration>, prefs: Prefs,
                             eventId: Id, reason: Option<string>, rescheduleInfo: Option<string>,
                             siteUrl: string, raises: Raises): seq<Attempt>
  {
    match FindBy(events, EventId, eventId)
    case None => []
    case Some(e) =>
      if !(prefs.eventCancelledEmail || prefs.eventCancelledSms) then []
      else if RegisteredUsers(users, regs, e.id) == [] then []
      else FanOut(RegisteredUsers(users, regs, e.id), prefs.eventCancelledEmail, prefs.eventCancelledSms,
                  EventCancelledEmail(e.id, reason, rescheduleInfo), CancelledSms(siteUrl, e), raises)
  }

  method NotifyUsersOnEventCancelledTask(store: Store, svc: NotificationService, prefs: Prefs, eventId: Id,
                                         reason: Option<string>, rescheduleInfo: Option<string>, raises: Raises)
    modifies svc
    ensures svc.outbox == old(svc.outbox)
      + CancelledAttempts(store.events, store.users, store.registrations, prefs, eventId, reason, rescheduleInfo,
                          svc.siteUrl, raises)
  {
    var found := FindBy(store.events, EventId, eventId);
    if found.None? {
      return;
    }
    var e := found.value;
    if !(prefs.eventCancelledEmail || prefs.eventCancelledSms) {
      return;
    }
    var registeredUsers := RegisteredUsers(store.users, store.registrations, e.id);
    if registeredUsers == [] {
      return;
    }
    svc.SendEventCancelledNotification(registeredUsers, e, reason, rescheduleInfo,
                                       prefs.eventCancelledSms, prefs.eventCancelledEmail, raises);
  }

  /** Only users holding a 'registered' registration for the event are contacted. */
  lemma CancellationReachesOnlyRegistered(events: seq<Event>, users: seq<User>, regs: seq<Registration>, prefs: Prefs,
                                          eventId: Id, reason: Option<string>, rescheduleInfo: Option<string>,
                                          siteUrl: string, raises: Raises)
    ensures forall a :: a in CancelledAttempts(events, users, regs, prefs, eventId, reason, rescheduleInfo, siteUrl, raises) ==>
      a.user in users && RegisteredFor(regs, eventId, a.user)
  {
    var found := FindBy(events, EventId, eventId);
    if found.Some? {
      var e := found.value;
      FanOutSendsWhatWasAsked(RegisteredUsers(users, regs, e.id), prefs.eventCancelledEmail, prefs.eventCancelledSms,
                              EventCancelledEmail(e.id, reason, rescheduleInfo), CancelledSms(siteUrl, e), raises);
    }
  }

  // ------------------------------------------------- registration confirmation

  /** The table with the given registration's `confirmation_sent` set. */
  function MarkConfirmed(regs: seq<Registration>, id: Id): (r: seq<Registration>)
    ensures |r| == |regs|
    ensures forall i :: 0 <= i < |regs| ==> r[i] == (if regs[i].id == id then regs[i].(confirmationSent := true) else regs[i])
  {
    seq(|regs|, i requires 0 <= i < |regs| => if regs[i].id == id then regs[i].(confirmationSent := true) else regs[i])
  }

  /** The registration the confirmation task would send for, if it sends. */
  function ConfirmationTarget(regs: seq<Registration>, prefs: Prefs, id: Id): Option<Registration> {
    match FindBy(regs, RegistrationId, id)
    case None => None
    case Some(reg) =>
      if reg.confirmationSent || !(prefs.registrationConfirmationEmail || prefs.registrationConfirmationSms) then None
      else Some(reg)
  }

  /**
   * `send_registration_confirmation_task`: nothing when the registration is
   * missing, already confirmed or both switches are off; otherwise one
   * guarded send, after which `confirmation_sent` is set (the service call
   * itself never raises, so the flag is always reached).
   */
  method SendRegistrationConfirmationTask(store: Store, svc: NotificationService, prefs: Prefs, registrationId: Id,
                                          raises: Raises)
    modifies store, svc
    ensures store.users == old(store.users) && store.events == old(store.events) && store.logins == old(store.logins)
    ensures match ConfirmationTarget(old(store.registrations), prefs, registrationId)
      case None =>
        svc.outbox == old(svc.outbox) && store.registrations == old(store.registrations)
      case Some(reg) =>
        && svc.outbox == old(svc.outbox)
             + UserAttempts(reg.user, prefs.registrationConfirmationEmail, prefs.registrationConfirmationSms,
                            RegistrationConfirmationEmail(reg.event.id, reg.id),
                            Sms.RegistrationConfirmationSms(reg.event.title, reg.code, EventUrl(svc.siteUrl, reg.event.slug)),
                            raises)
        && store.registrations == MarkConfirmed(old(store.registrations), registrationId)
  {
    var found := FindBy(store.registrations, RegistrationId, registrationId);
    if found.None? {
      return;
    }
    var reg := found.value;
    if reg.confirmationSent {
      return;
    }
    if !(prefs.registrationConfirmationEmail || prefs.registrationConfirmationSms) {
      return;
    }
    svc.SendRegistrationConfirmation(reg.user, reg.event, reg, prefs.registrationConfirmationSms,
                                     prefs.registrationConfirmationEmail, raises);
    store.registrations := MarkConfirmed(store.registrations, registrationId);
  }

  /** Once the task has sent for a registration, running it again sends nothing. */
  lemma {:induction false} ConfirmationIsIdempotent(regs: seq<Registration>, prefs: Prefs, id: Id)
    ensures ConfirmationTarget(MarkConfirmed(regs, id), prefs, id).None?
    decreases |regs|
  {
    var marked := MarkConfirmed(regs, id);
    var found := FindBy(marked, RegistrationId, id);
    if found.Some? {
      FindMarked(regs, id);
    }
  }

  /** In a marked table, the row found under the marked id has its flag set. */
  lemma {:induction false} FindMarked(regs: seq<Registration>, id: Id)
    ensures var found := FindBy(MarkConfirmed(regs, id), RegistrationId, id);
      found.Some? ==> found.value.confirmationSent
    decreases |regs|
  {
    if regs != [] {
      var marked := MarkConfirmed(regs, id);
      assert marked[1..] == MarkConfirmed(regs[1..], id);
      if marked[0].id != id {
        FindMarked(regs[1..], id);
      }
    }
  }

  // -------------------------------------------------------------- reminders

  /** An event the reminder query selects: published, dated within an hour either side of `now + hours`. */
  predicate InWindow(e: Event, now: int, hours: int) {
    e.published && e.date.Some? && now + (hours - 1) * 3600 <= e.date.value <= now + (hours + 1) * 3600
  }

  /** `Event.objects.filter(published=True, date__gte=start, date__lte=end)`, in table order. */
  function WindowEvents(events: seq<Event>, now: int, hours: int): (r: seq<Event>)
    ensures forall i :: 0 <= i < |r| ==> InWindow(r[i], now, hours) && r[i] in events
    ensures forall e :: e in events && InWindow(e, now, hours) ==> e in r
    decreases |events|
  {
    if events == [] then []
    else
      var last := events[|events| - 1];
      WindowEvents(events[..|events| - 1], now, hours) + (if InWindow(last, now, hours) then [last] else [])
  }

  /** For h = 24: 23 hours ahead is in; 22h59m and 25h30m ahead are out. */
  lemma WindowBoundaries(e: Event, now: int)
    requires e.published && e.date.Some?
    ensures e.date.value == now + 23 * 3600 ==> InWindow(e, now, 24)
    ensures e.date.value == now + 25 * 3600 ==> InWindow(e, now, 24)
    ensures e.date.value == now + 22 * 3600 + 59 * 60 ==> !InWindow(e, now, 24)
    ensures e.date.value == now + 25 * 3600 + 30 * 60 ==> !InWindow(e, now, 24)
  {
  }

  /** A registration the reminder run for this event targets. */
  predicate IsReminderTarget(r: Registration, eventId: Id) {
    r.event.id == eventId && r.status == Registered && !r.reminderSent
  }

  predicate NoReminderTargets(regs: seq<Registration>, eventId: Id) {
    forall i :: 0 <= i < |regs| ==> !IsReminderTarget(regs[i], eventId)
  }

  /** The users of the event's targeted registrations, in table order. */
  function ReminderUsers(regs: seq<Registration>, eventId: Id): (r: seq<User>)
    ensures forall u :: u in r ==> exists i :: 0 <= i < |regs| && IsReminderTarget(regs[i], eventId) && regs[i].user == u
    ensures NoReminderTargets(regs, eventId) ==> r == []
    decreases |regs|
  {
    if regs == [] then []
    else
      var last := regs[|regs| - 1];
      ReminderUsers(regs[..|regs| - 1], eventId) + (if IsReminderTarget(last, eventId) then [last.user] else [])
  }

  /** Every target's user is in the list. */
  lemma {:induction false} ReminderUsersComplete(regs: seq<Registration>, eventId: Id, k: nat)
    requires k < |regs| && IsReminderTarget(regs[k], eventId)
    ensures regs[k].user in ReminderUsers(regs, eventId)
    decreases |regs|
  {
    if k < |regs| - 1 {
      ReminderUsersComplete(regs[..|regs| - 1], eventId, k);
    }
  }

  /** `registrations.update(reminder_sent=True)` over the event's targeted registrations. */
  function MarkReminded(regs: seq<Registration>, eventId: Id): (r: seq<Registration>)
    ensures |r| == |regs|
    ensures forall i :: 0 <= i < |regs| ==>
      r[i] == (if IsReminderTarget(regs[i], eventId) then regs[i].(reminderSent := true) else regs[i])
  {
    seq(|regs|, i requires 0 <= i < |regs| =>
      if IsReminderTarget(regs[i], eventId) then regs[i].(reminderSent := true) else regs[i])
  }

  /**
   * The attempts of the reminder for one event, over the table as it stands.
   * An event without a date makes the service raise before any attempt.
   */
  function RemindOne(e: Event, table: seq<Registration>, now: int, sendEmail: bool, sendSms: bool,
                     siteUrl: string, raises: Raises): seq<Attempt>
  {
    if e.date.None? then []
    else FanOut(ReminderUsers(table, e.id), sendEmail, sendSms, EventReminderEmail(e.id),
                ReminderSms(siteUrl, e, HoursUntil(e.date.value, now)), raises)
  }

  /** The table after the reminder for one event: marked only when the service call completed. */
  function MarkOne(e: Event, table: seq<Registration>): seq<Registration> {
    if e.date.None? then table else MarkReminded(table, e.id)
  }

  /** The attempts and the new table after reminding for `events`, one event after the other. */
  function RemindAll(events: seq<Event>, regs: seq<Registration>, now: int, sendEmail: bool, sendSms: bool,
                     siteUrl: string, raises: Raises): (seq<Attempt>, seq<Registration>)
    decreases |events|
  {
    if events == [] then ([], regs)
    else
      var prev := RemindAll(events[..|events| - 1], regs, now, sendEmail, sendSms, siteUrl, raises);
      var e := events[|events| - 1];
      (prev.0 + RemindOne(e, prev.1, now, sendEmail, sendSms, siteUrl, raises), MarkOne(e, prev.1))
  }


  /** One pass of the task's loop: remind the event's targets, then mark them when the service completed. */
  method RemindEvent(store: Store, svc: NotificationService, e: Event, now: int, sendEmail: bool, sendSms: bool,
                     raises: Raises)
    modifies store, svc
    ensures store.users == old(store.users) && store.events == old(store.events) && store.logins == old(store.logins)
    ensures svc.outbox == old(svc.outbox) + RemindOne(e, old(store.registrations), now, sendEmail, sendSms, svc.siteUrl, raises)
    ensures store.registrations == MarkOne(e, old(store.registrations))
  {
    var users := ReminderUsers(store.registrations, e.id);
    if users != [] {
      var completed := svc.SendEventReminder(users, e, now, sendSms, sendEmail, raises);
      if completed {
        store.registrations := MarkReminded(store.registrations, e.id);
      }
    } else {
      assert store.registrations == MarkReminded(store.registrations, e.id) by {
        forall k | 0 <= k < |store.registrations| ensures !IsReminderTarget(store.registrations[k], e.id) {
          if IsReminderTarget(store.registrations[k], e.id) {
            ReminderUsersComplete(store.registrations, e.id, k);
          }
        }
      }
    }
  }

  /** Extending the events by one runs that event's reminder over the table left so far. */
  lemma RemindAllSnoc(events: seq<Event>, i: nat, regs: seq<Registration>, now: int, sendEmail: bool, sendSms: bool,
                      siteUrl: string, raises: Raises, outbox0: seq<Attempt>)
    requires i < |events|
    ensures var prev := RemindAll(events[..i], regs, now, sendEmail, sendSms, siteUrl, raises);
      var one := RemindOne(events[i], prev.1, now, sendEmail, sendSms, siteUrl, raises);
      && RemindAll(events[..i + 1], regs, now, sendEmail, sendSms, siteUrl, raises) == (prev.0 + one, MarkOne(events[i], prev.1))
      && (outbox0 + prev.0) + one == outbox0 + (prev.0 + one)
  {
    assert events[..i + 1][..i] == events[..i];
  }

  /** The state after reminding for the first `i` events. */
  ghost predicate RemindedUpTo(store: Store, svc: NotificationService, upcoming: seq<Event>, i: nat,
                               outbox0: seq<Attempt>, regs: seq<Registration>, now: int,
                               sendEmail: bool, sendSms: bool, raises: Raises)
    reads store, svc
    requires i <= |upcoming|
  {
    var run := RemindAll(upcoming[..i], regs, now, sendEmail, sendSms, svc.siteUrl, raises);
    svc.outbox == outbox0 + run.0 && store.registrations == run.1
  }

  /** One pass of the task's loop, stated against the whole run. */
  method RemindStep(store: Store, svc: NotificationService, upcoming: seq<Event>, i: nat,
                    ghost outbox0: seq<Attempt>, ghost regs: seq<Registration>, now: int,
                    sendEmail: bool, sendSms: bool, raises: Raises)
    requires i < |upcoming|
    requires RemindedUpTo(store, svc, upcoming, i, outbox0, regs, now, sendEmail, sendSms, raises)
    modifies store, svc
    ensures store.users == old(store.users) && store.events == old(store.events) && store.logins == old(store.logins)
    ensures RemindedUpTo(store, svc, upcoming, i + 1, outbox0, regs, now, sendEmail, sendSms, raises)
  {
    ghost var prev := RemindAll(upcoming[..i], regs, now, sendEmail, sendSms, svc.siteUrl, raises);
    ghost var one := RemindOne(upcoming[i], prev.1, now, sendEmail, sendSms, svc.siteUrl, raises);
    RemindAllSnoc(upcoming, i, regs, now, sendEmail, sendSms, svc.siteUrl, raises, outbox0);
    RemindEvent(store, svc, upcoming[i], now, sendEmail, sendSms, raises);
    assert svc.outbox == (outbox0 + prev.0) + one;
  }

  /** The task's loop over the window's events. */
  method RemindEach(store: Store, svc: NotificationService, upcoming: seq<Event>, now: int, sendEmail: bool, sendSms: bool,
                    raises: Raises)
    modifies store, svc
    ensures store.users == old(store.users) && store.events == old(store.events) && store.logins == old(store.logins)
    ensures var run := RemindAll(upcoming, old(store.registrations), now, sendEmail, sendSms, svc.siteUrl, raises);
      svc.outbox == old(svc.outbox) + run.0 && store.registrations == run.1
  {
    var i := 0;
    while i < |upcoming|
      invariant 0 <= i <= |upcoming|
      invariant store.users == old(store.users) && store.events == old(store.events) && store.logins == old(store.logins)
      invariant RemindedUpTo(store, svc, upcoming, i, old(svc.outbox), old(store.registrations), now, sendEmail, sendSms, raises)
    {
      RemindStep(store, svc, upcoming, i, old(svc.outbox), old(store.registrations), now, sendEmail, sendSms, raises);
      i := i + 1;
    }
    assert upcoming[..i] == upcoming;
  }

  /**
   * `send_event_reminders_task`: SMS when forced or switched on, email when
   * switched on; nothing at all (not even the query) when both are off.
   */
  method SendEventRemindersTask(store: Store, svc: NotificationService, prefs: Prefs, hours: int, forceSms: bool,
                                now: int, raises: Raises)
    modifies store, svc
    ensures store.users == old(store.users) && store.events == old(store.events) && store.logins == old(store.logins)
    ensures !(forceSms || prefs.eventReminderSms || prefs.eventReminderEmail) ==>
      svc.outbox == old(svc.outbox) && store.registrations == old(store.registrations)
    ensures (forceSms || prefs.eventReminderSms || prefs.eventReminderEmail) ==>
      var run := RemindAll(WindowEvents(old(store.events), now, hours), old(store.registrations), now,
                           prefs.eventReminderEmail, forceSms || prefs.eventReminderSms, svc.siteUrl, raises);
      svc.outbox == old(svc.outbox) + run.0 && store.registrations == run.1
  {
    var sendSmsFinal := forceSms || prefs.eventReminderSms;
    var sendEmail := prefs.eventReminderEmail;
    if !(sendSmsFinal || sendEmail) {
      return;
    }
    var upcoming := WindowEvents(store.events, now, hours);
    RemindEach(store, svc, upcoming, now, sendEmail, sendSmsFinal, raises);
  }

  /** `after` is `before` with, at most, some `reminder_sent` flags set. */
  predicate OnlyRemindedFlagsSet(before: seq<Registration>, after: seq<Registration>) {
    |after| == |before|
    && forall i :: 0 <= i < |before| ==>
      after[i].(reminderSent := before[i].reminderSent) == before[i] && (before[i].reminderSent ==> after[i].reminderSent)
  }

  /** A reminder run changes no registration except to set its `reminder_sent`. */
  lemma {:induction false} RemindAllOnlySetsFlags(events: seq<Event>, regs: seq<Registration>, now: int,
                                                  sendEmail: bool, sendSms: bool, siteUrl: string, raises: Raises)
    ensures OnlyRemindedFlagsSet(regs, RemindAll(events, regs, now, sendEmail, sendSms, siteUrl, raises).1)
    decreases |events|
  {
    if events != [] {
      var init := events[..|events| - 1];
      RemindAllOnlySetsFlags(init, regs, now, sendEmail, sendSms, siteUrl, raises);
      var table := RemindAll(init, regs, now, sendEmail, sendSms, siteUrl, raises).1;
      var after := MarkOne(events[|events| - 1], table);
      forall i | 0 <= i < |regs|
        ensures after[i].(reminderSent := regs[i].reminderSent) == regs[i]
      {
        assert table[i].(reminderSent := regs[i].reminderSent) == regs[i];
      }
    }
  }

  /** Everything a reminder run sends goes to the user of a 'registered' registration still waiting for its reminder. */
  lemma {:induction false} RemindersOnlyToTargets(events: seq<Event>, regs: seq<Registration>, now: int,
                                                  sendEmail: bool, sendSms: bool, siteUrl: string, raises: Raises)
    ensures forall a :: a in RemindAll(events, regs, now, sendEmail, sendSms, siteUrl, raises).0 ==>
      exists i :: 0 <= i < |regs| && regs[i].user == a.user && regs[i].status == Registered && !regs[i].reminderSent
    decreases |events|
  {
    if events != [] {
      var init := events[..|events| - 1];
      var e := events[|events| - 1];
      RemindersOnlyToTargets(init, regs, now, sendEmail, sendSms, siteUrl, raises);
      RemindAllOnlySetsFlags(init, regs, now, sendEmail, sendSms, siteUrl, raises);
      var prev := RemindAll(init, regs, now, sendEmail, sendSms, siteUrl, raises);
      var table := prev.1;
      if e.date.Some? {
        var sms := ReminderSms(siteUrl, e, HoursUntil(e.date.value, now));
        FanOutSendsWhatWasAsked(ReminderUsers(table, e.id), sendEmail, sendSms, EventReminderEmail(e.id), sms, raises);
        forall a | a in RemindOne(e, table, now, sendEmail, sendSms, siteUrl, raises)
          ensures exists i :: 0 <= i < |regs| && regs[i].user == a.user && regs[i].status == Registered && !regs[i].reminderSent
        {
          assert a.user in ReminderUsers(table, e.id);
          var j :| 0 <= j < |table| && IsReminderTarget(table[j], e.id) && table[j].user == a.user;
          assert table[j].(reminderSent := regs[j].reminderSent) == regs[j];
        }
      }
      assert RemindAll(events, regs, now, sendEmail, sendSms, siteUrl, raises).0
          == prev.0 + RemindOne(e, table, now, sendEmail, sendSms, siteUrl, raises);
    }
  }

  /** After a run, no registration of a reminded (dated) event is still waiting for its reminder. */
  lemma {:induction false} RemindAllClearsTargets(events: seq<Event>, regs: seq<Registration>, now: int,
                                                  sendEmail: bool, sendSms: bool, siteUrl: string, raises: Raises)
    ensures forall k :: 0 <= k < |events| && events[k].date.Some? ==>
      NoReminderTargets(RemindAll(events, regs, now, sendEmail, sendSms, siteUrl, raises).1, events[k].id)
    decreases |events|
  {
    if events != [] {
      var init := events[..|events| - 1];
      var e := events[|events| - 1];
      RemindAllClearsTargets(init, regs, now, sendEmail, sendSms, siteUrl, raises);
      var table := RemindAll(init, regs, now, sendEmail, sendSms, siteUrl, raises).1;
      forall k | 0 <= k < |events| && events[k].date.Some?
        ensures NoReminderTargets(MarkOne(e, table), events[k].id)
      {
        if k < |events| - 1 {
          assert events[k] == init[k];
        }
      }
    }
  }

  /** Over a table with no targets left for the dated events, a run attempts nothing and changes nothing. */
  lemma {:induction false} RemindAllQuiet(events: seq<Event>, regs: seq<Registration>, now: int,
                                          sendEmail: bool, sendSms: bool, siteUrl: string, raises: Raises)
    requires forall k :: 0 <= k < |events| && events[k].date.Some? ==> NoReminderTargets(regs, events[k].id)
    ensures RemindAll(events, regs, now, sendEmail, sendSms, siteUrl, raises) == ([], regs)
    decreases |events|
  {
    if events != [] {
      var init := events[..|events| - 1];
      var e := events[|events| - 1];
      assert forall k :: 0 <= k < |init| ==> init[k] == events[k];
      RemindAllQuiet(init, regs, now, sendEmail, sendSms, siteUrl, raises);
      var prev := RemindAll(init, regs, now, sendEmail, sendSms, siteUrl, raises);
      assert prev == ([], regs);
      if e.date.Some? {
        assert NoReminderTargets(regs, e.id);
        assert MarkReminded(regs, e.id) == regs;
        assert ReminderUsers(regs, e.id) == [];
      }
      var one := RemindOne(e, regs, now, sendEmail, sendSms, siteUrl, raises);
      assert one == [];
      assert MarkOne(e, regs) == regs;
      assert RemindAll(events, regs, now, sendEmail, sendSms, siteUrl, raises) == (prev.0 + one, MarkOne(e, regs));
      assert prev.0 + one == [];
    }
  }

  /** Running the reminders twice over the same events sends every reminder once: the second run is silent. */
  lemma SecondReminderRunSendsNothing(events: seq<Event>, regs: seq<Registration>, now: int,
                                      sendEmail: bool, sendSms: bool, siteUrl: string, raises: Raises)
    ensures var first := RemindAll(events, regs, now, sendEmail, sendSms, siteUrl, raises);
      RemindAll(events, first.1, now, sendEmail, sendSms, siteUrl, raises) == ([], first.1)
  {
    RemindAllClearsTargets(events, regs, now, sendEmail, sendSms, siteUrl, raises);
    RemindAllQuiet(events, RemindAll(events, regs, now, sendEmail, sendSms, siteUrl, raises).1, now,
                   sendEmail, sendSms, siteUrl, raises);
  }

  // ----------------------------------------------------------------- digest

  /** The sort key; every digest event has a date. */
  function DateKey(e: Event): int { e.date.GetOr(0) }

  predicate SortedByDate(es: seq<Event>) {
    forall i, j :: 0 <= i < j < |es| ==> DateKey(es[i]) <= DateKey(es[j])
  }

  lemma SortedCons(x: Event, rest: seq<Event>)
    requires SortedByDate(rest)
    requires forall y :: y in rest ==> DateKey(x) <= DateKey(y)
    ensures SortedByDate([x] + rest)
  {
    var r := [x] + rest;
    forall i, j | 0 <= i < j < |r| ensures DateKey(r[i]) <= DateKey(r[j]) {
      assert r[j] == rest[j - 1];
      if i > 0 { assert r[i] == rest[i - 1]; }
    }
  }

  function InsertByDate(e: Event, sorted: seq<Event>): (r: seq<Event>)
    requires SortedByDate(sorted)
    ensures SortedByDate(r)
    ensures multiset(r) == multiset(sorted) + multiset{e}
    decreases |sorted|
  {
    if sorted == [] || DateKey(e) <= DateKey(sorted[0]) then
      SortedCons(e, sorted);
      [e] + sorted
    else
      var rest := InsertByDate(e, sorted[1..]);
      assert sorted == [sorted[0]] + sorted[1..];
      forall x | x in rest ensures DateKey(sorted[0]) <= DateKey(x) {
        assert x in multiset(rest);
        if x != e {
          SortedHeadFirst(sorted, x);
        }
      }
      SortedCons(sorted[0], rest);
      [sorted[0]] + rest
  }

  /** The head of a sorted list comes no later than anything after it. */
  lemma SortedHeadFirst(sorted: seq<Event>, x: Event)
    requires SortedByDate(sorted) && sorted != [] && x in multiset(sorted[1..])
    ensures DateKey(sorted[0]) <= DateKey(x)
  {
    var k :| 0 <= k < |sorted[1..]| && sorted[1..][k] == x;
    assert sorted[k + 1] == x;
  }

  /** `.order_by('date')` */
  function SortByDate(es: seq<Event>): (r: seq<Event>)
    ensures SortedByDate(r)
    ensures multiset(r) == multiset(es)
    decreases |es|
  {
    if es == [] then []
    else
      assert es == es[..|es| - 1] + [es[|es| - 1]];
      InsertByDate(es[|es| - 1], SortByDate(es[..|es| - 1]))
  }

  /** A published event dated between now and `days` days ahead, inclusive. */
  predicate InDigestRange(e: Event, now: int, days: int) {
    e.published && e.date.Some? && now <= e.date.value <= now + days * 86400
  }

  function DigestRangeEvents(events: seq<Event>, now: int, days: int): (r: seq<Event>)
    ensures forall i :: 0 <= i < |r| ==> InDigestRange(r[i], now, days) && r[i] in events
    ensures forall e :: e in events && InDigestRange(e, now, days) ==> e in r
    decreases |events|
  {
    if events == [] then []
    else
      var last := events[|events| - 1];
      DigestRangeEvents(events[..|events| - 1], now, days) + (if InDigestRange(last, now, days) then [last] else [])
  }

  /** The events the digest lists, earliest first. */
  function DigestEvents(events: seq<Event>, now: int, days: int): seq<Event> {
    SortByDate(DigestRangeEvents(events, now, days))
  }

  /** The digest lists exactly the published events of the range, each once, earliest first. */
  lemma DigestEventsSortedPermutation(events: seq<Event>, now: int, days: int)
    ensures SortedByDate(DigestEvents(events, now, days))
    ensures multiset(DigestEvents(events, now, days)) == multiset(DigestRangeEvents(events, now, days))
    ensures forall e :: e in events && InDigestRange(e, now, days) <==> e in DigestEvents(events, now, days)
  {
    var r := DigestEvents(events, now, days);
    var f := DigestRangeEvents(events, now, days);
    forall e ensures e in events && InDigestRange(e, now, days) <==> e in r {
      assert e in r <==> e in multiset(r);
      assert e in f <==> e in multiset(f);
      if e in f {
        var k :| 0 <= k < |f| && f[k] == e;
      }
    }
  }

  /** What `send_monthly_digest_task` attempts. */
  function DigestAttempts(events: seq<Event>, users: seq<User>, prefs: Prefs, days: int, forceSms: bool, now: int,
                          siteUrl: string, raises: Raises): seq<Attempt>
  {
    var sendSms := forceSms || prefs.upcomingDigestSms;
    var upcoming := DigestEvents(events, now, days);
    if !(sendSms || prefs.upcomingDigestEmail) || upcoming == [] then []
    else FanOut(ActiveUsers(users), prefs.upcomingDigestEmail, sendSms, UpcomingEventsEmail(EventIds(upcoming)),
                Sms.UpcomingEventsDigestSms(DigestItems(siteUrl, upcoming), siteUrl), raises)
  }

  /** The task's loop: the digest goes out one user at a time. */
  method DigestEachUser(svc: NotificationService, users: seq<User>, upcoming: seq<Event>, sendEmail: bool, sendSms: bool,
                        raises: Raises)
    modifies svc
    ensures svc.outbox == old(svc.outbox)
      + FanOut(users, sendEmail, sendSms, UpcomingEventsEmail(EventIds(upcoming)),
               Sms.UpcomingEventsDigestSms(DigestItems(svc.siteUrl, upcoming), svc.siteUrl), raises)
  {
    ghost var email := UpcomingEventsEmail(EventIds(upcoming));
    ghost var sms := Sms.UpcomingEventsDigestSms(DigestItems(svc.siteUrl, upcoming), svc.siteUrl);
    var i := 0;
    while i < |users|
      invariant 0 <= i <= |users|
      invariant svc.outbox == old(svc.outbox) + FanOut(users[..i], sendEmail, sendSms, email, sms, raises)
    {
      ghost var before := svc.outbox;
      svc.SendUpcomingEventsDigest([users[i]], upcoming, sendSms, sendEmail, raises);
      FanOutExtendOne(old(svc.outbox), before, svc.outbox, users, i, sendEmail, sendSms, email, sms, raises);
      i := i + 1;
    }
    assert users[..i] == users;
  }

  /**
   * `send_monthly_digest_task`: one service call per active user, each in its
   * own try block, so one user's failure never stops the others.
   */
  method SendMonthlyDigestTask(store: Store, svc: NotificationService, prefs: Prefs, days: int, forceSms: bool,
                               now: int, raises: Raises)
    modifies svc
    ensures svc.outbox == old(svc.outbox) + DigestAttempts(store.events, store.users, prefs, days, forceSms, now,
                                                           svc.siteUrl, raises)
  {
    var sendSmsFinal := forceSms || prefs.upcomingDigestSms;
    var sendEmail := prefs.upcomingDigestEmail;
    if !(sendSmsFinal || sendEmail) {
      return;
    }
    var upcoming := SortByDate(DigestRangeEvents(store.events, now, days));
    assert upcoming == DigestEvents(store.events, now, days);
    if upcoming == [] {
      return;
    }
    DigestEachUser(svc, ActiveUsers(store.users), upcoming, sendEmail, sendSmsFinal, raises);
  }

  /** A digest email attempt is made for every active user when email is on and there is something to list. */
  lemma DigestReachesEveryActiveUser(events: seq<Event>, users: seq<User>, prefs: Prefs, days: int, forceSms: bool,
                                     now: int, siteUrl: string, raises: Raises)
    requires prefs.upcomingDigestEmail && DigestEvents(events, now, days) != []
    ensures EmailRecipients(DigestAttempts(events, users, prefs, days, forceSms, now, siteUrl, raises)) == ActiveUsers(users)
  {
    var upcoming := DigestEvents(events, now, days);
    FanOutEmailsEveryone(ActiveUsers(users), prefs.upcomingDigestEmail, forceSms || prefs.upcomingDigestSms,
                         UpcomingEventsEmail(EventIds(upcoming)),
                         Sms.UpcomingEventsDigestSms(DigestItems(siteUrl, upcoming), siteUrl), raises);
  }
}
