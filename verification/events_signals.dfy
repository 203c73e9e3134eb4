/**
 * The events app's signal receivers: which saves enqueue which task, and the
 * statistics refresh after every registration save.
 */
module EventSignals {
  import opened Wrappers
  import opened Domain
  import opened Registrations

  /** The reason every cancellation detected on save carries. */
  const CancellationReason: string := "The event has been cancelled by the organizers."

  // -------------------------------------------------------------- new event

  /** The task `notify_users_on_new_event` enqueues for a post-save, if any. */
  function NewEventTask(instance: Event, created: bool): (r: Option<Task>)
    ensures r.Some? <==> created && instance.published
    ensures r.Some? ==> r.value == NotifyNewEvent(instance.id)
  {
    if created && instance.published then Some(NotifyNewEvent(instance.id)) else None
  }

  /** `notify_users_on_new_event` (post-save of an event). */
  method NotifyUsersOnNewEvent(queue: TaskQueue, instance: Event, created: bool)
    modifies queue
    ensures queue.tasks == old(queue.tasks) + (if NewEventTask(instance, created).Some? then [NewEventTask(instance, created).value] else [])
  {
    if created && instance.published {
      queue.Delay(NotifyNewEvent(instance.id));
    }
  }

  /**
   * The new-event tasks enqueued over the saves of one event, oldest first:
   * the first save creates the row, every later one updates it.
   */
  function Announcements(saves: seq<Event>): seq<Task>
    decreases |saves|
  {
    if saves == [] then []
    else
      var t := NewEventTask(saves[|saves| - 1], |saves| == 1);
      Announcements(saves[..|saves| - 1]) + (if t.Some? then [t.value] else [])
  }

  /**
   * Over its whole life an event is announced at most once, and it is
   * announced iff it was published when created: a later save that
   * publishes it never announces it.
   */
  lemma {:induction false} AnnouncedAtMostOnce(saves: seq<Event>)
    ensures |Announcements(saves)| <= 1
    ensures |Announcements(saves)| == 1 <==> saves != [] && saves[0].published
    decreases |saves|
  {
    if |saves| > 1 {
      var init := saves[..|saves| - 1];
      AnnouncedAtMostOnce(init);
      assert init[0] == saves[0];
      assert NewEventTask(saves[|saves| - 1], false).None?;
    }
  }

  // ----------------------------------------------------------- cancellation

  /**
   * The task `detect_event_cancellation` enqueues before a save, if any:
   * `stored` is the row the lookup by primary key found (None when it
   * raised `DoesNotExist`), and `hasPk` says the instance had a key at all.
   */
  function CancellationTask(stored: Option<Event>, instance: Event, hasPk: bool): (r: Option<Task>)
    ensures r.Some? <==> hasPk && stored.Some? && stored.value.published && !instance.published
    ensures r.Some? ==> r.value == NotifyEventCancelled(instance.id, CancellationReason, None)
  {
    if !hasPk then None
    else match stored
      case None => None
      case Some(old_event) =>
        if old_event.published && !instance.published
        then Some(NotifyEventCancelled(instance.id, CancellationReason, None))
        else None
  }

  /** `detect_event_cancellation` (pre-save of an event); the lookup reads the stored events. */
  method DetectEventCancellation(queue: TaskQueue, events: seq<Event>, instance: Event, hasPk: bool)
    modifies queue
    ensures var t := CancellationTask(if hasPk then FindBy(events, EventId, instance.id) else None, instance, hasPk);
      queue.tasks == old(queue.tasks) + (if t.Some? then [t.value] else [])
  {
    if hasPk {
      var found := FindBy(events, EventId, instance.id);
      match found {
        case None =>
        case Some(oldEvent) =>
          if oldEvent.published && !instance.published {
            queue.Delay(NotifyEventCancelled(instance.id, CancellationReason, None));
          }
      }
    }
  }

  /**
   * Only unpublishing a stored, published event cancels it: a new event, a
   * missing stored row and a save that keeps or sets `published` enqueue
   * nothing.
   */
  lemma OnlyUnpublishingCancels(events: seq<Event>, instance: Event, hasPk: bool)
    ensures instance.published ==> CancellationTask(FindBy(events, EventId, instance.id), instance, hasPk).None?
    ensures (forall i :: 0 <= i < |events| ==> events[i].id != instance.id) ==>
      CancellationTask(FindBy(events, EventId, instance.id), instance, hasPk).None?
    ensures CancellationTask(FindBy(events, EventId, instance.id), instance, false).None?
  {
  }

  // ----------------------------------------------------------- registration

  /** The task `send_registration_confirmation` enqueues for a post-save, if any. */
  function ConfirmationTask(instance: Registration, created: bool): (r: Option<Task>)
    ensures r.Some? <==> created && !instance.confirmationSent
    ensures r.Some? ==> r.value == SendRegistrationConfirmation(instance.id)
  {
    if created && !instance.confirmationSent then Some(SendRegistrationConfirmation(instance.id)) else None
  }

  /** `send_registration_confirmation` (post-save of a registration). */
  method SendRegistrationConfirmationOnSave(queue: TaskQueue, instance: Registration, created: bool)
    modifies queue
    ensures queue.tasks == old(queue.tasks)
      + (if ConfirmationTask(instance, created).Some? then [ConfirmationTask(instance, created).value] else [])
  {
    if created && !instance.confirmationSent {
      queue.Delay(SendRegistrationConfirmation(instance.id));
    }
  }

  /** A freshly constructed registration is always confirmed once created, and never on a later save. */
  lemma NewRegistrationsAreConfirmed(instance: Registration)
    requires !instance.confirmationSent
    ensures ConfirmationTask(instance, true) == Some(SendRegistrationConfirmation(instance.id))
    ensures ConfirmationTask(instance, false).None?
  {
  }

  // ------------------------------------------------------------------ stats

  /**
   * `update_event_stats` (post-save of a registration): get or create the
   * event's stats row, then recount it from the registrations table.
   */
  method UpdateEventStats(table: StatsTable, regs: seq<Registration>, instance: Registration)
    modifies table
    ensures table.rows == old(table.rows)[instance.event.id := Tally(regs, instance.event.id)]
    ensures var s := table.rows[instance.event.id];
      s.registered + s.attended + s.cancelled + s.noShow == CountEvent(regs, instance.event.id)
  {
    var eventId := instance.event.id;
    var row: StatsRow;
    if eventId in table.rows {
      row := table.rows[eventId].(eventId := eventId);
    } else {
      row := StatsRow(eventId, 0, 0, 0, 0);
      table.rows := table.rows[eventId := row];
    }
    var stats := new EventAttendanceStats(row);
    stats.UpdateStats(regs, table);
    CountsPartition(regs, eventId);
  }
}
