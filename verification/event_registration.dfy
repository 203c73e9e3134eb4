/**
 * `EventRegistration` and `EventAttendanceStats`: the lazy registration code,
 * the two status transitions, the persisting `save` with the table's unique
 * constraints, and the per-status counters.
 */
module Registrations {
  import opened Wrappers
  import opened Text
  import opened Domain

  // ------------------------------------------------------------------ codes

  /** What `uuid.uuid4().hex` returns: 32 lower-case hex digits. */
  predicate IsUuidHex(hex: string) {
    |hex| == 32 && forall i :: 0 <= i < |hex| ==> IsLowerHex(hex[i])
  }

  /** `generate_registration_code`, given the random uuid's hex form. */
  function GenerateCode(hex: string): (r: string)
    requires IsUuidHex(hex)
    ensures |r| == 12 && r[..4] == "REG-"
    ensures forall i :: 4 <= i < 12 ==> IsUpperHex(r[i])
    ensures forall i :: 4 <= i < 12 ==> LowerChar(r[i]) == hex[i - 4]
  {
    "REG-" + ToUpper(hex[..8])
  }

  /** Two different uuids agreeing on their first eight digits give the same code: the code keeps only those. */
  lemma CodeDependsOnFirstEight(h1: string, h2: string)
    requires IsUuidHex(h1) && IsUuidHex(h2)
    ensures GenerateCode(h1) == GenerateCode(h2) <==> h1[..8] == h2[..8]
  {
    if GenerateCode(h1) == GenerateCode(h2) {
      forall i | 0 <= i < 8 ensures h1[i] == h2[i] {
        assert GenerateCode(h1)[i + 4] == GenerateCode(h2)[i + 4];
      }
    }
  }

  // ------------------------------------------------------------------ table

  /** Another row already holds this (event, user) pair or this code: the insert or update raises. */
  predicate Clashes(table: seq<Registration>, row: Registration) {
    exists i :: 0 <= i < |table| && table[i].id != row.id
      && ((table[i].event.id == row.event.id && table[i].user.id == row.user.id) || table[i].code == row.code)
  }

  /** The table's constraints: unique primary key, `unique_together = ('event', 'user')` and a unique code. */
  predicate WellFormed(table: seq<Registration>) {
    forall i, j :: 0 <= i < |table| && 0 <= j < |table| && i != j ==>
      table[i].id != table[j].id
      && !(table[i].event.id == table[j].event.id && table[i].user.id == table[j].user.id)
      && table[i].code != table[j].code
  }

  predicate HasId(table: seq<Registration>, id: Id) {
    exists i :: 0 <= i < |table| && table[i].id == id
  }

  /** A successful `save`: an UPDATE of the row with that primary key, or an INSERT when there is none. */
  function Upsert(table: seq<Registration>, row: Registration): (r: seq<Registration>)
    ensures HasId(table, row.id) ==> |r| == |table|
    ensures !HasId(table, row.id) ==> r == table + [row]
  {
    if HasId(table, row.id) then
      seq(|table|, i requires 0 <= i < |table| => if table[i].id == row.id then row else table[i])
    else table + [row]
  }

  /** After a save, looking the registration up by its key gives exactly what was saved. */
  lemma UpsertThenFind(table: seq<Registration>, row: Registration)
    ensures FindBy(Upsert(table, row), RegistrationId, row.id) == Some(row)
  {
    var r := Upsert(table, row);
    if HasId(table, row.id) {
      var k :| 0 <= k < |table| && table[k].id == row.id;
      assert r[k] == row;
      forall j | 0 <= j < |r| && r[j].id == row.id
        ensures r[j] == row
      {
        assert table[j].id == row.id;
      }
    } else {
      assert r[|table|] == row;
    }
  }

  /** A save that does not clash keeps the table's constraints. */
  lemma {:induction false} UpsertKeepsWellFormed(table: seq<Registration>, row: Registration)
    requires WellFormed(table) && !Clashes(table, row)
    ensures WellFormed(Upsert(table, row))
  {
    var r := Upsert(table, row);
    forall i, j | 0 <= i < |r| && 0 <= j < |r| && i != j
      ensures r[i].id != r[j].id
      ensures !(r[i].event.id == r[j].event.id && r[i].user.id == r[j].user.id)
      ensures r[i].code != r[j].code
    {
      if HasId(table, row.id) {
        var k :| 0 <= k < |table| && table[k].id == row.id;
        if r[i] == row && table[i].id == row.id {
          assert i == k;
          assert table[j].id != row.id && r[j] == table[j];
        } else if r[j] == row && table[j].id == row.id {
          assert j == k;
          assert table[i].id != row.id && r[i] == table[i];
        } else {
          assert r[i] == table[i] && r[j] == table[j];
        }
      } else {
        if i == |table| {
          assert r[j] == table[j] && table[j].id != row.id;
        } else if j == |table| {
          assert r[i] == table[i] && table[i].id != row.id;
        } else {
          assert r[i] == table[i] && r[j] == table[j];
        }
      }
    }
  }

  // ----------------------------------------------------------- registration

  /** An `EventRegistration` instance; `event` and `user` are its foreign keys, joined. */
  class EventRegistration {
    const id: Id
    const event: Event
    const user: User
    var code: string
    var status: RegStatus
    var checkedIn: bool
    var checkInTime: Option<int>
    var reminderSent: bool
    var confirmationSent: bool

    /** A new registration carries the model's field defaults and no code yet. */
    constructor (id: Id, event: Event, user: User)
      ensures this.id == id && this.event == event && this.user == user
      ensures code == "" && status == Registered && !checkedIn && checkInTime.None?
      ensures !reminderSent && !confirmationSent
    {
      this.id := id;
      this.event := event;
      this.user := user;
      code := "";
      status := Registered;
      checkedIn := false;
      checkInTime := None;
      reminderSent := false;
      confirmationSent := false;
    }

    /** The row this instance saves. */
    function Row(): Registration
      reads this
    {
      Registration(id, event, user, code, status, checkedIn, checkInTime, reminderSent, confirmationSent)
    }

    /**
     * `save`: a missing code is generated first (and kept on the instance
     * even when the write then fails); the write fails on a clash with
     * another row's (event, user) pair or code.
     */
    method Save(store: Store, hex: string) returns (ok: bool)
      requires IsUuidHex(hex)
      modifies this, store
      ensures code == (if old(code) == "" then GenerateCode(hex) else old(code))
      ensures status == old(status) && checkedIn == old(checkedIn) && checkInTime == old(checkInTime)
      ensures reminderSent == old(reminderSent) && confirmationSent == old(confirmationSent)
      ensures store.users == old(store.users) && store.events == old(store.events) && store.logins == old(store.logins)
      ensures ok <==> !Clashes(old(store.registrations), Row())
      ensures ok ==> store.registrations == Upsert(old(store.registrations), Row())
      ensures !ok ==> store.registrations == old(store.registrations)
    {
      if code == "" {
        code := GenerateCode(hex);
      }
      if Clashes(store.registrations, Row()) {
        return false;
      }
      store.registrations := Upsert(store.registrations, Row());
      return true;
    }

    /** `mark_as_attended`: attended, checked in at `now`, then saved. */
    method MarkAsAttended(store: Store, now: int, hex: string) returns (ok: bool)
      requires IsUuidHex(hex)
      modifies this, store
      ensures status == Attended && checkedIn && checkInTime == Some(now)
      ensures code == (if old(code) == "" then GenerateCode(hex) else old(code))
      ensures reminderSent == old(reminderSent) && confirmationSent == old(confirmationSent)
      ensures store.users == old(store.users) && store.events == old(store.events) && store.logins == old(store.logins)
      ensures ok <==> !Clashes(old(store.registrations), Row())
      ensures ok ==> store.registrations == Upsert(old(store.registrations), Row())
      ensures !ok ==> store.registrations == old(store.registrations)
    {
      status := Attended;
      checkedIn := true;
      checkInTime := Some(now);
      ok := Save(store, hex);
    }

    /** `cancel_registration`: cancelled, then saved; nothing else changes. */
    method CancelRegistration(store: Store, hex: string) returns (ok: bool)
      requires IsUuidHex(hex)
      modifies this, store
      ensures status == Cancelled
      ensures checkedIn == old(checkedIn) && checkInTime == old(checkInTime)
      ensures code == (if old(code) == "" then GenerateCode(hex) else old(code))
      ensures reminderSent == old(reminderSent) && confirmationSent == old(confirmationSent)
      ensures store.users == old(store.users) && store.events == old(store.events) && store.logins == old(store.logins)
      ensures ok <==> !Clashes(old(store.registrations), Row())
      ensures ok ==> store.registrations == Upsert(old(store.registrations), Row())
      ensures !ok ==> store.registrations == old(store.registrations)
    {
      status := Cancelled;
      ok := Save(store, hex);
    }
  }

  // ------------------------------------------------------------------ stats

  /** `registrations.filter(status=s).count()` over the event's registrations. */
  function CountStatus(regs: seq<Registration>, eventId: Id, s: RegStatus): (n: nat)
    ensures n <= |regs|
    decreases |regs|
  {
    if regs == [] then 0
    else CountStatus(regs[..|regs| - 1], eventId, s)
         + (if regs[|regs| - 1].event.id == eventId && regs[|regs| - 1].status == s then 1 else 0)
  }

  /** `self.event.registrations.all().count()` */
  function CountEvent(regs: seq<Registration>, eventId: Id): (n: nat)
    ensures n <= |regs|
    decreases |regs|
  {
    if regs == [] then 0
    else CountEvent(regs[..|regs| - 1], eventId) + (if regs[|regs| - 1].event.id == eventId then 1 else 0)
  }

  /** The four counters split the event's registrations: every status is counted, none twice. */
  lemma {:induction false} CountsPartition(regs: seq<Registration>, eventId: Id)
    ensures CountStatus(regs, eventId, Registered) + CountStatus(regs, eventId, Attended)
          + CountStatus(regs, eventId, Cancelled) + CountStatus(regs, eventId, NoShow)
         == CountEvent(regs, eventId)
    decreases |regs|
  {
    if regs != [] {
      CountsPartition(regs[..|regs| - 1], eventId);
    }
  }

  /** A stored `EventAttendanceStats` row. */
  datatype StatsRow = StatsRow(eventId: Id, registered: int, attended: int, cancelled: int, noShow: int)

  /** The `event_attendance_stats` table, one row per event (`OneToOneField`). */
  class StatsTable {
    var rows: map<Id, StatsRow>

    constructor ()
      ensures rows == map[]
    {
      rows := map[];
    }
  }

  /** An `EventAttendanceStats` instance. */
  class EventAttendanceStats {
    const eventId: Id
    var totalRegistered: int
    var totalAttended: int
    var totalCancelled: int
    var totalNoShow: int

    /** A loaded row, or a fresh one with every counter at its default 0. */
    constructor (row: StatsRow)
      ensures eventId == row.eventId && totalRegistered == row.registered && totalAttended == row.attended
      ensures totalCancelled == row.cancelled && totalNoShow == row.noShow
    {
      eventId := row.eventId;
      totalRegistered := row.registered;
      totalAttended := row.attended;
      totalCancelled := row.cancelled;
      totalNoShow := row.noShow;
    }

    function Row(): StatsRow
      reads this
    {
      StatsRow(eventId, totalRegistered, totalAttended, totalCancelled, totalNoShow)
    }

    /** `update_stats`: each counter is recounted from the registrations, then the row is saved. */
    method UpdateStats(regs: seq<Registration>, table: StatsTable)
      modifies this, table
      ensures totalRegistered == CountStatus(regs, eventId, Registered)
      ensures totalAttended == CountStatus(regs, eventId, Attended)
      ensures totalCancelled == CountStatus(regs, eventId, Cancelled)
      ensures totalNoShow == CountStatus(regs, eventId, NoShow)
      ensures table.rows == old(table.rows)[eventId := Row()]
    {
      totalRegistered := CountStatus(regs, eventId, Registered);
      totalAttended := CountStatus(regs, eventId, Attended);
      totalCancelled := CountStatus(regs, eventId, Cancelled);
      totalNoShow := CountStatus(regs, eventId, NoShow);
      table.rows := table.rows[eventId := Row()];
    }
  }

  /** The counters `update_stats` stores for an event. */
  function Tally(regs: seq<Registration>, eventId: Id): (s: StatsRow)
    ensures s.eventId == eventId
    ensures s.registered >= 0 && s.attended >= 0 && s.cancelled >= 0 && s.noShow >= 0
    ensures s.registered + s.attended + s.cancelled + s.noShow == CountEvent(regs, eventId)
  {
    CountsPartition(regs, eventId);
    StatsRow(eventId, CountStatus(regs, eventId, Registered), CountStatus(regs, eventId, Attended),
             CountStatus(regs, eventId, Cancelled), CountStatus(regs, eventId, NoShow))
  }

  /**
   * `attendance_rate`: attendees over registered, attended and no-show, as a
   * percentage, and 0 when there are none. Cancelled registrations are left
   * out of the denominator.
   */
  function AttendanceRate(s: StatsRow): (rate: real)
    ensures s.registered + s.attended + s.noShow == 0 ==> rate == 0.0
    ensures s.attended == 0 ==> rate == 0.0
    ensures s.registered >= 0 && s.attended >= 0 && s.noShow >= 0 ==> 0.0 <= rate <= 100.0
    ensures s.registered == 0 && s.noShow == 0 && s.attended > 0 ==> rate == 100.0
  {
    var total := s.registered + s.attended + s.noShow;
    if total == 0 then 0.0
    else if s.registered >= 0 && s.attended >= 0 && s.noShow >= 0 then
      FractionBounds(s.attended as real, total as real);
      (s.attended as real / total as real) * 100.0
    else (s.attended as real / total as real) * 100.0
  }

  lemma FractionBounds(a: real, t: real)
    requires 0.0 <= a <= t && t > 0.0
    ensures 0.0 <= a / t <= 1.0
  {
    var q := a / t;
    assert q * t == a;
  }

  /**
   * For counters that come from `update_stats` the rate is a percentage: 0
   * when nobody attended, 100 when everyone who did not cancel attended.
   */
  lemma AttendanceRateBounds(regs: seq<Registration>, eventId: Id)
    ensures 0.0 <= AttendanceRate(Tally(regs, eventId)) <= 100.0
    ensures CountStatus(regs, eventId, Attended) == 0 ==> AttendanceRate(Tally(regs, eventId)) == 0.0
    ensures CountStatus(regs, eventId, Attended) > 0
      && CountStatus(regs, eventId, Attended) + CountStatus(regs, eventId, Cancelled) == CountEvent(regs, eventId)
      ==> AttendanceRate(Tally(regs, eventId)) == 100.0
  {
    var s := Tally(regs, eventId);
    assert s.registered == CountStatus(regs, eventId, Registered) && s.noShow == CountStatus(regs, eventId, NoShow);
  }
}
