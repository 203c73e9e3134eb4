/**
 * `NotificationSettings`: the singleton settings row. `save` forces the
 * primary key to 1 before writing, so saving any instance overwrites the one
 * row; `get_solo` reads the row with the smallest key, if any.
 */
module NotificationSettingsModel {
  import opened Wrappers
  import opened Preferences

  /** The `default=` of every column; `id` defaults to 1 and is not editable. */
  function FieldDefaults(): SettingsRow {
    SettingsRow(
      id := 1,
      sendWelcomeEmail := true, sendWelcomeSms := false,
      sendSignupEmail := false, sendSignupSms := false,
      sendNewEventEmail := true, sendNewEventSms := false,
      sendEventCancelledEmail := true, sendEventCancelledSms := true,
      sendEventReminderEmail := true, sendEventReminderSms := true,
      sendUpcomingDigestEmail := true, sendUpcomingDigestSms := false,
      sendRegistrationConfirmationEmail := true, sendRegistrationConfirmationSms := true,
      sendNewLocationLoginEmail := true, sendNewLocationLoginSms := true)
  }

  /** A freshly created settings row switches on exactly what the fallback switches on. */
  lemma FieldDefaultsMatchFallback()
    ensures FromRow(FieldDefaults()) == Defaults()
    ensures FieldDefaults().id == 1
  {
  }

  /** Every non-empty set of keys has a smallest element. */
  lemma MinExists(ks: set<nat>)
    requires ks != {}
    ensures exists m :: m in ks && forall k :: k in ks ==> m <= k
  {
    var x :| x in ks;
    MinAtMost(ks, x);
  }

  /** A key set holding `x` has a smallest element, found by descending from `x`. */
  lemma {:induction false} MinAtMost(ks: set<nat>, x: nat)
    requires x in ks
    ensures exists m :: m in ks && forall k :: k in ks ==> m <= k
    decreases x
  {
    if !forall k :: k in ks ==> x <= k {
      var y :| y in ks && y < x;
      MinAtMost(ks, y);
    }
  }

  /** The smallest key of a non-empty key set. */
  function MinKey(ks: set<nat>): (m: nat)
    requires ks != {}
    ensures m in ks
    ensures forall k :: k in ks ==> m <= k
  {
    MinExists(ks);
    var m :| m in ks && forall k :: k in ks ==> m <= k;
    m
  }

  /** `objects.first()`: the row with the smallest primary key, or None for an empty table. */
  function First(rows: map<nat, SettingsRow>): (r: Option<SettingsRow>)
    ensures r.None? <==> rows == map[]
    ensures r.Some? ==> rows.Keys != {} && r.value == rows[MinKey(rows.Keys)]
  {
    if rows == map[] then None
    else
      assert rows.Keys != {} by { var k :| k in rows; }
      Some(rows[MinKey(rows.Keys)])
  }

  /** The `notificationsettings` table, keyed by primary key. */
  class SettingsTable {
    var rows: map<nat, SettingsRow>

    constructor ()
      ensures rows == map[]
    {
      rows := map[];
    }

    /** `NotificationSettings.get_solo()` */
    function GetSolo(): (r: Option<SettingsRow>)
      reads this
      ensures r == First(rows)
    {
      First(rows)
    }
  }

  /** One `NotificationSettings` instance. */
  class NotificationSettings {
    var id: nat
    var flags: Prefs

    /** `NotificationSettings()`: every column at its default. */
    constructor ()
      ensures id == 1 && flags == FromRow(FieldDefaults())
    {
      id := 1;
      flags := FromRow(FieldDefaults());
    }

    /** An instance with the given switches and key, as loaded or built by hand. */
    constructor WithFlags(key: nat, switches: Prefs)
      ensures id == key && flags == switches
    {
      id := key;
      flags := switches;
    }

    /** `save`: the key becomes 1 whatever it was, then the row under key 1 is written. */
    method Save(table: SettingsTable)
      modifies this, table
      ensures id == 1 && flags == old(flags)
      ensures table.rows == old(table.rows)[1 := ToRow(1, flags)]
    {
      id := 1;
      table.rows := table.rows[1 := ToRow(id, flags)];
    }
  }

  /**
   * A table written only by `save` holds at most one row, and what was saved
   * last is what the preferences then say.
   */
  lemma SavedRowWins(rows: map<nat, SettingsRow>, p: Prefs)
    requires rows.Keys <= {1}
    ensures rows[1 := ToRow(1, p)].Keys == {1}
    ensures First(rows[1 := ToRow(1, p)]) == Some(ToRow(1, p))
    ensures Resolve(Loaded(First(rows[1 := ToRow(1, p)]))) == p
  {
    var after := rows[1 := ToRow(1, p)];
    assert after.Keys == {1};
    assert MinKey(after.Keys) == 1;
  }
}
