/**
 * `CalendarService`: the fields of the VEVENT built for an event, and the
 * name of the `.ics` file it is served under. Serialising the calendar to
 * iCalendar text is the `icalendar` library's and is not modelled; the
 * properties use the names of RFC 5545 (SUMMARY, DTSTART, DTEND, DTSTAMP,
 * UID, DESCRIPTION, LOCATION, CATEGORIES, STATUS).
 */
module Calendar {
  import opened Wrappers
  import opened Text
  import opened Domain

  /** The event's venue: its name, its city's name and, when the city has one, its region's name. */
  datatype Venue = Venue(name: string, cityName: string, regionName: Option<string>)

  /** What `generate_event_ics` reads of an event; `date` in seconds, `eventType` is the `type` choice. */
  datatype CalendarEvent = CalendarEvent(
    id: Id,
    title: string,
    date: int,
    description: string,
    published: bool,
    eventType: string,
    location: Option<Venue>,
    tags: seq<string>,
    speakers: seq<string>)

  /** The VEVENT component; an absent property is None (or no categories). */
  datatype VEvent = VEvent(
    summary: string,
    dtstart: int,
    dtend: int,
    dtstamp: int,
    uid: string,
    description: string,
    location: Option<string>,
    categories: seq<string>,
    status: string)

  /** The VCALENDAR object. */
  datatype VCalendar = VCalendar(prodid: string, version: string, publishMethod: string, events: seq<VEvent>)

  /** Seconds in the two hours every event is assumed to last. */
  const DefaultDuration: int := 2 * 3600

  /** The `UID` of an event's VEVENT. */
  function Uid(id: Id): (u: string)
    ensures |u| > 25 && u[..6] == "event-"
    ensures EndsWith(u, "@djangocameroon.org")
  {
    var u := "event-" + NatToString(id) + "@djangocameroon.org";
    assert u[|u| - 19..] == "@djangocameroon.org";
    u
  }

  /** Distinct events get distinct UIDs. */
  lemma {:induction false} UidInjective(a: Id, b: Id)
    requires Uid(a) == Uid(b)
    ensures a == b
  {
    var sa := NatToString(a);
    var sb := NatToString(b);
    var ua := "event-" + sa + "@djangocameroon.org";
    var ub := "event-" + sb + "@djangocameroon.org";
    assert |sa| == |sb|;
    assert ua[6..6 + |sa|] == sa;
    assert ub[6..6 + |sb|] == sb;
    NatToStringInjective(a, b);
  }

  /** The location text: "name, city", followed by ", region" when the city has a region. */
  function LocationLine(v: Venue): (s: string)
    ensures |s| >= |v.name| + 2 && s[..|v.name| + 2] == v.name + ", "
  {
    var s := v.name + ", " + v.cityName + (if v.regionName.Some? then ", " + v.regionName.value else "");
    assert s[..|v.name| + 2] == v.name + ", ";
    s
  }

  /** The details block: the event type, then a speakers line when there are speakers. */
  function Details(e: CalendarEvent): (d: string)
    ensures |d| >= 6 + |e.eventType| + 1 && d[..6 + |e.eventType| + 1] == "Type: " + e.eventType + "\n"
    ensures e.speakers == [] ==> d == "Type: " + e.eventType + "\n"
    ensures d[|d| - 1] == '\n'
  {
    var head := "Type: " + e.eventType + "\n";
    var d := head + (if e.speakers != [] then "Speakers: " + Join(e.speakers, ", ") + "\n" else "");
    assert d[..|head|] == head;
    d
  }

  /** The final DESCRIPTION: the event's own description, a blank line, then the details; the details alone without one. */
  function Description(e: CalendarEvent): (s: string)
    ensures EndsWith(s, Details(e))
    ensures e.description != "" ==> |s| >= |e.description| + 2 && s[..|e.description| + 2] == e.description + "\n\n"
    ensures e.description == "" ==> s == Details(e)
  {
    if e.description != "" then
      var s := e.description + "\n\n" + Details(e);
      assert s[|s| - |Details(e)|..] == Details(e);
      assert s[..|e.description| + 2] == e.description + "\n\n";
      s
    else Details(e)
  }

  /** `generate_event_ics` up to serialisation; `now` is the DTSTAMP. */
  function GenerateEventIcs(e: CalendarEvent, now: int): (cal: VCalendar)
    ensures cal.prodid == "-//Django Cameroon Events//djangocameroon.org//" && cal.version == "2.0"
    ensures cal.publishMethod == "PUBLISH" && |cal.events| == 1
  {
    VCalendar(
      "-//Django Cameroon Events//djangocameroon.org//", "2.0", "PUBLISH",
      [VEvent(
        summary := e.title,
        dtstart := e.date,
        dtend := e.date + DefaultDuration,
        dtstamp := now,
        uid := Uid(e.id),
        description := Description(e),
        location := if e.location.Some? then Some(LocationLine(e.location.value)) else None,
        categories := e.tags,
        status := if e.published then "CONFIRMED" else "TENTATIVE")])
  }

  /**
   * The VEVENT's fields: it lasts two hours, is CONFIRMED exactly when the
   * event is published (TENTATIVE otherwise), carries the event's UID, has
   * a LOCATION exactly when the event has a venue, and its DESCRIPTION
   * always ends with the details block.
   */
  lemma VEventFields(e: CalendarEvent, now: int)
    ensures var v := GenerateEventIcs(e, now).events[0];
      && v.summary == e.title && v.dtstart == e.date
      && v.dtend - v.dtstart == 7200 && v.dtstamp == now
      && (v.status == "CONFIRMED" <==> e.published)
      && (v.status == "TENTATIVE" <==> !e.published)
      && v.uid == Uid(e.id)
      && (v.location.Some? <==> e.location.Some?)
      && EndsWith(v.description, Details(e))
      && v.description != ""
  {
    var d := Details(e);
    assert d[|d| - 1] == '\n';
  }

  // --------------------------------------------------------------- filename

  /** The first pass: alphanumerics, ' ', '-' and '_' stay; anything else becomes '_'. */
  function SafeChar(c: char): char {
    if IsAlnum(c) || c == ' ' || c == '-' || c == '_' then c else '_'
  }

  function SafeTitle(title: string): (s: string)
    ensures |s| == |title| && forall i :: 0 <= i < |title| ==> s[i] == SafeChar(title[i])
  {
    seq(|title|, i requires 0 <= i < |title| => SafeChar(title[i]))
  }

  /** `generate_filename`: the safe title with spaces turned into '_', lower-cased, plus ".ics". */
  function GenerateFilename(title: string): (name: string)
    ensures |name| == |title| + 4
    ensures EndsWith(name, ".ics")
  {
    ReplaceOneChar(SafeTitle(title), ' ', '_');
    var name := ToLower(ReplaceAll(SafeTitle(title), " ", "_")) + ".ics";
    assert name[|name| - 4..] == ".ics";
    name
  }

  /** What a title character becomes in the file name, in one step. */
  function FileChar(c: char): (f: char)
    ensures IsLower(f) || IsDigit(f) || f == '-' || f == '_'
  {
    if IsUpper(c) then LowerChar(c)
    else if IsLower(c) || IsDigit(c) || c == '-' then c
    else '_'
  }

  /** Replacing a one-character pattern by a one-character text is a pointwise substitution. */
  lemma {:induction false} ReplaceOneChar(s: string, a: char, b: char)
    ensures |ReplaceAll(s, [a], [b])| == |s|
    ensures forall i :: 0 <= i < |s| ==> ReplaceAll(s, [a], [b])[i] == (if s[i] == a then b else s[i])
    decreases |s|
  {
    if |s| >= 1 {
      ReplaceOneChar(s[1..], a, b);
      var r := ReplaceAll(s, [a], [b]);
      if s[..1] == [a] {
        assert r == [b] + ReplaceAll(s[1..], [a], [b]);
      } else {
        assert r == [s[0]] + ReplaceAll(s[1..], [a], [b]);
      }
    }
  }

  /**
   * The file name is the title character for character through FileChar,
   * then ".ics": as long as the title plus four, no spaces, and only
   * lower-case letters, digits, '-' and '_' before the extension.
   */
  lemma FilenameShape(title: string)
    ensures var name := GenerateFilename(title);
      && |name| == |title| + 4
      && EndsWith(name, ".ics")
      && (forall i :: 0 <= i < |title| ==> name[i] == FileChar(title[i]))
      && ' ' !in name[..|title|]
  {
    var safe := SafeTitle(title);
    ReplaceOneChar(safe, ' ', '_');
    var name := GenerateFilename(title);
    var stem := ToLower(ReplaceAll(safe, " ", "_"));
    assert name == stem + ".ics";
    assert name[|name| - 4..] == ".ics";
    forall i | 0 <= i < |title|
      ensures name[i] == FileChar(title[i])
    {
      assert name[i] == stem[i];
    }
    assert name[..|title|] == stem;
  }
}
