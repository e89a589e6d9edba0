/**
 * A calendar event as the synchroniser sees it (`GoogleCalendarEvent`):
 * how it is read from an event resource of the calendar API, and the
 * chat embed it is rendered into.
 *
 * Date handling is library code and stays abstract: `datetime.fromisoformat`
 * is an `IsoParser` and `strftime` a `Formatter`, both passed in.
 */
module Calendar {
  import opened Wrappers
  import Text

  /** A parsed `datetime`; the model never looks inside it. */
  datatype DateTime = DateTime(year: int, month: int, day: int, hour: int, minute: int,
                               second: int, utcOffsetMinutes: Option<int>)

  /** `datetime.fromisoformat`: `None` where it raises `ValueError`. */
  type IsoParser = string -> Option<DateTime>

  /** `dt.strftime(pattern)`. */
  type Formatter = (DateTime, string) -> string

  /** The `start` or `end` object of an event resource; `Some` exactly when the key is present. */
  datatype TimeObject = TimeObject(dateTime: Option<string>, date: Option<string>)

  datatype AttendeeData = AttendeeData(email: Option<string>)

  /** An event resource as returned by the calendar API; `Some` exactly when the key is present. */
  datatype EventData = EventData(
    id: Option<string>,
    summary: Option<string>,
    description: Option<string>,
    location: Option<string>,
    htmlLink: Option<string>,
    start: Option<TimeObject>,
    end: Option<TimeObject>,
    attendees: Option<seq<AttendeeData>>)

  /** The fields of a `GoogleCalendarEvent` after construction. */
  datatype CalendarEvent = CalendarEvent(
    id: string,
    summary: string,
    description: Option<string>,
    location: Option<string>,
    htmlLink: string,
    startTime: Option<DateTime>,
    endTime: Option<DateTime>,
    isAllDay: bool,
    attendees: seq<string>)

  const DefaultSummary := "No Title"

  /** Python truthiness of an optional string: present and non-empty. */
  predicate NonEmpty(s: Option<string>)
  {
    s.Some? && s.value != ""
  }

  /** Python's `a or b` on two optional strings. */
  function OrElse(a: Option<string>, b: Option<string>): (r: Option<string>)
    ensures NonEmpty(r) <==> NonEmpty(a) || NonEmpty(b)
    ensures NonEmpty(a) ==> r == a
    ensures !NonEmpty(a) ==> r == b
  {
    if NonEmpty(a) then a else b
  }

  /** The text handed to `fromisoformat`: with a time part, every `Z` becomes `+00:00`. */
  function IsoArgument(s: string): (r: string)
    ensures 'T' in s ==> 'Z' !in r && 'T' in r && r == Text.ReplaceChar(s, 'Z', "+00:00")
    ensures 'T' !in s ==> r == s
    ensures 'Z' !in s ==> r == s
  {
    if 'T' in s then Text.ReplaceChar(s, 'Z', "+00:00") else s
  }

  /** `_parse_datetime`: no value for a missing or empty string, otherwise whatever the parser makes of it. */
  function ParseDateTime(s: Option<string>, fromIso: IsoParser): (r: Option<DateTime>)
    ensures !NonEmpty(s) ==> r == None
    ensures NonEmpty(s) && 'Z' !in s.value ==> r == fromIso(s.value)
    ensures NonEmpty(s) && 'T' in s.value ==> r == fromIso(Text.ReplaceChar(s.value, 'Z', "+00:00"))
    ensures NonEmpty(s) && 'T' !in s.value ==> r == fromIso(s.value)
  {
    if !NonEmpty(s) then None else fromIso(IsoArgument(s.value))
  }

  /** The attendee comprehension: emails in input order, missing or empty ones dropped. */
  function AttendeeEmails(attendees: seq<AttendeeData>): (r: seq<string>)
    ensures |r| <= |attendees|
    ensures forall i :: 0 <= i < |r| ==> r[i] != ""
    ensures forall x :: x in r <==> x != "" && AttendeeData(Some(x)) in attendees
  {
    if attendees == [] then []
    else
      var rest := AttendeeEmails(attendees[1..]);
      assert forall a :: a in attendees <==> a == attendees[0] || a in attendees[1..];
      if NonEmpty(attendees[0].email) then [attendees[0].email.value] + rest else rest
  }

  /** The filter keeps the input order: it distributes over concatenation. */
  lemma {:induction false} AttendeeEmailsAppend(a: seq<AttendeeData>, b: seq<AttendeeData>)
    ensures AttendeeEmails(a + b) == AttendeeEmails(a) + AttendeeEmails(b)
  {
    if a != [] {
      assert (a + b)[0] == a[0] && (a + b)[1..] == a[1..] + b;
      AttendeeEmailsAppend(a[1..], b);
    } else {
      assert a + b == b;
    }
  }

  /** `GoogleCalendarEvent.__init__`. */
  function FromEventData(data: EventData, fromIso: IsoParser): (e: CalendarEvent)
    ensures e.id == data.id.GetOr("") && e.htmlLink == data.htmlLink.GetOr("")
    ensures e.summary == data.summary.GetOr(DefaultSummary)
    ensures e.description == data.description && e.location == data.location
    ensures e.isAllDay <==> data.start.Some? && data.start.value.date.Some?
    ensures var start := data.start.GetOr(TimeObject(None, None));
            e.startTime == ParseDateTime(OrElse(start.dateTime, start.date), fromIso)
    ensures var end := data.end.GetOr(TimeObject(None, None));
            e.endTime == ParseDateTime(OrElse(end.dateTime, end.date), fromIso)
    ensures e.attendees == AttendeeEmails(data.attendees.GetOr([]))
    ensures data.attendees.None? ==> e.attendees == []
    ensures forall x :: x in e.attendees <==>
              x != "" && data.attendees.Some? && AttendeeData(Some(x)) in data.attendees.value
  {
    var start := data.start.GetOr(TimeObject(None, None));
    var end := data.end.GetOr(TimeObject(None, None));
    CalendarEvent(
      data.id.GetOr(""),
      data.summary.GetOr(DefaultSummary),
      data.description,
      data.location,
      data.htmlLink.GetOr(""),
      ParseDateTime(OrElse(start.dateTime, start.date), fromIso),
      ParseDateTime(OrElse(end.dateTime, end.date), fromIso),
      start.date.Some?,
      AttendeeEmails(data.attendees.GetOr([])))
  }

  // ---------------------------------------------------------------------
  // The chat embed
  // ---------------------------------------------------------------------

  datatype EmbedField = EmbedField(name: string, value: string, inline: bool)

  datatype Embed = Embed(title: string, url: string, color: int, fields: seq<EmbedField>)

  /** The calendar's brand blue. */
  const EmbedColor := 0x4285F4

  const TimeFieldName := "\U{23F0} Time"
  const LocationFieldName := "\U{1F4CD} Location"
  const DescriptionFieldName := "\U{1F4DD} Description"
  const AttendeesFieldName := "\U{1F465} Attendees"

  const AllDayPattern := "%B %d, %Y"
  const StartPattern := "%B %d, %Y at %I:%M %p"
  const EndPattern := "%I:%M %p"

  /** The chat service's limit on a field value. */
  const DescriptionLimit := 1024
  /** How many attendees are listed by address. */
  const AttendeeLimit := 10

  /** The text of the time field. */
  function TimeText(e: CalendarEvent, fmt: Formatter): string
    requires e.startTime.Some?
  {
    if e.isAllDay then fmt(e.startTime.value, AllDayPattern)
    else fmt(e.startTime.value, StartPattern)
         + (if e.endTime.Some? then " - " + fmt(e.endTime.value, EndPattern) else "")
  }

  /** A description cut to the field limit, ending in three dots when cut. */
  function TruncateDescription(d: string): (r: string)
    ensures |r| <= DescriptionLimit
    ensures |d| <= DescriptionLimit ==> r == d
    ensures |d| > DescriptionLimit ==>
              |r| == DescriptionLimit && r[..DescriptionLimit - 3] == d[..DescriptionLimit - 3]
              && r[DescriptionLimit - 3..] == "..."
  {
    if |d| > DescriptionLimit then d[..DescriptionLimit - 3] + "..." else d
  }

  /** The attendee list: the first ten addresses, then how many more there are. */
  function AttendeesText(emails: seq<string>): string
  {
    if |emails| <= AttendeeLimit then Text.Join(emails, ", ")
    else Text.Join(emails[..AttendeeLimit], ", ")
         + " (+" + Text.NatToString(|emails| - AttendeeLimit) + " more)"
  }

  /** Position of a field name in the embed's fixed order. */
  function FieldRank(name: string): nat
  {
    if name == TimeFieldName then 0
    else if name == LocationFieldName then 1
    else if name == DescriptionFieldName then 2
    else 3
  }

  function TimeFields(e: CalendarEvent, fmt: Formatter): seq<EmbedField>
  {
    if e.startTime.Some? then [EmbedField(TimeFieldName, TimeText(e, fmt), false)] else []
  }

  function LocationFields(e: CalendarEvent): seq<EmbedField>
  {
    if NonEmpty(e.location) then [EmbedField(LocationFieldName, e.location.value, false)] else []
  }

  function DescriptionFields(e: CalendarEvent): seq<EmbedField>
  {
    if NonEmpty(e.description)
    then [EmbedField(DescriptionFieldName, TruncateDescription(e.description.value), false)]
    else []
  }

  function AttendeesFields(e: CalendarEvent): seq<EmbedField>
  {
    if |e.attendees| > 0 then [EmbedField(AttendeesFieldName, AttendeesText(e.attendees), false)] else []
  }

  /** The fields of the embed of an event, in their fixed order. */
  function EmbedFields(e: CalendarEvent, fmt: Formatter): seq<EmbedField>
  {
    TimeFields(e, fmt) + LocationFields(e) + DescriptionFields(e) + AttendeesFields(e)
  }

  /** The embed of an event. */
  function EmbedOf(e: CalendarEvent, fmt: Formatter): Embed
  {
    Embed(e.summary, e.htmlLink, EmbedColor, EmbedFields(e, fmt))
  }

  /** The value of the first field with that name, if any. */
  function FieldValue(fields: seq<EmbedField>, name: string): Option<string>
  {
    if fields == [] then None
    else if fields[0].name == name then Some(fields[0].value)
    else FieldValue(fields[1..], name)
  }

  lemma {:induction false} FieldValueAppend(a: seq<EmbedField>, b: seq<EmbedField>, name: string)
    ensures FieldValue(a + b, name) == if FieldValue(a, name).Some? then FieldValue(a, name) else FieldValue(b, name)
  {
    if a != [] {
      assert (a + b)[0] == a[0] && (a + b)[1..] == a[1..] + b;
      FieldValueAppend(a[1..], b, name);
    } else {
      assert a + b == b;
    }
  }

  lemma FieldValueFourParts(t: seq<EmbedField>, l: seq<EmbedField>, d: seq<EmbedField>,
                            a: seq<EmbedField>, name: string)
    ensures FieldValue(t + l + d + a, name)
            == if FieldValue(t, name).Some? then FieldValue(t, name)
               else if FieldValue(l, name).Some? then FieldValue(l, name)
               else if FieldValue(d, name).Some? then FieldValue(d, name)
               else FieldValue(a, name)
  {
    FieldValueAppend(t + l + d, a, name);
    FieldValueAppend(t + l, d, name);
    FieldValueAppend(t, l, name);
  }

  /** `to_discord_embed`: builds the field list one optional field at a time. */
  method ToDiscordEmbed(e: CalendarEvent, fmt: Formatter) returns (embed: Embed)
    ensures embed.title == e.summary && embed.url == e.htmlLink && embed.color == EmbedColor
    ensures embed.fields == EmbedFields(e, fmt)
  {
    var fields: seq<EmbedField> := [];

    if e.startTime.Some? {
      var timeStr: string;
      if e.isAllDay {
        timeStr := fmt(e.startTime.value, AllDayPattern);
      } else {
        timeStr := fmt(e.startTime.value, StartPattern);
        if e.endTime.Some? {
          timeStr := timeStr + " - " + fmt(e.endTime.value, EndPattern);
        }
      }
      assert timeStr == TimeText(e, fmt);
      fields := fields + [EmbedField(TimeFieldName, timeStr, false)];
    }
    assert fields == TimeFields(e, fmt);

    if NonEmpty(e.location) {
      fields := fields + [EmbedField(LocationFieldName, e.location.value, false)];
    }
    assert fields == TimeFields(e, fmt) + LocationFields(e);

    if NonEmpty(e.description) {
      var d := e.description.value;
      var desc := if |d| > DescriptionLimit then d[..DescriptionLimit - 3] + "..." else d;
      fields := fields + [EmbedField(DescriptionFieldName, desc, false)];
    }
    assert fields == TimeFields(e, fmt) + LocationFields(e) + DescriptionFields(e);

    if |e.attendees| > 0 {
      var shown := if |e.attendees| <= AttendeeLimit then e.attendees else e.attendees[..AttendeeLimit];
      var attendeesStr := Text.Join(shown, ", ");
      if |e.attendees| > AttendeeLimit {
        attendeesStr := attendeesStr + " (+" + Text.NatToString(|e.attendees| - AttendeeLimit) + " more)";
      }
      fields := fields + [EmbedField(AttendeesFieldName, attendeesStr, false)];
    }

    embed := Embed(e.summary, e.htmlLink, EmbedColor, fields);
  }

  // ---------------------------------------------------------------------
  // What the embed promises
  // ---------------------------------------------------------------------

  /**
   * Fields come in the order Time, Location, Description, Attendees (so no name repeats),
   * carry only those four names, and none is inline.
   */
  lemma EmbedFieldOrder(e: CalendarEvent, fmt: Formatter)
    ensures var f := EmbedFields(e, fmt);
            |f| <= 4
            && (forall i :: 0 <= i < |f| ==>
                  f[i].name == TimeFieldName || f[i].name == LocationFieldName
                  || f[i].name == DescriptionFieldName || f[i].name == AttendeesFieldName)
            && (forall i, j :: 0 <= i < j < |f| ==> FieldRank(f[i].name) < FieldRank(f[j].name))
            && (forall i :: 0 <= i < |f| ==> !f[i].inline)
  {
    var t, l, d, a := TimeFields(e, fmt), LocationFields(e), DescriptionFields(e), AttendeesFields(e);
    var f := EmbedFields(e, fmt);
    assert f == t + l + d + a;
    forall i, j | 0 <= i < j < |f| ensures FieldRank(f[i].name) < FieldRank(f[j].name) {
      assert forall k :: 0 <= k < |f| ==>
        FieldRank(f[k].name) == (if k < |t| then 0 else if k < |t| + |l| then 1 else if k < |t| + |l| + |d| then 2 else 3);
    }
  }

  /** Each field is present exactly when its source value is, and carries the value the source builds. */
  lemma EmbedFieldValues(e: CalendarEvent, fmt: Formatter)
    ensures var f := EmbedFields(e, fmt);
            && FieldValue(f, TimeFieldName) == (if e.startTime.Some? then Some(TimeText(e, fmt)) else None)
            && FieldValue(f, LocationFieldName) == (if NonEmpty(e.location) then e.location else None)
            && FieldValue(f, DescriptionFieldName)
               == (if NonEmpty(e.description) then Some(TruncateDescription(e.description.value)) else None)
            && FieldValue(f, AttendeesFieldName)
               == (if |e.attendees| > 0 then Some(AttendeesText(e.attendees)) else None)
  {
    var t, l, d, a := TimeFields(e, fmt), LocationFields(e), DescriptionFields(e), AttendeesFields(e);
    FieldValueFourParts(t, l, d, a, TimeFieldName);
    FieldValueFourParts(t, l, d, a, LocationFieldName);
    FieldValueFourParts(t, l, d, a, DescriptionFieldName);
    FieldValueFourParts(t, l, d, a, AttendeesFieldName);
  }

  /** An all-day event shows only its date; a timed one shows its end time after " - " when it has one. */
  lemma TimeTextShape(e: CalendarEvent, fmt: Formatter)
    requires e.startTime.Some?
    ensures var r := TimeText(e, fmt);
            && (e.isAllDay ==> r == fmt(e.startTime.value, AllDayPattern))
            && (!e.isAllDay ==> r[..|fmt(e.startTime.value, StartPattern)|] == fmt(e.startTime.value, StartPattern))
            && (!e.isAllDay && e.endTime.None? ==> r == fmt(e.startTime.value, StartPattern))
            && (!e.isAllDay && e.endTime.Some? ==>
                  var suffix := " - " + fmt(e.endTime.value, EndPattern);
                  |r| >= |suffix| && r[|r| - |suffix|..] == suffix)
  {
  }

  /**
   * The attendee text starts with at most ten addresses joined by ", "; past ten it
   * ends in " (+k more)", where k is that number in decimal and reads back as it.
   */
  lemma AttendeesTextShape(emails: seq<string>)
    requires |emails| > 0
    ensures var shown := if |emails| <= AttendeeLimit then emails else emails[..AttendeeLimit];
            var head := Text.Join(shown, ", ");
            var r := AttendeesText(emails);
            && |head| == Text.TotalLength(shown) + 2 * (|shown| - 1)
            && |r| >= |head| && r[..|head|] == head
            && (|emails| <= AttendeeLimit ==> r == head)
            && (|emails| > AttendeeLimit ==>
                  var k := Text.NatToString(|emails| - AttendeeLimit);
                  && Text.IsDigits(k) && k[0] != '0' && Text.ParseNat(k) == |emails| - AttendeeLimit
                  && r == head + " (+" + k + " more)")
  {
    var shown := if |emails| <= AttendeeLimit then emails else emails[..AttendeeLimit];
    Text.JoinLength(shown, ", ");
    if |emails| > AttendeeLimit {
      var k := Text.NatToString(|emails| - AttendeeLimit);
      Text.ParseNatToString(|emails| - AttendeeLimit);
      assert AttendeesText(emails) == Text.Join(shown, ", ") + " (+" + k + " more)";
    }
  }
}
