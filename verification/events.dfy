/**
 * Request bodies for `create_calendar_event` and `create_recurring_event`:
 * the event record sent to the calendar service's insert call.
 */
module Events {
  import opened Wrappers
  import opened JsonValue

  /** One attendee of an event, as the record `{email: e}`. */
  datatype Attendee = Attendee(email: string)

  /**
   * An outgoing event body. The three required members are always there;
   * an optional member is sent exactly when its field is `Some`.
   */
  datatype EventBody = EventBody(
    summary: string,
    start: string,
    end: string,
    recurrence: Option<seq<string>>,
    attendees: Option<seq<Attendee>>,
    description: Option<string>,
    location: Option<string>)

  /** Member names every event body carries. */
  const RequiredKeys: set<string> := {"summary", "start", "end"}

  /** The list of attendee records built from a list of e-mail addresses. */
  function Attendees(emails: seq<string>): (r: seq<Attendee>)
    ensures |r| == |emails|
    ensures forall i :: 0 <= i < |r| ==> r[i].email == emails[i]
  {
    if emails == [] then [] else [Attendee(emails[0])] + Attendees(emails[1..])
  }

  /** A time bound as the service expects it: `{dateTime: t}`, `t` verbatim. */
  function DateTimeJson(t: string): Json
  {
    JObject(map["dateTime" := JString(t)])
  }

  function AttendeeJson(a: Attendee): Json
  {
    JObject(map["email" := JString(a.email)])
  }

  function AttendeesJson(attendees: seq<Attendee>): (r: Json)
    ensures r.JArray? && |r.elems| == |attendees|
    ensures forall i :: 0 <= i < |attendees| ==> r.elems[i] == AttendeeJson(attendees[i])
  {
    JArray(seq(|attendees|, i requires 0 <= i < |attendees| => AttendeeJson(attendees[i])))
  }

  function StringsJson(ss: seq<string>): (r: Json)
    ensures r.JArray? && |r.elems| == |ss|
    ensures forall i :: 0 <= i < |ss| ==> r.elems[i] == JString(ss[i])
  {
    JArray(seq(|ss|, i requires 0 <= i < |ss| => JString(ss[i])))
  }

  /** The optional member names a body carries. */
  function OptionalKeys(b: EventBody): set<string>
  {
    (if b.recurrence.Some? then {"recurrence"} else {})
    + (if b.attendees.Some? then {"attendees"} else {})
    + (if b.description.Some? then {"description"} else {})
    + (if b.location.Some? then {"location"} else {})
  }

  /** No optional member of the body is present but empty. */
  predicate NoEmptyOptionals(b: EventBody)
  {
    && (b.recurrence.Some? ==> |b.recurrence.value| > 0)
    && (b.attendees.Some? ==> |b.attendees.value| > 0)
    && (b.description.Some? ==> b.description.value != "")
    && (b.location.Some? ==> b.location.value != "")
  }

  /** The value of member `key` of a body's JSON object. */
  function MemberValue(b: EventBody, key: string): Json
  {
    if key == "summary" then JString(b.summary)
    else if key == "start" then DateTimeJson(b.start)
    else if key == "end" then DateTimeJson(b.end)
    else if key == "recurrence" && b.recurrence.Some? then StringsJson(b.recurrence.value)
    else if key == "attendees" && b.attendees.Some? then AttendeesJson(b.attendees.value)
    else if key == "description" && b.description.Some? then JString(b.description.value)
    else if key == "location" && b.location.Some? then JString(b.location.value)
    else JNull
  }

  /**
   * The JSON object sent to the service: a member per required field and one
   * per present optional field, and no other member.
   */
  function ToJson(b: EventBody): (m: Object)
    ensures m.Keys == RequiredKeys + OptionalKeys(b)
    ensures m["summary"] == JString(b.summary)
    ensures m["start"] == DateTimeJson(b.start) && m["end"] == DateTimeJson(b.end)
    ensures b.recurrence.Some? ==> m["recurrence"] == StringsJson(b.recurrence.value)
    ensures b.attendees.Some? ==> m["attendees"] == AttendeesJson(b.attendees.value)
    ensures b.description.Some? ==> m["description"] == JString(b.description.value)
    ensures b.location.Some? ==> m["location"] == JString(b.location.value)
  {
    map k | k in RequiredKeys + OptionalKeys(b) :: MemberValue(b, k)
  }

  /**
   * The body of `create_calendar_event`: the optional attendees, description
   * and location are taken only when truthy, so they are never sent empty.
   */
  function CreateBody(
    summary: string, start: string, end: string,
    attendees: Option<seq<string>>, description: Option<string>, location: Option<string>): (b: EventBody)
    ensures b.summary == summary && b.start == start && b.end == end
    ensures b.recurrence.None?
    ensures b.attendees.Some? <==> IsTruthyList(attendees)
    ensures b.attendees.Some? ==> b.attendees.value == Attendees(attendees.value)
    ensures b.description.Some? <==> IsTruthy(description)
    ensures b.description.Some? ==> b.description == description
    ensures b.location.Some? <==> IsTruthy(location)
    ensures b.location.Some? ==> b.location == location
    ensures NoEmptyOptionals(b)
  {
    EventBody(
      summary, start, end,
      None,
      if IsTruthyList(attendees) then Some(Attendees(attendees.value)) else None,
      if IsTruthy(description) then description else None,
      if IsTruthy(location) then location else None)
  }

  /**
   * The body of `create_recurring_event`: the create body for the same
   * arguments with the one-element recurrence list `[rrule]`.
   */
  function RecurringBody(
    summary: string, start: string, end: string, rrule: string,
    attendees: Option<seq<string>>, description: Option<string>, location: Option<string>): (b: EventBody)
    ensures b == CreateBody(summary, start, end, attendees, description, location).(recurrence := Some([rrule]))
    ensures NoEmptyOptionals(b)
  {
    EventBody(
      summary, start, end,
      Some([rrule]),
      if IsTruthyList(attendees) then Some(Attendees(attendees.value)) else None,
      if IsTruthy(description) then description else None,
      if IsTruthy(location) then location else None)
  }

  /** The set of optional member names a create request carries. */
  function TruthyKeys(attendees: Option<seq<string>>, description: Option<string>, location: Option<string>): set<string>
  {
    (if IsTruthyList(attendees) then {"attendees"} else {})
    + (if IsTruthy(description) then {"description"} else {})
    + (if IsTruthy(location) then {"location"} else {})
  }

  /**
   * The create request carries `summary`, `start` and `end`, and carries
   * `attendees`, `description` or `location` exactly when that argument is
   * non-empty; a carried optional member is never empty.
   */
  lemma CreateRequestShape(
    summary: string, start: string, end: string,
    attendees: Option<seq<string>>, description: Option<string>, location: Option<string>)
    ensures var m := ToJson(CreateBody(summary, start, end, attendees, description, location));
      && m.Keys == RequiredKeys + TruthyKeys(attendees, description, location)
      && m["summary"] == JString(summary)
      && m["start"] == DateTimeJson(start)
      && m["end"] == DateTimeJson(end)
      && ("attendees" in m ==> m["attendees"].JArray? && |m["attendees"].elems| > 0)
      && ("description" in m ==> m["description"] == JString(description.value) && description.value != "")
      && ("location" in m ==> m["location"] == JString(location.value) && location.value != "")
  {
  }

  /**
   * The attendees member of a create request lists one `{email: e}` record
   * per address, in the order given.
   */
  lemma CreateRequestAttendees(
    summary: string, start: string, end: string,
    emails: seq<string>, description: Option<string>, location: Option<string>)
    requires |emails| > 0
    ensures var m := ToJson(CreateBody(summary, start, end, Some(emails), description, location));
      && "attendees" in m
      && m["attendees"].JArray?
      && |m["attendees"].elems| == |emails|
      && forall i :: 0 <= i < |emails| ==> m["attendees"].elems[i] == JObject(map["email" := JString(emails[i])])
  {
  }

  /**
   * The recurring request is the create request for the same arguments plus
   * the member `recurrence` holding exactly `[rrule]`.
   */
  lemma RecurringRequestExtendsCreate(
    summary: string, start: string, end: string, rrule: string,
    attendees: Option<seq<string>>, description: Option<string>, location: Option<string>)
    ensures ToJson(RecurringBody(summary, start, end, rrule, attendees, description, location))
         == ToJson(CreateBody(summary, start, end, attendees, description, location))["recurrence" := JArray([JString(rrule)])]
  {
    var c := CreateBody(summary, start, end, attendees, description, location);
    assert StringsJson([rrule]) == JArray([JString(rrule)]);
    AddRecurrence(c, [rrule]);
  }

  /** Giving a body without recurrence a recurrence list only adds that one member. */
  lemma AddRecurrence(b: EventBody, rules: seq<string>)
    requires b.recurrence.None?
    ensures ToJson(b.(recurrence := Some(rules))) == ToJson(b)["recurrence" := StringsJson(rules)]
  {
  }

  /** A create request with no optional argument has exactly the three required members. */
  lemma StandupRequest()
    ensures ToJson(CreateBody("Standup", "2024-01-01T09:00:00Z", "2024-01-01T09:15:00Z", None, None, None))
         == map["summary" := JString("Standup"),
                "start" := DateTimeJson("2024-01-01T09:00:00Z"),
                "end" := DateTimeJson("2024-01-01T09:15:00Z")]
  {
  }

  /** A weekly rule is sent as the one-element recurrence list. */
  lemma WeeklyRecurrenceRequest(summary: string, start: string, end: string)
    ensures var m := ToJson(RecurringBody(summary, start, end, "RRULE:FREQ=WEEKLY;COUNT=10", None, None, None));
      && "recurrence" in m
      && m["recurrence"] == JArray([JString("RRULE:FREQ=WEEKLY;COUNT=10")])
  {
  }
}
