/**
 * `list_calendar_events`: the calendar id falls back to the user's primary
 * calendar, and the service's reply is reduced to its list of events.
 */
module Listing {
  import opened Wrappers
  import opened JsonValue

  /** The reserved alias of the authenticated user's default calendar. */
  const Primary: string := "primary"

  /**
   * The calendar the request goes to: a missing or empty id means the primary
   * calendar, any other id is kept as given.
   */
  function ResolveCalendarId(id: Option<string>): (r: string)
    ensures r != ""
    ensures IsTruthy(id) ==> r == id.value
    ensures !IsTruthy(id) ==> r == Primary
  {
    if !IsTruthy(id) then Primary else id.value
  }

  /** The events-list request sent to the service. */
  datatype ListRequest = ListRequest(
    calendarId: string,
    timeMin: Option<string>,
    timeMax: Option<string>,
    singleEvents: bool,
    orderBy: string)

  /** The service's answer to the list request, or the failure it raised. */
  datatype ListReply = Listed(items: Option<seq<Json>>) | Failed(message: string)

  /** What the tool returns: the events, or an error payload naming the calendar. */
  datatype ListOutcome = EventItems(events: seq<Json>) | ListError(message: string, calendarId: string)

  /**
   * The list request: recurring events expanded into single instances,
   * ordered by start time, time bounds passed through verbatim.
   */
  function ListEventsRequest(calendarId: Option<string>, timeMin: Option<string>, timeMax: Option<string>): (req: ListRequest)
    ensures req.calendarId == ResolveCalendarId(calendarId)
    ensures req.calendarId != ""
    ensures IsTruthy(calendarId) ==> req.calendarId == calendarId.value
    ensures req.timeMin == timeMin && req.timeMax == timeMax
    ensures req.singleEvents && req.orderBy == "startTime"
  {
    ListRequest(ResolveCalendarId(calendarId), timeMin, timeMax, true, "startTime")
  }

  /**
   * The tool's result: the reply's items (none when the reply has no items
   * member), or on a failure an error payload carrying the resolved id.
   */
  function ListEventsOutcome(req: ListRequest, reply: ListReply): (r: ListOutcome)
    ensures r.EventItems? <==> reply.Listed?
    ensures r.EventItems? && reply.items.Some? ==> r.events == reply.items.value
    ensures r.EventItems? && reply.items.None? ==> r.events == []
    ensures r.ListError? ==> r.message == reply.message && r.calendarId == req.calendarId
  {
    match reply
    case Listed(items) => EventItems(if items.Some? then items.value else [])
    case Failed(message) => ListError(message, req.calendarId)
  }

  /** Resolving an already resolved id changes nothing. */
  lemma ResolveIdempotent(id: Option<string>)
    ensures ResolveCalendarId(Some(ResolveCalendarId(id))) == ResolveCalendarId(id)
  {
  }

  /** Omitting the id, or giving an empty one, sends the same request as naming "primary". */
  lemma MissingIdIsPrimary(timeMin: Option<string>, timeMax: Option<string>)
    ensures ListEventsRequest(None, timeMin, timeMax) == ListEventsRequest(Some(Primary), timeMin, timeMax)
    ensures ListEventsRequest(Some(""), timeMin, timeMax) == ListEventsRequest(Some(Primary), timeMin, timeMax)
  {
  }

  /** Two ids give the same request exactly when they resolve to the same calendar. */
  lemma SameRequestIffSameCalendar(a: Option<string>, b: Option<string>, timeMin: Option<string>, timeMax: Option<string>)
    ensures ListEventsRequest(a, timeMin, timeMax) == ListEventsRequest(b, timeMin, timeMax)
        <==> ResolveCalendarId(a) == ResolveCalendarId(b)
  {
  }

  /**
   * A failed listing reports the calendar the request went to: the resolved
   * id, so a missing or empty id is reported as "primary".
   */
  lemma FailureNamesResolvedCalendar(calendarId: Option<string>, timeMin: Option<string>, timeMax: Option<string>, message: string)
    ensures ListEventsOutcome(ListEventsRequest(calendarId, timeMin, timeMax), Failed(message))
         == ListError(message, ResolveCalendarId(calendarId))
    ensures !IsTruthy(calendarId) ==>
      ListEventsOutcome(ListEventsRequest(calendarId, timeMin, timeMax), Failed(message)) == ListError(message, Primary)
  {
  }

  /** A successful listing returns the reply's items whatever calendar id was given. */
  lemma SuccessReturnsItems(calendarId: Option<string>, timeMin: Option<string>, timeMax: Option<string>, items: seq<Json>)
    ensures ListEventsOutcome(ListEventsRequest(calendarId, timeMin, timeMax), Listed(Some(items))) == EventItems(items)
    ensures ListEventsOutcome(ListEventsRequest(calendarId, timeMin, timeMax), Listed(None)) == EventItems([])
  {
  }
}
