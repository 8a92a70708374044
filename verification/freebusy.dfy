/**
 * `get_free_busy_all`: validate the time bounds, list the user's calendars,
 * query busy intervals for all of them at once, and reshape the reply into a
 * map from calendar id to busy list.
 */
module FreeBusy {
  import opened Wrappers

  /** A busy interval as the service reports it; both ends are passed through verbatim. */
  datatype Interval = Interval(start: string, end: string)

  /** One entry of the calendar list reply. */
  datatype CalendarEntry = CalendarEntry(id: string)

  /** The calendar list reply; `items` is `None` when the reply has no such member. */
  datatype CalendarListReply = CalendarListReply(items: Option<seq<CalendarEntry>>)

  /** One item of the free/busy query, `{id: calendarId}`. */
  datatype QueryItem = QueryItem(id: string)

  /** The free/busy query body. */
  datatype FreeBusyQuery = FreeBusyQuery(timeMin: string, timeMax: string, items: seq<QueryItem>)

  /** The reply's entry for one calendar; `busy` is `None` when the entry has no such member. */
  datatype CalendarInfo = CalendarInfo(busy: Option<seq<Interval>>)

  /** The free/busy reply; `calendars` is `None` when the reply has no such member. */
  datatype FreeBusyReply = FreeBusyReply(calendars: Option<map<string, CalendarInfo>>)

  /** The remote calls the tool issues, in order. */
  datatype RemoteCall = ListCalendars | QueryFreeBusy(body: FreeBusyQuery)

  datatype FreeBusyError = MissingTimeBounds | NoCalendars

  /** The tool's result: busy lists by calendar id, or an error payload with its message. */
  datatype FreeBusyOutcome = Busy(busy: map<string, seq<Interval>>) | Error(reason: FreeBusyError, message: string)

  /** The message of an error payload. */
  function Message(e: FreeBusyError): (m: string)
    ensures m != ""
  {
    match e
    case MissingTimeBounds => "time_min and time_max (RFC3339) are required."
    case NoCalendars => "No calendars found for user."
  }

  /** The calendars listed by a reply, none when it has no items member. */
  function ListedCalendars(reply: CalendarListReply): seq<CalendarEntry>
  {
    if reply.items.Some? then reply.items.value else []
  }

  /** The calendar entries of a free/busy reply, none when it has no calendars member. */
  function ReplyCalendars(reply: FreeBusyReply): map<string, CalendarInfo>
  {
    if reply.calendars.Some? then reply.calendars.value else map[]
  }

  /** The busy list of one entry, empty when the entry has none. */
  function BusyOf(info: CalendarInfo): seq<Interval>
  {
    if info.busy.Some? then info.busy.value else []
  }

  /** The query items: one per listed calendar, same ids, same order. */
  function QueryItems(calendars: seq<CalendarEntry>): (items: seq<QueryItem>)
    ensures |items| == |calendars|
    ensures forall i :: 0 <= i < |items| ==> items[i].id == calendars[i].id
  {
    if calendars == [] then [] else [QueryItem(calendars[0].id)] + QueryItems(calendars[1..])
  }

  /**
   * Reshapes the reply's calendars into busy lists: exactly the reply's
   * calendar ids, each with its busy list, or the empty list where the entry
   * has none.
   */
  method ShapeBusy(calendars: map<string, CalendarInfo>) returns (result: map<string, seq<Interval>>)
    ensures result.Keys == calendars.Keys
    ensures forall id :: id in result ==> result[id] == BusyOf(calendars[id])
  {
    result := map[];
    var pending := calendars.Keys;
    while pending != {}
      invariant pending <= calendars.Keys
      invariant result.Keys == calendars.Keys - pending
      invariant forall id :: id in result ==> result[id] == BusyOf(calendars[id])
      decreases pending
    {
      var id :| id in pending;
      result := result[id := BusyOf(calendars[id])];
      pending := pending - {id};
    }
  }

  /**
   * The tool, with the service's two replies as inputs. Missing or empty time
   * bounds are an error before any remote call; an empty calendar list is an
   * error after the listing; otherwise one query covers every listed calendar
   * in list order, and the result holds every calendar of its reply.
   */
  method GetFreeBusyAll(
    timeMin: Option<string>, timeMax: Option<string>,
    listing: CalendarListReply, reply: FreeBusyReply)
    returns (outcome: FreeBusyOutcome, calls: seq<RemoteCall>)
    ensures !IsTruthy(timeMin) || !IsTruthy(timeMax) ==>
      outcome == Error(MissingTimeBounds, Message(MissingTimeBounds)) && calls == []
    ensures IsTruthy(timeMin) && IsTruthy(timeMax) && ListedCalendars(listing) == [] ==>
      outcome == Error(NoCalendars, Message(NoCalendars)) && calls == [ListCalendars]
    ensures IsTruthy(timeMin) && IsTruthy(timeMax) && ListedCalendars(listing) != [] ==>
      && calls == [ListCalendars, QueryFreeBusy(FreeBusyQuery(timeMin.value, timeMax.value, QueryItems(ListedCalendars(listing))))]
      && outcome.Busy?
      && outcome.busy.Keys == ReplyCalendars(reply).Keys
      && forall id :: id in outcome.busy ==> outcome.busy[id] == BusyOf(ReplyCalendars(reply)[id])
  {
    if !IsTruthy(timeMin) || !IsTruthy(timeMax) {
      return Error(MissingTimeBounds, Message(MissingTimeBounds)), [];
    }
    calls := [ListCalendars];
    var items := QueryItems(ListedCalendars(listing));
    if items == [] {
      return Error(NoCalendars, Message(NoCalendars)), calls;
    }
    calls := calls + [QueryFreeBusy(FreeBusyQuery(timeMin.value, timeMax.value, items))];
    var busy := ShapeBusy(ReplyCalendars(reply));
    outcome := Busy(busy);
  }

  /** Every listed calendar is queried, and only those: the query ids are the listed ids in order. */
  lemma QueryCoversListing(calendars: seq<CalendarEntry>)
    ensures forall c :: c in calendars ==> QueryItem(c.id) in QueryItems(calendars)
    ensures forall q :: q in QueryItems(calendars) ==> exists c :: c in calendars && c.id == q.id
  {
  }
}
