# Google Calendar MCP server: a Dafny model of its local logic

The server (`server.py`) exposes a Google Calendar account as a set of tools.
Nearly every tool passes its arguments through to a remote call of the
calendar service. The logic that runs locally is small. This project models
it and proves what it promises:

- **Event request bodies** for `create_calendar_event` and
  `create_recurring_event` (module `Events`, file `events.dfy`). A body is an
  `EventBody` with `Option` fields. `ToJson` gives the JSON object that is
  sent: the required `summary`, `start` and `end`, plus one member per
  optional field that is present. The optional attendees, description and
  location are taken only when they are truthy, that is, neither `None` nor
  empty.
- **The partial patch** of `update_calendar_event` (module `Update`, file
  `update.dfy`). The fetched event is a JSON object. `ApplyPatch` changes it
  one field at a time, and only where the argument is not `None`. So an empty
  string or list does overwrite a field here. `PatchedFrom` states the result:
  written members hold their new values and every other member keeps its
  fetched value.
- **The calendar id default and list shaping** of `list_calendar_events`
  (module `Listing`, file `listing.dfy`).
- **Free/busy** for `get_free_busy_all` (module `FreeBusy`, file
  `freebusy.dfy`). The time bounds are checked before any calendar API call;
  the credential acquisition at server.py:143 precedes the check. The
  query items come from the calendar list, and a loop reshapes the reply into
  a map from calendar id to busy list. The service's two replies are inputs
  to the method. The method also returns the remote calls it issued, in
  order, so "no listing before validation" can be stated. Error payloads
  carry the source's message texts.
- **The token record** behind `get_calendar_service` and
  `reauthenticate_user` (module `Credentials`, file `credentials.dfy`). A
  `TokenStore` object holds the token file as `Option<Credential>`. A
  credential carries whether it is valid when next loaded; `Expire` is the
  passage of time past its expiry. The interactive consent flow is a
  parameter that supplies a valid credential.

`wrappers.dfy` holds `Option` and Python truthiness of optional strings and
lists. `json.dfy` holds the JSON value type.

`server.py:17-22` has no refresh branch: any absent or invalid credential
leads straight to the interactive flow and a rewrite of the token file.

## Model

| member | source | states |
|---|---|---|
| `Events.Attendees` | server.py:58 | the attendee list has one record per address, same length, same order, each record's email the address at that position |
| `Events.CreateBody` | server.py:54-61 | summary, start and end are kept; attendees, description and location are present iff the argument is truthy, and then hold it; no recurrence; no optional field is present but empty |
| `Events.RecurringBody` | server.py:179-187 | the recurring body equals the create body for the same arguments with recurrence `[rrule]`; no optional field is present but empty |
| `Events.CreateRequestShape` | server.py:54-61 | the create request's keys are summary, start, end plus attendees/description/location exactly for the non-empty arguments; each carried optional member is non-empty |
| `Events.CreateRequestAttendees` | server.py:58 | for a non-empty address list the request's attendees member is the list of `{email: e}` objects for those addresses, same length and order |
| `Events.RecurringRequestExtendsCreate` | server.py:179-187 | the recurring request equals the create request for the same arguments with the one member `recurrence = [rrule]` added |
| `Events.AddRecurrence` | server.py:183 | giving a body without recurrence a recurrence list adds exactly that one member to the sent object |
| `Events.StandupRequest` | server.py:54-61 | a create request with no optional arguments is exactly `{summary, start: {dateTime}, end: {dateTime}}` |
| `Events.WeeklyRecurrenceRequest` | server.py:183 | the rule `RRULE:FREQ=WEEKLY;COUNT=10` is sent as the one-element recurrence list |
| `Update.ApplyPatch` | server.py:82-93 | the written-back event is the fetched event patched: members for non-`None` arguments hold the new values, all other members are as fetched, no other member appears |
| `Update.WriteStep` | server.py:82-93 | writing one more argument's member extends a patched event to the larger patch |
| `Update.PatchedFields` | server.py:82-93 | field by field: each non-`None` argument, empty ones included, overwrites its member with the create request's encoding; every other fetched member survives unchanged |
| `Update.PatchedFromUnique` | server.py:82-93 | the patched event is determined by the fetched event and the arguments |
| `Update.PatchIdempotent` | server.py:82-93 | applying the same arguments a second time changes nothing |
| `Update.NoChangesKeepsEvent` | server.py:81-94 | an update with every argument `None` writes back the fetched event unchanged |
| `Update.SummaryOnlyKeepsLocation` | server.py:82-93 | an event with location "Room A" updated with only a summary keeps location "Room A" |
| `Update.EmptyDescriptionOverwrites` | server.py:90-91 | an empty description is written by an update, while the create request omits it |
| `Update.FullPatchOverlaysCreateRequest` | server.py:82-93 | updating every field with non-empty values writes each member of the create request for those values and keeps every other fetched member |
| `Listing.ResolveCalendarId` | server.py:31-32 | a missing or empty id resolves to "primary", any other id to itself; the result is never empty |
| `Listing.ListEventsRequest` | server.py:31-41 | the request goes to the resolved calendar id, which is never empty and is the given id when that is non-empty, passes the time bounds verbatim, expands recurring events and orders by start time |
| `Listing.FailureNamesResolvedCalendar` | server.py:43-48 | a failed listing gives an error payload with the failure's message and the resolved calendar id, "primary" for a missing or empty id |
| `Listing.SuccessReturnsItems` | server.py:42 | a successful listing returns the reply's items, or `[]` when the reply has no items member |
| `Listing.ResolveIdempotent` | server.py:31-32 | resolving an already resolved id changes nothing |
| `Listing.MissingIdIsPrimary` | server.py:31-41 | omitting the id or giving an empty one sends the same request as naming "primary" |
| `Listing.SameRequestIffSameCalendar` | server.py:31-41 | two ids give the same request exactly when they resolve to the same calendar |
| `FreeBusy.QueryItems` | server.py:148 | the query has one item per listed calendar, same length, same ids, same order |
| `FreeBusy.QueryCoversListing` | server.py:147-148 | every listed calendar is queried, and every queried id is a listed calendar |
| `FreeBusy.ShapeBusy` | server.py:157-159 | the result has exactly the reply's calendar ids, each mapped to its busy list or to `[]` when the entry has none |
| `FreeBusy.GetFreeBusyAll` | server.py:144-160 | missing or empty bounds are an error with no calendar API call; an empty calendar list is an error after the listing only; each error payload carries the source's message for its reason; otherwise one query over all listed ids in list order, and a result covering exactly the reply's calendars |
| `Credentials.TokenStore.GetCalendarService` | server.py:13-23 | a present, valid token is returned and the file is untouched; otherwise the flow runs and its credential is written; the flow runs iff the token was not usable; the result is valid and is the one on file |
| `Credentials.TokenStore.Reauthenticate` | server.py:103-111 | afterwards there is no token; the status is success iff a token existed, info otherwise; the message is the source's text for that status |
| `Credentials.TokenStore.Expire` | server.py:16-17 | after the expiry time passes, the token on file (if any) is the same record but no longer valid when loaded |
| `Credentials.ExpireThenConnect` | server.py:15-22 | a service call after the token on file has expired always runs the consent flow and rewrites the token |
| `Credentials.ConnectExpireConnect` | server.py:15-22 | expiry between two service calls makes the second call run the flow and write its credential |
| `Credentials.ReauthenticateThenConnect` | server.py:105-108 | a service call right after a reauthentication always runs the consent flow |
| `Credentials.ConnectTwice` | server.py:15-23 | a second service call right after a first, with no expiry in between, does not run the flow or rewrite the token, and yields the same credential |

## Left out

- The calendar service client (`build` and the events, calendar-list and free/busy calls) is foreign code. Its replies are inputs of the model and its requests are values.
- The OAuth library is foreign code: loading `token.json`, `Credentials.valid`, `to_json` and the consent flow's loopback listener. A credential is opaque material plus whether it is valid when loaded, and the flow is a parameter that returns a valid credential. The fatal failure when `credentials.json` is missing or malformed is not modelled.
- Credentials.ConnectTwice: the clock is not read; expiry happens only through `TokenStore.Expire`, so the guarantee holds only when no expiry falls between the two calls (`ConnectExpireConnect` states the other case).
- The file system is reduced to a present-or-absent token record. Paths, the JSON serialisation and filesystem errors are not modelled.
- Concurrent callers racing on `token.json` are not modelled. The model is sequential.
- Tool registration and transport through `fastmcp` (server.py:5, server.py:11 and the `@mcp.tool` decorators) are not modelled.
- Exception text, and which handlers catch remote failures and which let them propagate, are not modelled. Those failures come from the remote service. The one exception is `list_calendar_events`, whose error payload carries the calendar id; it is modelled.
- `Update.ApplyPatch` covers only the merge. The surrounding `get` and `update` calls and the error payload of `update_calendar_event` (server.py:81, 94-97) are remote. The patch is applied to a copy of the fetched object, which matches the in-place dictionary update because nothing else holds that dictionary.
- `FreeBusy.GetFreeBusyAll` starts from an authenticated handle. The service call at server.py:143, made before validation, is the credential store's `GetCalendarService`, modelled separately.
- Member order inside JSON objects (Python dictionaries keep insertion order) is not modelled. Objects are maps.
- `delete_calendar_event`, `search_calendar_events` and `list_user_calendars` are not modelled. They build no local structure beyond passing their arguments to one remote call. Note that `search_calendar_events` does not resolve an empty or `None` calendar id to "primary".
- Date-time strings and RRULE strings are passed through verbatim and are not validated.
- Only the items of the single calendar-list reply are queried. The source ignores further result pages, and so does the model.
