/**
 * The partial patch of `update_calendar_event`: the fetched event is changed
 * field by field, and a field changes only when its argument is not `None`.
 */
module Update {
  import opened Wrappers
  import opened JsonValue
  import opened Events

  /** The optional arguments of an update; `None` means "leave as fetched". */
  datatype Patch = Patch(
    summary: Option<string>,
    start: Option<string>,
    end: Option<string>,
    attendees: Option<seq<string>>,
    description: Option<string>,
    location: Option<string>)

  const NoChanges: Patch := Patch(None, None, None, None, None, None)

  /** Whether the patch writes member `key`: its argument is not `None`. */
  predicate Writes(p: Patch, key: string)
  {
    || (key == "summary" && p.summary.Some?)
    || (key == "start" && p.start.Some?)
    || (key == "end" && p.end.Some?)
    || (key == "attendees" && p.attendees.Some?)
    || (key == "description" && p.description.Some?)
    || (key == "location" && p.location.Some?)
  }

  /** The value an update writes for member `key`. */
  function WrittenValue(p: Patch, key: string): Json
    requires Writes(p, key)
  {
    if key == "summary" then JString(p.summary.value)
    else if key == "start" then DateTimeJson(p.start.value)
    else if key == "end" then DateTimeJson(p.end.value)
    else if key == "attendees" then AttendeesJson(Attendees(p.attendees.value))
    else if key == "description" then JString(p.description.value)
    else JString(p.location.value)
  }

  /**
   * `event` is `fetched` with the patch applied: it has the fetched members
   * plus the written ones, every written member holds its new value and every
   * other member keeps its fetched value.
   */
  ghost predicate PatchedFrom(fetched: Object, p: Patch, event: Object)
  {
    && (forall k :: k in event <==> k in fetched || Writes(p, k))
    && (forall k :: k in event ==> event[k] == if Writes(p, k) then WrittenValue(p, k) else fetched[k])
  }

  /**
   * Applies the patch to the fetched event one field at a time. The ghost
   * patches `done` record the arguments applied so far.
   */
  method ApplyPatch(fetched: Object, p: Patch) returns (event: Object)
    ensures PatchedFrom(fetched, p, event)
  {
    event := fetched;
    ghost var done := NoChanges;
    if p.summary.Some? {
      WriteStep(fetched, done, done.(summary := p.summary), event, "summary");
      event := event["summary" := JString(p.summary.value)];
    }
    done := done.(summary := p.summary);
    if p.start.Some? {
      WriteStep(fetched, done, done.(start := p.start), event, "start");
      event := event["start" := DateTimeJson(p.start.value)];
    }
    done := done.(start := p.start);
    if p.end.Some? {
      WriteStep(fetched, done, done.(end := p.end), event, "end");
      event := event["end" := DateTimeJson(p.end.value)];
    }
    done := done.(end := p.end);
    if p.attendees.Some? {
      WriteStep(fetched, done, done.(attendees := p.attendees), event, "attendees");
      event := event["attendees" := AttendeesJson(Attendees(p.attendees.value))];
    }
    done := done.(attendees := p.attendees);
    if p.description.Some? {
      WriteStep(fetched, done, done.(description := p.description), event, "description");
      event := event["description" := JString(p.description.value)];
    }
    done := done.(description := p.description);
    if p.location.Some? {
      WriteStep(fetched, done, done.(location := p.location), event, "location");
      event := event["location" := JString(p.location.value)];
    }
    done := done.(location := p.location);
    assert done == p;
  }

  /** Writing one more member extends a patched event to the larger patch. */
  lemma WriteStep(fetched: Object, p: Patch, q: Patch, event: Object, key: string)
    requires PatchedFrom(fetched, p, event)
    requires Writes(q, key)
    requires forall k :: k != key ==> (Writes(q, k) <==> Writes(p, k))
    requires forall k :: k != key && Writes(q, k) ==> WrittenValue(q, k) == WrittenValue(p, k)
    ensures PatchedFrom(fetched, q, event[key := WrittenValue(q, key)])
  {
  }

  /**
   * What an update writes back, field by field: a field whose argument is not
   * `None` is overwritten (with an empty string or list too), encoded as the
   * create request encodes it; every other fetched member survives unchanged,
   * and no other member appears.
   */
  lemma PatchedFields(fetched: Object, p: Patch, event: Object)
    requires PatchedFrom(fetched, p, event)
    ensures p.summary.Some? ==> "summary" in event && event["summary"] == JString(p.summary.value)
    ensures p.start.Some? ==> "start" in event && event["start"] == DateTimeJson(p.start.value)
    ensures p.end.Some? ==> "end" in event && event["end"] == DateTimeJson(p.end.value)
    ensures p.attendees.Some? ==> "attendees" in event && event["attendees"] == AttendeesJson(Attendees(p.attendees.value))
    ensures p.description.Some? ==> "description" in event && event["description"] == JString(p.description.value)
    ensures p.location.Some? ==> "location" in event && event["location"] == JString(p.location.value)
    ensures forall k :: k in fetched && !Writes(p, k) ==> k in event && event[k] == fetched[k]
    ensures forall k :: k in event ==> k in fetched || Writes(p, k)
  {
  }

  /** The patched event is determined by the fetched event and the patch. */
  lemma PatchedFromUnique(fetched: Object, p: Patch, e1: Object, e2: Object)
    requires PatchedFrom(fetched, p, e1) && PatchedFrom(fetched, p, e2)
    ensures e1 == e2
  {
  }

  /** Applying the same patch a second time changes nothing. */
  lemma PatchIdempotent(fetched: Object, p: Patch, once: Object, twice: Object)
    requires PatchedFrom(fetched, p, once) && PatchedFrom(once, p, twice)
    ensures twice == once
  {
  }

  /** An update with every argument `None` writes back the fetched event unchanged. */
  lemma NoChangesKeepsEvent(fetched: Object, event: Object)
    requires PatchedFrom(fetched, NoChanges, event)
    ensures event == fetched
  {
  }

  /**
   * Members outside the patch survive: an event with `location` "Room A"
   * updated with only a new summary still has `location` "Room A".
   */
  lemma SummaryOnlyKeepsLocation(fetched: Object, title: string, event: Object)
    requires "location" in fetched && fetched["location"] == JString("Room A")
    requires PatchedFrom(fetched, NoChanges.(summary := Some(title)), event)
    ensures event["summary"] == JString(title)
    ensures "location" in event && event["location"] == JString("Room A")
  {
  }

  /**
   * The update's test is `is not None`, not truthiness: an empty description
   * is written by an update although a create request omits it.
   */
  lemma EmptyDescriptionOverwrites(
    fetched: Object, event: Object,
    summary: string, start: string, end: string)
    requires PatchedFrom(fetched, NoChanges.(description := Some("")), event)
    ensures "description" in event && event["description"] == JString("")
    ensures "description" !in ToJson(CreateBody(summary, start, end, None, Some(""), None))
  {
  }

  /**
   * Updating every field with non-empty values overlays exactly the create
   * request for the same values: each member of that request is written with
   * the same value, and every other fetched member is kept.
   */
  lemma FullPatchOverlaysCreateRequest(
    fetched: Object, event: Object,
    summary: string, start: string, end: string,
    emails: seq<string>, description: string, location: string)
    requires |emails| > 0 && description != "" && location != ""
    requires PatchedFrom(fetched,
      Patch(Some(summary), Some(start), Some(end), Some(emails), Some(description), Some(location)), event)
    ensures var create := ToJson(CreateBody(summary, start, end, Some(emails), Some(description), Some(location)));
      && event.Keys == fetched.Keys + create.Keys
      && (forall k :: k in create ==> event[k] == create[k])
      && (forall k :: k in fetched && k !in create ==> event[k] == fetched[k])
  {
    var p := Patch(Some(summary), Some(start), Some(end), Some(emails), Some(description), Some(location));
    var create := ToJson(CreateBody(summary, start, end, Some(emails), Some(description), Some(location)));
    CreateRequestShape(summary, start, end, Some(emails), Some(description), Some(location));
    forall k | k in create ensures event[k] == create[k] {
      if k == "summary" {
      } else if k == "start" {
      } else if k == "end" {
      } else if k == "attendees" {
      } else if k == "description" {
      } else {
        assert k == "location";
      }
    }
  }
}
