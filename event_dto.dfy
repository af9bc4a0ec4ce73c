// The neutral event record the two services' records are converted to and
// from, its merge, and the predicates that steer create, update and delete.
module Events {
  import opened Wrappers
  import opened Entities
  import opened Errors
  import opened ProtoEvents

  datatype EventProps = EventProps(
    base: ProtoProps,
    title: Option<string>,
    status: Option<EventStatus>,
    location: Option<string>,
    description: Option<string>,
    date: EventDateTime,
    googleCalendarEventLink: Option<string>)

  datatype EventDto = EventDto(
    base: Proto,
    title: Option<string>,
    status: Option<EventStatus>,
    location: Option<string>,
    description: Option<string>,
    date: EventDateTime,
    googleCalendarEventLink: Option<string>)
  {
    /**
     * The props `merge` hands the constructor: per field the argument's value
     * when it is truthy, otherwise this record's.
     */
    function MergeProps(event: EventDto): (p: EventProps)
      ensures p.base.eventSource == event.base.eventSource
      ensures p.base.eventId == OrInt(event.base.eventId, base.eventId)
      ensures p.base.googleCalendarEventId == OrString(event.base.googleCalendarEventId, base.googleCalendarEventId)
      ensures p.base.calendar == OrValue(event.base.calendar, base.calendar)
      ensures p.base.notionEventId == None
      ensures p.base.notionPageId == OrString(event.base.notionPageId, base.notionPageId)
      ensures p.base.updatedAt == OrValue(event.base.updatedAt, base.updatedAt)
      ensures p.base.eventLink == OrValue(event.base.eventLink, base.eventLink)
      ensures p.title == OrString(event.title, title)
      ensures p.status == OrValue(event.status, status)
      ensures p.location == OrString(event.location, location)
      ensures p.description == OrString(event.description, description)
      ensures p.date == event.date
      ensures p.googleCalendarEventLink == OrString(event.googleCalendarEventLink, googleCalendarEventLink)
      ensures p.base.originalNotionEvent == OrValue(event.base.originalNotionEvent, base.originalNotionEvent)
      ensures p.base.originalGoogleCalendarEvent
              == OrValue(event.base.originalGoogleCalendarEvent, base.originalGoogleCalendarEvent)
    {
      EventProps(
        ProtoProps(
          event.base.eventSource,
          OrInt(event.base.eventId, base.eventId),
          OrString(event.base.googleCalendarEventId, base.googleCalendarEventId),
          None,
          OrString(event.base.notionPageId, base.notionPageId),
          OrValue(event.base.calendar, base.calendar),
          OrValue(event.base.eventLink, base.eventLink),
          OrValue(event.base.updatedAt, base.updatedAt),
          OrValue(event.base.originalNotionEvent, base.originalNotionEvent),
          OrValue(event.base.originalGoogleCalendarEvent, base.originalGoogleCalendarEvent)),
        OrString(event.title, title),
        OrValue(event.status, status),
        OrString(event.location, location),
        OrString(event.description, description),
        event.date,
        OrString(event.googleCalendarEventLink, googleCalendarEventLink))
    }

    /** `merge`: a new record built from the merged props. */
    function Merge(event: EventDto): EventDto
    {
      NewEvent(MergeProps(event))
    }

    /** This record's own field values, as props (the page id under `notionPageId`). */
    function OwnProps(): (p: EventProps)
      ensures p.base.notionPageId == base.notionPageId && p.title == title && p.date == date
    {
      EventProps(
        ProtoProps(base.eventSource, base.eventId, base.googleCalendarEventId, None, base.notionPageId,
                   base.calendar, base.eventLink, base.updatedAt, base.originalNotionEvent,
                   base.originalGoogleCalendarEvent),
        title, status, location, description, date, googleCalendarEventLink)
    }

    /** `isDifferentCalendarId`: reading through a missing link or calendar throws. */
    function IsDifferentCalendarId(): (r: Result<bool, Failure>)
      ensures r.Ok? <==> base.eventLink.Some? && base.calendar.Some?
      ensures r.Ok? ==> (r.value <==> base.eventLink.value.googleCalendarCalendarId != Some(base.calendar.value.googleCalendarId))
    {
      if base.eventLink.None? then Err(TypeError("Cannot read properties of undefined (reading 'googleCalendarCalendarId')"))
      else if base.calendar.None? then Err(TypeError("Cannot read properties of undefined (reading 'googleCalendarId')"))
      else Ok(base.eventLink.value.googleCalendarCalendarId != Some(base.calendar.value.googleCalendarId))
    }

    /** `isNewEvent`: no link, or a link missing one of its two ids. */
    predicate IsNewEvent()
    {
      !(base.eventLink.Some? && Truthy(base.eventLink.value.googleCalendarEventId)
        && Truthy(base.eventLink.value.notionPageId))
    }

    predicate IsDeletedEvent()
    {
      status == Some(Cancelled)
    }

    predicate IsReadOnly()
    {
      base.calendar.Some? && base.calendar.value.accessRole == Reader
    }
  }

  /** The EventDto constructor. */
  function NewEvent(p: EventProps): (e: EventDto)
    ensures e.base == NewProto(p.base)
    ensures e.title == p.title && e.status == p.status && e.location == p.location
    ensures e.description == p.description && e.date == p.date
    ensures e.googleCalendarEventLink == p.googleCalendarEventLink
  {
    EventDto(NewProto(p.base), p.title, p.status, p.location, p.description, p.date, p.googleCalendarEventLink)
  }

  /** Merging a record with itself hands the constructor exactly its own field values. */
  lemma MergeSelfProps(e: EventDto)
    ensures e.MergeProps(e) == e.OwnProps()
  {
  }

  /**
   * So `e.merge(e)` is `e` except for the three fields the constructor never
   * stores: the page id, the link and the update time.
   */
  lemma MergeSelf(e: EventDto)
    ensures e.Merge(e) == e.(base := e.base.(notionPageId := None, eventLink := None, updatedAt := None))
  {
    MergeSelfProps(e);
  }

  /** A merged record never carries a page id, a link or an update time. */
  lemma MergeDropsLinkFields(a: EventDto, b: EventDto)
    ensures a.Merge(b).base.notionPageId == None
    ensures a.Merge(b).base.eventLink == None && a.Merge(b).base.updatedAt == None
  {
  }

  /** Every record the constructor builds counts as new: it carries no link. */
  lemma ConstructedIsNew(p: EventProps)
    ensures NewEvent(p).IsNewEvent()
  {
  }
}
