// The Google side's event record and its two conversions. Dates pass
// through unchanged: Google bounds are already the neutral record's bounds.
module GoogleEvents {
  import opened Wrappers
  import opened Entities
  import opened ProtoEvents
  import opened Events

  datatype GoogleEventDto = GoogleEventDto(
    base: Proto,
    summary: Option<string>,
    status: Option<EventStatus>,
    location: Option<string>,
    description: Option<string>,
    date: EventDateTime,
    googleCalendarEventLink: Option<string>)
  {
    /** `toEvent`. */
    function ToEvent(): (e: EventDto)
      ensures e.base.eventSource == base.eventSource && e.base.eventId == base.eventId
      ensures e.base.googleCalendarEventId == base.googleCalendarEventId && e.base.calendar == base.calendar
      ensures e.base.notionPageId == None && e.base.originalNotionEvent == None
      ensures e.base.eventLink == None && e.base.updatedAt == None
      ensures e.base.originalGoogleCalendarEvent == base.originalGoogleCalendarEvent
      ensures e.title == summary && e.status == status && e.location == location && e.description == description
      ensures e.date == date && e.googleCalendarEventLink == googleCalendarEventLink
    {
      NewEvent(EventProps(
        PropsWithPageId(base.eventSource, base.eventId, base.googleCalendarEventId, base.notionPageId,
                        base.calendar, None, base.originalGoogleCalendarEvent),
        summary, status, location, description, date, googleCalendarEventLink))
    }
  }

  /** The GoogleCalendarEventDto constructor: it stores every field but the event link. */
  function NewGoogleEvent(
    p: ProtoProps, summary: Option<string>, status: Option<EventStatus>, location: Option<string>,
    description: Option<string>, date: EventDateTime, link: Option<string>): (g: GoogleEventDto)
    ensures g.base == NewProto(p) && g.summary == summary && g.status == status
    ensures g.location == location && g.description == description && g.date == date
    ensures g.googleCalendarEventLink == None
  {
    GoogleEventDto(NewProto(p), summary, status, location, description, date, None)
  }

  /** `fromEvent`. */
  function FromEvent(e: EventDto): (g: GoogleEventDto)
    ensures g.base.eventSource == SourceEvent && g.base.eventId == e.base.eventId
    ensures g.base.googleCalendarEventId == e.base.googleCalendarEventId && g.base.calendar == e.base.calendar
    ensures g.base.notionPageId == None
    ensures g.summary == e.title && g.status == e.status && g.date == e.date
    ensures g.location == e.location && g.description == e.description
  {
    NewGoogleEvent(
      PropsWithPageId(SourceEvent, e.base.eventId, e.base.googleCalendarEventId, e.base.notionPageId,
                      e.base.calendar, e.base.originalNotionEvent, e.base.originalGoogleCalendarEvent),
      e.title, e.status, e.location, e.description, e.date, e.googleCalendarEventLink)
  }

  /** `fromGoogleCalendar(event, calendar)`. */
  function FromGoogleCalendar(ge: GoogleEvent, calendar: Option<Calendar>): (g: GoogleEventDto)
    ensures g.base.eventSource == SourceGoogleCalendar && g.base.eventId == None && g.base.notionPageId == None
    ensures g.base.googleCalendarEventId == ge.id && g.base.calendar == calendar
    ensures g.base.originalGoogleCalendarEvent == Some(ge) && g.base.originalNotionEvent == None
    ensures g.date == EventDateTime(ge.start, ge.end) && g.status == ge.status
    ensures g.summary == ge.summary && g.location == ge.location && g.description == ge.description
  {
    NewGoogleEvent(
      PropsWithPageId(SourceGoogleCalendar, None, ge.id, None, calendar, None, Some(ge)),
      ge.summary, ge.status, ge.location, ge.description, EventDateTime(ge.start, ge.end), ge.htmlLink)
  }

  /** The neutral record survives the trip through the Google record, except for its page id, Notion page and link. */
  lemma EventRoundTrip(e: EventDto)
    ensures FromEvent(e).ToEvent() ==
              e.(base := e.base.(eventSource := SourceEvent, notionPageId := None, eventLink := None,
                                 updatedAt := None, originalNotionEvent := None),
                 googleCalendarEventLink := None)
  {
  }

  /**
   * A Google event read into the neutral record keeps its id, dates, status
   * and texts, but never its `htmlLink`: the constructor does not store the link.
   */
  lemma GoogleLinkDropped(ge: GoogleEvent, calendar: Option<Calendar>)
    ensures FromGoogleCalendar(ge, calendar).ToEvent().googleCalendarEventLink == None
    ensures FromGoogleCalendar(ge, calendar).ToEvent().date == EventDateTime(ge.start, ge.end)
    ensures FromGoogleCalendar(ge, calendar).ToEvent().base.googleCalendarEventId == ge.id
  {
  }
}
