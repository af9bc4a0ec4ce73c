// The older Google record. Its constructor forgets the calendar and the
// event link; its date converters are the identity.
module LegacyGoogleEvents {
  import opened Wrappers
  import opened Entities
  import opened LegacyEvents

  datatype LegacyGoogleSource = FromEventSource | OriginalEventSource

  datatype LegacyGoogleEventDto = LegacyGoogleEventDto(
    eventSource: Option<LegacyGoogleSource>,
    eventId: Option<string>,
    googleCalendarEventId: Option<string>,
    notionEventId: Option<string>,
    calendar: Option<Calendar>,
    summary: Option<string>,
    status: Option<EventStatus>,
    location: Option<string>,
    description: Option<string>,
    date: EventDateTime,
    googleCalendarEventLink: Option<string>,
    originalGoogleCalendarEvent: Option<GoogleEvent>)

  /**
   * The constructor: the calendar is mentioned but never assigned and the
   * link is not copied, so both stay undefined.
   */
  function NewLegacyGoogleEvent(
    eventSource: LegacyGoogleSource, eventId: Option<string>, googleCalendarEventId: Option<string>,
    notionEventId: Option<string>, calendar: Option<Calendar>, summary: Option<string>,
    status: Option<EventStatus>, location: Option<string>, description: Option<string>,
    date: EventDateTime, link: Option<string>, original: Option<GoogleEvent>): (g: LegacyGoogleEventDto)
    ensures g.calendar == None && g.googleCalendarEventLink == None
    ensures g.eventSource == Some(eventSource) && g.eventId == eventId && g.notionEventId == notionEventId
    ensures g.googleCalendarEventId == googleCalendarEventId && g.summary == summary && g.status == status
    ensures g.location == location && g.description == description && g.date == date
    ensures g.originalGoogleCalendarEvent == original
  {
    LegacyGoogleEventDto(Some(eventSource), eventId, googleCalendarEventId, notionEventId, None,
                         summary, status, location, description, date, None, original)
  }

  /** `convertDateToEvent` and `convertDateFromEvent`: both return their argument. */
  function ConvertDate(d: EventDateTime): EventDateTime
  {
    d
  }

  /** `fromEvent`: title becomes summary, tagged as coming from an event. */
  function FromEvent(e: LegacyEvent): (g: LegacyGoogleEventDto)
    ensures g.eventSource == Some(FromEventSource)
    ensures g.summary == e.title && g.status == e.status && g.date == e.date
    ensures g.eventId == e.eventId && g.googleCalendarEventId == e.googleCalendarEventId
    ensures g.notionEventId == e.notionEventId && g.originalGoogleCalendarEvent == None
    ensures g.location == e.location && g.description == e.description
    ensures g.calendar == None && g.googleCalendarEventLink == None
  {
    NewLegacyGoogleEvent(FromEventSource, e.eventId, e.googleCalendarEventId, e.notionEventId, e.calendar,
                         e.title, e.status, e.location, e.description, e.date, e.googleCalendarEventLink, None)
  }

  /** `fromGoogleCalendarEvent(event, calendar)`: the raw event's id, dates and texts. */
  function FromGoogleCalendarEvent(ge: GoogleEvent, calendar: Option<Calendar>): (g: LegacyGoogleEventDto)
    ensures g.eventSource == Some(OriginalEventSource) && g.eventId == None && g.notionEventId == None
    ensures g.googleCalendarEventId == ge.id && g.date == EventDateTime(ge.start, ge.end)
    ensures g.summary == ge.summary && g.status == ge.status && g.originalGoogleCalendarEvent == Some(ge)
    ensures g.location == ge.location && g.description == ge.description
    ensures g.calendar == None && g.googleCalendarEventLink == None
  {
    NewLegacyGoogleEvent(OriginalEventSource, None, ge.id, None, calendar, ge.summary, ge.status, ge.location,
                         ge.description, ConvertDate(EventDateTime(ge.start, ge.end)), ge.htmlLink, Some(ge))
  }

  /** Whatever calendar the caller passes, the record built from a Google event has none. */
  lemma CalendarForgotten(ge: GoogleEvent, c1: Option<Calendar>, c2: Option<Calendar>)
    ensures FromGoogleCalendarEvent(ge, c1) == FromGoogleCalendarEvent(ge, c2)
  {
  }
}
