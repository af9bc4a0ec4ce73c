// The older neutral event record (the first code generation), with its
// constructor that copies every field and its merge through Object.assign.
module LegacyEvents {
  import opened Wrappers
  import opened Entities

  datatype LegacySource = SelfSource | NotionEventSource | GoogleCalendarEventSource

  datatype LegacyEvent = LegacyEvent(
    eventSource: LegacySource,
    eventId: Option<string>,
    googleCalendarEventId: Option<string>,
    notionEventId: Option<string>,
    calendar: Option<Calendar>,
    title: Option<string>,
    status: Option<EventStatus>,
    location: Option<string>,
    description: Option<string>,
    date: EventDateTime,
    googleCalendarEventLink: Option<string>,
    originalNotionEvent: Option<NotionPage>,
    originalGoogleCalendarEvent: Option<GoogleEvent>)
  {
    /**
     * `merge(event)`: the receiver's fields overwritten by the argument's ids,
     * calendar, texts, status and date, present or not. The two original
     * payloads are overridden under keys the constructor never reads, so the
     * receiver's survive.
     */
    function Merge(event: LegacyEvent): (m: LegacyEvent)
      ensures m.eventId == event.eventId && m.googleCalendarEventId == event.googleCalendarEventId
      ensures m.notionEventId == event.notionEventId && m.calendar == event.calendar
      ensures m.title == event.title && m.status == event.status && m.location == event.location
      ensures m.description == event.description && m.date == event.date
      ensures m.eventSource == eventSource && m.googleCalendarEventLink == googleCalendarEventLink
      ensures m.originalNotionEvent == originalNotionEvent
      ensures m.originalGoogleCalendarEvent == originalGoogleCalendarEvent
    {
      NewLegacyEvent(LegacyEventProps(
        eventSource, event.eventId, event.googleCalendarEventId, event.notionEventId, event.calendar,
        event.title, event.status, event.location, event.description, event.date, googleCalendarEventLink,
        originalNotionEvent, originalGoogleCalendarEvent))
    }
  }

  /** The constructor's argument: the same keys as the record. */
  datatype LegacyEventProps = LegacyEventProps(
    eventSource: LegacySource,
    eventId: Option<string>,
    googleCalendarEventId: Option<string>,
    notionEventId: Option<string>,
    calendar: Option<Calendar>,
    title: Option<string>,
    status: Option<EventStatus>,
    location: Option<string>,
    description: Option<string>,
    date: EventDateTime,
    googleCalendarEventLink: Option<string>,
    originalNotionEvent: Option<NotionPage>,
    originalGoogleCalendarEvent: Option<GoogleEvent>)

  /** The constructor copies every field verbatim. */
  function NewLegacyEvent(p: LegacyEventProps): (e: LegacyEvent)
    ensures e.eventSource == p.eventSource && e.eventId == p.eventId && e.notionEventId == p.notionEventId
    ensures e.googleCalendarEventId == p.googleCalendarEventId && e.calendar == p.calendar
    ensures e.title == p.title && e.status == p.status && e.location == p.location
    ensures e.description == p.description && e.date == p.date
    ensures e.googleCalendarEventLink == p.googleCalendarEventLink
    ensures e.originalNotionEvent == p.originalNotionEvent
    ensures e.originalGoogleCalendarEvent == p.originalGoogleCalendarEvent
  {
    LegacyEvent(p.eventSource, p.eventId, p.googleCalendarEventId, p.notionEventId, p.calendar,
                p.title, p.status, p.location, p.description, p.date, p.googleCalendarEventLink,
                p.originalNotionEvent, p.originalGoogleCalendarEvent)
  }

  /** Merging a record with itself gives it back unchanged. */
  lemma MergeSelf(e: LegacyEvent)
    ensures e.Merge(e) == e
  {
  }

  /** Merging is last-writer-wins: a second merge replaces everything the first one took. */
  lemma MergeLastWins(a: LegacyEvent, b: LegacyEvent, c: LegacyEvent)
    ensures a.Merge(b).Merge(c) == a.Merge(c)
  {
  }

  /** Unlike the newer merge, an absent value in the argument erases the receiver's. */
  lemma MergeErasesAbsent(a: LegacyEvent, b: LegacyEvent)
    requires b.title.None? && b.location.None?
    ensures a.Merge(b).title.None? && a.Merge(b).location.None?
  {
  }
}
