// The fields every event record shares, and the constructor that fills them.
module ProtoEvents {
  import opened Wrappers
  import opened Entities

  datatype EventSource = SourceEvent | SourceNotion | SourceGoogleCalendar | SourceEventLink

  /**
   * The shared fields. `eventLink` and `updatedAt` are not declared by the
   * class; they exist only once a caller assigns them after construction.
   */
  datatype Proto = Proto(
    eventSource: EventSource,
    eventId: Option<int>,
    googleCalendarEventId: Option<string>,
    notionPageId: Option<string>,
    calendar: Option<Calendar>,
    eventLink: Option<Link>,
    updatedAt: Option<int>,
    originalNotionEvent: Option<NotionPage>,
    originalGoogleCalendarEvent: Option<GoogleEvent>)

  /**
   * The object a caller hands to a constructor, with every key a caller may
   * write. The constructor reads `notionEventId`; callers write `notionPageId`.
   */
  datatype ProtoProps = ProtoProps(
    eventSource: EventSource,
    eventId: Option<int>,
    googleCalendarEventId: Option<string>,
    notionEventId: Option<string>,
    notionPageId: Option<string>,
    calendar: Option<Calendar>,
    eventLink: Option<Link>,
    updatedAt: Option<int>,
    originalNotionEvent: Option<NotionPage>,
    originalGoogleCalendarEvent: Option<GoogleEvent>)

  /** The ProtoEvent constructor. */
  function NewProto(p: ProtoProps): (r: Proto)
    ensures r.eventSource == p.eventSource && r.eventId == p.eventId
    ensures r.googleCalendarEventId == p.googleCalendarEventId && r.calendar == p.calendar
    ensures r.notionPageId == p.notionEventId
    ensures r.eventLink == None && r.updatedAt == None
    ensures r.originalNotionEvent == p.originalNotionEvent
    ensures r.originalGoogleCalendarEvent == p.originalGoogleCalendarEvent
  {
    Proto(p.eventSource, p.eventId, p.googleCalendarEventId, p.notionEventId, p.calendar,
          None, None, p.originalNotionEvent, p.originalGoogleCalendarEvent)
  }

  /** Props as the newer DTOs build them: the page id under the key `notionPageId`. */
  function PropsWithPageId(
    eventSource: EventSource, eventId: Option<int>, googleCalendarEventId: Option<string>,
    notionPageId: Option<string>, calendar: Option<Calendar>,
    originalNotionEvent: Option<NotionPage>, originalGoogleCalendarEvent: Option<GoogleEvent>): ProtoProps
  {
    ProtoProps(eventSource, eventId, googleCalendarEventId, None, notionPageId, calendar,
               None, None, originalNotionEvent, originalGoogleCalendarEvent)
  }

  /**
   * Whatever is passed under `notionPageId`, `eventLink` or `updatedAt`, the
   * constructed record is the same: those keys are never read.
   */
  lemma ConstructorIgnoresKeys(p: ProtoProps, pageId: Option<string>, link: Option<Link>, at: Option<int>)
    ensures NewProto(p.(notionPageId := pageId, eventLink := link, updatedAt := at)) == NewProto(p)
  {
  }

  /** A record built from props that carry the page id under `notionPageId` has no page id. */
  lemma PageIdKeyDropped(
    eventSource: EventSource, eventId: Option<int>, googleCalendarEventId: Option<string>,
    notionPageId: Option<string>, calendar: Option<Calendar>,
    originalNotionEvent: Option<NotionPage>, originalGoogleCalendarEvent: Option<GoogleEvent>)
    ensures NewProto(PropsWithPageId(eventSource, eventId, googleCalendarEventId, notionPageId, calendar,
                                     originalNotionEvent, originalGoogleCalendarEvent)).notionPageId == None
  {
  }

  /** `a || b` on an optional number: 0 is falsy. */
  function OrInt(a: Option<int>, b: Option<int>): (r: Option<int>)
    ensures a.Some? && a.value != 0 ==> r == a
    ensures !(a.Some? && a.value != 0) ==> r == b
  {
    if a.Some? && a.value != 0 then a else b
  }
}
