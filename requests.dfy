// What the engine sends to the two remote services, and the answers it gets
// back. The services themselves are not modelled: a `Remote` is a fixed but
// arbitrary function from each request to its answer.
module Requests {
  import opened Wrappers
  import opened Entities
  import opened Errors

  // ---- Notion ----

  /**
   * The properties `createPage` and `updatePage` write. The keys are the
   * user's property ids (`undefined` when unmapped); the title is always
   * written under the key "title".
   */
  datatype PagePayload = PagePayload(
    title: string,
    calendarKey: string,
    calendarName: string,
    dateKey: string,
    date: Option<NotionDate>,
    linkKey: string,
    link: Option<string>,
    descriptionKey: string,
    description: string,
    locationKey: string,
    location: string)

  /** One select option as `updateCalendarOptions` sends it; a new option has no id. */
  datatype CalendarOption = CalendarOption(id: Option<string>, name: string)

  /** A database query: its filter, as far as the engine builds it. */
  datatype NotionQuery =
    | DeletedPagesQuery(deleteKey: string, calendarKey: string, dateKey: string,
                        timeMin: string, timeMax: string, calendarNames: seq<string>)
    | UpdatedPagesQuery(calendarKey: string, dateKey: string, timeMin: string, timeMax: string,
                        calendarNames: seq<string>, lastEditedByKey: string,
                        editedOnOrAfter: int, editedBefore: int)

  /** The writes the engine sends to Notion. */
  datatype NotionRequest =
    | CreatePage(payload: PagePayload)
    | UpdatePage(pageId: Option<string>, payload: PagePayload)
    | ArchivePage(pageId: Option<string>)
    | UpdateCalendarOptions(propertyKey: string, options: seq<CalendarOption>)
    | AddProperty(name: string, propType: PropType)

  // ---- Google Calendar ----

  /** The request body of `events.insert` and `events.update`. */
  datatype EventBody = EventBody(
    start: Bound,
    end: Bound,
    summary: Option<string>,
    description: Option<string>,
    location: Option<string>,
    status: Option<EventStatus>,
    shared: map<string, string>,
    privateProps: Option<map<string, string>>,
    attachments: seq<Attachment>)

  /** An `events.list` call: one calendar, the sync range, and for incremental runs the update bound. */
  datatype GoogleQuery =
    | CalendarEventsQuery(calendarId: string, timeMin: string, timeMax: string)
    | UpdatedEventsQuery(calendarId: string, timeMin: string, timeMax: string, updatedMin: int)

  /** The writes the engine sends to Google Calendar. */
  datatype GoogleRequest =
    | DeleteEvent(eventId: Option<string>, fromCalendar: Option<string>)
    | InsertEvent(calendarId: string, body: EventBody)
    | UpdateEvent(calendarId: string, eventId: Option<string>, body: EventBody)

  // ---- the answers ----

  /**
   * How the two services answer. Queries return every page or event the
   * service selects (all result pages already fetched); writes return the
   * written object; listing events and the two deletions may fail with the
   * client's error.
   */
  datatype Remote = Remote(
    queryDatabase: NotionQuery -> seq<NotionPage>,
    createdPage: PagePayload -> NotionPage,
    updatedPage: (Option<string>, PagePayload) -> NotionPage,
    archiveResult: Option<string> -> Outcome<Failure>,
    newOptionId: string -> string,
    newPropertyId: string -> string,
    listEvents: GoogleQuery -> Result<seq<GoogleEvent>, Failure>,
    fetchedEvent: (Option<string>, string) -> GoogleEvent,
    insertedEvent: (string, EventBody) -> GoogleEvent,
    updatedEvent: (string, Option<string>, EventBody) -> GoogleEvent,
    deleteResult: (Option<string>, Option<string>) -> Outcome<Failure>)
}
