// The older Notion record: properties looked up by name, a date
// translation without UTC normalisation, and a `status` flag that holds the
// delete checkbox but is read back as "confirmed".
module LegacyNotionEvents {
  import opened Wrappers
  import opened Entities
  import opened Errors
  import opened Environment
  import opened PropLookup
  import opened LegacyEvents
  import Seqs

  datatype LegacyNotionSource = FromEventSource | OriginalEventSource

  datatype LegacyNotionEventDto = LegacyNotionEventDto(
    eventSource: Option<LegacyNotionSource>,
    eventId: Option<string>,
    googleCalendarEventId: Option<string>,
    notionEventId: Option<string>,
    calendar: Option<Calendar>,
    title: Option<string>,
    status: bool,
    location: Option<string>,
    description: Option<string>,
    date: Option<NotionDate>,
    googleCalendarEventLink: Option<string>,
    originalNotionData: Option<NotionPage>)
  {
    /** `toEvent`: a true status is read as confirmed; a null date cannot be read. */
    function ToEvent(): (r: Result<LegacyEvent, Failure>)
      ensures r.Ok? <==> date.Some?
      ensures r.Ok? ==> r.value.status == Some(if status then Confirmed else Cancelled)
      ensures r.Ok? ==> r.value.eventSource == NotionEventSource && r.value.date == ConvertDateToEvent(date.value)
      ensures r.Ok? ==> r.value.notionEventId == notionEventId && r.value.title == title
      ensures r.Ok? ==> r.value.originalNotionEvent == originalNotionData && r.value.originalGoogleCalendarEvent == None
      ensures r.Ok? ==> r.value.eventId == eventId && r.value.googleCalendarEventId == googleCalendarEventId
      ensures r.Ok? ==> r.value.calendar == calendar && r.value.location == location &&
                        r.value.description == description
      ensures r.Ok? ==> r.value.googleCalendarEventLink == googleCalendarEventLink
    {
      if date.None? then Err(TypeError("Cannot read properties of null (reading 'start')"))
      else
        Ok(NewLegacyEvent(LegacyEventProps(
          NotionEventSource, eventId, googleCalendarEventId, notionEventId, calendar, title,
          Some(if status then Confirmed else Cancelled), location, description,
          ConvertDateToEvent(date.value), googleCalendarEventLink, originalNotionData, None)))
    }
  }

  /**
   * `page.properties[propName]`: an object keyed by property name, so an
   * undefined name looks up the key "undefined".
   */
  function GetPropByName(page: NotionPage, propName: Option<string>, t: PropType): (r: Result<PageProperty, Failure>)
    ensures r.Ok? ==> r.value in page.properties && r.value.name == Interpolate(propName) && r.value.value.Type() == t
    ensures (forall j :: 0 <= j < |page.properties| ==> page.properties[j].name != Interpolate(propName)) ==>
              r == Err(MissingProperty)
  {
    var key := Interpolate(propName);
    match Seqs.FindIndex(page.properties, (p: PageProperty) => p.name == key)
    case None => Err(MissingProperty)
    case Some(k) =>
      var p := page.properties[k];
      if p.value.Type() == t then Ok(p) else Err(TypeMismatch(propName, t, p.value.Type()))
  }

  /** `convertDateToEvent`: with no end the end bound stays empty. */
  function ConvertDateToEvent(d: NotionDate): (r: EventDateTime)
    ensures r.start.DateBound? <==> |d.start| == 10
    ensures r.start == (if |d.start| == 10 then DateBound(d.start) else DateTimeBound(d.start))
    ensures !Truthy(d.end) <==> r.end == NoBound
    ensures Truthy(d.end) ==> r.end == (if |d.end.value| == 10 then DateBound(d.end.value) else DateTimeBound(d.end.value))
  {
    EventDateTime(
      if |d.start| == 10 then DateBound(d.start) else DateTimeBound(d.start),
      if !Truthy(d.end) then NoBound
      else if |d.end.value| == 10 then DateBound(d.end.value) else DateTimeBound(d.end.value))
  }

  /**
   * `convertDateFromEvent`: both bounds of one kind, otherwise "Invalid
   * date"; timed bounds pass unchanged, a differing all-day end goes through
   * the library's day formatting; an end equal to the start is dropped.
   */
  function ConvertDateFromEvent(ed: EventDateTime, lib: DateLib): (r: Result<NotionDate, Failure>)
    ensures r.Ok? <==> (ed.start.DateBound? && ed.end.DateBound?) || (ed.start.DateTimeBound? && ed.end.DateTimeBound?)
    ensures r.Err? ==> r.error == PlainError("Invalid date")
    ensures r.Ok? && ed.start.DateTimeBound? ==>
              r.value == NotionDate(ed.start.dateTime,
                                    if ed.end.dateTime != ed.start.dateTime then Some(ed.end.dateTime) else None)
    ensures r.Ok? && ed.start.DateBound? ==>
              r.value.start == ed.start.date &&
              (r.value.end.None? <==> ed.end.date == ed.start.date || lib.isoDay(ed.end.date) == ed.start.date) &&
              (r.value.end.Some? ==> r.value.end.value == lib.isoDay(ed.end.date))
  {
    if ed.start.DateBound? && ed.end.DateBound? then
      var end := if ed.end.date == ed.start.date then ed.end.date else lib.isoDay(ed.end.date);
      Ok(NotionDate(ed.start.date, if ed.start.date != end then Some(end) else None))
    else if ed.start.DateTimeBound? && ed.end.DateTimeBound? then
      Ok(NotionDate(ed.start.dateTime, if ed.start.dateTime != ed.end.dateTime then Some(ed.end.dateTime) else None))
    else
      Err(PlainError("Invalid date"))
  }

  /** `fromEvent`: status holds whether the event is confirmed. */
  function FromEvent(e: LegacyEvent, lib: DateLib): (r: Result<LegacyNotionEventDto, Failure>)
    ensures r.Ok? <==> ConvertDateFromEvent(e.date, lib).Ok?
    ensures r.Ok? ==> (r.value.status <==> e.status == Some(Confirmed))
    ensures r.Ok? ==> r.value.date == Some(ConvertDateFromEvent(e.date, lib).value)
    ensures r.Ok? ==> r.value.eventSource == Some(FromEventSource) && r.value.originalNotionData == None
    ensures r.Ok? ==> r.value.notionEventId == e.notionEventId && r.value.title == e.title
    ensures r.Ok? ==> r.value.eventId == e.eventId && r.value.googleCalendarEventId == e.googleCalendarEventId
    ensures r.Ok? ==> r.value.calendar == e.calendar && r.value.location == e.location &&
                      r.value.description == e.description
    ensures r.Ok? ==> r.value.googleCalendarEventLink == e.googleCalendarEventLink
  {
    var d :- ConvertDateFromEvent(e.date, lib);
    Ok(LegacyNotionEventDto(Some(FromEventSource), e.eventId, e.googleCalendarEventId, e.notionEventId, e.calendar,
                            e.title, e.status == Some(Confirmed), e.location, e.description, Some(d),
                            e.googleCalendarEventLink, None))
  }

  function TextByName(page: NotionPage, propName: Option<string>, t: PropType): (r: Result<string, Failure>)
    requires t == TitleType || t == RichTextType
    ensures r.Ok? <==> GetPropByName(page, propName, t).Ok?
    ensures r.Ok? ==> r.value == PlainText(GetPropByName(page, propName, t).value.value.texts)
    ensures r.Err? ==> r.error == GetPropByName(page, propName, t).error
  {
    var p :- GetPropByName(page, propName, t);
    Ok(PlainText(p.value.texts))
  }

  function CheckboxByName(page: NotionPage, propName: Option<string>): (r: Result<bool, Failure>)
    ensures r.Ok? <==> GetPropByName(page, propName, CheckboxType).Ok?
    ensures r.Ok? ==> r.value == GetPropByName(page, propName, CheckboxType).value.value.checked
  {
    var p :- GetPropByName(page, propName, CheckboxType);
    Ok(p.value.checked)
  }

  function DateByName(page: NotionPage, propName: Option<string>): (r: Result<Option<NotionDate>, Failure>)
    ensures r.Ok? <==> GetPropByName(page, propName, DateType).Ok?
    ensures r.Ok? ==> r.value == GetPropByName(page, propName, DateType).value.value.date
    ensures r.Err? ==> r.error == GetPropByName(page, propName, DateType).error
  {
    var p :- GetPropByName(page, propName, DateType);
    Ok(p.value.date)
  }

  function UrlByName(page: NotionPage, propName: Option<string>): (r: Result<Option<string>, Failure>)
    ensures r.Ok? <==> GetPropByName(page, propName, UrlType).Ok?
    ensures r.Ok? ==> r.value == GetPropByName(page, propName, UrlType).value.value.url
    ensures r.Err? ==> r.error == GetPropByName(page, propName, UrlType).error
  {
    var p :- GetPropByName(page, propName, UrlType);
    Ok(p.value.url)
  }

  /**
   * `fromNotionEvent(page, calendar, props)`: every field read by name, the
   * optional texts included; status is the delete checkbox.
   */
  function FromNotionEvent(page: NotionPage, calendar: Option<Calendar>, props: NotionProps): (r: Result<LegacyNotionEventDto, Failure>)
    ensures r.Ok? <==>
              TextByName(page, Seqs.Get(props, "title"), TitleType).Ok? &&
              CheckboxByName(page, Seqs.Get(props, "delete")).Ok? &&
              TextByName(page, Seqs.Get(props, "location"), RichTextType).Ok? &&
              TextByName(page, Seqs.Get(props, "description"), RichTextType).Ok? &&
              DateByName(page, Seqs.Get(props, "date")).Ok? && UrlByName(page, Seqs.Get(props, "link")).Ok?
    ensures r.Ok? ==> r.value.status == CheckboxByName(page, Seqs.Get(props, "delete")).value
    ensures r.Ok? ==> r.value.eventSource == Some(OriginalEventSource) && r.value.notionEventId == Some(page.id)
    ensures r.Ok? ==> r.value.calendar == calendar && r.value.originalNotionData == Some(page)
    ensures r.Ok? ==> r.value.eventId == None && r.value.googleCalendarEventId == None
    ensures r.Ok? ==> r.value.title == Some(TextByName(page, Seqs.Get(props, "title"), TitleType).value)
    ensures r.Ok? ==> r.value.location == Some(TextByName(page, Seqs.Get(props, "location"), RichTextType).value) &&
                      r.value.description == Some(TextByName(page, Seqs.Get(props, "description"), RichTextType).value)
    ensures r.Ok? ==> r.value.date == DateByName(page, Seqs.Get(props, "date")).value &&
                      r.value.googleCalendarEventLink == UrlByName(page, Seqs.Get(props, "link")).value
  {
    var title :- TextByName(page, Seqs.Get(props, "title"), TitleType);
    var deleted :- CheckboxByName(page, Seqs.Get(props, "delete"));
    var location :- TextByName(page, Seqs.Get(props, "location"), RichTextType);
    var description :- TextByName(page, Seqs.Get(props, "description"), RichTextType);
    var date :- DateByName(page, Seqs.Get(props, "date"));
    var link :- UrlByName(page, Seqs.Get(props, "link"));
    Ok(LegacyNotionEventDto(Some(OriginalEventSource), None, None, Some(page.id), calendar, Some(title), deleted,
                            Some(location), Some(description), date, link, Some(page)))
  }

  // ---- properties ----

  /** A page whose delete box is checked is sent on as a confirmed event, and an unchecked one as cancelled. */
  lemma DeleteBoxInverted(page: NotionPage, calendar: Option<Calendar>, props: NotionProps)
    requires FromNotionEvent(page, calendar, props).Ok? && FromNotionEvent(page, calendar, props).value.date.Some?
    ensures FromNotionEvent(page, calendar, props).value.ToEvent().value.status ==
              Some(if CheckboxByName(page, Seqs.Get(props, "delete")).value then Confirmed else Cancelled)
  {
  }

  /** Through the older Notion record, confirmed stays confirmed and every other status becomes cancelled. */
  lemma StatusRoundTrip(e: LegacyEvent, lib: DateLib)
    requires FromEvent(e, lib).Ok?
    ensures FromEvent(e, lib).value.ToEvent().Ok?
    ensures FromEvent(e, lib).value.ToEvent().value.status == Some(if e.status == Some(Confirmed) then Confirmed else Cancelled)
  {
  }

  /** A single-day Notion date has no end bound, so the reverse translation rejects it. */
  lemma SingleDayRejected(d: NotionDate, lib: DateLib)
    requires d.end.None?
    ensures ConvertDateFromEvent(ConvertDateToEvent(d), lib) == Err(PlainError("Invalid date"))
  {
  }

  /** A timed range passes through unchanged in both directions. */
  lemma TimedRangeRoundTrip(d: NotionDate, lib: DateLib)
    requires |d.start| != 10 && d.end.Some? && d.end.value != "" && |d.end.value| != 10 && d.end.value != d.start
    ensures ConvertDateFromEvent(ConvertDateToEvent(d), lib) == Ok(d)
  {
  }
}
