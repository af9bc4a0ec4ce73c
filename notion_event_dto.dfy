// The Notion side's event record: reading it from a Notion page, the two
// conversions to and from the neutral record, and the date translation
// between Notion's `{start, end}` and Google's `{date | dateTime}` bounds.
module NotionEvents {
  import opened Wrappers
  import opened Entities
  import opened Errors
  import opened Environment
  import opened ProtoEvents
  import opened Events
  import opened PropLookup
  import Seqs

  datatype NotionEventDto = NotionEventDto(
    base: Proto,
    title: Option<string>,
    isDeleted: bool,
    location: Option<string>,
    description: Option<string>,
    date: Option<NotionDate>,
    googleCalendarEventLink: Option<string>)
  {
    /** `toEvent`: reading the start of a null date throws. */
    function ToEvent(): (r: Result<EventDto, Failure>)
      ensures r.Ok? <==> date.Some?
      ensures r.Ok? ==> r.value.status == Some(if isDeleted then Cancelled else Confirmed)
      ensures r.Ok? ==> r.value.date == ConvertDateToEvent(date.value)
      ensures r.Ok? ==> r.value.title == title && r.value.location == location && r.value.description == description
      ensures r.Ok? ==> r.value.base.notionPageId == None && r.value.base.originalGoogleCalendarEvent == None
      ensures r.Ok? ==> r.value.base.eventLink == None && r.value.base.updatedAt == None
      ensures r.Ok? ==> r.value.base.originalNotionEvent == base.originalNotionEvent
      ensures r.Ok? ==> r.value.base.calendar == base.calendar && r.value.base.eventId == base.eventId
      ensures r.Ok? ==> r.value.base.googleCalendarEventId == base.googleCalendarEventId &&
                        r.value.base.eventSource == base.eventSource
      ensures r.Ok? ==> r.value.googleCalendarEventLink == googleCalendarEventLink
    {
      if date.None? then Err(TypeError("Cannot read properties of null (reading 'start')"))
      else
        Ok(NewEvent(EventProps(
          PropsWithPageId(base.eventSource, base.eventId, base.googleCalendarEventId, base.notionPageId,
                          base.calendar, base.originalNotionEvent, None),
          title,
          Some(if isDeleted then Cancelled else Confirmed),
          location, description,
          ConvertDateToEvent(date.value),
          googleCalendarEventLink)))
    }
  }

  /** An ISO string of length 10 ("YYYY-MM-DD") names a day; anything else a moment. */
  function Classify(s: string): (b: Bound)
    ensures b.DateBound? <==> |s| == 10
    ensures b.DateBound? ==> b.date == s
    ensures b.DateTimeBound? ==> b.dateTime == s
  {
    if |s| == 10 then DateBound(s) else DateTimeBound(s)
  }

  /** `convertDateToEvent`: an empty or missing end repeats the start. */
  function ConvertDateToEvent(d: NotionDate): (r: EventDateTime)
    ensures r.start == Classify(d.start)
    ensures Truthy(d.end) ==> r.end == Classify(d.end.value)
    ensures !Truthy(d.end) ==> r.end == r.start
  {
    EventDateTime(Classify(d.start), if Truthy(d.end) then Classify(d.end.value) else Classify(d.start))
  }

  /**
   * `convertDateFromEvent`: both bounds must be of one kind. Timed bounds are
   * normalised to UTC; an all-day end is reformatted unless it equals the
   * start. The end is dropped when it equals the start as given (before
   * normalisation).
   */
  function ConvertDateFromEvent(ed: EventDateTime, lib: DateLib): (r: Result<NotionDate, Failure>)
    ensures r.Ok? <==> (ed.start.DateBound? && ed.end.DateBound?) || (ed.start.DateTimeBound? && ed.end.DateTimeBound?)
    ensures r.Err? ==> r.error == PlainError("Invalid date")
    ensures r.Ok? && ed.start.DateBound? ==>
              r.value.start == ed.start.date &&
              (r.value.end.None? <==> ed.end.date == ed.start.date || lib.formatDay(ed.end.date) == ed.start.date) &&
              (r.value.end.Some? ==> r.value.end.value == lib.formatDay(ed.end.date))
    ensures r.Ok? && ed.start.DateTimeBound? ==>
              r.value.start == lib.utcIso(ed.start.dateTime) &&
              (r.value.end.None? <==> lib.utcIso(ed.end.dateTime) == ed.start.dateTime) &&
              (r.value.end.Some? ==> r.value.end.value == lib.utcIso(ed.end.dateTime))
  {
    if ed.start.DateBound? && ed.end.DateBound? then
      var end := if ed.end.date == ed.start.date then ed.end.date else lib.formatDay(ed.end.date);
      Ok(NotionDate(ed.start.date, if ed.start.date != end then Some(end) else None))
    else if ed.start.DateTimeBound? && ed.end.DateTimeBound? then
      var end := lib.utcIso(ed.end.dateTime);
      Ok(NotionDate(lib.utcIso(ed.start.dateTime), if ed.start.dateTime != end then Some(end) else None))
    else
      Err(PlainError("Invalid date"))
  }

  /** The NotionEventDto constructor. */
  function NewNotionEvent(
    p: ProtoProps, title: Option<string>, isDeleted: bool, location: Option<string>,
    description: Option<string>, date: Option<NotionDate>, link: Option<string>): (n: NotionEventDto)
    ensures n.base == NewProto(p) && n.title == title && n.isDeleted == isDeleted && n.date == date
    ensures n.location == location && n.description == description && n.googleCalendarEventLink == link
  {
    NotionEventDto(NewProto(p), title, isDeleted, location, description, date, link)
  }

  /** `fromEvent`: the date is translated and may be rejected. */
  function FromEvent(e: EventDto, lib: DateLib): (r: Result<NotionEventDto, Failure>)
    ensures r.Ok? <==> ConvertDateFromEvent(e.date, lib).Ok?
    ensures r.Err? ==> r.error == PlainError("Invalid date")
    ensures r.Ok? ==> r.value.date == Some(ConvertDateFromEvent(e.date, lib).value)
    ensures r.Ok? ==> (r.value.isDeleted <==> e.status == Some(Cancelled))
    ensures r.Ok? ==> r.value.title == e.title && r.value.location == e.location && r.value.description == e.description
    ensures r.Ok? ==> r.value.base.notionPageId == None && r.value.base.calendar == e.base.calendar
    ensures r.Ok? ==> r.value.base.eventId == e.base.eventId &&
                      r.value.base.googleCalendarEventId == e.base.googleCalendarEventId &&
                      r.value.base.eventSource == e.base.eventSource
    ensures r.Ok? ==> r.value.googleCalendarEventLink == e.googleCalendarEventLink
    ensures r.Ok? ==> r.value.base.originalNotionEvent == e.base.originalNotionEvent &&
                      r.value.base.originalGoogleCalendarEvent == e.base.originalGoogleCalendarEvent
    ensures r.Ok? ==> r.value.base.eventLink == None && r.value.base.updatedAt == None
  {
    var d := ConvertDateFromEvent(e.date, lib);
    if d.Err? then Err(d.error)
    else
      Ok(NewNotionEvent(
        PropsWithPageId(e.base.eventSource, e.base.eventId, e.base.googleCalendarEventId, e.base.notionPageId,
                        e.base.calendar, e.base.originalNotionEvent, e.base.originalGoogleCalendarEvent),
        e.title, e.status == Some(Cancelled), e.location, e.description, Some(d.value), e.googleCalendarEventLink))
  }

  /** A title property's plain text. */
  function TitleText(page: NotionPage, propId: Option<string>): (r: Result<string, Failure>)
    ensures r.Ok? <==> GetProp(page, propId, TitleType).Ok?
    ensures r.Ok? ==> r.value == PlainText(GetProp(page, propId, TitleType).value.value.texts)
  {
    var p :- GetProp(page, propId, TitleType);
    Ok(PlainText(p.value.texts))
  }

  /** An optional rich-text property: '' unless the user's props name one. */
  function RichText(page: NotionPage, props: NotionProps, key: string): (r: Result<string, Failure>)
    ensures !PropSet(props, key) ==> r == Ok("")
    ensures PropSet(props, key) ==> (r.Ok? <==> GetProp(page, Seqs.Get(props, key), RichTextType).Ok?)
    ensures PropSet(props, key) && r.Ok? ==>
              r.value == PlainText(GetProp(page, Seqs.Get(props, key), RichTextType).value.value.texts)
  {
    if PropSet(props, key) then
      var p :- GetProp(page, Seqs.Get(props, key), RichTextType);
      Ok(PlainText(p.value.texts))
    else Ok("")
  }

  /** A checkbox property's value. */
  function Checkbox(page: NotionPage, propId: Option<string>): (r: Result<bool, Failure>)
    ensures r.Ok? <==> GetProp(page, propId, CheckboxType).Ok?
    ensures r.Ok? ==> r.value == GetProp(page, propId, CheckboxType).value.value.checked
  {
    var p :- GetProp(page, propId, CheckboxType);
    Ok(p.value.checked)
  }

  /** A date property's value, null for an empty one. */
  function DateField(page: NotionPage, propId: Option<string>): (r: Result<Option<NotionDate>, Failure>)
    ensures r.Ok? <==> GetProp(page, propId, DateType).Ok?
    ensures r.Ok? ==> r.value == GetProp(page, propId, DateType).value.value.date
  {
    var p :- GetProp(page, propId, DateType);
    Ok(p.value.date)
  }

  /** A url property's value, null for an empty one. */
  function UrlField(page: NotionPage, propId: Option<string>): (r: Result<Option<string>, Failure>)
    ensures r.Ok? <==> GetProp(page, propId, UrlType).Ok?
    ensures r.Ok? ==> r.value == GetProp(page, propId, UrlType).value.value.url
  {
    var p :- GetProp(page, propId, UrlType);
    Ok(p.value.url)
  }

  /**
   * `fromNotionEvent(page, calendar, props)`: each field read from the
   * property the user's props name, in the order title, delete, location,
   * description, date, link; the first failing read decides the error.
   */
  function FromNotionEvent(page: NotionPage, calendar: Option<Calendar>, props: NotionProps): (r: Result<NotionEventDto, Failure>)
    ensures r.Ok? <==>
              TitleText(page, Seqs.Get(props, "title")).Ok? && Checkbox(page, Seqs.Get(props, "delete")).Ok? &&
              RichText(page, props, "location").Ok? && RichText(page, props, "description").Ok? &&
              DateField(page, Seqs.Get(props, "date")).Ok? && UrlField(page, Seqs.Get(props, "link")).Ok?
    ensures TitleText(page, Seqs.Get(props, "title")).Err? ==> r == Err(TitleText(page, Seqs.Get(props, "title")).error)
    ensures r.Ok? ==> r.value.base.eventSource == SourceNotion && r.value.base.eventId == None
    ensures r.Ok? ==> r.value.base.notionPageId == None && r.value.base.googleCalendarEventId == None
    ensures r.Ok? ==> r.value.base.calendar == calendar && r.value.base.originalNotionEvent == Some(page)
    ensures r.Ok? ==> r.value.title == Some(TitleText(page, Seqs.Get(props, "title")).value)
    ensures r.Ok? ==> r.value.isDeleted == Checkbox(page, Seqs.Get(props, "delete")).value
    ensures r.Ok? ==> r.value.location == Some(RichText(page, props, "location").value)
    ensures r.Ok? ==> r.value.description == Some(RichText(page, props, "description").value)
    ensures r.Ok? ==> r.value.date == DateField(page, Seqs.Get(props, "date")).value
    ensures r.Ok? ==> r.value.googleCalendarEventLink == UrlField(page, Seqs.Get(props, "link")).value
  {
    var title :- TitleText(page, Seqs.Get(props, "title"));
    var deleted :- Checkbox(page, Seqs.Get(props, "delete"));
    var location :- RichText(page, props, "location");
    var description :- RichText(page, props, "description");
    var date :- DateField(page, Seqs.Get(props, "date"));
    var link :- UrlField(page, Seqs.Get(props, "link"));
    Ok(NewNotionEvent(
      PropsWithPageId(SourceNotion, None, None, Some(page.id), calendar, Some(page), None),
      Some(title), deleted, Some(location), Some(description), date, link))
  }

  /** Optional text properties the user has not mapped read as ''. */
  lemma UnmappedTextIsEmpty(page: NotionPage, calendar: Option<Calendar>, props: NotionProps)
    requires FromNotionEvent(page, calendar, props).Ok?
    ensures !PropSet(props, "location") ==> FromNotionEvent(page, calendar, props).value.location == Some("")
    ensures !PropSet(props, "description") ==> FromNotionEvent(page, calendar, props).value.description == Some("")
  {
  }

  // ---- properties of the conversions ----

  /** Every Notion date becomes a pair of present bounds. */
  lemma ToEventBoundsPresent(d: NotionDate)
    ensures ConvertDateToEvent(d).start != NoBound && ConvertDateToEvent(d).end != NoBound
  {
  }

  /** A single day survives the trip to Google and back, whatever the date library does. */
  lemma AllDayRoundTrip(d: NotionDate, lib: DateLib)
    requires |d.start| == 10 && d.end.None?
    ensures ConvertDateFromEvent(ConvertDateToEvent(d), lib) == Ok(d)
  {
  }

  /** A range of days survives the trip when the library leaves a formatted day unchanged. */
  lemma AllDayRangeRoundTrip(d: NotionDate, lib: DateLib)
    requires |d.start| == 10 && d.end.Some? && |d.end.value| == 10 && d.end.value != d.start
    requires lib.formatDay(d.end.value) == d.end.value
    ensures ConvertDateFromEvent(ConvertDateToEvent(d), lib) == Ok(d)
  {
  }

  /** A timed date already in UTC form survives the trip. */
  lemma TimedRoundTrip(d: NotionDate, lib: DateLib)
    requires |d.start| != 10 && lib.utcIso(d.start) == d.start
    requires d.end.None? || (|d.end.value| != 10 && d.end.value != "" && d.end.value != d.start &&
                             lib.utcIso(d.end.value) == d.end.value)
    ensures ConvertDateFromEvent(ConvertDateToEvent(d), lib) == Ok(d)
  {
  }

  /**
   * A Notion date mixing a day and a moment has no Google form the reverse
   * translation accepts.
   */
  lemma MixedKindsRejected(d: NotionDate, lib: DateLib)
    requires Truthy(d.end) && (|d.start| == 10) != (|d.end.value| == 10)
    ensures ConvertDateFromEvent(ConvertDateToEvent(d), lib) == Err(PlainError("Invalid date"))
  {
  }

  /**
   * The end is compared with the start as given, not as normalised: a
   * Google instant written with an offset keeps an end equal to its
   * normalised start.
   */
  lemma TimedInstantKeepsEnd(s: string, lib: DateLib)
    requires lib.utcIso(s) != s
    ensures ConvertDateFromEvent(EventDateTime(DateTimeBound(s), DateTimeBound(s)), lib)
            == Ok(NotionDate(lib.utcIso(s), Some(lib.utcIso(s))))
  {
  }

  /**
   * The deletion flag survives the trip from the neutral record and back:
   * a cancelled event stays cancelled, every other status becomes confirmed.
   */
  lemma StatusRoundTrip(e: EventDto, lib: DateLib)
    requires FromEvent(e, lib).Ok?
    ensures FromEvent(e, lib).value.ToEvent().Ok?
    ensures FromEvent(e, lib).value.ToEvent().value.status == Some(if e.status == Some(Cancelled) then Cancelled else Confirmed)
  {
  }
}
