// The records the sync engine reads and writes: database rows (users,
// calendars, event links, error logs) and the payloads of the two remote
// services (Notion pages and database properties, Google Calendar events).
module Entities {
  import opened Wrappers
  import Seqs

  // ---- database rows ----

  datatype CalendarStatus = Pending | Connected | Disconnected
  datatype AccessRole = Owner | Writer | Reader | FreeBusyReader

  /** A Google calendar the user connected, and the Notion select option it maps to. */
  datatype Calendar = Calendar(
    id: int,
    userId: int,
    googleCalendarId: string,
    googleCalendarName: string,
    status: CalendarStatus,
    accessRole: AccessRole,
    notionPropertyId: Option<string>)

  datatype LinkStatus = Synced

  /** An event link: the row that ties one Notion page to one Google Calendar event. */
  datatype Link = Link(
    id: int,
    userId: int,
    googleCalendarEventId: Option<string>,
    googleCalendarCalendarId: Option<string>,
    notionPageId: Option<string>,
    lastNotionUpdate: Option<int>,
    lastGoogleCalendarUpdate: Option<int>,
    status: LinkStatus,
    willRemove: bool,
    calendar: Option<Calendar>)

  /**
   * The user's mapping from logical property names ("title", "date", ...) to
   * Notion property ids, as parsed from its JSON column; entries keep the
   * order of the JSON object.
   */
  type NotionProps = seq<(string, string)>

  datatype User = User(
    id: int,
    lastCalendarSync: Option<int>,
    syncYear: int,
    isSyncAdditionalProps: bool,
    notionProps: NotionProps,
    googleRedirectUrlVersion: Option<int>,
    googleAccessToken: string,
    googleRefreshToken: string,
    isWork: bool,
    workStartedAt: Option<int>,
    syncbotId: Option<string>,
    syncbotVersion: Option<string>,
    lastSyncStatus: string)

  datatype ErrorLog = ErrorLog(id: int, userId: int, createdAt: int, archive: bool)

  // ---- the NotionProps object ----

  /** A key is set when its value is truthy (present and not the empty string). */
  predicate PropSet(props: NotionProps, key: string)
  {
    var v := Seqs.Get(props, key); v.Some? && v.value != ""
  }

  // ---- Notion payloads ----

  datatype PropType =
    | TitleType | SelectType | DateType | CheckboxType | UrlType | RichTextType
    | LastEditedByType | OtherType(name: string)

  /** A Notion date value: a start and an optional end, both ISO strings. */
  datatype NotionDate = NotionDate(start: string, end: Option<string>)

  datatype PropValue =
    | TitleValue(texts: seq<string>)
    | RichTextValue(texts: seq<string>)
    | CheckboxValue(checked: bool)
    | DateValue(date: Option<NotionDate>)
    | UrlValue(url: Option<string>)
    | SelectValue(option: Option<string>)
    | LastEditedByValue
    | OtherValue(typeName: string)
  {
    function Type(): PropType
    {
      match this
      case TitleValue(_) => TitleType
      case RichTextValue(_) => RichTextType
      case CheckboxValue(_) => CheckboxType
      case DateValue(_) => DateType
      case UrlValue(_) => UrlType
      case SelectValue(_) => SelectType
      case LastEditedByValue => LastEditedByType
      case OtherValue(n) => OtherType(n)
    }
  }

  datatype PageProperty = PageProperty(name: string, id: string, value: PropValue)

  datatype NotionPage = NotionPage(id: string, properties: seq<PageProperty>, lastEditedTime: int)

  datatype SelectOption = SelectOption(id: string, name: string)

  datatype DatabaseProperty = DatabaseProperty(name: string, id: string, propType: PropType, options: seq<SelectOption>)

  /** The names of a database's properties (the keys of its `properties` object). */
  function PropertyNames(props: seq<DatabaseProperty>): (r: set<string>)
    ensures forall k :: 0 <= k < |props| ==> props[k].name in r
    ensures forall n :: n in r ==> exists k :: 0 <= k < |props| && props[k].name == n
  {
    if |props| == 0 then {} else {props[0].name} + PropertyNames(props[1..])
  }

  /** `database.properties[name]`. */
  function PropertyNamed(props: seq<DatabaseProperty>, name: string): (r: Option<DatabaseProperty>)
    ensures r.Some? <==> name in PropertyNames(props)
    ensures r.Some? ==> r.value in props && r.value.name == name
  {
    Seqs.Find(props, (p: DatabaseProperty) => p.name == name)
  }

  // ---- Google Calendar payloads ----

  datatype EventStatus = Confirmed | Tentative | Cancelled

  /** One end of a Google event: `{date}` for an all-day bound, `{dateTime}` for a timed one, `{}` when absent. */
  datatype Bound = DateBound(date: string) | DateTimeBound(dateTime: string) | NoBound

  datatype EventDateTime = EventDateTime(start: Bound, end: Bound)

  datatype Attachment = Attachment(fileUrl: string, title: Option<string>, iconLink: Option<string>)

  datatype ExtendedProperties = ExtendedProperties(shared: Option<map<string, string>>, privateProps: Option<map<string, string>>)

  datatype GoogleEvent = GoogleEvent(
    id: Option<string>,
    status: Option<EventStatus>,
    summary: Option<string>,
    location: Option<string>,
    description: Option<string>,
    start: Bound,
    end: Bound,
    htmlLink: Option<string>,
    updated: int,
    attachments: Option<seq<Attachment>>,
    extendedProperties: Option<ExtendedProperties>)

  /** A string value is truthy when it is present and not empty. */
  predicate Truthy(s: Option<string>)
  {
    s.Some? && s.value != ""
  }

  /** `a || b` on optional strings. */
  function OrString(a: Option<string>, b: Option<string>): (r: Option<string>)
    ensures Truthy(a) ==> r == a
    ensures !Truthy(a) ==> r == b
  {
    if Truthy(a) then a else b
  }

  /** `a || b` on optional objects, which are truthy whenever present. */
  function OrValue<T>(a: Option<T>, b: Option<T>): (r: Option<T>)
    ensures a.Some? ==> r == a
    ensures a.None? ==> r == b
  {
    if a.Some? then a else b
  }

  /** A template literal renders an absent value as "undefined". */
  function Interpolate(s: Option<string>): string
  {
    match s
    case None => "undefined"
    case Some(v) => v
  }
}
