// The Google Calendar side of the engine: the OAuth tokens of a user, event
// deletion with the statuses it tolerates, the two listings (the updated one
// cut at the end of the window), and event insertion and update with the
// extended properties and the attachment that point back to the Notion page.
module GoogleApi {
  import opened Wrappers
  import opened Entities
  import opened Errors
  import opened Requests
  import opened Stores
  import opened Tables
  import opened Context
  import opened GoogleEvents
  import opened Environment
  import opened Clock
  import opened Text
  import GoogleErrorFilter
  import Seqs

  // ---- tokens ----

  datatype Tokens = Tokens(accessToken: string, refreshToken: string, callbackUrl: string)

  /** `String(user.googleRedirectUrlVersion)`; the column is null when unset. */
  function VersionKey(v: Option<int>): (k: string)
    ensures v.None? ==> k == "null"
    ensures v.Some? ==> k == IntToString(v.value)
  {
    match v
    case None => "null"
    case Some(n) => IntToString(n)
  }

  /**
   * `getGoogleCalendarTokensByUser`: the callback URL registered for the
   * user's redirect-URL version; a missing or empty one is a sync error.
   */
  function GetTokens(user: User, env: Env): (r: Result<Tokens, Failure>)
    ensures r.Ok? <==> VersionKey(user.googleRedirectUrlVersion) in env.googleCallbacks &&
                       env.googleCallbacks[VersionKey(user.googleRedirectUrlVersion)] != ""
    ensures r.Ok? ==> r.value == Tokens(user.googleAccessToken, user.googleRefreshToken,
                                        env.googleCallbacks[VersionKey(user.googleRedirectUrlVersion)])
    ensures r.Err? ==> r.error.SyncFailure? && r.error.code == GoogleCallbackUrlNotFound
  {
    var key := VersionKey(user.googleRedirectUrlVersion);
    if key !in env.googleCallbacks || env.googleCallbacks[key] == "" then
      Err(SyncFailure(GoogleCallbackUrlNotFound, "콜백 URL을 찾을 수 없습니다."))
    else
      Ok(Tokens(user.googleAccessToken, user.googleRefreshToken, env.googleCallbacks[key]))
  }

  // ---- the rewind of the error filter ----

  /** The users table after the filter moved the user's last sync ten days before `now`. */
  function Rewound(users: map<int, User>, userId: int, now: int): (r: map<int, User>)
    ensures r.Keys == users.Keys
    ensures userId in users ==> r[userId] == users[userId].(lastCalendarSync := Some(DaysBefore(now, 10)))
    ensures forall k :: k in users && k != userId ==> r[k] == users[k]
  {
    UpdateRow(users, userId, (u: User) => u.(lastCalendarSync := Some(DaysBefore(now, 10))))
  }

  /** An error on which the filter rewinds the last sync time. */
  predicate RewindsOn(e: Failure)
  {
    e.GaxiosError? && GoogleErrorFilter.ChainVerdict(e.response).RewindAndThrow?
  }

  /** The database write of the filter, done when it rewinds. */
  method ApplyRewind(ctx: WorkContext, store: Store, rewind: bool, now: int)
    requires ctx.user.Some?
    modifies store`users
    ensures store.users == if rewind then Rewound(old(store.users), ctx.user.value.id, now) else old(store.users)
  {
    if rewind {
      store.users := Rewound(store.users, ctx.user.value.id, now);
    }
  }

  // ---- deleteEvent ----

  /**
   * The body of `deleteEvent`: a Gaxios error with status 404 or 410 is
   * taken as done; reading the status of a Gaxios error without response
   * throws; anything else is rethrown.
   */
  function DeleteInner(raw: Outcome<Failure>): (r: Result<bool, Failure>)
  {
    match raw
    case Pass => Ok(true)
    case Fail(e) =>
      if !e.GaxiosError? then Err(e)
      else if e.response.Some? && e.response.value.status == Some(404) then Ok(true)
      else if e.response.None? then Err(TypeError("Cannot read properties of undefined (reading 'status')"))
      else if e.response.value.status == Some(410) then Ok(true)
      else Err(e)
  }

  /** What `deleteEvent` makes of the delete call, through the error filter. */
  function DeleteOutcome(raw: Outcome<Failure>): Outcome<Failure>
  {
    var o := GoogleErrorFilter.Filter(DeleteInner(raw));
    if o.result.Ok? then Pass else Fail(o.result.error)
  }

  /**
   * deleteEvent succeeds exactly on success, a 404 or a 410; a Gaxios error
   * without response ends in a TypeError; other Gaxios errors get the code
   * of the filter; it never rewinds the last sync time.
   */
  lemma DeleteEventSwallows(raw: Outcome<Failure>)
    ensures DeleteOutcome(raw).Pass? <==>
              raw.Pass? || (raw.error.GaxiosError? && raw.error.response.Some? &&
                            raw.error.response.value.status in {Some(404), Some(410)})
    ensures raw.Fail? && raw.error.GaxiosError? && raw.error.response.None? ==>
              DeleteOutcome(raw) == Fail(TypeError("Cannot read properties of undefined (reading 'status')"))
    ensures raw.Fail? && !raw.error.GaxiosError? ==> DeleteOutcome(raw) == raw
    ensures raw.Fail? && raw.error.GaxiosError? && raw.error.response.Some? &&
            raw.error.response.value.status !in {Some(404), Some(410)} ==>
              GoogleErrorFilter.ChainVerdict(raw.error.response).Throw? &&
              DeleteOutcome(raw) == Fail(GoogleApiFailure(GoogleErrorFilter.ChainVerdict(raw.error.response).code))
    ensures !GoogleErrorFilter.Filter(DeleteInner(raw)).rewind
  {
    if raw.Fail? && raw.error.GaxiosError? && raw.error.response.Some? {
      var r := raw.error.response.value;
      if r.status == Some(403) {
        GoogleErrorFilter.Chain403(r);
      }
    }
  }

  /** `deleteEvent(eventId, calendarId)`. */
  method DeleteEvent(store: Store, eventId: Option<string>, calendarId: Option<string>) returns (o: Outcome<Failure>)
    modifies store`googleRequests
    ensures store.googleRequests == old(store.googleRequests) + [GoogleRequest.DeleteEvent(eventId, calendarId)]
    ensures o == DeleteOutcome(store.remote.deleteResult(eventId, calendarId))
  {
    store.googleRequests := store.googleRequests + [GoogleRequest.DeleteEvent(eventId, calendarId)];
    o := DeleteOutcome(store.remote.deleteResult(eventId, calendarId));
  }

  // ---- listings ----

  /** `events.map(e => fromGoogleCalendar(e, calendar))`. */
  function FromGoogleEvents(events: seq<GoogleEvent>, calendar: Option<Calendar>): (r: seq<GoogleEventDto>)
    ensures |r| == |events|
    ensures forall k :: 0 <= k < |events| ==>
              r[k].base.originalGoogleCalendarEvent == Some(events[k]) && r[k].base.calendar == calendar &&
              r[k].base.googleCalendarEventId == events[k].id
  {
    seq(|events|, (k: int) requires 0 <= k < |events| => FromGoogleCalendar(events[k], calendar))
  }

  /** The events a listing keeps: those updated strictly before the end of the window. */
  function UpdatedBefore(events: seq<GoogleEvent>, end: int): (r: seq<GoogleEvent>)
    ensures forall e :: e in r <==> e in events && e.updated < end
  {
    Seqs.Filter(events, (e: GoogleEvent) => e.updated < end)
  }

  /** The body of `getUpdatedEventsByCalendar`, before the error filter. */
  function UpdatedEventsCall(ctx: WorkContext, remote: Remote, calendar: Calendar): (r: Result<seq<GoogleEventDto>, Failure>)
    requires ctx.config.Some?
    reads ctx`config, ctx`periodStart
    ensures ctx.periodStart.None? ==> r == Err(RangeError("Invalid time value"))
    ensures r.Ok? ==> forall k :: 0 <= k < |r.value| ==>
              r.value[k].base.originalGoogleCalendarEvent.Some? &&
              r.value[k].base.originalGoogleCalendarEvent.value.updated < ctx.periodEnd &&
              r.value[k].base.calendar == Some(calendar)
  {
    if ctx.periodStart.None? then Err(RangeError("Invalid time value"))
    else
      match remote.listEvents(UpdatedEventsQuery(calendar.googleCalendarId, ctx.config.value.timeMin,
                                                 ctx.config.value.timeMax, ctx.periodStart.value))
      case Err(e) => Err(e)
      case Ok(events) =>
        var kept := UpdatedBefore(events, ctx.periodEnd);
        assert forall k :: 0 <= k < |kept| ==> kept[k] in kept;
        Ok(FromGoogleEvents(kept, Some(calendar)))
  }

  /**
   * `getUpdatedEventsByCalendar`: the events of the calendar updated in the
   * window, with the filter around the call. A listing answered with
   * `updatedMinTooLongAgo` moves the user's last sync ten days back.
   */
  method GetUpdatedEventsByCalendar(ctx: WorkContext, store: Store, calendar: Calendar, now: int)
    returns (r: Result<Option<seq<GoogleEventDto>>, Failure>)
    requires ctx.user.Some? && ctx.config.Some?
    modifies store`users
    ensures r == GoogleErrorFilter.Filter(UpdatedEventsCall(ctx, store.remote, calendar)).result
    ensures var call := UpdatedEventsCall(ctx, store.remote, calendar);
            store.users == if call.Err? && RewindsOn(call.error) then Rewound(old(store.users), ctx.user.value.id, now)
                           else old(store.users)
    ensures ctx.periodStart.None? ==> r == Err(RangeError("Invalid time value")) && store.users == old(store.users)
  {
    var call := UpdatedEventsCall(ctx, store.remote, calendar);
    var o := GoogleErrorFilter.Filter(call);
    ApplyRewind(ctx, store, o.rewind, now);
    r := o.result;
  }

  /** `getEventsByCalendar`: every event of the calendar in the sync range, with the filter around the call. */
  method GetEventsByCalendar(ctx: WorkContext, store: Store, calendar: Calendar, now: int)
    returns (r: Result<Option<seq<GoogleEventDto>>, Failure>)
    requires ctx.user.Some? && ctx.config.Some?
    modifies store`users
    ensures var raw := store.remote.listEvents(CalendarEventsQuery(calendar.googleCalendarId,
                                                                    ctx.config.value.timeMin, ctx.config.value.timeMax));
            (raw.Ok? ==> r == Ok(Some(FromGoogleEvents(raw.value, Some(calendar)))) && store.users == old(store.users)) &&
            (raw.Err? ==> r == GoogleErrorFilter.Filter<seq<GoogleEventDto>>(Err(raw.error)).result &&
                          store.users == if RewindsOn(raw.error) then Rewound(old(store.users), ctx.user.value.id, now)
                                         else old(store.users))
  {
    var raw := store.remote.listEvents(CalendarEventsQuery(calendar.googleCalendarId,
                                                          ctx.config.value.timeMin, ctx.config.value.timeMax));
    var call: Result<seq<GoogleEventDto>, Failure> :=
      match raw
      case Ok(events) => Ok(FromGoogleEvents(events, Some(calendar)))
      case Err(e) => Err(e);
    var o := GoogleErrorFilter.Filter(call);
    ApplyRewind(ctx, store, o.rewind, now);
    r := o.result;
  }

  // ---- the link back to Notion ----

  const LinkValue := "bdcd90fd-4c12-4832-9caf-4fb21fc6c524"
  const FixedLinkKey := "n.attchwsid.878025b813f54f1996ac4e985d3cd422"
  const NotionIconLink := "https://lh3.googleusercontent.com/pw/AJFCJaU8wzEWMXWYp2glnlt4vX9rdN3h4KJGpgu6zshkAEPSohFfttbcfQh_TJf1LqOwuoWvBQaVZaShLmbFfIUaZlu-kAkaeLkQSKTrMHUoIDviYIbizCzOIOwp-g2Wl6amU0LuYxkqO9kLcOe-L4o_qEg=w32-h32-s-no?authuser=0"

  function PageLinkKey(pageId: Option<string>): string
  {
    "n.attchwsid." + Interpolate(pageId)
  }

  function NotionPageUrl(pageId: Option<string>): string
  {
    "https://www.notion.so/" + Interpolate(pageId)
  }

  /** The shared extended properties: the given ones, plus the two keys that mark the event as linked. */
  function LinkProperties(shared: map<string, string>, pageId: Option<string>): (m: map<string, string>)
    ensures m.Keys == shared.Keys + {PageLinkKey(pageId), FixedLinkKey}
    ensures m[PageLinkKey(pageId)] == LinkValue && m[FixedLinkKey] == LinkValue
    ensures forall k :: k in shared && k != PageLinkKey(pageId) && k != FixedLinkKey ==> m[k] == shared[k]
  {
    shared[PageLinkKey(pageId) := LinkValue][FixedLinkKey := LinkValue]
  }

  /** Writing the link keys twice gives what writing them once gives. */
  lemma LinkPropertiesIdempotent(shared: map<string, string>, pageId: Option<string>)
    ensures LinkProperties(LinkProperties(shared, pageId), pageId) == LinkProperties(shared, pageId)
  {
  }

  /** `events.insert`'s body for an event. */
  function CreateBody(g: GoogleEventDto): (b: EventBody)
    ensures b.start == g.date.start && b.end == g.date.end && b.summary == g.summary
    ensures b.description == g.description && b.location == g.location && b.status == g.status
    ensures b.shared == LinkProperties(map[], g.base.notionPageId) && b.privateProps.None?
    ensures b.attachments == [Attachment(NotionPageUrl(g.base.notionPageId), g.summary, Some(NotionIconLink))]
  {
    EventBody(g.date.start, g.date.end, g.summary, g.description, g.location, g.status,
              LinkProperties(map[], g.base.notionPageId), None,
              [Attachment(NotionPageUrl(g.base.notionPageId), g.summary, Some(NotionIconLink))])
  }

  /**
   * The attachments `updateEvent` writes: the existing ones that do not
   * point to the page, in their order, then the one that does (the first
   * existing one, or a new one) with the event's summary as title.
   */
  function UpdateAttachments(existing: Option<seq<Attachment>>, url: string, summary: Option<string>): (r: seq<Attachment>)
    ensures |r| >= 1 && r[|r| - 1].fileUrl == url && r[|r| - 1].title == summary
    ensures forall a :: a in r[..|r| - 1] <==> a in existing.UnwrapOr([]) && a.fileUrl != url
    ensures forall k :: 0 <= k < |r| - 1 ==> r[k].fileUrl != url
    ensures (forall a :: a in existing.UnwrapOr([]) ==> a.fileUrl != url) ==> r[|r| - 1].iconLink == Some(NotionIconLink)
  {
    var atts := existing.UnwrapOr([]);
    var others := Seqs.Filter(atts, (a: Attachment) => a.fileUrl != url);
    var notion := match Seqs.Find(atts, (a: Attachment) => a.fileUrl == url)
                  case Some(a) => a
                  case None => Attachment(url, summary, Some(NotionIconLink));
    var r := others + [notion.(title := summary)];
    assert r[..|r| - 1] == others;
    r
  }

  /** Updating the attachments of an event already updated changes nothing more. */
  lemma UpdateAttachmentsIdempotent(existing: Option<seq<Attachment>>, url: string, summary: Option<string>)
    ensures UpdateAttachments(Some(UpdateAttachments(existing, url, summary)), url, summary) ==
            UpdateAttachments(existing, url, summary)
  {
    var r := UpdateAttachments(existing, url, summary);
    var others := r[..|r| - 1];
    var last := r[|r| - 1];
    assert r == others + [last];
    var p := (a: Attachment) => a.fileUrl != url;
    var q := (a: Attachment) => a.fileUrl == url;
    Seqs.FilterAppend(others, [last], p);
    Seqs.FilterAll(others, p);
    assert Seqs.Filter([last], p) == [];
    assert Seqs.Filter(r, p) == others;
    Seqs.FindAppend(others, [last], q);
    assert Seqs.Find(others, q).None?;
    assert Seqs.Find([last], q) == Some(last);
    assert Seqs.Find(r, q) == Some(last);
  }

  /** The shared and private properties an existing event carries. */
  function SharedOf(ge: GoogleEvent): map<string, string>
  {
    match ge.extendedProperties
    case None => map[]
    case Some(p) => p.shared.UnwrapOr(map[])
  }

  function PrivateOf(ge: GoogleEvent): map<string, string>
  {
    match ge.extendedProperties
    case None => map[]
    case Some(p) => p.privateProps.UnwrapOr(map[])
  }

  /**
   * `events.update`'s body: the event's fields; the existing event's
   * extended properties kept, with the link keys added; its attachments
   * rewritten by `UpdateAttachments`.
   */
  function UpdateBody(g: GoogleEventDto, existing: GoogleEvent): (b: EventBody)
    ensures b.start == g.date.start && b.end == g.date.end && b.summary == g.summary
    ensures b.description == g.description && b.location == g.location && b.status == g.status
    ensures b.shared == LinkProperties(SharedOf(existing), g.base.notionPageId)
    ensures b.privateProps == Some(PrivateOf(existing))
    ensures b.attachments == UpdateAttachments(existing.attachments, NotionPageUrl(g.base.notionPageId), g.summary)
  {
    EventBody(g.date.start, g.date.end, g.summary, g.description, g.location, g.status,
              LinkProperties(SharedOf(existing), g.base.notionPageId), Some(PrivateOf(existing)),
              UpdateAttachments(existing.attachments, NotionPageUrl(g.base.notionPageId), g.summary))
  }

  /**
   * An event built from the neutral record has no page id, so the link it
   * writes points to the page "undefined".
   */
  lemma LinkToUndefinedPage(e: Events.EventDto)
    ensures PageLinkKey(FromEvent(e).base.notionPageId) == "n.attchwsid.undefined"
    ensures NotionPageUrl(FromEvent(e).base.notionPageId) == "https://www.notion.so/undefined"
  {
  }

  // ---- writes ----

  /** `createEvent`: the event is inserted into its calendar and read back. */
  method CreateEvent(store: Store, g: GoogleEventDto) returns (r: Result<GoogleEventDto, Failure>)
    modifies store`googleRequests
    ensures g.base.calendar.None? ==>
              r == Err(TypeError("Cannot read properties of undefined (reading 'googleCalendarId')")) &&
              store.googleRequests == old(store.googleRequests)
    ensures g.base.calendar.Some? ==>
              var calendarId := g.base.calendar.value.googleCalendarId;
              store.googleRequests == old(store.googleRequests) + [InsertEvent(calendarId, CreateBody(g))] &&
              r == Ok(FromGoogleCalendar(store.remote.insertedEvent(calendarId, CreateBody(g)), g.base.calendar))
  {
    if g.base.calendar.None? {
      return Err(TypeError("Cannot read properties of undefined (reading 'googleCalendarId')"));
    }
    var calendarId := g.base.calendar.value.googleCalendarId;
    var body := CreateBody(g);
    store.googleRequests := store.googleRequests + [InsertEvent(calendarId, body)];
    r := Ok(FromGoogleCalendar(store.remote.insertedEvent(calendarId, body), g.base.calendar));
  }

  /** `updateEvent`: the existing event is fetched, then rewritten and read back. */
  method UpdateEvent(store: Store, g: GoogleEventDto) returns (r: Result<GoogleEventDto, Failure>)
    modifies store`googleRequests
    ensures g.base.calendar.None? ==>
              r == Err(TypeError("Cannot read properties of undefined (reading 'googleCalendarId')")) &&
              store.googleRequests == old(store.googleRequests)
    ensures g.base.calendar.Some? ==>
              var calendarId := g.base.calendar.value.googleCalendarId;
              var eventId := g.base.googleCalendarEventId;
              var body := UpdateBody(g, store.remote.fetchedEvent(eventId, calendarId));
              store.googleRequests == old(store.googleRequests) + [GoogleRequest.UpdateEvent(calendarId, eventId, body)] &&
              r == Ok(FromGoogleCalendar(store.remote.updatedEvent(calendarId, eventId, body), g.base.calendar))
  {
    if g.base.calendar.None? {
      return Err(TypeError("Cannot read properties of undefined (reading 'googleCalendarId')"));
    }
    var calendarId := g.base.calendar.value.googleCalendarId;
    var eventId := g.base.googleCalendarEventId;
    var existing := FromGoogleCalendar(store.remote.fetchedEvent(eventId, calendarId), g.base.calendar);
    var body := UpdateBody(g, existing.base.originalGoogleCalendarEvent.value);
    store.googleRequests := store.googleRequests + [GoogleRequest.UpdateEvent(calendarId, eventId, body)];
    r := Ok(FromGoogleCalendar(store.remote.updatedEvent(calendarId, eventId, body), g.base.calendar));
  }
}
