// The Google Calendar assist: the calendar listings the worker asks for,
// with the swallowed-error results they cannot handle, and `CUDEvent`, the
// write of one updated Notion page to Google Calendar.
module GoogleAssist {
  import opened Wrappers
  import opened Entities
  import opened Errors
  import opened Requests
  import opened Tables
  import opened Stores
  import opened Context
  import opened Events
  import opened GoogleEvents
  import NotionEvents
  import GoogleApi
  import GoogleErrorFilter
  import EventLinks
  import Seqs

  /** `validation`: the Google side has nothing to check. */
  function Validation(): (ok: bool)
    ensures ok
  {
    true
  }

  /** `deleteEvent`: forwarded to the API, so its outcome is the API's. */
  method DeleteEvent(store: Store, eventId: Option<string>, calendarId: Option<string>) returns (o: Outcome<Failure>)
    modifies store`googleRequests
    ensures store.googleRequests == old(store.googleRequests) + [GoogleRequest.DeleteEvent(eventId, calendarId)]
    ensures o == GoogleApi.DeleteOutcome(store.remote.deleteResult(eventId, calendarId))
  {
    o := GoogleApi.DeleteEvent(store, eventId, calendarId);
  }

  // ---- getEventByCalendar ----

  /** `events.map(e => e.toEvent())`. */
  function ToEvents(gs: seq<GoogleEventDto>): (r: seq<EventDto>)
    ensures |r| == |gs|
    ensures forall k :: 0 <= k < |gs| ==> r[k] == gs[k].ToEvent()
  {
    seq(|gs|, (k: int) requires 0 <= k < |gs| => gs[k].ToEvent())
  }

  /** Reading `.map` of the `undefined` a swallowed listing returns. */
  const MapOfUndefined: Failure := TypeError("Cannot read properties of undefined (reading 'map')")

  /** What `getEventByCalendar` makes of the filtered listing. */
  function Listing(filtered: Result<Option<seq<GoogleEventDto>>, Failure>): Result<seq<EventDto>, Failure>
  {
    match filtered
    case Err(e) => Err(e)
    case Ok(None) => Err(MapOfUndefined)
    case Ok(Some(gs)) => Ok(ToEvents(gs))
  }

  /** The records `getEventByCalendar` returns for a raw answer of the listing of `calendar`. */
  function EventListing(raw: Result<seq<GoogleEvent>, Failure>, calendar: Calendar): Result<seq<EventDto>, Failure>
  {
    match raw
    case Ok(events) => Ok(ToEvents(GoogleApi.FromGoogleEvents(events, Some(calendar))))
    case Err(e) => Listing(GoogleErrorFilter.Filter<seq<GoogleEventDto>>(Err(e)).result)
  }

  /**
   * On a listing that answers, one neutral record per Google event, in
   * order, with the event's id, dates and texts, the calendar it was listed
   * from, and no page id or link.
   */
  lemma EventListingRecords(raw: Result<seq<GoogleEvent>, Failure>, calendar: Calendar)
    requires raw.Ok?
    ensures var r := EventListing(raw, calendar);
            r.Ok? && |r.value| == |raw.value| &&
            forall k :: 0 <= k < |raw.value| ==>
              r.value[k].base.googleCalendarEventId == raw.value[k].id &&
              r.value[k].base.calendar == Some(calendar) &&
              r.value[k].base.originalGoogleCalendarEvent == Some(raw.value[k]) &&
              r.value[k].date == EventDateTime(raw.value[k].start, raw.value[k].end) &&
              r.value[k].title == raw.value[k].summary && r.value[k].status == raw.value[k].status &&
              r.value[k].base.notionPageId == None && r.value[k].base.eventLink == None
  {
  }

  /**
   * `getEventByCalendar`: the listing of the calendar's whole range, each
   * event turned into a neutral record; a failed listing goes through the
   * filter, and the one error the filter swallows makes the `map` throw.
   */
  method GetEventByCalendar(ctx: WorkContext, store: Store, calendar: Calendar, now: int)
    returns (r: Result<seq<EventDto>, Failure>)
    requires ctx.user.Some? && ctx.config.Some?
    modifies store`users
    ensures var raw := store.remote.listEvents(CalendarEventsQuery(calendar.googleCalendarId,
                                                                    ctx.config.value.timeMin, ctx.config.value.timeMax));
            r == EventListing(raw, calendar) &&
            store.users == if raw.Err? && GoogleApi.RewindsOn(raw.error) then GoogleApi.Rewound(old(store.users), ctx.user.value.id, now)
                           else old(store.users)
  {
    var listed := GoogleApi.GetEventsByCalendar(ctx, store, calendar, now);
    r := Listing(listed);
  }

  /** A failed listing never yields records: the one error the filter swallows, a 410 of a deleted event, throws on `map`. */
  lemma ListingFailsOnSwallowed(raw: Failure, calendar: Calendar)
    requires GoogleErrorFilter.Filter<seq<GoogleEventDto>>(Err(raw)).result.Ok?
    ensures EventListing(Err(raw), calendar) == Err(MapOfUndefined)
    ensures raw.GaxiosError? && raw.response.Some? && raw.response.value.status == Some(410)
  {
    GoogleErrorFilter.OnlyDeletedReturns<seq<GoogleEventDto>>(Err(raw));
  }

  // ---- getUpdatedEvents ----

  /** Reading `.push` of the `undefined` a swallowed listing returns. */
  const PushOfUndefined: Failure := TypeError("Cannot read properties of undefined (reading 'push')")

  /** How far the listing of the updated events got. `rewind` says whether the failing call moved the user's last sync back. */
  datatype Fetch = Fetched | Failed(error: Failure, rewind: bool)

  /** One calendar's listing, through the filter. */
  function CalendarFetch(ctx: WorkContext, remote: Remote, c: Calendar): (f: Fetch)
    requires ctx.config.Some?
    reads ctx`config, ctx`periodStart
  {
    var o := GoogleErrorFilter.Filter(GoogleApi.UpdatedEventsCall(ctx, remote, c));
    match o.result
    case Err(e) => Failed(e, o.rewind)
    case Ok(None) => Failed(PushOfUndefined, false)
    case Ok(Some(_)) => Fetched
  }

  /** The calendars listed in order, up to the first that fails. */
  function FirstFailure(ctx: WorkContext, remote: Remote, cs: seq<Calendar>): (f: Fetch)
    requires ctx.config.Some?
    reads ctx`config, ctx`periodStart
    decreases |cs|
  {
    if |cs| == 0 then Fetched
    else
      var before := FirstFailure(ctx, remote, cs[..|cs| - 1]);
      if before.Failed? then before else CalendarFetch(ctx, remote, cs[|cs| - 1])
  }

  /**
   * The listing fails exactly when one calendar's listing fails, and then
   * with the failure of the first such calendar.
   */
  lemma {:induction false} FirstFailureIsFirst(ctx: WorkContext, remote: Remote, cs: seq<Calendar>)
    requires ctx.config.Some?
    ensures FirstFailure(ctx, remote, cs).Fetched? <==>
              forall k :: 0 <= k < |cs| ==> CalendarFetch(ctx, remote, cs[k]).Fetched?
    ensures forall k :: 0 <= k < |cs| && CalendarFetch(ctx, remote, cs[k]).Failed? &&
                        (forall j :: 0 <= j < k ==> CalendarFetch(ctx, remote, cs[j]).Fetched?) ==>
              FirstFailure(ctx, remote, cs) == CalendarFetch(ctx, remote, cs[k])
    decreases |cs|
  {
    if |cs| > 0 {
      var init := cs[..|cs| - 1];
      FirstFailureIsFirst(ctx, remote, init);
      assert forall k :: 0 <= k < |init| ==> init[k] == cs[k];
    }
  }

  /** A rewind is only ever the failure of a listing answered with an error. */
  lemma RewindIsFailure(ctx: WorkContext, remote: Remote, c: Calendar)
    requires ctx.config.Some?
    ensures CalendarFetch(ctx, remote, c).Failed? && CalendarFetch(ctx, remote, c).rewind ==>
              GoogleApi.UpdatedEventsCall(ctx, remote, c).Err? &&
              GoogleApi.RewindsOn(GoogleApi.UpdatedEventsCall(ctx, remote, c).error)
    ensures CalendarFetch(ctx, remote, c).Fetched? ==> GoogleApi.UpdatedEventsCall(ctx, remote, c).Ok?
  {
  }

  /**
   * The loop of `getUpdatedEvents`: the connected calendars listed in
   * order, stopping at the first that fails; the user's last sync is moved
   * back only by a failing listing that asks for it.
   */
  method FetchUpdated(ctx: WorkContext, store: Store, now: int) returns (f: Fetch)
    requires ctx.user.Some? && ctx.config.Some?
    modifies store`users
    ensures f == FirstFailure(ctx, store.remote, ctx.connectedCalendars)
    ensures store.users == if f.Failed? && f.rewind then GoogleApi.Rewound(old(store.users), ctx.user.value.id, now)
                           else old(store.users)
  {
    var cs := ctx.connectedCalendars;
    var i := 0;
    while i < |cs|
      invariant 0 <= i <= |cs|
      invariant FirstFailure(ctx, store.remote, cs[..i]) == Fetched
      invariant store.users == old(store.users)
      invariant cs == ctx.connectedCalendars && ctx.user.Some? && ctx.config.Some?
    {
      FetchedOneMore(ctx, store.remote, cs, i);
      var one := FetchCalendar(ctx, store, cs[i], now);
      if one.Failed? {
        f := one;
        assert cs[..i + 1] + cs[i + 1..] == cs;
        FailureStays(ctx, store.remote, cs[..i + 1], cs[i + 1..]);
        return;
      }
      i := i + 1;
    }
    assert cs[..i] == cs;
    f := Fetched;
  }

  /** While every listing so far passed, the next calendar decides the listing of one more. */
  lemma FetchedOneMore(ctx: WorkContext, remote: Remote, cs: seq<Calendar>, i: nat)
    requires ctx.config.Some? && i < |cs|
    requires FirstFailure(ctx, remote, cs[..i]) == Fetched
    ensures FirstFailure(ctx, remote, cs[..i + 1]) == CalendarFetch(ctx, remote, cs[i])
  {
    assert cs[..i + 1][..i] == cs[..i];
  }

  /** One calendar's listing, on the store: a failing call may move the user's last sync back. */
  method FetchCalendar(ctx: WorkContext, store: Store, c: Calendar, now: int) returns (f: Fetch)
    requires ctx.user.Some? && ctx.config.Some?
    modifies store`users
    ensures f == CalendarFetch(ctx, store.remote, c)
    ensures store.users == if f.Failed? && f.rewind then GoogleApi.Rewound(old(store.users), ctx.user.value.id, now)
                           else old(store.users)
  {
    var listed := GoogleApi.GetUpdatedEventsByCalendar(ctx, store, c, now);
    var o := GoogleErrorFilter.Filter(GoogleApi.UpdatedEventsCall(ctx, store.remote, c));
    match listed {
      case Err(e) => f := Failed(e, o.rewind);
      case Ok(None) => f := Failed(PushOfUndefined, false);
      case Ok(Some(_)) => f := Fetched;
    }
  }

  /** Once a listing failed, the later calendars are not looked at. */
  lemma {:induction false} FailureStays(ctx: WorkContext, remote: Remote, cs: seq<Calendar>, more: seq<Calendar>)
    requires ctx.config.Some?
    requires FirstFailure(ctx, remote, cs).Failed?
    ensures FirstFailure(ctx, remote, cs + more) == FirstFailure(ctx, remote, cs)
    decreases |more|
  {
    if |more| > 0 {
      var init := more[..|more| - 1];
      FailureStays(ctx, remote, cs, init);
      var all := cs + more;
      assert all[..|all| - 1] == cs + init;
      assert FirstFailure(ctx, remote, all[..|all| - 1]).Failed?;
    } else {
      assert cs + more == cs;
    }
  }

  /**
   * `getUpdatedEvents`. The inner `res` shadows the accumulator, so what is
   * returned and counted is always the empty list; a failing listing
   * leaves the report alone, and so does a swallowed one, on which `push`
   * throws.
   */
  method GetUpdatedEvents(ctx: WorkContext, store: Store, now: int) returns (r: Result<seq<GoogleEventDto>, Failure>)
    requires ctx.user.Some? && ctx.config.Some?
    modifies store`users, ctx`result
    ensures var f := old(FirstFailure(ctx, store.remote, ctx.connectedCalendars));
            (f.Failed? ==> r == Err(f.error) && ctx.result == old(ctx.result)) &&
            (f.Fetched? ==> r == Ok([]) &&
                            ctx.result == old(ctx.result).(gCalCalendarCount := |ctx.connectedCalendars|,
                                                           gCal2NotionCount := 0))
    ensures var f := old(FirstFailure(ctx, store.remote, ctx.connectedCalendars));
            store.users == if f.Failed? && f.rewind then GoogleApi.Rewound(old(store.users), ctx.user.value.id, now)
                           else old(store.users)
  {
    var f := FetchUpdated(ctx, store, now);
    if f.Failed? {
      return Err(f.error);
    }
    var res: seq<GoogleEventDto> := [];
    ctx.result := ctx.result.(gCalCalendarCount := |ctx.connectedCalendars|, gCal2NotionCount := |res|);
    r := Ok(res);
  }

  // ---- CUDEvent ----

  /** What one `CUDEvent` does: its outcome, the Google requests it sends and the links it saves. */
  datatype EventWrite = EventWrite(outcome: Outcome<Failure>, sent: seq<GoogleRequest>, saved: seq<Link>)

  /** The event `createEvent` answers for the neutral record, read back into one. */
  function Inserted(event: EventDto, remote: Remote): EventDto
    requires event.base.calendar.Some?
  {
    var g := FromEvent(event);
    var calendarId := event.base.calendar.value.googleCalendarId;
    FromGoogleCalendar(remote.insertedEvent(calendarId, GoogleApi.CreateBody(g)), g.base.calendar).ToEvent()
  }

  /**
   * `CUDEvent(page)`, given the links of the table and the answers of the
   * service. The link is looked up before the calendar guard; an event
   * without calendar or on a calendar the user can only read is left alone;
   * only a page whose link has a Google event id gets a new Google event.
   */
  function EventPlan(page: NotionEvents.NotionEventDto, links: seq<Link>, remote: Remote,
                     userId: int, linkId: int, end: int): EventWrite
  {
    match page.ToEvent()
    case Err(e) => EventWrite(Fail(e), [], [])
    case Ok(event) =>
      var link := EventLinks.FindByNotionPageId(links, userId, event.base.notionPageId);
      if event.base.calendar.None? || event.base.calendar.value.accessRole == Reader then EventWrite(Pass, [], [])
      else if link.Some? && Truthy(link.value.googleCalendarEventId) then
        var calendarId := event.base.calendar.value.googleCalendarId;
        var merged := event.Merge(Inserted(event, remote));
        EventWrite(Pass, [InsertEvent(calendarId, GoogleApi.CreateBody(FromEvent(event)))],
                   [EventLinks.LinkFor(linkId, userId, merged, end)])
      else EventWrite(Pass, [], [])
  }

  /** `CUDEvent`, on the store. */
  method CUDEvent(ctx: WorkContext, store: Store, page: NotionEvents.NotionEventDto) returns (o: Outcome<Failure>)
    requires ctx.user.Some?
    modifies store`googleRequests, store`links, store`nextLinkId
    ensures var w := EventPlan(page, old(store.links), store.remote, ctx.user.value.id, old(store.nextLinkId), ctx.periodEnd);
            o == w.outcome && store.googleRequests == old(store.googleRequests) + w.sent &&
            store.links == SaveAll(old(store.links), w.saved) && store.nextLinkId == old(store.nextLinkId) + |w.saved|
  {
    var converted := page.ToEvent();
    if converted.Err? {
      return Fail(converted.error);
    }
    var event := converted.value;
    var link := EventLinks.FindByNotionPageId(store.links, ctx.user.value.id, event.base.notionPageId);
    if event.base.calendar.None? || event.base.calendar.value.accessRole == Reader {
      return Pass;
    }
    if link.Some? && Truthy(link.value.googleCalendarEventId) {
      var created := GoogleApi.CreateEvent(store, FromEvent(event));
      var saved := EventLinks.Create(ctx, store, event.Merge(created.value.ToEvent()));
    }
    return Pass;
  }

  /** A page without calendar, or on a calendar the user can only read, sends and saves nothing. */
  lemma CUDEventSkipsReadOnly(page: NotionEvents.NotionEventDto, links: seq<Link>, remote: Remote,
                              userId: int, linkId: int, end: int)
    requires page.ToEvent().Ok?
    requires page.base.calendar.None? || page.base.calendar.value.accessRole == Reader
    ensures EventPlan(page, links, remote, userId, linkId, end) == EventWrite(Pass, [], [])
  {
  }

  /**
   * Since the converted page has no page id, the link looked up is the
   * user's first one whatever the page: a writable page gets a Google event
   * exactly when that first link has a Google event id. Only a page with a
   * date can fail, and nothing is written then.
   */
  lemma CUDEventFollowsFirstLink(page: NotionEvents.NotionEventDto, links: seq<Link>, remote: Remote,
                                 userId: int, linkId: int, end: int)
    requires page.date.Some? && page.base.calendar.Some? && page.base.calendar.value.accessRole != Reader
    ensures var w := EventPlan(page, links, remote, userId, linkId, end);
            var first := Seqs.Find(links, (l: Link) => l.userId == userId);
            w.outcome.Pass? && |w.sent| == |w.saved| &&
            (w.sent != [] <==> first.Some? && Truthy(first.value.googleCalendarEventId))
  {
    EventLinks.AbsentPageIdMatchesFirstLink(links, userId);
  }

  /**
   * A created event is sent to the page's own calendar, and its link is
   * saved with the id the service gave the new event and no page id.
   */
  lemma CUDEventLinksInsertedEvent(page: NotionEvents.NotionEventDto, links: seq<Link>, remote: Remote,
                                   userId: int, linkId: int, end: int)
    requires page.date.Some? && page.base.calendar.Some?
    ensures var w := EventPlan(page, links, remote, userId, linkId, end);
            var calendarId := page.base.calendar.value.googleCalendarId;
            var inserted := remote.insertedEvent(calendarId, GoogleApi.CreateBody(FromEvent(page.ToEvent().value)));
            (forall q :: q in w.sent ==> q.InsertEvent? && q.calendarId == calendarId) &&
            (forall l :: l in w.saved ==>
               l.id == linkId && l.userId == userId && l.notionPageId == None &&
               l.googleCalendarEventId == OrString(inserted.id, page.ToEvent().value.base.googleCalendarEventId) &&
               l.googleCalendarCalendarId == Some(calendarId) &&
               l.lastNotionUpdate == Some(end) && l.lastGoogleCalendarUpdate == Some(end))
  {
    var event := page.ToEvent().value;
    var w := EventPlan(page, links, remote, userId, linkId, end);
    if w.saved != [] {
      MergeDropsLinkFields(event, Inserted(event, remote));
    }
  }
}
