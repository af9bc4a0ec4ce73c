// The event-link table, seen through the current user: the lookups, and the
// writes that create a link, move it to another calendar, refresh one of its
// two timestamps, or delete it.
module EventLinks {
  import opened Wrappers
  import opened Entities
  import opened Errors
  import opened Events
  import opened Tables
  import opened Stores
  import opened Context
  import Seqs

  /**
   * `where: {notionPageId, userId}`. TypeORM drops a condition whose value
   * is `undefined`, so an absent page id matches every link of the user.
   */
  predicate PageMatch(l: Link, userId: int, pageId: Option<string>)
  {
    l.userId == userId && (pageId.None? || l.notionPageId == pageId)
  }

  /** `findByNotionPageId`: the first link of the user with that page id. */
  function FindByNotionPageId(links: seq<Link>, userId: int, pageId: Option<string>): (r: Option<Link>)
    ensures r.Some? ==> r.value in links && r.value.userId == userId
    ensures r.Some? && pageId.Some? ==> r.value.notionPageId == pageId
    ensures r.None? <==> forall l :: l in links ==> !PageMatch(l, userId, pageId)
  {
    Seqs.Find(links, (l: Link) => PageMatch(l, userId, pageId))
  }

  predicate EventMatch(l: Link, userId: int, eventId: Option<string>, calendarId: Option<string>)
  {
    l.userId == userId && (eventId.None? || l.googleCalendarEventId == eventId)
    && (calendarId.None? || l.googleCalendarCalendarId == calendarId)
  }

  /** `findByGCalEvent`: the first link of the user with that event and calendar id. */
  function FindByGCalEvent(links: seq<Link>, userId: int, eventId: Option<string>, calendarId: Option<string>): (r: Option<Link>)
    ensures r.Some? ==> r.value in links && r.value.userId == userId
    ensures r.Some? && eventId.Some? ==> r.value.googleCalendarEventId == eventId
    ensures r.Some? && calendarId.Some? ==> r.value.googleCalendarCalendarId == calendarId
    ensures r.None? <==> forall l :: l in links ==> !EventMatch(l, userId, eventId, calendarId)
  {
    Seqs.Find(links, (l: Link) => EventMatch(l, userId, eventId, calendarId))
  }

  /** `findDeletedEventLinks`: exactly the user's links marked for removal, in table order. */
  function FindDeletedEventLinks(links: seq<Link>, userId: int): (r: seq<Link>)
    ensures forall l :: l in r <==> l in links && l.userId == userId && l.willRemove
  {
    Seqs.Filter(links, (l: Link) => l.userId == userId && l.willRemove)
  }

  /** A lookup keyed by an absent page id returns the user's first link, whatever its page. */
  lemma AbsentPageIdMatchesFirstLink(links: seq<Link>, userId: int)
    ensures FindByNotionPageId(links, userId, None) == Seqs.Find(links, (l: Link) => l.userId == userId)
  {
    assert forall l :: PageMatch(l, userId, None) == (l.userId == userId);
  }

  /** The link row `updateCalendar` saves. */
  function WithCalendar(l: Link, c: Calendar): Link
  {
    l.(calendar := Some(c), googleCalendarCalendarId := Some(c.googleCalendarId))
  }

  /**
   * After `updateCalendar` an event on that calendar whose link is the saved
   * row no longer reports a different calendar.
   */
  lemma UpdatedCalendarAgrees(e: EventDto, l: Link, c: Calendar)
    requires e.base.calendar == Some(c)
    ensures e.(base := e.base.(eventLink := Some(WithCalendar(l, c)))).IsDifferentCalendarId() == Ok(false)
  {
  }

  /** `deleteEventLink`: only rows with that id that belong to the current user are removed. */
  method DeleteEventLink(ctx: WorkContext, store: Store, link: Link)
    requires ctx.user.Some?
    modifies store`links
    ensures store.links == DeleteLinks(old(store.links), link.id, ctx.user.value.id)
  {
    store.links := DeleteLinks(store.links, link.id, ctx.user.value.id);
  }

  /** `updateCalendar`: calendar and calendar id change together. */
  method UpdateCalendar(store: Store, link: Link, calendar: Calendar) returns (saved: Link)
    modifies store`links
    ensures saved == WithCalendar(link, calendar)
    ensures store.links == SaveLink(old(store.links), saved)
  {
    saved := WithCalendar(link, calendar);
    store.links := SaveLink(store.links, saved);
  }

  /** `updateLastNotionUpdate`: only the Notion timestamp changes, to the end of the window. */
  method UpdateLastNotionUpdate(ctx: WorkContext, store: Store, link: Link) returns (saved: Link)
    modifies store`links
    ensures saved == link.(lastNotionUpdate := Some(ctx.periodEnd))
    ensures store.links == SaveLink(old(store.links), saved)
  {
    saved := link.(lastNotionUpdate := Some(ctx.periodEnd));
    store.links := SaveLink(store.links, saved);
  }

  /** `updateLastGCalUpdate`: only the Google timestamp changes, to the end of the window. */
  method UpdateLastGCalUpdate(ctx: WorkContext, store: Store, link: Link) returns (saved: Link)
    modifies store`links
    ensures saved == link.(lastGoogleCalendarUpdate := Some(ctx.periodEnd))
    ensures store.links == SaveLink(old(store.links), saved)
  {
    saved := link.(lastGoogleCalendarUpdate := Some(ctx.periodEnd));
    store.links := SaveLink(store.links, saved);
  }

  /** The row `create` saves for an event that has a calendar. */
  function LinkFor(id: int, userId: int, e: EventDto, end: int): Link
    requires e.base.calendar.Some?
  {
    Link(id, userId, e.base.googleCalendarEventId, Some(e.base.calendar.value.googleCalendarId), e.base.notionPageId,
         Some(end), Some(end), Synced, false, e.base.calendar)
  }

  /**
   * `create(event)`: a synced link stamped with the end of the window on both
   * sides; reading the calendar id of an event without calendar throws.
   */
  method Create(ctx: WorkContext, store: Store, event: EventDto) returns (r: Result<Link, Failure>)
    requires ctx.user.Some?
    modifies store`links, store`nextLinkId
    ensures event.base.calendar.None? ==>
              r == Err(TypeError("Cannot read properties of undefined (reading 'googleCalendarId')"))
              && store.links == old(store.links) && store.nextLinkId == old(store.nextLinkId)
    ensures event.base.calendar.Some? ==>
              r == Ok(Link(old(store.nextLinkId), ctx.user.value.id, event.base.googleCalendarEventId,
                           Some(event.base.calendar.value.googleCalendarId), event.base.notionPageId,
                           Some(ctx.periodEnd), Some(ctx.periodEnd), Synced, false, event.base.calendar))
              && store.links == SaveLink(old(store.links), r.value)
              && store.nextLinkId == old(store.nextLinkId) + 1
  {
    if event.base.calendar.None? {
      return Err(TypeError("Cannot read properties of undefined (reading 'googleCalendarId')"));
    }
    var link := Link(store.nextLinkId, ctx.user.value.id, event.base.googleCalendarEventId,
                     Some(event.base.calendar.value.googleCalendarId), event.base.notionPageId,
                     Some(ctx.periodEnd), Some(ctx.periodEnd), Synced, false, event.base.calendar);
    store.links := SaveLink(store.links, link);
    store.nextLinkId := store.nextLinkId + 1;
    return Ok(link);
  }
}
