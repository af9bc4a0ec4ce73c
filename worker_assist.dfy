// The worker assist: erasing what was deleted on either side, the user-row
// writes that open and close a run, the clean-up of old error logs, and
// the connection of a new calendar.
module WorkerAssist {
  import opened Wrappers
  import opened Entities
  import opened Errors
  import opened Requests
  import opened Tables
  import opened Stores
  import opened Context
  import opened Environment
  import opened Clock
  import opened Text
  import opened Events
  import NotionEvents
  import GoogleEvents
  import NotionApi
  import GoogleApi
  import NotionAssist
  import GoogleAssist
  import EventLinks
  import Seqs

  // ---- erasing ----

  /** The part of the store an erasure touches, with the outcome so far. */
  datatype Erasure = Erasure(outcome: Outcome<Failure>, links: seq<Link>, notion: seq<NotionRequest>, google: seq<GoogleRequest>)

  /** Reading the access role of a link whose calendar relation is null. */
  const AccessRoleOfNull: Failure := TypeError("Cannot read properties of null (reading 'accessRole')")

  /** The Google deletion `eraseEvent` sends for a link. */
  function DeleteOf(l: Link): GoogleRequest
  {
    GoogleRequest.DeleteEvent(l.googleCalendarEventId, l.googleCalendarCalendarId)
  }

  /** A link whose calendar the user can write to. */
  predicate Writable(l: Link)
  {
    l.calendar.Some? && l.calendar.value.accessRole != Reader
  }

  /**
   * `eraseEvent(link)`: the page is archived; the Google event is deleted
   * unless the calendar is read-only; then the link row goes. The first
   * failure ends it.
   */
  function EraseEventPlan(s: Erasure, link: Link, userId: int, remote: Remote): Erasure
  {
    var notion := s.notion + [ArchivePage(link.notionPageId)];
    var archived := NotionApi.DeletePageOutcome(remote.archiveResult(link.notionPageId));
    if archived.Fail? then Erasure(archived, s.links, notion, s.google)
    else if link.calendar.None? then Erasure(Fail(AccessRoleOfNull), s.links, notion, s.google)
    else if link.calendar.value.accessRole != Reader then
      var google := s.google + [DeleteOf(link)];
      var deleted := GoogleApi.DeleteOutcome(remote.deleteResult(link.googleCalendarEventId, link.googleCalendarCalendarId));
      if deleted.Fail? then Erasure(deleted, s.links, notion, google)
      else Erasure(Pass, DeleteLinks(s.links, link.id, userId), notion, google)
    else Erasure(Pass, DeleteLinks(s.links, link.id, userId), notion, s.google)
  }

  /**
   * `eraseNotionPage(pageId)`: the user's link for the page is erased with
   * its event; a page without a link is only archived.
   */
  function ErasePagePlan(s: Erasure, pageId: Option<string>, userId: int, remote: Remote): Erasure
  {
    match EventLinks.FindByNotionPageId(s.links, userId, pageId)
    case Some(link) => EraseEventPlan(s, link, userId, remote)
    case None =>
      Erasure(NotionApi.DeletePageOutcome(remote.archiveResult(pageId)), s.links, s.notion + [ArchivePage(pageId)], s.google)
  }

  /** Steps applied in order, stopping at the first that fails. */
  function Fold<X>(s: Erasure, xs: seq<X>, step: (Erasure, X) -> Erasure): Erasure
    decreases |xs|
  {
    if |xs| == 0 then s
    else
      var before := Fold(s, xs[..|xs| - 1], step);
      if before.outcome.Fail? then before else step(before, xs[|xs| - 1])
  }

  /** Past a prefix that went through, one more item is one more step. */
  lemma FoldSnoc<X>(s: Erasure, xs: seq<X>, i: int, step: (Erasure, X) -> Erasure)
    requires 0 <= i < |xs| && Fold(s, xs[..i], step).outcome.Pass?
    ensures Fold(s, xs[..i + 1], step) == step(Fold(s, xs[..i], step), xs[i])
  {
    assert xs[..i + 1][..i] == xs[..i];
  }

  /** A fold that failed at item `i` ends as it stood then. */
  lemma FoldStopsAt<X>(s: Erasure, xs: seq<X>, i: int, step: (Erasure, X) -> Erasure)
    requires 0 <= i < |xs| && Fold(s, xs[..i + 1], step).outcome.Fail?
    ensures Fold(s, xs, step) == Fold(s, xs[..i + 1], step)
  {
    var done, rest := xs[..i + 1], xs[i + 1..];
    FoldFailureStays(s, done, rest, step);
    assert done + rest == xs;
  }

  /** Once a step failed, the later ones are not taken. */
  lemma {:induction false} FoldFailureStays<X>(s: Erasure, xs: seq<X>, more: seq<X>, step: (Erasure, X) -> Erasure)
    requires Fold(s, xs, step).outcome.Fail?
    ensures Fold(s, xs + more, step) == Fold(s, xs, step)
    decreases |more|
  {
    if |more| > 0 {
      FoldFailureStays(s, xs, more[..|more| - 1], step);
      var all := xs + more;
      assert all[..|all| - 1] == xs + more[..|more| - 1];
    } else {
      assert xs + more == xs;
    }
  }

  function LinkStep(userId: int, remote: Remote): (Erasure, Link) -> Erasure
  {
    (e: Erasure, l: Link) => EraseEventPlan(e, l, userId, remote)
  }

  function PageStep(userId: int, remote: Remote): (Erasure, Option<string>) -> Erasure
  {
    (e: Erasure, p: Option<string>) => ErasePagePlan(e, p, userId, remote)
  }

  /** The loop of `eraseDeletedEventLink`. */
  function EraseLinks(s: Erasure, links: seq<Link>, userId: int, remote: Remote): Erasure
  {
    Fold(s, links, LinkStep(userId, remote))
  }

  /** The loop of `eraseDeletedNotionPage`. */
  function ErasePages(s: Erasure, pageIds: seq<Option<string>>, userId: int, remote: Remote): Erasure
  {
    Fold(s, pageIds, PageStep(userId, remote))
  }

  /**
   * One erasure archives the link's page first, deletes at most the link's
   * own Google event and only on a writable calendar, and only removes
   * rows; on success the link's row is gone.
   */
  lemma EraseEventShape(s: Erasure, link: Link, userId: int, remote: Remote)
    ensures var r := EraseEventPlan(s, link, userId, remote);
            r.notion == s.notion + [ArchivePage(link.notionPageId)] &&
            (r.google == s.google || (Writable(link) && r.google == s.google + [DeleteOf(link)])) &&
            (forall x :: x in r.links ==> x in s.links) &&
            (r.outcome.Pass? ==> forall x :: x in r.links ==> !(x.id == link.id && x.userId == userId)) &&
            (r.outcome.Pass? && Writable(link) ==> r.google == s.google + [DeleteOf(link)])
  {
  }

  /** A Google request that deletes the event of a writable link from `pool`. */
  predicate DeletionFrom(q: GoogleRequest, pool: seq<Link>)
  {
    exists l :: l in pool && Writable(l) && q == DeleteOf(l)
  }

  /** What a fold of erasures keeps: the Google requests only grow by deletions of writable links from `pool`, and rows only go. */
  predicate ErasesWithin(s: Erasure, r: Erasure, pool: seq<Link>)
  {
    |s.google| <= |r.google| && r.google[..|s.google|] == s.google &&
    (forall k :: |s.google| <= k < |r.google| ==> DeletionFrom(r.google[k], pool)) &&
    (forall x :: x in r.links ==> x in s.links)
  }

  /** One more erasure step keeps a fold within a pool that contains the step's link. */
  lemma ExtendWithin(s: Erasure, before: Erasure, r: Erasure, pool: seq<Link>, pool2: seq<Link>, link: Link)
    requires ErasesWithin(s, before, pool)
    requires forall l :: l in pool ==> l in pool2
    requires r.google == before.google || (Writable(link) && link in pool2 && r.google == before.google + [DeleteOf(link)])
    requires forall x :: x in r.links ==> x in before.links
    ensures ErasesWithin(s, r, pool2)
  {
    assert r.google[..|before.google|] == before.google;
    forall k | |s.google| <= k < |r.google|
      ensures DeletionFrom(r.google[k], pool2)
    {
      if k < |before.google| {
        assert DeletionFrom(before.google[k], pool);
        var l :| l in pool && Writable(l) && before.google[k] == DeleteOf(l);
        assert r.google[k] == before.google[k];
      } else {
        assert r.google[k] == DeleteOf(link);
      }
    }
  }

  /**
   * `eraseDeletedEventLink` never asks Google to delete an event of a
   * read-only calendar: every deletion it sends is of one of the links it
   * erases, on a writable calendar.
   */
  lemma {:induction false} EraseLinksDeletesOnlyWritable(s: Erasure, links: seq<Link>, userId: int, remote: Remote)
    ensures ErasesWithin(s, EraseLinks(s, links, userId, remote), links)
    decreases |links|
  {
    if |links| > 0 {
      var init := links[..|links| - 1];
      var last := links[|links| - 1];
      EraseLinksDeletesOnlyWritable(s, init, userId, remote);
      var before := EraseLinks(s, init, userId, remote);
      if before.outcome.Pass? {
        EraseEventShape(before, last, userId, remote);
        ExtendWithin(s, before, EraseEventPlan(before, last, userId, remote), init, links, last);
      } else {
        ExtendWithin(s, before, before, init, links, last);
      }
    } else {
      assert EraseLinks(s, links, userId, remote) == s;
    }
  }

  /**
   * Neither does `eraseDeletedNotionPage`: every deletion it sends is of a
   * link of the user that was in the table when it started, on a writable
   * calendar.
   */
  lemma {:induction false} ErasePagesDeletesOnlyWritable(s: Erasure, pageIds: seq<Option<string>>, userId: int, remote: Remote)
    ensures ErasesWithin(s, ErasePages(s, pageIds, userId, remote), s.links)
    decreases |pageIds|
  {
    if |pageIds| > 0 {
      var init := pageIds[..|pageIds| - 1];
      ErasePagesDeletesOnlyWritable(s, init, userId, remote);
      var before := ErasePages(s, init, userId, remote);
      if before.outcome.Pass? {
        var pageId := pageIds[|pageIds| - 1];
        var r := ErasePagePlan(before, pageId, userId, remote);
        match EventLinks.FindByNotionPageId(before.links, userId, pageId) {
          case Some(link) =>
            EraseEventShape(before, link, userId, remote);
            ExtendWithin(s, before, r, s.links, s.links, link);
          case None =>
            ExtendWithin(s, before, r, s.links, s.links, Link(0, 0, None, None, None, None, None, Synced, false, None));
        }
      }
    } else {
      assert ErasePages(s, pageIds, userId, remote) == s;
    }
  }

  /**
   * The deleted pages come without page id, so erasing one of them erases
   * the user's first link, whichever page that link is for; with no link
   * left the page "undefined" is archived.
   */
  lemma PageWithoutIdErasesFirstLink(s: Erasure, userId: int, remote: Remote)
    ensures var first := Seqs.Find(s.links, (l: Link) => l.userId == userId);
            ErasePagePlan(s, None, userId, remote) ==
              if first.Some? then EraseEventPlan(s, first.value, userId, remote)
              else Erasure(NotionApi.DeletePageOutcome(remote.archiveResult(None)), s.links, s.notion + [ArchivePage(None)], s.google)
  {
    EventLinks.AbsentPageIdMatchesFirstLink(s.links, userId);
  }

  /** The store's part that erasures touch, with an outcome. */
  function Snapshot(o: Outcome<Failure>, links: seq<Link>, notion: seq<NotionRequest>, google: seq<GoogleRequest>): Erasure
  {
    Erasure(o, links, notion, google)
  }

  /** `eraseEvent`, on the store. */
  method EraseEvent(ctx: WorkContext, store: Store, link: Link) returns (o: Outcome<Failure>)
    requires ctx.user.Some?
    modifies store`links, store`notionRequests, store`googleRequests
    ensures Snapshot(o, store.links, store.notionRequests, store.googleRequests) ==
            EraseEventPlan(Snapshot(Pass, old(store.links), old(store.notionRequests), old(store.googleRequests)),
                           link, ctx.user.value.id, store.remote)
  {
    o := NotionApi.DeletePage(store, link.notionPageId);
    if o.Fail? {
      return;
    }
    if link.calendar.None? {
      return Fail(AccessRoleOfNull);
    }
    if link.calendar.value.accessRole != Reader {
      o := GoogleAssist.DeleteEvent(store, link.googleCalendarEventId, link.googleCalendarCalendarId);
      if o.Fail? {
        return;
      }
    }
    EventLinks.DeleteEventLink(ctx, store, link);
    o := Pass;
  }

  /** `eraseNotionPage`, on the store. */
  method EraseNotionPage(ctx: WorkContext, store: Store, pageId: Option<string>) returns (o: Outcome<Failure>)
    requires ctx.user.Some?
    modifies store`links, store`notionRequests, store`googleRequests
    ensures Snapshot(o, store.links, store.notionRequests, store.googleRequests) ==
            ErasePagePlan(Snapshot(Pass, old(store.links), old(store.notionRequests), old(store.googleRequests)),
                          pageId, ctx.user.value.id, store.remote)
  {
    var link := EventLinks.FindByNotionPageId(store.links, ctx.user.value.id, pageId);
    if link.Some? {
      o := EraseEvent(ctx, store, link.value);
    } else {
      o := NotionApi.DeletePage(store, pageId);
    }
  }

  /** The page ids of `pages`, in order. */
  function PageIds(pages: seq<NotionEvents.NotionEventDto>): (r: seq<Option<string>>)
    ensures |r| == |pages|
    ensures forall k :: 0 <= k < |pages| ==> r[k] == pages[k].base.notionPageId
  {
    seq(|pages|, (k: int) requires 0 <= k < |pages| => pages[k].base.notionPageId)
  }

  /** The deleted pages carry no page id, so every erasure looks up the user's first link. */
  lemma DeletedPagesHaveNoId(ctx: WorkContext, remote: Remote)
    requires ctx.user.Some? && ctx.config.Some?
    ensures var q := NotionApi.GetDeletedPages(ctx, remote);
            q.Ok? ==> forall k :: 0 <= k < |q.value| ==> PageIds(q.value)[k] == None
  {
  }

  /** One more page of the loop of `eraseDeletedNotionPage` erased, after the first `i` went through. */
  method EraseNextPage(ctx: WorkContext, store: Store, ids: seq<Option<string>>, i: int, ghost s0: Erasure) returns (o: Outcome<Failure>)
    requires ctx.user.Some? && 0 <= i < |ids|
    requires Fold(s0, ids[..i], PageStep(ctx.user.value.id, store.remote)) ==
             Snapshot(Pass, store.links, store.notionRequests, store.googleRequests)
    modifies store`links, store`notionRequests, store`googleRequests
    ensures Fold(s0, ids[..i + 1], PageStep(ctx.user.value.id, store.remote)) ==
            Snapshot(o, store.links, store.notionRequests, store.googleRequests)
  {
    ghost var step := PageStep(ctx.user.value.id, store.remote);
    ghost var before := Snapshot(Pass, store.links, store.notionRequests, store.googleRequests);
    FoldSnoc(s0, ids, i, step);
    assert step(before, ids[i]) == ErasePagePlan(before, ids[i], ctx.user.value.id, store.remote);
    o := EraseNotionPage(ctx, store, ids[i]);
  }

  /** The loop of `eraseDeletedNotionPage`: the pages erased in order, up to the first failure. */
  method ErasePageIds(ctx: WorkContext, store: Store, ids: seq<Option<string>>) returns (o: Outcome<Failure>)
    requires ctx.user.Some?
    modifies store`links, store`notionRequests, store`googleRequests
    ensures Snapshot(o, store.links, store.notionRequests, store.googleRequests) ==
            ErasePages(Snapshot(Pass, old(store.links), old(store.notionRequests), old(store.googleRequests)),
                       ids, ctx.user.value.id, store.remote)
  {
    var userId := ctx.user.value.id;
    ghost var s0 := Snapshot(Pass, store.links, store.notionRequests, store.googleRequests);
    ghost var step := PageStep(userId, store.remote);
    o := Pass;
    var i := 0;
    while i < |ids|
      invariant 0 <= i <= |ids|
      invariant o == Pass
      invariant Fold(s0, ids[..i], step) == Snapshot(Pass, store.links, store.notionRequests, store.googleRequests)
    {
      o := EraseNextPage(ctx, store, ids, i, s0);
      if o.Fail? {
        FoldStopsAt(s0, ids, i, step);
        return;
      }
      i := i + 1;
    }
    assert ids[..i] == ids;
  }

  /**
   * `eraseDeletedNotionPage`: the pages deleted in Notion erased one after
   * the other; the count is reported only when all of them went through.
   */
  method EraseDeletedNotionPage(ctx: WorkContext, store: Store) returns (o: Outcome<Failure>)
    requires ctx.user.Some? && ctx.config.Some?
    modifies ctx`result, store`links, store`notionRequests, store`googleRequests
    ensures var q := old(NotionApi.GetDeletedPages(ctx, store.remote));
            (q.Err? ==> o == Fail(q.error) && ctx.result == old(ctx.result) && store.links == old(store.links) &&
                        store.notionRequests == old(store.notionRequests) && store.googleRequests == old(store.googleRequests)) &&
            (q.Ok? ==>
               Snapshot(o, store.links, store.notionRequests, store.googleRequests) ==
                 ErasePages(Snapshot(Pass, old(store.links), old(store.notionRequests), old(store.googleRequests)),
                            PageIds(q.value), ctx.user.value.id, store.remote) &&
               ctx.result == if o.Pass? then old(ctx.result).(eraseNotion := |q.value|) else old(ctx.result))
  {
    var q := NotionApi.GetDeletedPages(ctx, store.remote);
    if q.Err? {
      return Fail(q.error);
    }
    o := ErasePageIds(ctx, store, PageIds(q.value));
    if o.Pass? {
      ctx.result := ctx.result.(eraseNotion := |q.value|);
    }
  }

  /** One more link of the loop of `eraseDeletedEventLink` erased, after the first `i` went through. */
  method EraseNextLink(ctx: WorkContext, store: Store, marked: seq<Link>, i: int, ghost s0: Erasure) returns (o: Outcome<Failure>)
    requires ctx.user.Some? && 0 <= i < |marked|
    requires Fold(s0, marked[..i], LinkStep(ctx.user.value.id, store.remote)) ==
             Snapshot(Pass, store.links, store.notionRequests, store.googleRequests)
    modifies store`links, store`notionRequests, store`googleRequests
    ensures Fold(s0, marked[..i + 1], LinkStep(ctx.user.value.id, store.remote)) ==
            Snapshot(o, store.links, store.notionRequests, store.googleRequests)
  {
    ghost var step := LinkStep(ctx.user.value.id, store.remote);
    ghost var before := Snapshot(Pass, store.links, store.notionRequests, store.googleRequests);
    FoldSnoc(s0, marked, i, step);
    assert step(before, marked[i]) == EraseEventPlan(before, marked[i], ctx.user.value.id, store.remote);
    o := EraseEvent(ctx, store, marked[i]);
  }

  /** The loop of `eraseDeletedEventLink`: the links erased in order, up to the first failure. */
  method EraseLinkList(ctx: WorkContext, store: Store, marked: seq<Link>) returns (o: Outcome<Failure>)
    requires ctx.user.Some?
    modifies store`links, store`notionRequests, store`googleRequests
    ensures Snapshot(o, store.links, store.notionRequests, store.googleRequests) ==
            EraseLinks(Snapshot(Pass, old(store.links), old(store.notionRequests), old(store.googleRequests)),
                       marked, ctx.user.value.id, store.remote)
  {
    var userId := ctx.user.value.id;
    ghost var s0 := Snapshot(Pass, store.links, store.notionRequests, store.googleRequests);
    ghost var step := LinkStep(userId, store.remote);
    o := Pass;
    var i := 0;
    while i < |marked|
      invariant 0 <= i <= |marked|
      invariant o == Pass
      invariant Fold(s0, marked[..i], step) == Snapshot(Pass, store.links, store.notionRequests, store.googleRequests)
    {
      o := EraseNextLink(ctx, store, marked, i, s0);
      if o.Fail? {
        FoldStopsAt(s0, marked, i, step);
        return;
      }
      i := i + 1;
    }
    assert marked[..i] == marked;
  }

  /**
   * `eraseDeletedEventLink`: the user's links marked for removal, as found
   * at the start, erased one after the other; the count is reported only
   * when all of them went through.
   */
  method EraseDeletedEventLink(ctx: WorkContext, store: Store) returns (o: Outcome<Failure>)
    requires ctx.user.Some?
    modifies ctx`result, store`links, store`notionRequests, store`googleRequests
    ensures var marked := EventLinks.FindDeletedEventLinks(old(store.links), ctx.user.value.id);
            Snapshot(o, store.links, store.notionRequests, store.googleRequests) ==
              EraseLinks(Snapshot(Pass, old(store.links), old(store.notionRequests), old(store.googleRequests)),
                         marked, ctx.user.value.id, store.remote) &&
            ctx.result == if o.Pass? then old(ctx.result).(eraseEventLink := |marked|) else old(ctx.result)
  {
    var marked := EventLinks.FindDeletedEventLinks(store.links, ctx.user.value.id);
    o := EraseLinkList(ctx, store, marked);
    if o.Pass? {
      ctx.result := ctx.result.(eraseEventLink := |marked|);
    }
  }

  // ---- addEventByGCal ----

  /** The TypeError of `addEventByGCal`, which calls a method the Notion assist does not have. */
  const MissingAddPage: Failure := TypeError("this.notionAssist.addPage is not a function")

  /** `addEventByGCal`: it throws before anything is written, on every event. */
  method AddEventByGCal(event: GoogleEvents.GoogleEventDto) returns (o: Outcome<Failure>)
    ensures o == Fail(MissingAddPage)
  {
    o := Fail(MissingAddPage);
  }

  // ---- the user row ----

  /** The row `startSyncUserUpdate` writes: the run's start, the lock, and the bot that holds it. */
  function Started(at: int, env: Env): User -> User
  {
    (u: User) => u.(workStartedAt := Some(at), isWork := true, syncbotId := Some(env.syncbotPrefix),
                    syncbotVersion := Some(env.syncbotVersion))
  }

  /** The row `endSyncUserUpdate` writes: the lock released and the last sync moved to the end of the window. */
  function Ended(end: int): User -> User
  {
    (u: User) => u.(lastSyncStatus := "", isWork := false, syncbotId := None, lastCalendarSync := Some(end))
  }

  method StartSyncUserUpdate(ctx: WorkContext, store: Store, env: Env)
    requires ctx.user.Some?
    modifies store`users
    ensures store.users == UpdateRow(old(store.users), ctx.user.value.id, Started(ctx.startedAt, env))
  {
    store.users := UpdateRow(store.users, ctx.user.value.id, Started(ctx.startedAt, env));
  }

  method EndSyncUserUpdate(ctx: WorkContext, store: Store)
    requires ctx.user.Some?
    modifies store`users
    ensures store.users == UpdateRow(old(store.users), ctx.user.value.id, Ended(ctx.periodEnd))
  {
    store.users := UpdateRow(store.users, ctx.user.value.id, Ended(ctx.periodEnd));
  }

  /**
   * A run that starts and ends releases the lock it took and keeps the
   * record of who ran it and when; the next window starts where this one
   * ended. No other row changes.
   */
  lemma StartThenEnd(users: map<int, User>, id: int, at: int, env: Env, end: int)
    requires id in users
    ensures var after := UpdateRow(UpdateRow(users, id, Started(at, env)), id, Ended(end));
            after.Keys == users.Keys &&
            (forall k :: k in users && k != id ==> after[k] == users[k]) &&
            !after[id].isWork && after[id].syncbotId.None? && after[id].lastSyncStatus == "" &&
            after[id].workStartedAt == Some(at) && after[id].syncbotVersion == Some(env.syncbotVersion) &&
            after[id].lastCalendarSync == Some(end) &&
            after[id] == users[id].(workStartedAt := Some(at), syncbotVersion := Some(env.syncbotVersion),
                                    isWork := false, syncbotId := None, lastSyncStatus := "", lastCalendarSync := Some(end))
    ensures UpdateRow(users, id, Started(at, env))[id].isWork
  {
  }

  /**
   * The rewind of the Google error filter is lost if the run reaches its
   * end: it only lasts because the error it comes with aborts the run.
   */
  lemma EndOverridesRewind(users: map<int, User>, id: int, now: int, end: int)
    ensures UpdateRow(GoogleApi.Rewound(users, id, now), id, Ended(end)) == UpdateRow(users, id, Ended(end))
  {
  }

  // ---- error logs ----

  /** A log `deleteOldErrorLogs` removes: the user's, unarchived, and older than 21 days. */
  predicate Expired(l: ErrorLog, userId: int, now: int)
  {
    l.userId == userId && l.createdAt < DaysBefore(now, 21) && !l.archive
  }

  /** `deleteOldErrorLogs` at time `now`: exactly the expired logs go, the others stay in order. */
  method DeleteOldErrorLogs(ctx: WorkContext, store: Store, now: int)
    requires ctx.user.Some?
    modifies store`errorLogs
    ensures forall l :: l in store.errorLogs <==> l in old(store.errorLogs) && !Expired(l, ctx.user.value.id, now)
    ensures var userId := ctx.user.value.id;
            store.errorLogs == Seqs.Filter(old(store.errorLogs), (l: ErrorLog) => !Expired(l, userId, now))
  {
    var userId := ctx.user.value.id;
    store.errorLogs := Seqs.Filter(store.errorLogs, (l: ErrorLog) => !Expired(l, userId, now));
  }

  // ---- syncNewCalendar ----

  /** Reading the id of the calendar row `findOne` did not find. */
  const IdOfNull: Failure := TypeError("Cannot read properties of null (reading 'id')")

  /** The report entry of a calendar being connected. */
  function EntryFor(c: Calendar, count: int): NewCalendarEntry
  {
    NewCalendarEntry(c.id, c.googleCalendarId, c.googleCalendarName, count)
  }

  function Connect(c: Calendar): Calendar
  {
    c.(status := Connected)
  }

  /**
   * How `syncNewCalendar` ends, given the new option id, the listing of the
   * calendar and whether its row is still there: the first failure in that
   * order, and every event of the calendar trips over the missing `addPage`.
   */
  function NewCalendarOutcome(option: Result<string, Failure>, listed: Result<seq<EventDto>, Failure>, found: bool): Outcome<Failure>
  {
    if option.Err? then Fail(option.error)
    else if listed.Err? then Fail(listed.error)
    else if |listed.value| > 0 then Fail(MissingAddPage)
    else if !found then Fail(IdOfNull)
    else Pass
  }

  /**
   * A new calendar is only connected without error when it has no event in
   * the sync range; one with events always fails, on its first event.
   */
  lemma NewCalendarNeedsNoEvents(option: Result<string, Failure>, raw: Result<seq<GoogleEvent>, Failure>,
                                 calendar: Calendar, found: bool)
    ensures var listed := GoogleAssist.EventListing(raw, calendar);
            (NewCalendarOutcome(option, listed, found).Pass? <==> option.Ok? && raw.Ok? && |raw.value| == 0 && found)
    ensures option.Ok? && raw.Ok? && |raw.value| > 0 ==>
              NewCalendarOutcome(option, GoogleAssist.EventListing(raw, calendar), found) == Fail(MissingAddPage)
  {
    if raw.Ok? {
      GoogleAssist.EventListingRecords(raw, calendar);
    }
  }

  /**
   * `syncNewCalendar(c)` at time `now`: the report entry is written with no
   * events, the row is marked connected, the calendar's option is added to
   * the Notion property, and the calendar's events are listed; the first
   * event the listing returns throws. The row stays connected whatever
   * follows.
   */
  method SyncNewCalendar(ctx: WorkContext, store: Store, c: Calendar, now: int) returns (o: Outcome<Failure>)
    requires ctx.user.Some? && ctx.config.Some?
    modifies ctx`result, store`calendars, store`notionRequests, store`database, store`users
    ensures ctx.result == old(ctx.result).(syncNewCalendar := Seqs.Put(old(ctx.result.syncNewCalendar), IntToString(c.id), EntryFor(c, 0)))
    ensures var key := NotionApi.Key(ctx.user.value.notionProps, "calendar");
            var sent := NotionAssist.SentOptions(ctx.calendars, c);
            store.notionRequests == old(store.notionRequests) + [NotionRequest.UpdateCalendarOptions(key, sent)] &&
            store.database == NotionApi.WithOptions(old(store.database), key, NotionApi.AssignOptionIds(sent, store.remote.newOptionId))
    ensures var option := NotionAssist.NewOptionId(store.database, Seqs.Get(ctx.user.value.notionProps, "calendar"), ctx.calendars);
            var raw := store.remote.listEvents(CalendarEventsQuery(c.googleCalendarId, ctx.config.value.timeMin, ctx.config.value.timeMax));
            var connected := UpdateRow(old(store.calendars), c.id, Connect);
            o == NewCalendarOutcome(option, GoogleAssist.EventListing(raw, c), c.id in old(store.calendars)) &&
            store.calendars == (if option.Ok? then UpdateRow(connected, c.id, NotionAssist.WithOptionId(option.value)) else connected) &&
            store.users == if option.Ok? && raw.Err? && GoogleApi.RewindsOn(raw.error)
                           then GoogleApi.Rewound(old(store.users), ctx.user.value.id, now) else old(store.users)
  {
    var key := IntToString(c.id);
    ctx.result := ctx.result.(syncNewCalendar := Seqs.Put(ctx.result.syncNewCalendar, key, EntryFor(c, 0)));
    store.calendars := UpdateRow(store.calendars, c.id, Connect);
    o := NotionAssist.AddCalendarProp(ctx, store, c);
    if o.Fail? {
      return;
    }
    var listed := GoogleAssist.GetEventByCalendar(ctx, store, c, now);
    if listed.Err? {
      return Fail(listed.error);
    }
    var events := listed.value;
    var found := c.id in store.calendars;
    // The loop over the events throws on its first one.
    if |events| > 0 {
      o := AddEventByGCal(GoogleEvents.FromEvent(events[0]));
      return;
    }
    if !found {
      return Fail(IdOfNull);
    }
    // The row was found by the calendar's id, so the entry read back is the one written above.
    Seqs.PutGet(old(ctx.result.syncNewCalendar), key, EntryFor(c, 0), key);
    var entry := Seqs.Get(ctx.result.syncNewCalendar, key).value;
    Seqs.PutTwice(old(ctx.result.syncNewCalendar), key, EntryFor(c, 0), entry.(eventCount := |events|));
    ctx.result := ctx.result.(syncNewCalendar := Seqs.Put(ctx.result.syncNewCalendar, key, entry.(eventCount := |events|)));
    o := Pass;
  }

  /**
   * So a connection that succeeds records the number of events it listed,
   * which is none.
   */
  lemma SyncedCountIsListed(entries: seq<(string, NewCalendarEntry)>, c: Calendar, option: Result<string, Failure>,
                            raw: Result<seq<GoogleEvent>, Failure>, found: bool)
    requires NewCalendarOutcome(option, GoogleAssist.EventListing(raw, c), found).Pass?
    ensures raw.Ok? && |raw.value| == 0
    ensures Seqs.Get(Seqs.Put(entries, IntToString(c.id), EntryFor(c, 0)), IntToString(c.id)) == Some(EntryFor(c, |raw.value|))
  {
    NewCalendarNeedsNoEvents(option, raw, c, found);
    Seqs.PutGet(entries, IntToString(c.id), EntryFor(c, 0), IntToString(c.id));
  }
}
