// One run of the sync engine for one user: the steps in their order, the
// choice between a full sync and the first set-up of an account, the
// resolution of edits made on both sides in the same window, and the
// boundary that turns a failure into a report.
module Workers {
  import opened Wrappers
  import opened Entities
  import opened Errors
  import opened Tables
  import opened Stores
  import opened Context
  import opened Environment
  import opened Clock
  import opened Text
  import opened Validate
  import opened Requests
  import NotionEvents
  import GoogleEvents
  import NotionApi
  import GoogleApi
  import EventLinks
  import NotionAssist
  import GoogleAssist
  import WorkerAssist
  import ExceptionFilter
  import Seqs

  type NotionEventDto = NotionEvents.NotionEventDto
  type GoogleEventDto = GoogleEvents.GoogleEventDto

  // ---- the order of the steps ----

  /**
   * The steps `runSteps` sets the report to, in order: an empty window
   * skips straight to the end; otherwise a user that has synced before
   * gets the full sync and a new one gets the account set-up.
   */
  function PlannedSteps(skip: bool, initialized: bool): seq<Step>
  {
    if skip then [StartSyncStep, ValidationStep, EndSyncStep]
    else if initialized then [StartSyncStep, ValidationStep, EraseDeletedEventStep, SyncEventsStep, SyncNewCalendarStep, EndSyncStep]
    else [StartSyncStep, ValidationStep, InitAccountStep, EndSyncStep]
  }

  /** The steps that follow the validation. */
  function BranchSteps(skip: bool, initialized: bool): (b: seq<Step>)
    ensures PlannedSteps(skip, initialized) == [StartSyncStep, ValidationStep] + b
  {
    if skip then [EndSyncStep]
    else if initialized then [EraseDeletedEventStep, SyncEventsStep, SyncNewCalendarStep, EndSyncStep]
    else [InitAccountStep, EndSyncStep]
  }

  /** The steps that read or write events or calendars. */
  predicate IsSyncStep(s: Step)
  {
    s == EraseDeletedEventStep || s == SyncEventsStep || s == SyncNewCalendarStep || s == InitAccountStep
  }

  /**
   * Every run starts the sync and validates first and ends the sync last;
   * a skipped run does no sync step at all; otherwise exactly one of the
   * full sync and the account set-up runs, and the full sync erases, then
   * syncs the events, then connects the new calendars.
   */
  lemma PlanShape(skip: bool, initialized: bool)
    ensures var p := PlannedSteps(skip, initialized);
            |p| >= 3 && p[0] == StartSyncStep && p[1] == ValidationStep && p[|p| - 1] == EndSyncStep &&
            (forall k :: 1 < k < |p| - 1 ==> IsSyncStep(p[k])) &&
            (skip <==> forall k :: 0 <= k < |p| ==> !IsSyncStep(p[k])) &&
            (!skip ==> (SyncEventsStep in p <==> initialized) && (InitAccountStep in p <==> !initialized)) &&
            (!skip && initialized ==> p[2] == EraseDeletedEventStep && p[3] == SyncEventsStep && p[4] == SyncNewCalendarStep)
  {
    var p := PlannedSteps(skip, initialized);
    if !skip {
      assert IsSyncStep(p[2]);
    }
  }

  // ---- edits made on both sides ----

  /**
   * `===` between an id stored in a link and the id of a record: a stored
   * id that is absent is `null`, which equals no record's id.
   */
  predicate SameId(stored: Option<string>, id: Option<string>)
  {
    stored.Some? && stored == id
  }

  function HasGoogleId(id: Option<string>): GoogleEventDto -> bool
  {
    (e: GoogleEventDto) => SameId(id, e.base.googleCalendarEventId)
  }

  function HasPageId(id: Option<string>): NotionEventDto -> bool
  {
    (p: NotionEventDto) => SameId(id, p.base.notionPageId)
  }

  /** `dayjs(t).second(0)`; an absent time is read as the current one. */
  function Stamp(t: Option<int>, now: int): int
  {
    ZeroSeconds(if t.Some? then t.value else now)
  }

  /**
   * The Google event a linked page is measured against: the first updated
   * event with the Google id of the page's link.
   */
  function EventFor(page: NotionEventDto, events: seq<GoogleEventDto>): Option<GoogleEventDto>
    requires page.base.eventLink.Some?
  {
    Seqs.Find(events, HasGoogleId(page.base.eventLink.value.googleCalendarEventId))
  }

  /** The page a linked Google event is measured against: the first updated page with the page id of the event's link. */
  function PageFor(event: GoogleEventDto, pages: seq<NotionEventDto>): Option<NotionEventDto>
    requires event.base.eventLink.Some?
  {
    Seqs.Find(pages, HasPageId(event.base.eventLink.value.notionPageId))
  }

  /** A page is written to Google unless its event was updated too, at the same minute or earlier. */
  predicate KeepPage(page: NotionEventDto, events: seq<GoogleEventDto>, now: int)
  {
    page.base.eventLink.None? || EventFor(page, events).None? ||
    Stamp(EventFor(page, events).value.base.updatedAt, now) > Stamp(page.base.updatedAt, now)
  }

  /** An event is written to Notion unless its page was updated too, strictly earlier. */
  predicate KeepEvent(event: GoogleEventDto, pages: seq<NotionEventDto>, now: int)
  {
    event.base.eventLink.None? || PageFor(event, pages).None? ||
    Stamp(PageFor(event, pages).value.base.updatedAt, now) >= Stamp(event.base.updatedAt, now)
  }

  function PagesToWrite(pages: seq<NotionEventDto>, events: seq<GoogleEventDto>, now: int): (r: seq<NotionEventDto>)
    ensures forall p :: p in r <==> p in pages && KeepPage(p, events, now)
  {
    Seqs.Filter(pages, (p: NotionEventDto) => KeepPage(p, events, now))
  }

  function EventsToWrite(pages: seq<NotionEventDto>, events: seq<GoogleEventDto>, now: int): (r: seq<GoogleEventDto>)
    ensures forall e :: e in r <==> e in events && KeepEvent(e, pages, now)
  {
    Seqs.Filter(events, (e: GoogleEventDto) => KeepEvent(e, pages, now))
  }

  /**
   * A page without a link, or whose link finds no updated event, is always
   * written; so is an event without a link or whose link finds no updated
   * page.
   */
  lemma UnmatchedAreWritten(pages: seq<NotionEventDto>, events: seq<GoogleEventDto>, now: int)
    ensures forall p :: p in pages && (p.base.eventLink.None? || EventFor(p, events).None?) ==>
              p in PagesToWrite(pages, events, now)
    ensures forall e :: e in events && (e.base.eventLink.None? || PageFor(e, pages).None?) ==>
              e in EventsToWrite(pages, events, now)
  {
  }

  /**
   * When a page and an event are each other's counterpart, exactly one of
   * them is written: the page when the event's time is the later one, the
   * event otherwise, ties included.
   */
  lemma MatchedPairWritesOne(page: NotionEventDto, event: GoogleEventDto, pages: seq<NotionEventDto>,
                             events: seq<GoogleEventDto>, now: int)
    requires page in pages && event in events
    requires page.base.eventLink.Some? && event.base.eventLink.Some?
    requires EventFor(page, events) == Some(event) && PageFor(event, pages) == Some(page)
    ensures (page in PagesToWrite(pages, events, now)) != (event in EventsToWrite(pages, events, now))
    ensures page in PagesToWrite(pages, events, now) <==> Stamp(event.base.updatedAt, now) > Stamp(page.base.updatedAt, now)
  {
  }

  /** With no updated Google event, every page is written and no event is. */
  lemma NoEventsWritesEveryPage(pages: seq<NotionEventDto>, now: int)
    ensures PagesToWrite(pages, [], now) == pages
    ensures EventsToWrite(pages, [], now) == []
  {
    Seqs.FilterAll(pages, (p: NotionEventDto) => KeepPage(p, [], now));
  }

  /**
   * Updated pages carry no page id, so the link of an updated event never
   * finds its page, and every updated event is written.
   */
  lemma PagesWithoutIdsKeepEveryEvent(pages: seq<NotionEventDto>, events: seq<GoogleEventDto>, now: int)
    requires forall k :: 0 <= k < |pages| ==> pages[k].base.notionPageId.None?
    ensures EventsToWrite(pages, events, now) == events
  {
    forall e | e in events
      ensures KeepEvent(e, pages, now)
    {
      if e.base.eventLink.Some? {
        assert forall k :: 0 <= k < |pages| ==> !HasPageId(e.base.eventLink.value.notionPageId)(pages[k]);
      }
    }
    Seqs.FilterAll(events, (e: GoogleEventDto) => KeepEvent(e, pages, now));
  }

  // ---- the writes a run asks for ----

  /** One call into an assist that writes on behalf of a record. */
  datatype Call =
    | UpsertPage(event: GoogleEventDto)      // `notionAssist.CUDPage(event)`
    | UpsertEvent(page: NotionEventDto)      // `googleCalendarAssist.CUDEvent(page)`
    | ConnectCalendar(calendar: Calendar)    // `workerAssist.syncNewCalendar(calendar)`

  function PageUpserts(events: seq<GoogleEventDto>): (r: seq<Call>)
    ensures |r| == |events| && forall k :: 0 <= k < |events| ==> r[k] == UpsertPage(events[k])
  {
    seq(|events|, (k: int) requires 0 <= k < |events| => UpsertPage(events[k]))
  }

  function EventUpserts(pages: seq<NotionEventDto>): (r: seq<Call>)
    ensures |r| == |pages| && forall k :: 0 <= k < |pages| ==> r[k] == UpsertEvent(pages[k])
  {
    seq(|pages|, (k: int) requires 0 <= k < |pages| => UpsertEvent(pages[k]))
  }

  /** What a run of writes leaves in the store: the outcome so far, the requests sent, the links and the next link id. */
  datatype Writes<R> = Writes(outcome: Outcome<Failure>, sent: seq<R>, links: seq<Link>, nextLinkId: int)

  /** One event written to Notion as `CUDPage` plans it. */
  function PageWriteStep(s: Writes<NotionRequest>, event: GoogleEventDto, lib: DateLib, props: NotionProps,
                         remote: Remote, userId: int, end: int): Writes<NotionRequest>
  {
    var w := NotionAssist.CreatePlan(event.ToEvent(), lib, props, remote, userId, s.nextLinkId, end);
    Writes(w.outcome, s.sent + w.sent, SaveAll(s.links, w.saved), s.nextLinkId + |w.saved|)
  }

  /** The events written to Notion in order; after a failure nothing more is written. */
  function PagesWritten(s: Writes<NotionRequest>, events: seq<GoogleEventDto>, lib: DateLib, props: NotionProps,
                        remote: Remote, userId: int, end: int): (r: Writes<NotionRequest>)
    ensures s.outcome.Fail? ==> r == s
    ensures s.sent <= r.sent && s.nextLinkId <= r.nextLinkId
    decreases |events|
  {
    if |events| == 0 || s.outcome.Fail? then s
    else PagesWritten(PageWriteStep(s, events[0], lib, props, remote, userId, end), events[1..], lib, props, remote, userId, end)
  }

  /** One page written to Google Calendar as `CUDEvent` plans it. */
  function EventWriteStep(s: Writes<GoogleRequest>, page: NotionEventDto, remote: Remote, userId: int, end: int)
    : Writes<GoogleRequest>
  {
    var w := GoogleAssist.EventPlan(page, s.links, remote, userId, s.nextLinkId, end);
    Writes(w.outcome, s.sent + w.sent, SaveAll(s.links, w.saved), s.nextLinkId + |w.saved|)
  }

  /** The pages written to Google Calendar in order; after a failure nothing more is written. */
  function EventsWritten(s: Writes<GoogleRequest>, pages: seq<NotionEventDto>, remote: Remote, userId: int, end: int)
    : (r: Writes<GoogleRequest>)
    ensures s.outcome.Fail? ==> r == s
    ensures s.sent <= r.sent && s.nextLinkId <= r.nextLinkId
    decreases |pages|
  {
    if |pages| == 0 || s.outcome.Fail? then s
    else EventsWritten(EventWriteStep(s, pages[0], remote, userId, end), pages[1..], remote, userId, end)
  }

  /** The store's part that the propagation of `syncEvents` writes, with the outcome. */
  datatype StoreWrites = StoreWrites(outcome: Outcome<Failure>, notion: seq<NotionRequest>, google: seq<GoogleRequest>,
                                     links: seq<Link>, nextLinkId: int)

  /**
   * The propagation of `syncEvents` on the store: the kept events are
   * written to Notion, then, if all went through, the kept pages to Google.
   */
  function UpdatesWritten(notion: seq<NotionRequest>, google: seq<GoogleRequest>, links: seq<Link>, nextLinkId: int,
                          updatedPages: seq<NotionEventDto>, updatedEvents: seq<GoogleEventDto>, now: int,
                          lib: DateLib, props: NotionProps, remote: Remote, userId: int, end: int): (r: StoreWrites)
    ensures notion <= r.notion && google <= r.google && nextLinkId <= r.nextLinkId
  {
    var pw := PagesWritten(Writes(Pass, notion, links, nextLinkId), EventsToWrite(updatedPages, updatedEvents, now),
                           lib, props, remote, userId, end);
    if pw.outcome.Fail? then StoreWrites(pw.outcome, pw.sent, google, pw.links, pw.nextLinkId)
    else
      var ew := EventsWritten(Writes(Pass, google, pw.links, pw.nextLinkId), PagesToWrite(updatedPages, updatedEvents, now),
                              remote, userId, end);
      StoreWrites(ew.outcome, pw.sent, ew.sent, ew.links, ew.nextLinkId)
  }

  /** Writing the events from `i` on, while nothing has failed, writes the event at `i` first. */
  lemma PagesWrittenNext(s: Writes<NotionRequest>, events: seq<GoogleEventDto>, i: nat, lib: DateLib, props: NotionProps,
                         remote: Remote, userId: int, end: int)
    requires i < |events| && s.outcome.Pass?
    ensures PagesWritten(s, events[i..], lib, props, remote, userId, end) ==
            PagesWritten(PageWriteStep(s, events[i], lib, props, remote, userId, end), events[i + 1..],
                         lib, props, remote, userId, end)
  {
    assert events[i..][0] == events[i] && events[i..][1..] == events[i + 1..];
  }

  /** Writing the pages from `i` on, while nothing has failed, writes the page at `i` first. */
  lemma EventsWrittenNext(s: Writes<GoogleRequest>, pages: seq<NotionEventDto>, i: nat, remote: Remote, userId: int, end: int)
    requires i < |pages| && s.outcome.Pass?
    ensures EventsWritten(s, pages[i..], remote, userId, end) ==
            EventsWritten(EventWriteStep(s, pages[i], remote, userId, end), pages[i + 1..], remote, userId, end)
  {
    assert pages[i..][0] == pages[i] && pages[i..][1..] == pages[i + 1..];
  }

  function Connections(cs: seq<Calendar>): (r: seq<Call>)
    ensures |r| == |cs| && forall k :: 0 <= k < |cs| ==> r[k] == ConnectCalendar(cs[k])
  {
    seq(|cs|, (k: int) requires 0 <= k < |cs| => ConnectCalendar(cs[k]))
  }

  /** `syncEvents`: the kept events are written to Notion, then the kept pages to Google. */
  function Propagation(pages: seq<NotionEventDto>, events: seq<GoogleEventDto>, now: int): seq<Call>
  {
    PageUpserts(EventsToWrite(pages, events, now)) + EventUpserts(PagesToWrite(pages, events, now))
  }

  /**
   * Every write to Notion comes before every write to Google, and each
   * write is for a kept record.
   */
  lemma PropagationOrder(pages: seq<NotionEventDto>, events: seq<GoogleEventDto>, now: int)
    ensures var p := Propagation(pages, events, now);
            (forall i, j :: 0 <= i < j < |p| && p[j].UpsertPage? ==> p[i].UpsertPage?) &&
            (forall k :: 0 <= k < |p| && p[k].UpsertPage? ==> p[k].event in events && KeepEvent(p[k].event, pages, now)) &&
            (forall k :: 0 <= k < |p| && p[k].UpsertEvent? ==> p[k].page in pages && KeepPage(p[k].page, events, now))
  {
    var e := EventsToWrite(pages, events, now);
    var w := PageUpserts(e);
    var p := Propagation(pages, events, now);
    assert forall k :: 0 <= k < |p| ==> (p[k].UpsertPage? <==> k < |w|);
    assert forall k :: 0 <= k < |w| ==> p[k].event == e[k];
  }

  /** With no updated Google event, the run writes every updated page to Google, in order, and nothing to Notion. */
  lemma NoEventsPropagation(pages: seq<NotionEventDto>, now: int)
    ensures Propagation(pages, [], now) == EventUpserts(pages)
  {
    NoEventsWritesEveryPage(pages, now);
  }

  /** Steps taken from the front of a plan leave a trace between the old one and the old one with the whole plan. */
  lemma StepsPrefix<T>(t: seq<T>, plan: seq<T>, n: int)
    requires 0 <= n <= |plan|
    ensures t <= t + plan[..n] <= t + plan
  {
    assert (t + plan)[..|t| + n] == t + plan[..n];
  }

  /** A list that runs on from `t + u` into `b` runs from `t` into `u + b`. */
  lemma StepsAfter<T>(t: seq<T>, u: seq<T>, b: seq<T>, x: seq<T>)
    requires t + u <= x <= t + u + b
    ensures t <= x <= t + (u + b)
  {
    Validate.SeqAssoc(t, u, b);
    assert x[..|t|] == (t + u)[..|t|];
  }

  /** A list that stops short within `u` stops short within `u + b`. */
  lemma StepsWithin<T>(t: seq<T>, u: seq<T>, b: seq<T>, x: seq<T>)
    requires t <= x <= t + u
    ensures t <= x <= t + (u + b)
  {
    Validate.SeqAssoc(t, u, b);
    assert (t + u + b)[..|t + u|] == t + u;
  }

  /** A call list one record longer is the shorter list and the call for that record. */
  lemma UpsertsSnoc(events: seq<GoogleEventDto>, pages: seq<NotionEventDto>, i: int)
    ensures 0 <= i < |events| ==> PageUpserts(events[..i + 1]) == PageUpserts(events[..i]) + [UpsertPage(events[i])]
    ensures 0 <= i < |pages| ==> EventUpserts(pages[..i + 1]) == EventUpserts(pages[..i]) + [UpsertEvent(pages[i])]
  {
  }

  /** A call list cut after `j` of its records is the whole list cut after `j` calls. */
  lemma UpsertsPrefix(events: seq<GoogleEventDto>, pages: seq<NotionEventDto>, j: int)
    ensures 0 <= j <= |events| ==> PageUpserts(events[..j]) == PageUpserts(events)[..j]
    ensures 0 <= j <= |pages| ==> EventUpserts(pages[..j]) == EventUpserts(pages)[..j]
  {
  }

  // ---- new calendars ----

  /** The calendars `syncNewCalendars` and `initAccount` connect: the pending ones, in order. */
  function PendingCalendars(cs: seq<Calendar>): (r: seq<Calendar>)
    ensures forall c :: c in r <==> c in cs && c.status == Pending
  {
    Seqs.Filter(cs, (c: Calendar) => c.status == Pending)
  }

  /**
   * The new-calendar entries of the report after the calendars `cs` are
   * connected in order, starting from the entries `e`.
   */
  function Entries(e: seq<(string, NewCalendarEntry)>, cs: seq<Calendar>): seq<(string, NewCalendarEntry)>
  {
    if |cs| == 0 then e
    else Seqs.Put(Entries(e, cs[..|cs| - 1]), IntToString(cs[|cs| - 1].id), WorkerAssist.EntryFor(cs[|cs| - 1], 0))
  }

  /** Connecting one calendar more puts its entry after those of the calendars before it. */
  lemma EntriesSnoc(e: seq<(string, NewCalendarEntry)>, cs: seq<Calendar>, i: int)
    requires 0 <= i < |cs|
    ensures Entries(e, cs[..i + 1]) == Seqs.Put(Entries(e, cs[..i]), IntToString(cs[i].id), WorkerAssist.EntryFor(cs[i], 0))
  {
    assert cs[..i + 1][..i] == cs[..i];
  }

  /** The report and the call list after connecting the calendar at `i`, as one more calendar of `cs`. */
  lemma ConnectedOneMore(cs: seq<Calendar>, i: int, r0: WorkerResult, c0: seq<Call>,
                         r: WorkerResult, c: seq<Call>, r': WorkerResult, c': seq<Call>)
    requires 0 <= i < |cs|
    requires r == r0.(syncNewCalendar := Entries(r0.syncNewCalendar, cs[..i])) && c == c0 + Connections(cs)[..i]
    requires r' == r.(syncNewCalendar := Seqs.Put(r.syncNewCalendar, IntToString(cs[i].id), WorkerAssist.EntryFor(cs[i], 0)))
    requires c' == c + [ConnectCalendar(cs[i])]
    ensures r' == r0.(syncNewCalendar := Entries(r0.syncNewCalendar, cs[..i + 1]))
    ensures c' == c0 + Connections(cs)[..i + 1]
  {
    EntriesSnoc(r0.syncNewCalendar, cs, i);
    ConnectionsSnoc(cs, i);
    Validate.SeqAssoc(c0, Connections(cs)[..i], [ConnectCalendar(cs[i])]);
  }

  lemma ConnectionsSnoc(cs: seq<Calendar>, i: int)
    requires 0 <= i < |cs|
    ensures Connections(cs)[..i + 1] == Connections(cs)[..i] + [ConnectCalendar(cs[i])]
  {
  }

  /** Connecting calendars keeps every earlier entry and gives each connected calendar one. */
  lemma {:induction false} EntriesKeys(e: seq<(string, NewCalendarEntry)>, cs: seq<Calendar>)
    ensures forall x :: x in Seqs.Keys(e) ==> x in Seqs.Keys(Entries(e, cs))
    ensures forall c :: c in cs ==> IntToString(c.id) in Seqs.Keys(Entries(e, cs))
  {
    if |cs| > 0 {
      var init, last := cs[..|cs| - 1], cs[|cs| - 1];
      var m := Entries(e, init);
      var key := IntToString(last.id);
      assert Entries(e, cs) == Seqs.Put(m, key, WorkerAssist.EntryFor(last, 0));
      EntriesKeys(e, init);
      Seqs.PutKeys(m, key, WorkerAssist.EntryFor(last, 0));
      assert forall x :: x in Seqs.Keys(m) ==> x in Seqs.Keys(Entries(e, cs));
      assert key in Seqs.Keys(Entries(e, cs));
      forall c | c in cs
        ensures IntToString(c.id) in Seqs.Keys(Entries(e, cs))
      {
        if c != last {
          assert c in init;
        }
      }
    }
  }

  /**
   * Of the calendars loaded for the run, each is either pending, and then
   * connected by the run, or already connected, and then synced: never both.
   */
  lemma PendingOrConnected(cs: seq<Calendar>)
    requires forall k :: 0 <= k < |cs| ==> cs[k].status != Disconnected
    ensures forall c :: c in cs ==> (c in PendingCalendars(cs) <==> c !in ConnectedCalendars(cs))
  {
    CalendarSplit(cs);
  }

  /** The rows `getUserCalendar` returns: exactly the user's calendars that are not disconnected. */
  ghost predicate UserCalendarRows(found: seq<Calendar>, rows: map<int, Calendar>, userId: int)
  {
    forall c :: c in found <==> c in rows.Values && c.userId == userId && c.status != Disconnected
  }

  /** The report keeps its verdict. */
  predicate SameVerdict(a: WorkerResult, b: WorkerResult)
  {
    a.fail == b.fail && a.failReason == b.failReason
  }

  /**
   * The TypeError `init` raises when it wires the Google Calendar assist:
   * that class inherits only the abstract declaration of
   * `dependencyInjection`, so there is no function to call.
   */
  const NoDependencyInjection: Failure := TypeError("this.googleCalendarAssist.dependencyInjection is not a function")

  /**
   * How `init` fails for `user`: with the missing-callback sync error when
   * the user's tokens cannot be read, and with the missing
   * `dependencyInjection` otherwise.
   */
  function InitFailure(user: User, env: Env): (f: Failure)
    ensures IsSyncError(f) <==> GoogleApi.GetTokens(user, env).Err?
    ensures IsSyncError(f) ==> f.code == GoogleCallbackUrlNotFound
    ensures !IsSyncError(f) ==> f == NoDependencyInjection
  {
    match GoogleApi.GetTokens(user, env)
    case Err(e) => e
    case Ok(_) => NoDependencyInjection
  }

  /** The message `run` throws when the user row is not found. */
  const UserNotFound: Failure := PlainError("유저를 찾을 수 없습니다.")

  /**
   * A worker for one user. The assists share the worker's context; their
   * operations are the ones of the assist modules, called on the store.
   */
  /**
   * What `syncNewCalendar` does to the store for calendar `c`: the options
   * update sent and applied to the schema, the row connected and given the
   * option id found, the outcome, and the rewind of a failing listing.
   */
  ghost predicate CalendarConnected(c: Calendar, user: User, calendars: seq<Calendar>, config: SyncConfig, remote: Remote,
                                    now: int, o: Outcome<Failure>,
                                    notion0: seq<NotionRequest>, notion: seq<NotionRequest>,
                                    database0: seq<DatabaseProperty>, database: seq<DatabaseProperty>,
                                    rows0: map<int, Calendar>, rows: map<int, Calendar>,
                                    users0: map<int, User>, users: map<int, User>)
  {
    var key := NotionApi.Key(user.notionProps, "calendar");
    var sent := NotionAssist.SentOptions(calendars, c);
    var option := NotionAssist.NewOptionId(database, Seqs.Get(user.notionProps, "calendar"), calendars);
    var raw := remote.listEvents(CalendarEventsQuery(c.googleCalendarId, config.timeMin, config.timeMax));
    var connected := UpdateRow(rows0, c.id, WorkerAssist.Connect);
    notion == notion0 + [NotionRequest.UpdateCalendarOptions(key, sent)] &&
    database == NotionApi.WithOptions(database0, key, NotionApi.AssignOptionIds(sent, remote.newOptionId)) &&
    o == WorkerAssist.NewCalendarOutcome(option, GoogleAssist.EventListing(raw, c), c.id in rows0) &&
    rows == (if option.Ok? then UpdateRow(connected, c.id, NotionAssist.WithOptionId(option.value)) else connected) &&
    users == if option.Ok? && raw.Err? && GoogleApi.RewindsOn(raw.error) then GoogleApi.Rewound(users0, user.id, now) else users0
  }

  class Worker {
    const context: WorkContext
    const store: Store
    const env: Env
    const lib: DateLib
    /** The writes asked of the assists on behalf of records, in order. */
    ghost var calls: seq<Call>

    /** `new Worker(userId, workerId)` at time `now`. */
    constructor(userId: int, workerId: string, now: int, store: Store, env: Env, lib: DateLib)
      ensures fresh(context) && context.userId == userId && context.workerId == workerId && context.startedAt == now
      ensures context.periodStart.None? && context.periodEnd == TruncateToMinute(now)
      ensures context.result == InitialResult() && context.user.None? && context.config.None?
      ensures context.calendars == [] && context.trace == []
      ensures this.store == store && this.env == env && this.lib == lib && calls == []
    {
      context := new WorkContext(workerId, userId, now);
      this.store := store;
      this.env := env;
      this.lib := lib;
      calls := [];
    }

    /**
     * `init`: the calendars found for the user are loaded into the context,
     * then the assists are built and wired. Building the Google Calendar
     * assist reads the user's tokens, which fails without a callback URL;
     * wiring then calls `dependencyInjection` on that assist, which its
     * class does not define, so `init` fails either way.
     */
    method Init(found: seq<Calendar>) returns (o: Outcome<Failure>)
      requires context.user.Some?
      requires UserCalendarRows(found, store.calendars, context.userId)
      modifies context`calendars, context`connectedCalendars, context`writeableCalendars
      ensures context.calendars == found && context.connectedCalendars == ConnectedCalendars(found)
      ensures context.writeableCalendars == WriteableCalendars(found)
      ensures o == Fail(InitFailure(context.user.value, env))
    {
      context.SetCalendars(found);
      var tokens := GoogleApi.GetTokens(context.user.value, env);
      if tokens.Err? {
        return Fail(tokens.error);
      }
      return Fail(NoDependencyInjection);
    }

    /** `startSync`: the user row is locked for this run. */
    method StartSync()
      requires context.user.Some?
      modifies context`result, context`trace, store`users
      ensures context.result == old(context.result).(step := StartSyncStep)
      ensures context.trace == old(context.trace) + [StartSyncStep]
      ensures store.users == UpdateRow(old(store.users), context.user.value.id, WorkerAssist.Started(context.startedAt, env))
    {
      context.SetStep(StartSyncStep);
      WorkerAssist.StartSyncUserUpdate(context, store, env);
    }

    /**
     * `validation`: an empty window skips the run and validates nothing;
     * otherwise the property mapping is validated and restored, and the
     * Google validation always passes.
     */
    method Validation() returns (skip: bool, o: Outcome<Failure>, ghost errors: seq<ValidationError>, ghost checked: NotionProps)
      requires context.user.Some?
      modifies context`result, context`trace, context`user, store`users, store`database, store`notionRequests
      ensures context.result == old(context.result).(step := ValidationStep)
      ensures context.trace == old(context.trace) + [ValidationStep]
      ensures skip == context.WindowEmpty()
      ensures context.user.Some? && context.user.value == old(context.user.value).(notionProps := context.user.value.notionProps)
      ensures skip ==> o == Pass && context.user == old(context.user) && store.users == old(store.users) &&
                       store.database == old(store.database) && store.notionRequests == old(store.notionRequests)
      ensures !skip ==> errors == ValidateUserPropsErrors(old(context.user.value.notionProps), old(context.user.value.isSyncAdditionalProps)) +
                                  NotionPropErrors(Seqs.Keys(checked), checked, old(store.database),
                                                   old(context.user.value.isSyncAdditionalProps))
      ensures !skip ==> (o.Pass? <==> |errors| == 0)
      ensures !skip && o.Fail? ==> o.error == SyncFailure(NotionValidationError, NotionAssist.ValidationDetail(errors))
      ensures !skip ==> old(store.database) <= store.database
      ensures !skip ==> MappingAfterRun(old(context.user.value.notionProps), old(context.user.value.isSyncAdditionalProps),
                                        old(store.database), store.database, checked, context.user.value.notionProps,
                                        old(store.users), store.users, context.user.value.id)
    {
      context.SetStep(ValidationStep);
      if context.WindowEmpty() {
        return true, Pass, [], [];
      }
      o, errors, checked := NotionAssist.ValidationAndRestore(context, store);
      if o.Fail? {
        return false, o, errors, checked;
      }
      var google := GoogleAssist.Validation();
      skip := false;
    }

    /**
     * `eraseDeletedEvent`: the pages deleted in Notion are erased, then,
     * if all went through, the links marked for removal as they then stand.
     * Of the report, only the step and the two erase counters change, each
     * counter only when its erasure went through.
     */
    method EraseDeletedEvent() returns (o: Outcome<Failure>)
      requires context.user.Some? && context.config.Some?
      modifies context`result, context`trace, store`links, store`notionRequests, store`googleRequests
      ensures context.trace == old(context.trace) + [EraseDeletedEventStep]
      ensures context.result.(eraseNotion := old(context.result.eraseNotion), eraseEventLink := old(context.result.eraseEventLink)) ==
              old(context.result).(step := EraseDeletedEventStep)
      ensures var q := old(NotionApi.GetDeletedPages(context, store.remote));
              var id := context.user.value.id;
              var s1 := if q.Err? then WorkerAssist.Snapshot(Fail(q.error), old(store.links), old(store.notionRequests),
                                                             old(store.googleRequests))
                        else WorkerAssist.ErasePages(WorkerAssist.Snapshot(Pass, old(store.links), old(store.notionRequests),
                                                                           old(store.googleRequests)),
                                                     WorkerAssist.PageIds(q.value), id, store.remote);
              var marked := EventLinks.FindDeletedEventLinks(s1.links, id);
              WorkerAssist.Snapshot(o, store.links, store.notionRequests, store.googleRequests) ==
                (if s1.outcome.Fail? then s1 else WorkerAssist.EraseLinks(s1, marked, id, store.remote)) &&
              context.result.eraseNotion == (if s1.outcome.Pass? then |q.value| else old(context.result.eraseNotion)) &&
              context.result.eraseEventLink == (if s1.outcome.Pass? && o.Pass? then |marked| else old(context.result.eraseEventLink))
    {
      context.SetStep(EraseDeletedEventStep);
      o := WorkerAssist.EraseDeletedNotionPage(context, store);
      if o.Fail? {
        return;
      }
      o := WorkerAssist.EraseDeletedEventLink(context, store);
    }

    /** One event written to Notion as CUDPage plans it, and the call recorded. */
    method WritePage(event: GoogleEventDto) returns (o: Outcome<Failure>)
      requires context.user.Some?
      modifies store`notionRequests, store`links, store`nextLinkId, this`calls
      ensures calls == old(calls) + [UpsertPage(event)]
      ensures var w := NotionAssist.CreatePlan(event.ToEvent(), lib, context.user.value.notionProps, store.remote,
                                               context.user.value.id, old(store.nextLinkId), context.periodEnd);
              o == w.outcome && store.notionRequests == old(store.notionRequests) + w.sent &&
              store.links == SaveAll(old(store.links), w.saved) && store.nextLinkId == old(store.nextLinkId) + |w.saved|
      ensures Writes(o, store.notionRequests, store.links, store.nextLinkId) ==
              PageWriteStep(Writes(Pass, old(store.notionRequests), old(store.links), old(store.nextLinkId)), event,
                            lib, context.user.value.notionProps, store.remote, context.user.value.id, context.periodEnd)
    {
      o := NotionAssist.CUDPage(context, store, lib, event);
      calls := calls + [UpsertPage(event)];
    }

    /** The events written to Notion, one after the other, up to the first failure. */
    method WritePages(events: seq<GoogleEventDto>) returns (o: Outcome<Failure>)
      requires context.user.Some?
      modifies store`notionRequests, store`links, store`nextLinkId, this`calls
      ensures old(calls) <= calls <= old(calls) + PageUpserts(events)
      ensures o.Pass? ==> calls == old(calls) + PageUpserts(events)
      ensures Writes(o, store.notionRequests, store.links, store.nextLinkId) ==
              PagesWritten(Writes(Pass, old(store.notionRequests), old(store.links), old(store.nextLinkId)), events,
                           lib, context.user.value.notionProps, store.remote, context.user.value.id, context.periodEnd)
    {
      ghost var props, id, end := context.user.value.notionProps, context.user.value.id, context.periodEnd;
      ghost var whole := PagesWritten(Writes(Pass, store.notionRequests, store.links, store.nextLinkId), events,
                                      lib, props, store.remote, id, end);
      o := Pass;
      var i := 0;
      while i < |events|
        invariant 0 <= i <= |events|
        invariant o == Pass
        invariant calls == old(calls) + PageUpserts(events[..i])
        invariant whole == PagesWritten(Writes(Pass, store.notionRequests, store.links, store.nextLinkId), events[i..],
                                        lib, props, store.remote, id, end)
      {
        ghost var before := Writes(Pass, store.notionRequests, store.links, store.nextLinkId);
        o := WritePage(events[i]);
        PagesWrittenNext(before, events, i, lib, props, store.remote, id, end);
        UpsertsSnoc(events, [], i);
        Validate.SeqAssoc(old(calls), PageUpserts(events[..i]), [UpsertPage(events[i])]);
        if o.Fail? {
          UpsertsPrefix(events, [], i + 1);
          StepsPrefix(old(calls), PageUpserts(events), i + 1);
          return;
        }
        i := i + 1;
      }
      assert events[..i] == events;
      StepsPrefix(old(calls), PageUpserts(events), |events|);
    }

    /** One page written to Google as CUDEvent plans it, and the call recorded. */
    method WriteEvent(page: NotionEventDto) returns (o: Outcome<Failure>)
      requires context.user.Some?
      modifies store`googleRequests, store`links, store`nextLinkId, this`calls
      ensures calls == old(calls) + [UpsertEvent(page)]
      ensures var w := GoogleAssist.EventPlan(page, old(store.links), store.remote, context.user.value.id,
                                              old(store.nextLinkId), context.periodEnd);
              o == w.outcome && store.googleRequests == old(store.googleRequests) + w.sent &&
              store.links == SaveAll(old(store.links), w.saved) && store.nextLinkId == old(store.nextLinkId) + |w.saved|
      ensures Writes(o, store.googleRequests, store.links, store.nextLinkId) ==
              EventWriteStep(Writes(Pass, old(store.googleRequests), old(store.links), old(store.nextLinkId)), page,
                             store.remote, context.user.value.id, context.periodEnd)
    {
      o := GoogleAssist.CUDEvent(context, store, page);
      calls := calls + [UpsertEvent(page)];
    }

    /** The pages written to Google, one after the other, up to the first failure. */
    method WriteEvents(pages: seq<NotionEventDto>) returns (o: Outcome<Failure>)
      requires context.user.Some?
      modifies store`googleRequests, store`links, store`nextLinkId, this`calls
      ensures old(calls) <= calls <= old(calls) + EventUpserts(pages)
      ensures o.Pass? ==> calls == old(calls) + EventUpserts(pages)
      ensures Writes(o, store.googleRequests, store.links, store.nextLinkId) ==
              EventsWritten(Writes(Pass, old(store.googleRequests), old(store.links), old(store.nextLinkId)), pages,
                            store.remote, context.user.value.id, context.periodEnd)
    {
      ghost var id, end := context.user.value.id, context.periodEnd;
      ghost var whole := EventsWritten(Writes(Pass, store.googleRequests, store.links, store.nextLinkId), pages,
                                       store.remote, id, end);
      o := Pass;
      var i := 0;
      while i < |pages|
        invariant 0 <= i <= |pages|
        invariant o == Pass
        invariant calls == old(calls) + EventUpserts(pages[..i])
        invariant whole == EventsWritten(Writes(Pass, store.googleRequests, store.links, store.nextLinkId), pages[i..],
                                         store.remote, id, end)
      {
        ghost var before := Writes(Pass, store.googleRequests, store.links, store.nextLinkId);
        o := WriteEvent(pages[i]);
        EventsWrittenNext(before, pages, i, store.remote, id, end);
        UpsertsSnoc([], pages, i);
        Validate.SeqAssoc(old(calls), EventUpserts(pages[..i]), [UpsertEvent(pages[i])]);
        if o.Fail? {
          UpsertsPrefix([], pages, i + 1);
          StepsPrefix(old(calls), EventUpserts(pages), i + 1);
          return;
        }
        i := i + 1;
      }
      assert pages[..i] == pages;
      StepsPrefix(old(calls), EventUpserts(pages), |pages|);
    }

    /**
     * The two reads of `syncEvents`: the updated pages, each with its link,
     * then the updated Google events. A failing read ends the step.
     */
    method ReadUpdates(now: int)
      returns (r: Result<(seq<NotionEventDto>, seq<GoogleEventDto>), Failure>,
               ghost q: Result<seq<NotionEventDto>, Failure>, ghost f: GoogleAssist.Fetch)
      requires context.user.Some? && context.config.Some?
      modifies context`result, store`users
      ensures q == old(NotionApi.GetUpdatedPages(context, store.remote))
      ensures f == old(GoogleAssist.FirstFailure(context, store.remote, context.connectedCalendars))
      ensures q.Err? ==> r == Err(q.error) && store.users == old(store.users) && context.result == old(context.result)
      ensures q.Ok? && f.Failed? ==>
                r == Err(f.error) && context.result == old(context.result).(notion2GCalCount := |q.value|) &&
                store.users == (if f.rewind then GoogleApi.Rewound(old(store.users), context.user.value.id, now) else old(store.users))
      ensures q.Ok? && f.Fetched? ==>
                r == Ok((NotionAssist.WithLinks(q.value, store.links, context.user.value.id), [])) &&
                store.users == old(store.users) &&
                context.result == old(context.result).(notion2GCalCount := |q.value|,
                                                       gCalCalendarCount := |context.connectedCalendars|, gCal2NotionCount := 0)
    {
      q := NotionApi.GetUpdatedPages(context, store.remote);
      f := GoogleAssist.FirstFailure(context, store.remote, context.connectedCalendars);
      var updatedPages := NotionAssist.GetUpdatedPages(context, store);
      if updatedPages.Err? {
        return Err(updatedPages.error), q, f;
      }
      assert f == GoogleAssist.FirstFailure(context, store.remote, context.connectedCalendars);
      var updatedEvents := GoogleAssist.GetUpdatedEvents(context, store, now);
      if updatedEvents.Err? {
        return Err(updatedEvents.error), q, f;
      }
      r := Ok((updatedPages.value, updatedEvents.value));
    }

    /** The kept events written to Notion, then the kept pages to Google, up to the first failure. */
    method WriteUpdates(updatedPages: seq<NotionEventDto>, updatedEvents: seq<GoogleEventDto>, now: int)
      returns (o: Outcome<Failure>)
      requires context.user.Some?
      modifies store`notionRequests, store`googleRequests, store`links, store`nextLinkId, this`calls
      ensures var plan := Propagation(updatedPages, updatedEvents, now);
              old(calls) <= calls <= old(calls) + plan && (o.Pass? ==> calls == old(calls) + plan)
      ensures StoreWrites(o, store.notionRequests, store.googleRequests, store.links, store.nextLinkId) ==
              UpdatesWritten(old(store.notionRequests), old(store.googleRequests), old(store.links), old(store.nextLinkId),
                             updatedPages, updatedEvents, now, lib, context.user.value.notionProps, store.remote,
                             context.user.value.id, context.periodEnd)
    {
      var pages := PagesToWrite(updatedPages, updatedEvents, now);
      var events := EventsToWrite(updatedPages, updatedEvents, now);
      ghost var c := calls;
      o := WritePages(events);
      if o.Fail? {
        StepsWithin(c, PageUpserts(events), EventUpserts(pages), calls);
        return;
      }
      o := WriteEvents(pages);
      StepsAfter(c, PageUpserts(events), EventUpserts(pages), calls);
    }

    /**
     * `syncEvents` at time `now`: the updated pages, then the updated
     * events, are read; the kept events are written to Notion and then the
     * kept pages to Google. A failing read stops the step before any write.
     */
    method SyncEvents(now: int)
      returns (o: Outcome<Failure>, ghost q: Result<seq<NotionEventDto>, Failure>, ghost f: GoogleAssist.Fetch)
      requires context.user.Some? && context.config.Some?
      modifies context`result, context`trace, store`users, store`notionRequests, store`googleRequests,
               store`links, store`nextLinkId, this`calls
      ensures context.trace == old(context.trace) + [SyncEventsStep]
      ensures SameVerdict(context.result, old(context.result))
      ensures q == old(NotionApi.GetUpdatedPages(context, store.remote))
      ensures f == old(GoogleAssist.FirstFailure(context, store.remote, context.connectedCalendars))
      ensures q.Err? ==>
                o == Fail(q.error) && calls == old(calls) && store.users == old(store.users) &&
                context.result == old(context.result).(step := SyncEventsStep)
      ensures q.Ok? && f.Failed? ==>
                o == Fail(f.error) && calls == old(calls) &&
                store.users == (if f.rewind then GoogleApi.Rewound(old(store.users), context.user.value.id, now) else old(store.users)) &&
                context.result == old(context.result).(step := SyncEventsStep, notion2GCalCount := |q.value|)
      ensures q.Ok? && f.Fetched? ==>
                var plan := Propagation(NotionAssist.WithLinks(q.value, old(store.links), context.user.value.id), [], now);
                store.users == old(store.users) &&
                old(calls) <= calls <= old(calls) + plan && (o.Pass? ==> calls == old(calls) + plan) &&
                context.result == old(context.result).(step := SyncEventsStep, notion2GCalCount := |q.value|,
                                                       gCalCalendarCount := |context.connectedCalendars|, gCal2NotionCount := 0)
      ensures q.Ok? && f.Fetched? ==>
                StoreWrites(o, store.notionRequests, store.googleRequests, store.links, store.nextLinkId) ==
                UpdatesWritten(old(store.notionRequests), old(store.googleRequests), old(store.links), old(store.nextLinkId),
                               NotionAssist.WithLinks(q.value, old(store.links), context.user.value.id), [], now,
                               lib, context.user.value.notionProps, store.remote, context.user.value.id, context.periodEnd)
      ensures q.Err? || f.Failed? ==>
                store.links == old(store.links) && store.notionRequests == old(store.notionRequests) &&
                store.googleRequests == old(store.googleRequests)
    {
      q := NotionApi.GetUpdatedPages(context, store.remote);
      f := GoogleAssist.FirstFailure(context, store.remote, context.connectedCalendars);
      context.SetStep(SyncEventsStep);
      assert q == NotionApi.GetUpdatedPages(context, store.remote);
      assert f == GoogleAssist.FirstFailure(context, store.remote, context.connectedCalendars);
      var read;
      ghost var q', f';
      read, q', f' := ReadUpdates(now);
      if read.Err? {
        return Fail(read.error), q, f;
      }
      o := WriteUpdates(read.value.0, read.value.1, now);
    }

    /** One calendar connected, and the call recorded; the report gains the calendar's entry. */
    method Connect(c: Calendar, now: int) returns (o: Outcome<Failure>)
      requires context.user.Some? && context.config.Some?
      modifies context`result, store`calendars, store`notionRequests, store`database, store`users, this`calls
      ensures calls == old(calls) + [ConnectCalendar(c)]
      ensures context.result == old(context.result).(syncNewCalendar :=
                Seqs.Put(old(context.result.syncNewCalendar), IntToString(c.id), WorkerAssist.EntryFor(c, 0)))
      ensures CalendarConnected(c, context.user.value, context.calendars, context.config.value, store.remote, now, o,
                                old(store.notionRequests), store.notionRequests, old(store.database), store.database,
                                old(store.calendars), store.calendars, old(store.users), store.users)
    {
      o := WorkerAssist.SyncNewCalendar(context, store, c, now);
      calls := calls + [ConnectCalendar(c)];
    }

    /** The next of the calendars `cs` connected: the call list and the report grow by one calendar. */
    method ConnectNext(cs: seq<Calendar>, i: int, now: int, ghost r0: WorkerResult, ghost c0: seq<Call>)
      returns (o: Outcome<Failure>)
      requires 0 <= i < |cs| && context.user.Some? && context.config.Some?
      requires context.result == r0.(syncNewCalendar := Entries(r0.syncNewCalendar, cs[..i]))
      requires calls == c0 + Connections(cs)[..i]
      modifies context`result, store`calendars, store`notionRequests, store`database, store`users, this`calls
      ensures context.result == r0.(syncNewCalendar := Entries(r0.syncNewCalendar, cs[..i + 1]))
      ensures calls == c0 + Connections(cs)[..i + 1]
    {
      ghost var r, c := context.result, calls;
      o := Connect(cs[i], now);
      ConnectedOneMore(cs, i, r0, c0, r, c, context.result, calls);
    }

    /**
     * The pending calendars connected one after the other, up to the first
     * failure: the first `n` of them are connected, all of them when none
     * fails, and the report gains their entries, in order, and nothing else.
     */
    method ConnectPending(now: int) returns (o: Outcome<Failure>, ghost n: int)
      requires context.user.Some? && context.config.Some?
      modifies context`result, store`calendars, store`notionRequests, store`database, store`users, this`calls
      ensures var pending := PendingCalendars(context.calendars);
              0 <= n <= |pending| && (o.Pass? ==> n == |pending|) &&
              calls == old(calls) + Connections(pending)[..n] &&
              context.result == old(context.result).(syncNewCalendar := Entries(old(context.result.syncNewCalendar), pending[..n]))
    {
      var pending := PendingCalendars(context.calendars);
      ghost var r0 := context.result;
      o := Pass;
      var i := 0;
      while i < |pending|
        invariant 0 <= i <= |pending|
        invariant o == Pass
        invariant calls == old(calls) + Connections(pending)[..i]
        invariant context.result == r0.(syncNewCalendar := Entries(r0.syncNewCalendar, pending[..i]))
        invariant context.user.Some? && context.config.Some? && pending == PendingCalendars(context.calendars)
      {
        o := ConnectNext(pending, i, now, r0, old(calls));
        i := i + 1;
        if o.Fail? {
          n := i;
          return;
        }
      }
      n := i;
    }

    /** `syncNewCalendars`: the pending calendars connected, in order. */
    method SyncNewCalendars(now: int) returns (o: Outcome<Failure>, ghost n: int)
      requires context.user.Some? && context.config.Some?
      modifies context`result, context`trace, store`calendars, store`notionRequests, store`database, store`users, this`calls
      ensures context.trace == old(context.trace) + [SyncNewCalendarStep]
      ensures var pending := PendingCalendars(context.calendars);
              0 <= n <= |pending| && (o.Pass? ==> n == |pending|) &&
              calls == old(calls) + Connections(pending)[..n] &&
              context.result == old(context.result).(step := SyncNewCalendarStep,
                syncNewCalendar := Entries(old(context.result.syncNewCalendar), pending[..n]))
      ensures SameVerdict(context.result, old(context.result))
    {
      context.SetStep(SyncNewCalendarStep);
      o, n := ConnectPending(now);
    }

    /** `initAccount`: the same as `syncNewCalendars`, reported under its own step. */
    method InitAccount(now: int) returns (o: Outcome<Failure>, ghost n: int)
      requires context.user.Some? && context.config.Some?
      modifies context`result, context`trace, store`calendars, store`notionRequests, store`database, store`users, this`calls
      ensures context.trace == old(context.trace) + [InitAccountStep]
      ensures var pending := PendingCalendars(context.calendars);
              0 <= n <= |pending| && (o.Pass? ==> n == |pending|) &&
              calls == old(calls) + Connections(pending)[..n] &&
              context.result == old(context.result).(step := InitAccountStep,
                syncNewCalendar := Entries(old(context.result.syncNewCalendar), pending[..n]))
      ensures SameVerdict(context.result, old(context.result))
    {
      context.SetStep(InitAccountStep);
      o, n := ConnectPending(now);
    }

    /** `endSync` at time `now`: the lock is released and the user's expired error logs removed. */
    method EndSync(now: int)
      requires context.user.Some?
      modifies context`result, context`trace, store`users, store`errorLogs
      ensures context.result == old(context.result).(step := EndSyncStep)
      ensures context.trace == old(context.trace) + [EndSyncStep]
      ensures store.users == UpdateRow(old(store.users), context.user.value.id, WorkerAssist.Ended(context.periodEnd))
      ensures var userId := context.user.value.id;
              store.errorLogs == Seqs.Filter(old(store.errorLogs), (l: ErrorLog) => !WorkerAssist.Expired(l, userId, now))
    {
      context.SetStep(EndSyncStep);
      WorkerAssist.EndSyncUserUpdate(context, store);
      WorkerAssist.DeleteOldErrorLogs(context, store, now);
    }

    /**
     * The sync of a user that has synced before: erase, sync the events,
     * connect the new calendars, up to the first that fails.
     */
    method FullSync(now: int) returns (o: Outcome<Failure>)
      requires context.user.Some? && context.config.Some?
      modifies context`result, context`trace, store`users, store`database, store`notionRequests, store`googleRequests,
               store`links, store`nextLinkId, store`calendars, this`calls
      ensures var steps := [EraseDeletedEventStep, SyncEventsStep, SyncNewCalendarStep];
              old(context.trace) <= context.trace <= old(context.trace) + steps &&
              (o.Pass? ==> context.trace == old(context.trace) + steps)
      ensures SameVerdict(context.result, old(context.result))
    {
      ghost var t := context.trace;
      o := EraseDeletedEvent();
      if o.Fail? {
        StepsPrefix(t, [EraseDeletedEventStep, SyncEventsStep, SyncNewCalendarStep], 1);
        return;
      }
      o := SyncAndConnect(now);
      StepsAfter(t, [EraseDeletedEventStep], [SyncEventsStep, SyncNewCalendarStep], context.trace);
      assert [EraseDeletedEventStep] + [SyncEventsStep, SyncNewCalendarStep] ==
             [EraseDeletedEventStep, SyncEventsStep, SyncNewCalendarStep];
    }

    /** The events synced, then the new calendars connected, up to the first that fails. */
    method SyncAndConnect(now: int) returns (o: Outcome<Failure>)
      requires context.user.Some? && context.config.Some?
      modifies context`result, context`trace, store`users, store`database, store`notionRequests, store`googleRequests,
               store`links, store`nextLinkId, store`calendars, this`calls
      ensures var steps := [SyncEventsStep, SyncNewCalendarStep];
              old(context.trace) <= context.trace <= old(context.trace) + steps &&
              (o.Pass? ==> context.trace == old(context.trace) + steps)
      ensures SameVerdict(context.result, old(context.result))
    {
      ghost var t := context.trace;
      ghost var q, f;
      o, q, f := SyncEvents(now);
      if o.Fail? {
        StepsPrefix(t, [SyncEventsStep, SyncNewCalendarStep], 1);
        return;
      }
      ghost var n;
      o, n := SyncNewCalendars(now);
    }

    /** `startSync` and `validation`, in order. */
    method StartAndValidate() returns (skip: bool, o: Outcome<Failure>)
      requires context.user.Some?
      modifies context`result, context`trace, context`user, store`users, store`database, store`notionRequests
      ensures context.user.Some? && context.user.value == old(context.user.value).(notionProps := context.user.value.notionProps)
      ensures context.trace == old(context.trace) + [StartSyncStep, ValidationStep]
      ensures context.result == old(context.result).(step := ValidationStep)
      ensures skip == context.WindowEmpty()
      ensures skip ==> o == Pass && store.database == old(store.database) && store.notionRequests == old(store.notionRequests)
    {
      StartSync();
      ghost var errors, checked;
      skip, o, errors, checked := Validation();
    }

    /**
     * What follows the validation of a window that is not empty: the full
     * sync or the account set-up, then `endSync` if that got through.
     */
    method Proceed(now: int) returns (o: Outcome<Failure>)
      requires context.user.Some? && context.config.Some?
      modifies context`result, context`trace, store`users, store`database, store`notionRequests, store`googleRequests,
               store`links, store`nextLinkId, store`calendars, store`errorLogs, this`calls
      ensures var b := BranchSteps(false, context.user.value.lastCalendarSync.Some?);
              old(context.trace) <= context.trace <= old(context.trace) + b &&
              (o.Pass? ==> context.trace == old(context.trace) + b && context.result.step == EndSyncStep)
      ensures SameVerdict(context.result, old(context.result))
      ensures var userId := context.user.value.id;
              o.Pass? && userId in store.users ==> !store.users[userId].isWork
      ensures context.user.value.lastCalendarSync.None? ==>
                old(calls) <= calls <= old(calls) + Connections(PendingCalendars(context.calendars))
    {
      ghost var t := context.trace;
      if context.user.value.lastCalendarSync.Some? {
        o := FullSync(now);
      } else {
        ghost var n;
        o, n := InitAccount(now);
        StepsPrefix(old(calls), Connections(PendingCalendars(context.calendars)), n);
      }
      if o.Fail? {
        return;
      }
      ghost var before := context.trace;
      EndSync(now);
      Validate.SeqAssoc(t, before[|t|..], [EndSyncStep]);
      assert before == t + before[|t|..];
      o := Pass;
    }

    /** What follows the validation: `endSync` alone for an empty window, the sync and `endSync` otherwise. */
    method Continue(skip: bool, now: int) returns (o: Outcome<Failure>)
      requires context.user.Some? && context.config.Some?
      modifies context`result, context`trace, store`users, store`database, store`notionRequests, store`googleRequests,
               store`links, store`nextLinkId, store`calendars, store`errorLogs, this`calls
      ensures var b := BranchSteps(skip, context.user.value.lastCalendarSync.Some?);
              old(context.trace) <= context.trace <= old(context.trace) + b &&
              (o.Pass? ==> context.trace == old(context.trace) + b && context.result.step == EndSyncStep)
      ensures SameVerdict(context.result, old(context.result))
      ensures var userId := context.user.value.id;
              o.Pass? && userId in store.users ==> !store.users[userId].isWork
      ensures skip ==>
                o == Pass && calls == old(calls) && store.links == old(store.links) &&
                store.notionRequests == old(store.notionRequests) && store.googleRequests == old(store.googleRequests) &&
                store.database == old(store.database) && store.calendars == old(store.calendars)
      ensures context.user.value.lastCalendarSync.None? ==>
                old(calls) <= calls <= old(calls) + Connections(PendingCalendars(context.calendars))
    {
      if skip {
        EndSync(now);
        return Pass;
      }
      o := Proceed(now);
    }

    /**
     * The steps `runSteps` lists after `init`, from `now`: `startSync`,
     * `validation`, then the branch and `endSync`, in the planned order up
     * to the first failure. A run that gets through ends with the user
     * unlocked; a skipped run writes nothing but the user row and the error
     * logs. Since `init` always fails, no run of this worker reaches them.
     */
    method AfterInit(now: int) returns (o: Outcome<Failure>)
      requires context.user.Some? && context.config.Some?
      modifies context`result, context`trace, context`user, store`users, store`database, store`notionRequests,
               store`googleRequests, store`links, store`nextLinkId, store`calendars, store`errorLogs, this`calls
      ensures context.user.Some? && context.user.value == old(context.user.value).(notionProps := context.user.value.notionProps)
      ensures var plan := PlannedSteps(old(context.WindowEmpty()), old(context.user.value.lastCalendarSync).Some?);
              old(context.trace) <= context.trace <= old(context.trace) + plan &&
              (o.Pass? ==> context.trace == old(context.trace) + plan && context.result.step == EndSyncStep)
      ensures SameVerdict(context.result, old(context.result))
      ensures var userId := context.user.value.id;
              o.Pass? && userId in store.users ==> !store.users[userId].isWork
      ensures old(context.WindowEmpty()) ==>
                o == Pass && calls == old(calls) && store.links == old(store.links) &&
                store.notionRequests == old(store.notionRequests) && store.googleRequests == old(store.googleRequests) &&
                store.database == old(store.database) && store.calendars == old(store.calendars)
      ensures old(context.user.value.lastCalendarSync).None? ==>
                old(calls) <= calls <= old(calls) + Connections(PendingCalendars(context.calendars))
    {
      ghost var t := context.trace;
      ghost var plan := PlannedSteps(context.WindowEmpty(), context.user.value.lastCalendarSync.Some?);
      var skip;
      skip, o := StartAndValidate();
      if o.Fail? {
        StepsPrefix(t, plan, 2);
        return;
      }
      o := Continue(skip, now);
      StepsAfter(t, [StartSyncStep, ValidationStep], BranchSteps(skip, context.user.value.lastCalendarSync.Some?), context.trace);
    }

    /**
     * `runSteps` on the calendars `found` for the user: `init` fails, so the
     * steps end there, with the calendars loaded and no step entered.
     */
    method RunSteps(found: seq<Calendar>) returns (o: Outcome<Failure>)
      requires context.user.Some?
      requires UserCalendarRows(found, store.calendars, context.userId)
      modifies context`calendars, context`connectedCalendars, context`writeableCalendars
      ensures context.calendars == found
      ensures o.Fail? && o.error == InitFailure(context.user.value, env)
    {
      o := Init(found);
    }

    /**
     * `runSteps` under `workerExceptionFilter` and the deadline. `timedOut`
     * says whether the deadline passed first, in which case the filter sees
     * a `TimeoutError`; `userWrite` is how the database answers the
     * filter's write of the user row. Either way the filter catches a
     * failure: it unlocks the user and marks the report failed, and only a
     * failing write of the user row escapes.
     */
    method Guarded(found: seq<Calendar>, timedOut: bool, userWrite: Outcome<Failure>)
      returns (o: Outcome<Failure>, ghost caught: Outcome<Failure>)
      requires context.user.Some?
      requires UserCalendarRows(found, store.calendars, context.userId)
      modifies context`result, context`calendars, context`connectedCalendars, context`writeableCalendars, store`users
      ensures context.calendars == found
      ensures caught == Fail(if timedOut then TimeoutError else InitFailure(context.user.value, env))
      ensures userWrite.Fail? ==> o == userWrite && context.result == old(context.result) && store.users == old(store.users)
      ensures userWrite.Pass? ==>
                o == Pass && context.result == ExceptionFilter.Reported(old(context.result), caught.error) &&
                store.users == UpdateRow(old(store.users), context.user.value.id, ExceptionFilter.Unlocked())
    {
      var steps := RunSteps(found);
      var thrown := if timedOut then Fail(TimeoutError) else steps;
      caught := thrown;
      o := ExceptionFilter.WorkerExceptionFilter(context, store, thrown, userWrite);
    }

    /**
     * `run`: the user row is looked up, the run is guarded, and the report
     * is returned with its summary line. The summary line is built after the
     * filter, so it records the failure the filter wrote. With the user
     * found, the report comes back failed at the step it started in, which
     * for a new worker is `init`, and nothing but the user's lock is written.
     */
    method Run(found: seq<Calendar>, timedOut: bool, userWrite: Outcome<Failure>, elapsed: string)
      returns (r: Result<WorkerResult, Failure>, ghost caught: Outcome<Failure>)
      requires UserCalendarRows(found, store.calendars, context.userId)
      modifies context`result, context`user, context`periodStart, context`config, context`calendars,
               context`connectedCalendars, context`writeableCalendars, store`users
      ensures context.userId !in old(store.users) ==>
                r == Err(UserNotFound) && context.result == old(context.result) && store.users == old(store.users)
      ensures context.userId in old(store.users) ==>
                var u := old(store.users)[context.userId];
                context.user == Some(u) &&
                caught == Fail(if timedOut then TimeoutError else InitFailure(u, env)) &&
                (r.Ok? <==> userWrite.Pass?) &&
                (r.Err? ==> r == Err(userWrite.error) && store.users == old(store.users)) &&
                (r.Ok? ==> store.users == UpdateRow(old(store.users), u.id, ExceptionFilter.Unlocked()))
      ensures r.Ok? ==> context.user.Some? && r.value == context.result &&
                        r.value.simpleResponse == SimpleResponse(context.user.value.id, r.value, elapsed)
      ensures r.Ok? ==> r.value.fail && r.value.step == old(context.result).step
      ensures r.Ok? ==> r.value.failReason == if IsSyncError(caught.error) then Some(caught.error.code)
                                               else old(context.result).failReason
      ensures r.Ok? && !timedOut ==>
                (GoogleApi.GetTokens(context.user.value, env).Err? ==>
                 r.value.failReason == Some(GoogleCallbackUrlNotFound)) &&
                (GoogleApi.GetTokens(context.user.value, env).Ok? ==> r.value.failReason == old(context.result).failReason)
    {
      if context.userId !in store.users {
        caught := Pass;
        return Err(UserNotFound), caught;
      }
      var u := store.users[context.userId];
      context.SetUser(u, env, lib);
      var o;
      o, caught := Guarded(found, timedOut, userWrite);
      if o.Fail? {
        return Err(o.error), caught;
      }
      r := context.GetResult(elapsed);
    }
  }
}
