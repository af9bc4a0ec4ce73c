// The Notion side of the engine: the queries it sends to the user's
// database, the page writes with their empty-value defaults, the page
// deletion that tolerates pages already gone, the calendar-option update,
// and `addProp`, which finds a free property name.
module NotionApi {
  import opened Wrappers
  import opened Entities
  import opened Errors
  import opened Requests
  import opened Stores
  import opened Context
  import opened NotionEvents
  import opened PropLookup
  import opened Text
  import NotionErrorFilter
  import Seqs

  /** `props[key]` used as an object key or in a filter: "undefined" when unmapped. */
  function Key(props: NotionProps, key: string): string
  {
    Interpolate(Seqs.Get(props, key))
  }

  /** `s || ''`. */
  function OrEmpty(s: Option<string>): (r: string)
    ensures Truthy(s) ==> r == s.value
    ensures !Truthy(s) ==> r == ""
  {
    if Truthy(s) then s.value else ""
  }

  /** `s || null`. */
  function OrNull(s: Option<string>): (r: Option<string>)
    ensures Truthy(s) ==> r == s
    ensures !Truthy(s) ==> r.None?
  {
    if Truthy(s) then s else None
  }

  /**
   * The properties `createPage` and `updatePage` write: '' for a missing
   * title, description or location, null for a missing link; reading the
   * name of a missing calendar throws.
   */
  function PagePayloadOf(event: NotionEventDto, props: NotionProps): (r: Result<PagePayload, Failure>)
    ensures r.Ok? <==> event.base.calendar.Some?
    ensures r.Err? ==> r.error == TypeError("Cannot read properties of undefined (reading 'googleCalendarName')")
    ensures r.Ok? ==> r.value.title == OrEmpty(event.title) && r.value.description == OrEmpty(event.description)
    ensures r.Ok? ==> r.value.location == OrEmpty(event.location) && r.value.link == OrNull(event.googleCalendarEventLink)
    ensures r.Ok? ==> r.value.calendarName == event.base.calendar.value.googleCalendarName && r.value.date == event.date
  {
    if event.base.calendar.None? then Err(TypeError("Cannot read properties of undefined (reading 'googleCalendarName')"))
    else
      Ok(PagePayload(
        OrEmpty(event.title),
        Key(props, "calendar"), event.base.calendar.value.googleCalendarName,
        Key(props, "date"), event.date,
        Key(props, "link"), OrNull(event.googleCalendarEventLink),
        Key(props, "description"), OrEmpty(event.description),
        Key(props, "location"), OrEmpty(event.location)))
  }

  // ---- getCalendarByPageObject ----

  /** The select name of the page's calendar property, read through whatever the lookup found. */
  function SelectedName(page: NotionPage, propId: Option<string>): (r: Result<string, Failure>)
    ensures r.Ok? ==> exists k :: FirstPagePropWithId(page.properties, propId) == Some(k) &&
                                  page.properties[k].value == SelectValue(Some(r.value))
    ensures FirstPagePropWithId(page.properties, propId).None? ==>
              r == Err(TypeError("Cannot read properties of undefined (reading 'select')"))
    ensures FirstPagePropWithId(page.properties, propId).Some? &&
            page.properties[FirstPagePropWithId(page.properties, propId).value].value == SelectValue(None) ==>
              r == Err(TypeError("Cannot read properties of null (reading 'name')"))
    ensures FirstPagePropWithId(page.properties, propId).Some? &&
            !page.properties[FirstPagePropWithId(page.properties, propId).value].value.SelectValue? ==>
              r == Err(TypeError("Cannot read properties of undefined (reading 'name')"))
  {
    match FirstPagePropWithId(page.properties, propId)
    case None => Err(TypeError("Cannot read properties of undefined (reading 'select')"))
    case Some(k) =>
      match page.properties[k].value
      case SelectValue(Some(n)) => Ok(n)
      case SelectValue(None) => Err(TypeError("Cannot read properties of null (reading 'name')"))
      case _ => Err(TypeError("Cannot read properties of undefined (reading 'name')"))
  }

  /**
   * `getCalendarByPageObject`: the first calendar named like the page's
   * calendar option. The option is read inside the `find` callback, so with
   * no calendars it is never read and nothing is found.
   */
  function CalendarByPageObject(calendars: seq<Calendar>, page: NotionPage, props: NotionProps): (r: Result<Option<Calendar>, Failure>)
    ensures |calendars| == 0 ==> r == Ok(None)
    ensures |calendars| > 0 ==> (r.Ok? <==> SelectedName(page, Seqs.Get(props, "calendar")).Ok?)
    ensures r.Err? ==> |calendars| > 0 && r.error == SelectedName(page, Seqs.Get(props, "calendar")).error
    ensures r.Ok? && r.value.Some? ==>
              SelectedName(page, Seqs.Get(props, "calendar")).Ok? &&
              exists k :: 0 <= k < |calendars| && calendars[k] == r.value.value &&
                          calendars[k].googleCalendarName == SelectedName(page, Seqs.Get(props, "calendar")).value &&
                          forall j :: 0 <= j < k ==> calendars[j].googleCalendarName != calendars[k].googleCalendarName
    ensures r.Ok? && r.value.None? && |calendars| > 0 ==>
              SelectedName(page, Seqs.Get(props, "calendar")).Ok? &&
              forall c :: c in calendars ==> c.googleCalendarName != SelectedName(page, Seqs.Get(props, "calendar")).value
  {
    if |calendars| == 0 then Ok(None)
    else
      var name :- SelectedName(page, Seqs.Get(props, "calendar"));
      match Seqs.FindIndex(calendars, (c: Calendar) => c.googleCalendarName == name)
      case None => Ok(None)
      case Some(k) => Ok(Some(calendars[k]))
  }

  /** One page of a query answer, with the calendar it names. */
  function ConvertPage(page: NotionPage, calendars: seq<Calendar>, props: NotionProps): (r: Result<NotionEventDto, Failure>)
    ensures CalendarByPageObject(calendars, page, props).Err? ==> r == Err(CalendarByPageObject(calendars, page, props).error)
    ensures |calendars| == 0 ==> r == FromNotionEvent(page, None, props)
    ensures r.Ok? ==> r.value.base.originalNotionEvent == Some(page) && r.value.base.notionPageId == None
    ensures r.Ok? ==> r.value.base.calendar == CalendarByPageObject(calendars, page, props).value
  {
    var calendar :- CalendarByPageObject(calendars, page, props);
    FromNotionEvent(page, calendar, props)
  }

  /**
   * The `map` that turns query results into events: order and length are
   * kept, and the first page that cannot be read decides the error.
   */
  function ConvertPages(pages: seq<NotionPage>, calendars: seq<Calendar>, props: NotionProps): (r: Result<seq<NotionEventDto>, Failure>)
    ensures r.Ok? <==> forall k :: 0 <= k < |pages| ==> ConvertPage(pages[k], calendars, props).Ok?
    ensures r.Ok? ==> |r.value| == |pages| && forall k :: 0 <= k < |pages| ==> r.value[k].base.originalNotionEvent == Some(pages[k])
    ensures r.Ok? ==> forall k :: 0 <= k < |r.value| ==> r.value[k].base.notionPageId == None
  {
    Seqs.MapResult(pages, (p: NotionPage) => ConvertPage(p, calendars, props))
  }

  // ---- queries ----

  function CalendarNames(cs: seq<Calendar>): (r: seq<string>)
    ensures |r| == |cs| && forall k :: 0 <= k < |cs| ==> r[k] == cs[k].googleCalendarName
  {
    seq(|cs|, (k: int) requires 0 <= k < |cs| => cs[k].googleCalendarName)
  }

  /** `getDeletedPages`: the pages the deleted-pages query returns, converted. */
  function GetDeletedPages(ctx: WorkContext, remote: Remote): (r: Result<seq<NotionEventDto>, Failure>)
    requires ctx.user.Some? && ctx.config.Some?
    reads ctx`user, ctx`config, ctx`writeableCalendars, ctx`calendars
    ensures r.Ok? ==> |r.value| == |remote.queryDatabase(DeletedPagesQuery(
              Key(ctx.user.value.notionProps, "delete"), Key(ctx.user.value.notionProps, "calendar"),
              Key(ctx.user.value.notionProps, "date"), ctx.config.value.timeMin, ctx.config.value.timeMax,
              CalendarNames(ctx.writeableCalendars)))|
  {
    var props := ctx.user.value.notionProps;
    var query := DeletedPagesQuery(Key(props, "delete"), Key(props, "calendar"), Key(props, "date"),
                                   ctx.config.value.timeMin, ctx.config.value.timeMax,
                                   CalendarNames(ctx.writeableCalendars));
    ConvertPages(remote.queryDatabase(query), ctx.calendars, props)
  }

  /** The pages a query result keeps: those edited strictly before the end of the window. */
  function EditedBefore(pages: seq<NotionPage>, end: int): (r: seq<NotionPage>)
    ensures forall p :: p in r <==> p in pages && p.lastEditedTime < end
  {
    Seqs.Filter(pages, (p: NotionPage) => p.lastEditedTime < end)
  }

  /**
   * `getUpdatedPages`: an invalid window start cannot be written into the
   * query; the answer is cut at the end of the window and converted.
   */
  function GetUpdatedPages(ctx: WorkContext, remote: Remote): (r: Result<seq<NotionEventDto>, Failure>)
    requires ctx.user.Some? && ctx.config.Some?
    reads ctx`user, ctx`config, ctx`periodStart, ctx`writeableCalendars, ctx`calendars
    ensures ctx.periodStart.None? ==> r == Err(RangeError("Invalid time value"))
    ensures r.Ok? ==> forall k :: 0 <= k < |r.value| ==>
              r.value[k].base.originalNotionEvent.Some? &&
              r.value[k].base.originalNotionEvent.value.lastEditedTime < ctx.periodEnd &&
              r.value[k].base.notionPageId == None
  {
    if ctx.periodStart.None? then Err(RangeError("Invalid time value"))
    else
      var props := ctx.user.value.notionProps;
      var query := UpdatedPagesQuery(Key(props, "calendar"), Key(props, "date"),
                                     ctx.config.value.timeMin, ctx.config.value.timeMax,
                                     CalendarNames(ctx.writeableCalendars), Key(props, "last_edited_by"),
                                     ctx.periodStart.value, ctx.periodEnd);
      ConvertEditedBefore(remote.queryDatabase(query), ctx.periodEnd, ctx.calendars, props)
  }

  /** Converting pages keeps each event's page, so a bound on the pages' edit times carries over. */
  lemma ConvertedEditedBefore(kept: seq<NotionPage>, end: int, calendars: seq<Calendar>, props: NotionProps)
    requires forall k :: 0 <= k < |kept| ==> kept[k].lastEditedTime < end
    ensures var r := ConvertPages(kept, calendars, props);
            r.Ok? ==> forall k :: 0 <= k < |r.value| ==>
              r.value[k].base.originalNotionEvent.Some? && r.value[k].base.originalNotionEvent.value.lastEditedTime < end &&
              r.value[k].base.notionPageId == None
  {
  }

  /** The answer of the updated-pages query, cut at the end of the window and converted. */
  function ConvertEditedBefore(pages: seq<NotionPage>, end: int, calendars: seq<Calendar>, props: NotionProps)
    : (r: Result<seq<NotionEventDto>, Failure>)
    ensures r.Ok? ==> forall k :: 0 <= k < |r.value| ==>
              r.value[k].base.originalNotionEvent.Some? && r.value[k].base.originalNotionEvent.value.lastEditedTime < end &&
              r.value[k].base.notionPageId == None
  {
    var kept := EditedBefore(pages, end);
    assert forall k :: 0 <= k < |kept| ==> kept[k].lastEditedTime < end by {
      forall k | 0 <= k < |kept| ensures kept[k].lastEditedTime < end {
        assert kept[k] in kept;
      }
    }
    ConvertedEditedBefore(kept, end, calendars, props);
    ConvertPages(kept, calendars, props)
  }

  // ---- deletePage ----

  /** The message of an error, where the error kind has one. */
  function MessageOf(f: Failure): Option<string>
  {
    match f
    case NotionResponseError(_, m) => Some(m)
    case TypeError(m) => Some(m)
    case PlainError(m) => Some(m)
    case RangeError(m) => Some(m)
    case _ => None
  }

  /**
   * What `deletePage` makes of the archive call: an already archived page
   * or a 404 counts as done; anything else goes through the error filter
   * with the two ignore rules in front.
   */
  function DeletePageOutcome(raw: Outcome<Failure>): (o: Outcome<Failure>)
  {
    match raw
    case Pass => Pass
    case Fail(e) =>
      if MessageOf(e) == Some(NotionErrorFilter.ArchivedPageMessage) then Pass
      else if e.NotionResponseError? && e.status == 404 then Pass
      else
        match NotionErrorFilter.Filter<bool>(Err(e), NotionErrorFilter.PageTarget, NotionErrorFilter.IgnoreRules)
        case Returned(_) => Pass
        case Swallowed => Pass
        case Thrown(f) => Fail(f)
  }

  /**
   * deletePage succeeds exactly on success, an archived page or a 404;
   * another Notion error is thrown with the page code the base rules give
   * it, and any other error is rethrown unchanged.
   */
  lemma DeletePageSwallows(raw: Outcome<Failure>)
    ensures DeletePageOutcome(raw).Pass? <==>
              raw.Pass? || MessageOf(raw.error) == Some(NotionErrorFilter.ArchivedPageMessage) ||
              (raw.error.NotionResponseError? && raw.error.status == 404)
    ensures raw.Fail? && raw.error.NotionResponseError? && raw.error.status != 404 &&
            raw.error.message != NotionErrorFilter.ArchivedPageMessage ==>
              DeletePageOutcome(raw) == Fail(NotionApiFailure(NotionErrorFilter.BaseCode(raw.error.status, NotionErrorFilter.PageTarget)))
    ensures raw.Fail? && !raw.error.NotionResponseError? && MessageOf(raw.error) != Some(NotionErrorFilter.ArchivedPageMessage) ==>
              DeletePageOutcome(raw) == raw
  {
    if raw.Fail? && raw.error.NotionResponseError? && raw.error.status != 404 &&
       raw.error.message != NotionErrorFilter.ArchivedPageMessage {
      NotionErrorFilter.IgnoreRulesOtherwiseBase<bool>(raw.error.status, raw.error.message, NotionErrorFilter.PageTarget);
    }
  }

  /** `deletePage`: the archive request is sent; its failure is filtered. */
  method DeletePage(store: Store, pageId: Option<string>) returns (o: Outcome<Failure>)
    modifies store`notionRequests
    ensures store.notionRequests == old(store.notionRequests) + [ArchivePage(pageId)]
    ensures o == DeletePageOutcome(store.remote.archiveResult(pageId))
  {
    store.notionRequests := store.notionRequests + [ArchivePage(pageId)];
    o := DeletePageOutcome(store.remote.archiveResult(pageId));
  }

  // ---- database writes ----

  /** The options as stored: an option sent without id gets the one Notion assigns. */
  function AssignOptionIds(options: seq<CalendarOption>, newId: string -> string): (r: seq<SelectOption>)
    ensures |r| == |options|
    ensures forall k :: 0 <= k < |options| ==> r[k].name == options[k].name
    ensures forall k :: 0 <= k < |options| && options[k].id.Some? ==> r[k].id == options[k].id.value
  {
    seq(|options|, (k: int) requires 0 <= k < |options| =>
      SelectOption(options[k].id.UnwrapOr(newId(options[k].name)), options[k].name))
  }

  /** The schema after the select property with that id gets new options. */
  function WithOptions(db: seq<DatabaseProperty>, propId: string, options: seq<SelectOption>): (r: seq<DatabaseProperty>)
    ensures |r| == |db|
    ensures forall k :: 0 <= k < |db| ==> r[k] == if db[k].id == propId then db[k].(options := options) else db[k]
  {
    seq(|db|, (k: int) requires 0 <= k < |db| => if db[k].id == propId then db[k].(options := options) else db[k])
  }

  /** `updateCalendarOptions`: the calendar property's options are replaced by the given list. */
  method UpdateCalendarOptions(ctx: WorkContext, store: Store, options: seq<CalendarOption>) returns (db: seq<DatabaseProperty>)
    requires ctx.user.Some?
    modifies store`notionRequests, store`database
    ensures store.notionRequests ==
              old(store.notionRequests) + [NotionRequest.UpdateCalendarOptions(Key(ctx.user.value.notionProps, "calendar"), options)]
    ensures store.database == WithOptions(old(store.database), Key(ctx.user.value.notionProps, "calendar"),
                                          AssignOptionIds(options, store.remote.newOptionId))
    ensures db == store.database
  {
    var key := Key(ctx.user.value.notionProps, "calendar");
    store.notionRequests := store.notionRequests + [NotionRequest.UpdateCalendarOptions(key, options)];
    store.database := WithOptions(store.database, key, AssignOptionIds(options, store.remote.newOptionId));
    db := store.database;
  }

  /** `createPage`: the page is written and read back with the event's calendar. */
  method CreatePage(ctx: WorkContext, store: Store, event: NotionEventDto) returns (r: Result<NotionEventDto, Failure>)
    requires ctx.user.Some?
    modifies store`notionRequests
    ensures PagePayloadOf(event, ctx.user.value.notionProps).Err? ==>
              r == Err(PagePayloadOf(event, ctx.user.value.notionProps).error) && store.notionRequests == old(store.notionRequests)
    ensures PagePayloadOf(event, ctx.user.value.notionProps).Ok? ==>
              var payload := PagePayloadOf(event, ctx.user.value.notionProps).value;
              store.notionRequests == old(store.notionRequests) + [NotionRequest.CreatePage(payload)] &&
              r == FromNotionEvent(store.remote.createdPage(payload), event.base.calendar, ctx.user.value.notionProps)
  {
    var props := ctx.user.value.notionProps;
    var payload := PagePayloadOf(event, props);
    if payload.Err? {
      return Err(payload.error);
    }
    store.notionRequests := store.notionRequests + [NotionRequest.CreatePage(payload.value)];
    r := FromNotionEvent(store.remote.createdPage(payload.value), event.base.calendar, props);
  }

  /** `updatePage`: the page named by the event's page id is rewritten and read back. */
  method UpdatePage(ctx: WorkContext, store: Store, event: NotionEventDto) returns (r: Result<NotionEventDto, Failure>)
    requires ctx.user.Some?
    modifies store`notionRequests
    ensures PagePayloadOf(event, ctx.user.value.notionProps).Err? ==>
              r == Err(PagePayloadOf(event, ctx.user.value.notionProps).error) && store.notionRequests == old(store.notionRequests)
    ensures PagePayloadOf(event, ctx.user.value.notionProps).Ok? ==>
              var payload := PagePayloadOf(event, ctx.user.value.notionProps).value;
              store.notionRequests == old(store.notionRequests) + [NotionRequest.UpdatePage(event.base.notionPageId, payload)] &&
              r == FromNotionEvent(store.remote.updatedPage(event.base.notionPageId, payload), event.base.calendar,
                                   ctx.user.value.notionProps)
  {
    var props := ctx.user.value.notionProps;
    var payload := PagePayloadOf(event, props);
    if payload.Err? {
      return Err(payload.error);
    }
    store.notionRequests := store.notionRequests + [NotionRequest.UpdatePage(event.base.notionPageId, payload.value)];
    r := FromNotionEvent(store.remote.updatedPage(event.base.notionPageId, payload.value), event.base.calendar, props);
  }

  // ---- addProp ----

  /** The names tried before `name (i)`: `name` and `name (1)` .. `name (i-1)`. */
  ghost function Tried(name: string, i: nat): set<string>
    requires i >= 1
  {
    if i == 1 then {name} else Tried(name, i - 1) + {Suffixed(name, i - 1)}
  }

  /** No later suffix has been tried yet. */
  lemma {:induction false} TriedFresh(name: string, i: nat)
    requires i >= 1
    ensures forall k :: k >= i ==> Suffixed(name, k) !in Tried(name, i)
  {
    if i == 1 {
      forall k | k >= 1 ensures Suffixed(name, k) != name {
        assert |Suffixed(name, k)| > |name|;
      }
    } else {
      TriedFresh(name, i - 1);
      forall k | k >= i ensures Suffixed(name, k) != Suffixed(name, i - 1) {
        if Suffixed(name, k) == Suffixed(name, i - 1) { SuffixedInjective(name, k, i - 1); }
      }
    }
  }

  /** Every try is a new name, so `i` names have been tried. */
  lemma {:induction false} TriedCard(name: string, i: nat)
    requires i >= 1
    ensures |Tried(name, i)| == i
  {
    if i > 1 {
      TriedCard(name, i - 1);
      TriedFresh(name, i - 1);
    }
  }

  lemma {:induction false} TriedHas(name: string, i: nat)
    requires i >= 1
    ensures forall j :: 1 <= j < i ==> Suffixed(name, j) in Tried(name, i)
  {
    if i > 1 {
      TriedHas(name, i - 1);
    }
  }

  lemma SubsetCard<T>(a: set<T>, b: set<T>)
    requires a <= b
    ensures |a| <= |b|
  {
    assert b == a + (b - a);
  }

  /** A taken candidate: all `i` names tried so far are taken, and the next try adds one name. */
  lemma TriedStep(names: set<string>, name: string, i: nat, n: string)
    requires i >= 1 && Tried(name, i) - {n} <= names && n in names
    ensures i <= |names|
    ensures Tried(name, i + 1) - {Suffixed(name, i)} == Tried(name, i)
  {
    TriedCard(name, i);
    TriedFresh(name, i);
    SubsetCard(Tried(name, i), names);
  }

  /** When `name (i-1)` is the first free candidate, every earlier suffix is taken. */
  lemma EarlierSuffixesTaken(names: set<string>, name: string, i: nat)
    requires i > 1 && Tried(name, i) - {Suffixed(name, i - 1)} <= names
    ensures forall j :: 1 <= j < i - 1 ==> Suffixed(name, j) in names
  {
    TriedHas(name, i);
    forall j | 1 <= j < i - 1 ensures Suffixed(name, j) in names {
      if Suffixed(name, j) == Suffixed(name, i - 1) { SuffixedInjective(name, j, i - 1); }
    }
  }

  /**
   * The loop of `addProp`: the first of `name`, `name (1)`, `name (2)`, ...
   * that no property of the schema has.
   */
  method FirstFreeName(db: seq<DatabaseProperty>, name: string) returns (n: string)
    ensures n !in PropertyNames(db)
    ensures name !in PropertyNames(db) ==> n == name
    ensures name in PropertyNames(db) ==>
              exists i :: i >= 1 && n == Suffixed(name, i) &&
                          forall j :: 1 <= j < i ==> Suffixed(name, j) in PropertyNames(db)
  {
    ghost var names := PropertyNames(db);
    n := name;
    var i := 1;
    while PropertyNamed(db, n).Some?
      invariant i >= 1
      invariant i == 1 ==> n == name
      invariant i > 1 ==> n == Suffixed(name, i - 1)
      invariant name !in names ==> i == 1
      invariant Tried(name, i) - {n} <= names
      decreases |names| + 1 - i
    {
      TriedStep(names, name, i, n);
      n := Suffixed(name, i);
      i := i + 1;
    }
    if name in names {
      EarlierSuffixesTaken(names, name, i);
    }
  }

  /**
   * `addProp(name, type)`. A property already named `name` with that type is
   * returned as it is. Otherwise the first free name is created and the
   * property then found under the original `name` is returned.
   */
  method AddProp(store: Store, name: string, t: PropType) returns (prop: DatabaseProperty, created: Option<string>)
    modifies store`notionRequests, store`database
    ensures var existing := PropertyNamed(old(store.database), name);
            existing.Some? && existing.value.propType == t ==>
              prop == existing.value && created.None? &&
              store.database == old(store.database) && store.notionRequests == old(store.notionRequests)
    ensures var existing := PropertyNamed(old(store.database), name);
            !(existing.Some? && existing.value.propType == t) ==>
              created.Some? && created.value !in PropertyNames(old(store.database)) &&
              store.database == old(store.database) +
                                [DatabaseProperty(created.value, store.remote.newPropertyId(created.value), t, [])] &&
              store.notionRequests == old(store.notionRequests) + [AddProperty(created.value, t)] &&
              Some(prop) == PropertyNamed(store.database, name)
    ensures PropertyNamed(old(store.database), name).None? ==> created == Some(name)
    ensures PropertyNamed(old(store.database), name).Some? && created.Some? ==>
              exists i :: i >= 1 && created.value == Suffixed(name, i) &&
                          forall j :: 1 <= j < i ==> Suffixed(name, j) in PropertyNames(old(store.database))
    ensures PropertyNamed(store.database, name) == Some(prop) && prop.name == name
    ensures old(store.database) <= store.database
  {
    var db := store.database;
    var existing := PropertyNamed(db, name);
    if existing.Some? && existing.value.propType == t {
      return existing.value, None;
    }
    var n := FirstFreeName(db, name);
    var added := DatabaseProperty(n, store.remote.newPropertyId(n), t, []);
    store.notionRequests := store.notionRequests + [AddProperty(n, t)];
    store.database := db + [added];
    Seqs.FindAppend(db, [added], (p: DatabaseProperty) => p.name == name);
    var found := PropertyNamed(store.database, name);
    assert found.Some?;
    return found.value, Some(n);
  }

  /**
   * On a name clash addProp creates a renamed property but hands back the
   * existing one, whose type is not the one asked for.
   */
  lemma AddPropReturnsOriginal(db: seq<DatabaseProperty>, name: string, t: PropType, added: DatabaseProperty)
    requires PropertyNamed(db, name).Some? && PropertyNamed(db, name).value.propType != t
    ensures PropertyNamed(db + [added], name) == PropertyNamed(db, name)
    ensures PropertyNamed(db + [added], name).value.propType != t
  {
    Seqs.FindAppend(db, [added], (p: DatabaseProperty) => p.name == name);
  }
}
